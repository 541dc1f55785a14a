/** gtvalues2plink.py: converts a GATK VariantsToTable report, whose columns are
    CHROM, POS and, per sample, GT, GQ, RGQ and DP, into a PLINK `.ped`/`.map`
    pair, keeping a genotype call only when its quality values pass the
    thresholds given on the command line. Lines arrive already split at
    whitespace; the files themselves are not modelled, only their lines. */
module GtValues2Plink {
  import opened Results
  import opened Text

  /** One line of the report, split at whitespace. */
  type Line = seq<string>

  // ---------------------------------------------------------------------------
  // Thresholds (lines 29-30)

  /** The values of -minGQ, -minRGQ and -minDP; None where a flag is not given. */
  datatype Thresholds = Thresholds(minGQ: Option<int>, minRGQ: Option<int>, minDP: Option<int>)

  /** Python truthiness of an optional int: None and 0 are both false. */
  predicate Truthy(v: Option<int>)
  {
    v.Some? && v.value != 0
  }

  /** The configuration error is raised exactly when one of minGQ and minRGQ is
      truthy and the other is not; a value of 0 counts as not given. */
  function CheckThresholds(t: Thresholds): (r: Result<Thresholds>)
    ensures r.Err? <==> Truthy(t.minGQ) != Truthy(t.minRGQ)
    ensures r.Err? ==> r.error == ConfigError
    ensures r.Ok? ==> r.value == t
  {
    if (Truthy(t.minGQ) && !Truthy(t.minRGQ)) || (!Truthy(t.minGQ) && Truthy(t.minRGQ)) then Err(ConfigError)
    else Ok(t)
  }

  // ---------------------------------------------------------------------------
  // Output file names (lines 33-36, 39-40)

  /** `path[:-7]`: the path less its last seven characters, or "" when it is shorter. */
  function OutputBase(path: string): (r: string)
    ensures |r| == if |path| >= 7 then |path| - 7 else 0
    ensures r == path[..|r|]
  {
    if |path| >= 7 then path[..|path| - 7] else ""
  }

  /** `str(v)` of an optional int. */
  function ValueText(v: Option<int>): string
  {
    match v
    case None => "None"
    case Some(n) => IntToString(n)
  }

  /** `'minGQ<v>-minRGQ<v>-minDP<v>'` */
  function ParamTag(t: Thresholds): string
  {
    "minGQ" + ValueText(t.minGQ) + "-minRGQ" + ValueText(t.minRGQ) + "-minDP" + ValueText(t.minDP)
  }

  /** The `.ped` and `.map` file names the script writes. */
  function OutputNames(path: string, t: Thresholds): (string, string)
  {
    (OutputBase(path) + "_" + ParamTag(t) + ".ped", OutputBase(path) + "_" + ParamTag(t) + ".map")
  }

  lemma ValueTextHasNoM(v: Option<int>)
    ensures 'm' !in ValueText(v)
  {
    if v.Some? {
      var n := v.value;
      var digits := NatToString(if n < 0 then -n else n);
      assert forall k :: 0 <= k < |digits| ==> IsDigit(digits[k]);
      if n < 0 {
        assert ValueText(v) == "-" + digits;
      }
    }
  }

  /** `int()` reads back what ValueText writes, and "None" reads as no number. */
  lemma ValueTextParses(v: Option<int>)
    ensures ParseInt(ValueText(v)) == v
  {
    if v.None? {
      assert !IsDigit('N');
    }
  }

  lemma ValueTextInjective(v1: Option<int>, v2: Option<int>)
    requires ValueText(v1) == ValueText(v2)
    ensures v1 == v2
  {
    ValueTextParses(v1);
    ValueTextParses(v2);
  }

  /** Two strings without 'm', each followed by "-m", split a string the same way. */
  lemma SplitBeforeDashM(a1: string, r1: string, a2: string, r2: string)
    requires 'm' !in a1 && 'm' !in a2
    requires a1 + "-m" + r1 == a2 + "-m" + r2
    ensures a1 == a2 && r1 == r2
  {
    var s := a1 + "-m" + r1;
    assert s[|a1| + 1] == 'm';
    assert (a2 + "-m" + r2)[|a2| + 1] == 'm';
    assert a1 == s[..|a1|] && a2 == s[..|a2|];
    assert r1 == s[|a1| + 2..] && r2 == s[|a2| + 2..];
  }

  lemma DropPrefix(p: string, x: string, y: string)
    requires p + x == p + y
    ensures x == y
  {
    assert x == (p + x)[|p|..];
    assert y == (p + y)[|p|..];
  }

  /** The tag, regrouped around the two "-m" that separate its values. */
  lemma ParamTagParts(t: Thresholds)
    ensures ParamTag(t) ==
      "minGQ" + (ValueText(t.minGQ) + "-m" + ("inRGQ" + (ValueText(t.minRGQ) + "-m" + ("inDP" + ValueText(t.minDP)))))
  {
    var gq, rgq, dp := ValueText(t.minGQ), ValueText(t.minRGQ), ValueText(t.minDP);
    assert "-minRGQ" == "-m" + "inRGQ";
    assert "-minDP" == "-m" + "inDP";
    calc {
      ParamTag(t);
      "minGQ" + gq + "-minRGQ" + rgq + "-minDP" + dp;
      "minGQ" + gq + ("-m" + "inRGQ") + rgq + ("-m" + "inDP") + dp;
      { ConcatEight("minGQ", gq, "-m", "inRGQ", rgq, "-m", "inDP", dp); }
      "minGQ" + (gq + "-m" + ("inRGQ" + (rgq + "-m" + ("inDP" + dp))));
    }
  }

  /** Regrouping a concatenation of eight strings. */
  lemma ConcatEight(a: string, b: string, c: string, d: string, e: string, f: string, g: string, h: string)
    ensures a + b + (c + d) + e + (f + g) + h == a + (b + c + (d + (e + f + (g + h))))
  {
  }

  /** Different threshold settings never share an output file name tag. */
  lemma ParamTagInjective(t1: Thresholds, t2: Thresholds)
    requires ParamTag(t1) == ParamTag(t2)
    ensures t1 == t2
  {
    var gq1, rgq1, dp1 := ValueText(t1.minGQ), ValueText(t1.minRGQ), ValueText(t1.minDP);
    var gq2, rgq2, dp2 := ValueText(t2.minGQ), ValueText(t2.minRGQ), ValueText(t2.minDP);
    ValueTextHasNoM(t1.minGQ); ValueTextHasNoM(t2.minGQ);
    ValueTextHasNoM(t1.minRGQ); ValueTextHasNoM(t2.minRGQ);
    var d1, d2 := "inDP" + dp1, "inDP" + dp2;
    var c1, c2 := rgq1 + "-m" + d1, rgq2 + "-m" + d2;
    var b1, b2 := "inRGQ" + c1, "inRGQ" + c2;
    ParamTagParts(t1);
    ParamTagParts(t2);
    DropPrefix("minGQ", gq1 + "-m" + b1, gq2 + "-m" + b2);
    SplitBeforeDashM(gq1, b1, gq2, b2);
    DropPrefix("inRGQ", c1, c2);
    SplitBeforeDashM(rgq1, d1, rgq2, d2);
    DropPrefix("inDP", dp1, dp2);
    ValueTextInjective(t1.minGQ, t2.minGQ);
    ValueTextInjective(t1.minRGQ, t2.minRGQ);
    ValueTextInjective(t1.minDP, t2.minDP);
  }

  // ---------------------------------------------------------------------------
  // The header row (lines 50-54)

  /** `header.split('/')[-1].split('.')[0]` */
  function SampleName(header: string): string
  {
    var pieces := Split(header, '/');
    Split(pieces[|pieces| - 1], '.')[0]
  }

  /** Where the text after the last '/' of a header starts. */
  function NameStart(header: string): nat
  {
    var pieces := Split(header, '/');
    LastPiece(header, '/');
    |header| - |pieces[|pieces| - 1]|
  }

  /** A sample name is the text after the last '/' of its header and before the
      first '.' after that: it starts at the beginning or just after a '/', holds
      neither '/' nor '.', and ends at the end of the header or at a '.'. */
  lemma SampleNameShape(header: string)
    ensures var name, i := SampleName(header), NameStart(header);
      && i + |name| <= |header| && name == header[i..i + |name|]
      && (i == 0 || header[i - 1] == '/')
      && '/' !in header[i..]
      && '.' !in name
      && (i + |name| == |header| || header[i + |name|] == '.')
  {
    var pieces := Split(header, '/');
    var last := pieces[|pieces| - 1];
    LastPiece(header, '/');
    FirstPiece(last, '.');
    var i := NameStart(header);
    assert last == header[i..];
    assert SampleName(header) == Split(last, '.')[0];
  }

  /** The sample names of a header row, from its fields 2, 6, 10, ... */
  function HeaderSamples(line: Line): (r: seq<string>)
    ensures forall k :: 0 <= k < |r| ==> 2 + 4 * k < |line| && r[k] == SampleName(line[2 + 4 * k])
    ensures 2 + 4 * |r| >= |line|
  {
    var headers := Stride(line, 2, 4);
    StrideAll(line, 2, 4);
    seq(|headers|, k requires 0 <= k < |headers| => SampleName(headers[k]))
  }

  method AppendHeaderSamples(sampleList: seq<string>, line: Line) returns (r: seq<string>)
    ensures r == sampleList + HeaderSamples(line)
  {
    var headers := Stride(line, 2, 4);
    r := sampleList;
    var k := 0;
    while k < |headers|
      invariant 0 <= k <= |headers| == |HeaderSamples(line)|
      invariant r == sampleList + HeaderSamples(line)[..k]
    {
      r := r + [SampleName(headers[k])];
      k := k + 1;
    }
    assert HeaderSamples(line)[..k] == HeaderSamples(line);
  }

  // ---------------------------------------------------------------------------
  // The map record of a data row (lines 56-59)

  /** A `.map` record: chromosome, SNP name, genetic distance, position. */
  datatype MapRecord = MapRecord(chrom: string, name: string, distance: string, pos: string)

  /** The characters `str.strip('chr')` removes. */
  const ChrChars: set<char> := {'c', 'h', 'r'}

  /** The chromosome loses every leading and trailing 'c', 'h' and 'r'; the name
      keeps the chromosome as written; the distance is "0". */
  function MapRecordOf(chrom: string, pos: string): (r: MapRecord)
    ensures r.name == chrom + "." + pos && r.distance == "0" && r.pos == pos
    ensures r.chrom == Strip(chrom, ChrChars)
  {
    MapRecord(Strip(chrom, ChrChars), chrom + "." + pos, "0", pos)
  }

  // ---------------------------------------------------------------------------
  // The values of one call (lines 61-72)

  /** What the report says of one sample at one row: the genotype, GQ, RGQ and DP,
      each None where the report has "./." (GT) or "NA" (the others). */
  datatype Call = Call(gt: Option<string>, gq: Option<int>, rgq: Option<int>, dp: Option<int>)

  function ParseGenotype(token: string): Option<string>
  {
    if token == "./." then None else Some(token)
  }

  /** `int(token) if token != 'NA' else None`; ValueError when int() refuses it. */
  function ParseQuality(token: string): (r: Result<Option<int>>)
    ensures r.Err? ==> r.error == ValueError
    ensures r.Err? <==> token != "NA" && ParseInt(token).None?
    ensures r.Ok? ==> r.value == if token == "NA" then None else ParseInt(token)
  {
    if token == "NA" then Ok(None)
    else match ParseInt(token)
      case None => Err(ValueError)
      case Some(n) => Ok(Some(n))
  }

  /** What `str(n)` writes, ParseQuality reads back. */
  lemma ParseQualityRoundTrip(n: int)
    ensures ParseQuality(IntToString(n)) == Ok(Some(n))
  {
    assert IntToString(n) != "NA" by {
      assert ParseInt(IntToString(n)) == Some(n);
      assert ParseInt("NA") == None;
    }
  }

  /** Sample s of a data row: columns 4s+2 to 4s+5. */
  function ParseCall(line: Line, s: nat): (r: Result<Call>)
    ensures |line| <= 4 * s + 5 ==> r == Err(IndexError)
    ensures |line| > 4 * s + 5 ==>
      (r.Ok? <==> ParseQuality(line[4 * s + 3]).Ok? && ParseQuality(line[4 * s + 4]).Ok? && ParseQuality(line[4 * s + 5]).Ok?)
    ensures r.Err? && |line| > 4 * s + 5 ==> r.error == ValueError
    ensures r.Ok? ==>
      && r.value.gt == (if line[4 * s + 2] == "./." then None else Some(line[4 * s + 2]))
      && r.value.gq == ParseQuality(line[4 * s + 3]).value
      && r.value.rgq == ParseQuality(line[4 * s + 4]).value
      && r.value.dp == ParseQuality(line[4 * s + 5]).value
  {
    if |line| <= 4 * s + 5 then Err(IndexError)
    else
      var gt, gq, rgq, dp := line[4 * s + 2], line[4 * s + 3], line[4 * s + 4], line[4 * s + 5];
      match ParseQuality(gq)
      case Err(e) => Err(e)
      case Ok(q) =>
        match ParseQuality(rgq)
        case Err(e) => Err(e)
        case Ok(rq) =>
          match ParseQuality(dp)
          case Err(e) => Err(e)
          case Ok(d) => Ok(Call(ParseGenotype(gt), q, rq, d))
  }

  /** `values_dict` once the samples s.. are still to be read into acc. */
  function ValuesFrom(samples: seq<string>, line: Line, s: nat, acc: map<string, Call>): Result<map<string, Call>>
    decreases |samples| - s
  {
    if s >= |samples| then Ok(acc)
    else
      match ParseCall(line, s)
      case Err(e) => Err(e)
      case Ok(c) => ValuesFrom(samples, line, s + 1, acc[samples[s] := c])
  }

  function RowValues(samples: seq<string>, line: Line): Result<map<string, Call>>
  {
    ValuesFrom(samples, line, 0, map[])
  }

  lemma {:induction false} ValuesFromSucceeds(samples: seq<string>, line: Line, s: nat, acc: map<string, Call>)
    requires s <= |samples|
    ensures ValuesFrom(samples, line, s, acc).Ok? <==> forall q :: s <= q < |samples| ==> ParseCall(line, q).Ok?
    decreases |samples| - s
  {
    if s < |samples| && ParseCall(line, s).Ok? {
      ValuesFromSucceeds(samples, line, s + 1, acc[samples[s] := ParseCall(line, s).value]);
    }
  }

  lemma {:induction false} ValuesFromKeys(samples: seq<string>, line: Line, s: nat, acc: map<string, Call>)
    requires s <= |samples|
    ensures ValuesFrom(samples, line, s, acc).Ok? ==>
      var m := ValuesFrom(samples, line, s, acc).value;
      (forall k :: k in acc ==> k in m) && (forall q :: s <= q < |samples| ==> samples[q] in m)
    decreases |samples| - s
  {
    if s < |samples| && ParseCall(line, s).Ok? {
      ValuesFromKeys(samples, line, s + 1, acc[samples[s] := ParseCall(line, s).value]);
    }
  }

  lemma {:induction false} ValuesFromEntries(samples: seq<string>, line: Line, s: nat, acc: map<string, Call>)
    requires s <= |samples| && Distinct(samples)
    ensures ValuesFrom(samples, line, s, acc).Ok? ==>
      var m := ValuesFrom(samples, line, s, acc).value;
      forall q :: s <= q < |samples| ==>
        samples[q] in m && ParseCall(line, q).Ok? && m[samples[q]] == ParseCall(line, q).value
    decreases |samples| - s
  {
    if s < |samples| && ParseCall(line, s).Ok? {
      var next := acc[samples[s] := ParseCall(line, s).value];
      ValuesFromEntries(samples, line, s + 1, next);
      ValuesFromKeeps(samples, line, s + 1, next, samples[s]);
    }
  }

  lemma {:induction false} ValuesFromKeeps(samples: seq<string>, line: Line, s: nat, acc: map<string, Call>, key: string)
    requires key in acc
    requires forall q :: s <= q < |samples| ==> samples[q] != key
    ensures ValuesFrom(samples, line, s, acc).Ok? ==>
      key in ValuesFrom(samples, line, s, acc).value && ValuesFrom(samples, line, s, acc).value[key] == acc[key]
    decreases |samples| - s
  {
    if s < |samples| && ParseCall(line, s).Ok? {
      ValuesFromKeeps(samples, line, s + 1, acc[samples[s] := ParseCall(line, s).value], key);
    }
  }

  /** Reading a row's values succeeds exactly when every sample's columns are there
      and parse; then every sample has an entry, and with distinct sample names the
      entry of sample s is the call in its own columns. */
  lemma RowValuesShape(samples: seq<string>, line: Line)
    ensures RowValues(samples, line).Ok? <==> forall q :: 0 <= q < |samples| ==> ParseCall(line, q).Ok?
    ensures RowValues(samples, line).Ok? ==>
      var m := RowValues(samples, line).value;
      && (forall q :: 0 <= q < |samples| ==> samples[q] in m)
      && (Distinct(samples) ==> forall q :: 0 <= q < |samples| ==> m[samples[q]] == ParseCall(line, q).value)
  {
    ValuesFromSucceeds(samples, line, 0, map[]);
    ValuesFromKeys(samples, line, 0, map[]);
    if Distinct(samples) {
      ValuesFromEntries(samples, line, 0, map[]);
    }
  }

  method ReadValues(sampleList: seq<string>, line: Line) returns (r: Result<map<string, Call>>)
    ensures r == RowValues(sampleList, line)
    ensures r.Ok? ==> forall s :: s in sampleList ==> s in r.value
  {
    var valuesDict: map<string, Call> := map[];
    var s := 0;
    while s < |sampleList|
      invariant 0 <= s <= |sampleList|
      invariant ValuesFrom(sampleList, line, s, valuesDict) == RowValues(sampleList, line)
    {
      var call := ParseCall(line, s);
      if call.Err? {
        return Err(call.error);
      }
      valuesDict := valuesDict[sampleList[s] := call.value];
      s := s + 1;
    }
    r := Ok(valuesDict);
    RowValuesShape(sampleList, line);
  }

  // ---------------------------------------------------------------------------
  // The filter (lines 79-94)

  /** The variable `sample_genotype`: never assigned yet, or the genotype (None
      for a missing one) assigned last. It is not reset between samples or rows. */
  datatype Carried = Unbound | Bound(genotype: Option<string>)

  /** Python 3's `a >= b` on optional ints: TypeError when either side is None. */
  function AtLeast(a: Option<int>, b: Option<int>): (r: Result<bool>)
  {
    if a.None? || b.None? then Err(TypeError) else Ok(a.value >= b.value)
  }

  /** `GQ >= minGQ or RGQ >= minRGQ`, the right side evaluated only when the left is false. */
  function QualityPasses(c: Call, t: Thresholds): Result<bool>
  {
    match AtLeast(c.gq, t.minGQ)
    case Err(e) => Err(e)
    case Ok(true) => Ok(true)
    case Ok(false) => AtLeast(c.rgq, t.minRGQ)
  }

  /** What `sample_genotype` holds after the filter has seen call c, prev being what
      it held before. */
  function Filter(t: Thresholds, c: Call, prev: Carried): Result<Carried>
  {
    if !Truthy(t.minGQ) && !Truthy(t.minRGQ) then
      match AtLeast(c.dp, t.minDP)
      case Err(e) => Err(e)
      case Ok(keep) => Ok(if keep then Bound(c.gt) else Bound(None))
    else if Truthy(t.minGQ) && Truthy(t.minRGQ) && !Truthy(t.minDP) then
      match QualityPasses(c, t)
      case Err(e) => Err(e)
      case Ok(keep) => Ok(if keep then Bound(c.gt) else prev)
    else if Truthy(t.minGQ) && Truthy(t.minRGQ) then
      match QualityPasses(c, t)
      case Err(e) => Err(e)
      case Ok(false) => Ok(prev)
      case Ok(true) =>
        match AtLeast(c.dp, t.minDP)
        case Err(e) => Err(e)
        case Ok(keep) => Ok(if keep then Bound(c.gt) else prev)
    else Ok(Bound(None))
  }

  /** The filter policy, case by case, for thresholds that passed the check and
      calls whose compared values are present: with GQ/RGQ unset a call is kept
      iff DP >= minDP and is otherwise made missing; with GQ/RGQ set and minDP
      unset or 0 it is kept iff GQ >= minGQ or RGQ >= minRGQ; with all three set
      iff that holds and DP >= minDP. A call that is not kept in the last two
      cases does not become missing: sample_genotype keeps what it held. */
  lemma FilterPolicy(t: Thresholds, c: Call, prev: Carried)
    requires Truthy(t.minGQ) == Truthy(t.minRGQ)
    ensures !Truthy(t.minGQ) && c.dp.Some? && t.minDP.Some? ==>
      Filter(t, c, prev) == Ok(if c.dp.value >= t.minDP.value then Bound(c.gt) else Bound(None))
    ensures Truthy(t.minGQ) && !Truthy(t.minDP) && c.gq.Some? && c.rgq.Some? ==>
      Filter(t, c, prev) ==
        Ok(if c.gq.value >= t.minGQ.value || c.rgq.value >= t.minRGQ.value then Bound(c.gt) else prev)
    ensures Truthy(t.minGQ) && Truthy(t.minDP) && c.gq.Some? && c.rgq.Some? && c.dp.Some? ==>
      Filter(t, c, prev) ==
        Ok(if (c.gq.value >= t.minGQ.value || c.rgq.value >= t.minRGQ.value) && c.dp.value >= t.minDP.value
           then Bound(c.gt) else prev)
  {
  }

  /** When the filter raises, it is the Python 3 TypeError of comparing None, and it
      raises exactly when a value it actually compares is absent. */
  lemma FilterRaises(t: Thresholds, c: Call, prev: Carried)
    requires Truthy(t.minGQ) == Truthy(t.minRGQ)
    ensures Filter(t, c, prev).Err? ==> Filter(t, c, prev).error == TypeError
    ensures !Truthy(t.minGQ) ==> (Filter(t, c, prev).Err? <==> c.dp.None? || t.minDP.None?)
    ensures Truthy(t.minGQ) && !Truthy(t.minDP) ==>
      (Filter(t, c, prev).Err? <==> c.gq.None? || (c.gq.value < t.minGQ.value && c.rgq.None?))
    ensures Truthy(t.minGQ) && Truthy(t.minDP) ==>
      (Filter(t, c, prev).Err? <==>
         || c.gq.None?
         || (c.gq.value < t.minGQ.value && c.rgq.None?)
         || (c.dp.None? && (c.gq.value >= t.minGQ.value || c.rgq.value >= t.minRGQ.value)))
  {
  }

  /** With minGQ 20, minRGQ 10 and no minDP, a call with GQ 25, RGQ 5 and DP 3 is
      kept whatever its depth; a call whose GQ and RGQ both fail takes over the
      genotype of the call before it rather than becoming missing. */
  lemma FilterExamples()
    ensures var t := Thresholds(Some(20), Some(10), None);
      && Filter(t, Call(Some("A/G"), Some(25), Some(5), Some(3)), Unbound) == Ok(Bound(Some("A/G")))
      && Filter(t, Call(Some("G/G"), Some(5), Some(5), Some(30)), Bound(Some("A/T"))) == Ok(Bound(Some("A/T")))
      && Filter(t, Call(Some("G/G"), Some(5), Some(5), Some(30)), Unbound) == Ok(Unbound)
  {
  }

  // ---------------------------------------------------------------------------
  // Genotype formatting (lines 96-101)

  /** The PLINK genotype field of a call: NameError when sample_genotype was never
      assigned; "0\t0" for a missing, empty or longer-than-3 genotype; otherwise the
      genotype with every '/' replaced by a tab, so "A/T" becomes "A\tT". */
  function PlinkGenotype(c: Carried): (r: Result<string>)
    ensures r.Err? <==> c.Unbound?
    ensures r.Err? ==> r.error == NameError
    ensures c.Bound? && (c.genotype.None? || |c.genotype.value| == 0 || |c.genotype.value| > 3) ==>
      r == Ok("0\t0")
    ensures c.Bound? && c.genotype.Some? && 0 < |c.genotype.value| <= 3 ==>
      r == Ok(ReplaceChar(c.genotype.value, '/', '\t'))
  {
    match c
    case Unbound => Err(NameError)
    case Bound(g) =>
      if g.None? || |g.value| == 0 then Ok("0\t0")
      else if |g.value| > 3 then Ok("0\t0")
      else
        JoinSplitReplaces(g.value, '/', '\t');
        Ok(Join(Split(g.value, '/'), "\t"))
  }

  // ---------------------------------------------------------------------------
  // The genotype columns of one data row (lines 74-103)

  /** `gt_dict` and `sample_genotype` once the samples k.. are still to be filtered. */
  function FilterFrom(t: Thresholds, samples: seq<string>, values: map<string, Call>, k: nat,
                      gt: map<string, seq<string>>, carried: Carried): Result<(map<string, seq<string>>, Carried)>
    requires forall s :: s in samples ==> s in values && s in gt
    decreases |samples| - k
  {
    if k >= |samples| then Ok((gt, carried))
    else
      var sample := samples[k];
      match Filter(t, values[sample], carried)
      case Err(e) => Err(e)
      case Ok(next) =>
        match PlinkGenotype(next)
        case Err(e) => Err(e)
        case Ok(plink) => FilterFrom(t, samples, values, k + 1, gt[sample := gt[sample] + [plink]], next)
  }

  lemma {:induction false} FilterFromGrows(t: Thresholds, samples: seq<string>, values: map<string, Call>, k: nat,
                                           gt: map<string, seq<string>>, carried: Carried)
    requires forall s :: s in samples ==> s in values && s in gt
    requires Distinct(samples) && k <= |samples|
    ensures FilterFrom(t, samples, values, k, gt, carried).Ok? ==>
      var gt' := FilterFrom(t, samples, values, k, gt, carried).value.0;
      && gt'.Keys == gt.Keys
      && (forall s :: s in gt ==> |gt'[s]| == |gt[s]| + if s in samples[k..] then 1 else 0)
    decreases |samples| - k
  {
    if k < |samples| {
      var sample := samples[k];
      match Filter(t, values[sample], carried)
      case Err(_) =>
      case Ok(next) =>
        match PlinkGenotype(next)
        case Err(_) =>
        case Ok(plink) =>
          var gt1 := gt[sample := gt[sample] + [plink]];
          FilterFromGrows(t, samples, values, k + 1, gt1, next);
          forall s | s in gt ensures (s in samples[k..]) == (s == sample || s in samples[k + 1..]) {
            assert samples[k..] == [sample] + samples[k + 1..];
          }
          assert sample !in samples[k + 1..];
    }
  }

  method FilterRow(t: Thresholds, sampleList: seq<string>, valuesDict: map<string, Call>,
                   gtDict: map<string, seq<string>>, sampleGenotype: Carried)
    returns (r: Result<(map<string, seq<string>>, Carried)>)
    requires forall s :: s in sampleList ==> s in valuesDict && s in gtDict
    ensures r == FilterFrom(t, sampleList, valuesDict, 0, gtDict, sampleGenotype)
  {
    var gt, carried := gtDict, sampleGenotype;
    var k := 0;
    while k < |sampleList|
      invariant 0 <= k <= |sampleList|
      invariant forall s :: s in sampleList ==> s in gt
      invariant FilterFrom(t, sampleList, valuesDict, k, gt, carried)
             == FilterFrom(t, sampleList, valuesDict, 0, gtDict, sampleGenotype)
    {
      var sample := sampleList[k];
      var next := Filter(t, valuesDict[sample], carried);
      if next.Err? {
        return Err(next.error);
      }
      carried := next.value;
      var plink := PlinkGenotype(carried);
      if plink.Err? {
        return Err(plink.error);
      }
      gt := gt[sample := gt[sample] + [plink.value]];
      k := k + 1;
    }
    return Ok((gt, carried));
  }

  // ---------------------------------------------------------------------------
  // The loop over the lines of the report (lines 42-103)

  /** `sample_list`, `gt_dict`, `pos_list` and `sample_genotype`. */
  datatype State = State(samples: seq<string>, gt: map<string, seq<string>>, pos: seq<MapRecord>, carried: Carried)

  /** Every listed sample has a genotype list. */
  ghost predicate HasLists(st: State)
  {
    forall s :: s in st.samples ==> s in st.gt
  }

  const Initial: State := State([], map[], [], Unbound)

  predicate IsHeader(line: Line)
  {
    |line| > 0 && line[0] == "CHROM"
  }

  /** `{sample: [] for sample in sample_list}`: an empty genotype list for every sample. */
  function EmptyLists(samples: seq<string>): (r: map<string, seq<string>>)
    ensures forall s :: s in r <==> s in samples
    ensures forall s :: s in r ==> r[s] == []
  {
    map s | s in samples :: []
  }

  /** One line of the report: a header row appends its sample names and resets
      every genotype list to empty; a data row appends one map record and one
      genotype to the list of each sample in turn. */
  function StepLine(t: Thresholds, st: State, line: Line): (r: Result<State>)
    requires HasLists(st)
    ensures r.Ok? ==> HasLists(r.value)
  {
    if |line| == 0 then Err(IndexError)
    else if line[0] == "CHROM" then
      var samples := st.samples + HeaderSamples(line);
      Ok(State(samples, EmptyLists(samples), st.pos, st.carried))
    else if |line| < 2 then Err(ValueError)
    else
      var pos := st.pos + [MapRecordOf(line[0], line[1])];
      match RowValues(st.samples, line)
      case Err(e) => Err(e)
      case Ok(values) =>
        RowValuesShape(st.samples, line);
        match FilterFrom(t, st.samples, values, 0, st.gt, st.carried)
        case Err(e) => Err(e)
        case Ok(res) =>
          FilterFromKeys(t, st.samples, values, 0, st.gt, st.carried);
          Ok(State(st.samples, res.0, pos, res.1))
  }

  lemma {:induction false} FilterFromKeys(t: Thresholds, samples: seq<string>, values: map<string, Call>, k: nat,
                                          gt: map<string, seq<string>>, carried: Carried)
    requires forall s :: s in samples ==> s in values && s in gt
    ensures FilterFrom(t, samples, values, k, gt, carried).Ok? ==>
      FilterFrom(t, samples, values, k, gt, carried).value.0.Keys == gt.Keys
    decreases |samples| - k
  {
    if k < |samples| {
      var sample := samples[k];
      match Filter(t, values[sample], carried)
      case Err(_) =>
      case Ok(next) =>
        match PlinkGenotype(next)
        case Err(_) =>
        case Ok(plink) => FilterFromKeys(t, samples, values, k + 1, gt[sample := gt[sample] + [plink]], next);
    }
  }

  /** The state once the lines i.. are still to be read, or the exception that ends the run. */
  function RunFrom(t: Thresholds, lines: seq<Line>, i: nat, st: State): (r: Result<State>)
    requires HasLists(st)
    ensures r.Ok? ==> HasLists(r.value)
    decreases |lines| - i
  {
    if i >= |lines| then Ok(st)
    else
      match StepLine(t, st, lines[i])
      case Err(e) => Err(e)
      case Ok(next) => RunFrom(t, lines, i + 1, next)
  }

  /** A data row extends the map by exactly its own record and keeps the sample
      list; a header row appends its names, empties every genotype list and leaves
      the map alone. */
  lemma StepLineShape(t: Thresholds, st: State, line: Line)
    requires HasLists(st)
    ensures StepLine(t, st, line).Ok? && IsHeader(line) ==>
      var st' := StepLine(t, st, line).value;
      && st'.samples == st.samples + HeaderSamples(line) && st'.pos == st.pos
      && (forall s :: s in st'.samples ==> st'.gt[s] == [])
    ensures StepLine(t, st, line).Ok? && !IsHeader(line) ==>
      var st' := StepLine(t, st, line).value;
      && |line| >= 2
      && st'.samples == st.samples
      && st'.pos == st.pos + [MapRecord(Strip(line[0], ChrChars), line[0] + "." + line[1], "0", line[1])]
  {
  }

  /** Every sample's genotype list is as long as the list of map records. */
  ghost predicate LockStep(st: State)
  {
    forall s :: s in st.samples ==> s in st.gt && |st.gt[s]| == |st.pos|
  }

  /** With distinct sample names, a data row keeps every genotype list in step
      with the map: one record and one genotype per sample. */
  lemma DataRowKeepsLockStep(t: Thresholds, st: State, line: Line)
    requires HasLists(st) && LockStep(st) && Distinct(st.samples) && !IsHeader(line)
    ensures StepLine(t, st, line).Ok? ==> LockStep(StepLine(t, st, line).value)
  {
    if StepLine(t, st, line).Ok? {
      var values := RowValues(st.samples, line).value;
      RowValuesShape(st.samples, line);
      FilterFromGrows(t, st.samples, values, 0, st.gt, st.carried);
      assert st.samples[0..] == st.samples;
    }
  }

  lemma {:induction false} RunFromLockStep(t: Thresholds, lines: seq<Line>, i: nat, st: State)
    requires HasLists(st) && LockStep(st) && Distinct(st.samples) && i <= |lines|
    requires forall j :: i <= j < |lines| ==> !IsHeader(lines[j])
    ensures RunFrom(t, lines, i, st).Ok? ==>
      var st' := RunFrom(t, lines, i, st).value;
      LockStep(st') && st'.samples == st.samples && |st'.pos| == |st.pos| + (|lines| - i)
    decreases |lines| - i
  {
    if i < |lines| {
      StepLineShape(t, st, lines[i]);
      DataRowKeepsLockStep(t, st, lines[i]);
      if StepLine(t, st, lines[i]).Ok? {
        RunFromLockStep(t, lines, i + 1, StepLine(t, st, lines[i]).value);
      }
    }
  }

  /** A report whose first line is its only header, with distinct sample names:
      after the run there is one map record per data row, the samples are the
      header's, and every sample's genotype list has one entry per map record. */
  lemma HeaderFirstLockStep(t: Thresholds, lines: seq<Line>)
    requires |lines| > 0 && IsHeader(lines[0]) && Distinct(HeaderSamples(lines[0]))
    requires forall j :: 0 < j < |lines| ==> !IsHeader(lines[j])
    ensures RunFrom(t, lines, 0, Initial).Ok? ==>
      var st := RunFrom(t, lines, 0, Initial).value;
      && st.samples == HeaderSamples(lines[0])
      && |st.pos| == |lines| - 1
      && LockStep(st)
  {
    StepLineShape(t, Initial, lines[0]);
    var st1 := StepLine(t, Initial, lines[0]).value;
    assert st1.samples == HeaderSamples(lines[0]);
    RunFromLockStep(t, lines, 1, st1);
  }

  // ---------------------------------------------------------------------------
  // The output lines (lines 106-112)

  /** A `.ped` line: family 0, the sample, four more 0 columns, then the genotypes,
      all tab separated. */
  function PedLine(sample: string, genotypes: seq<string>): string
  {
    "0\t" + sample + "\t0\t0\t0\t0\t" + Join(genotypes, "\t") + "\n"
  }

  /** A `.map` line: the record's four fields, tab separated. */
  function MapLine(r: MapRecord): string
  {
    Join([r.chrom, r.name, r.distance, r.pos], "\t") + "\n"
  }

  function PedLines(samples: seq<string>, gt: map<string, seq<string>>): seq<string>
    requires forall s :: s in samples ==> s in gt
  {
    seq(|samples|, k requires 0 <= k < |samples| => PedLine(samples[k], gt[samples[k]]))
  }

  function MapLines(pos: seq<MapRecord>): seq<string>
  {
    seq(|pos|, k requires 0 <= k < |pos| => MapLine(pos[k]))
  }

  /** The `.ped` line, less its newline, grouped at each of its six leading tabs. */
  lemma PedLineRegroup(sample: string, g: string)
    ensures "0\t" + sample + "\t0\t0\t0\t0\t" + g ==
      "0" + "\t" + (sample + "\t" + ("0" + "\t" + ("0" + "\t" + ("0" + "\t" + ("0" + "\t" + g)))))
  {
    var lead := "\t0\t0\t0\t0\t";
    assert lead == "\t" + ("0" + "\t" + ("0" + "\t" + ("0" + "\t" + ("0" + "\t"))));
    assert "0\t" == "0" + "\t";
  }

  lemma SplitAtTab(x: string, g: string)
    requires '\t' !in x
    ensures Split(x + "\t" + g, '\t') == [x] + Split(g, '\t')
  {
    SplitFirstPiece(x, g, '\t');
  }

  lemma SplitPedLead(sample: string, g: string)
    requires '\t' !in sample
    ensures Split("0" + "\t" + (sample + "\t" + ("0" + "\t" + ("0" + "\t" + ("0" + "\t" + ("0" + "\t" + g))))), '\t')
         == ["0"] + ([sample] + (["0"] + (["0"] + (["0"] + (["0"] + Split(g, '\t'))))))
  {
    var t5 := "0" + "\t" + g;
    var t4 := "0" + "\t" + t5;
    var t3 := "0" + "\t" + t4;
    var t2 := "0" + "\t" + t3;
    var t1 := sample + "\t" + t2;
    SplitAtTab("0", g);
    SplitAtTab("0", t5);
    SplitAtTab("0", t4);
    SplitAtTab("0", t3);
    SplitAtTab(sample, t2);
    SplitAtTab("0", t1);
  }

  lemma FlattenSix<T>(a: T, b: T, c: T, d: T, e: T, f: T, h: seq<T>)
    ensures [a] + ([b] + ([c] + ([d] + ([e] + ([f] + h))))) == [a, b, c, d, e, f] + h
  {
    var r := [a] + ([b] + ([c] + ([d] + ([e] + ([f] + h)))));
    forall k | 0 <= k < |r| ensures r[k] == ([a, b, c, d, e, f] + h)[k] {
      if k >= 6 {
        assert r[k] == h[k - 6];
      }
    }
  }

  /** A `.ped` line read back at its tabs gives the six leading columns and then
      the columns of the joined genotypes. */
  lemma PedLineFields(sample: string, genotypes: seq<string>)
    requires '\t' !in sample
    ensures var line := PedLine(sample, genotypes);
      line[|line| - 1] == '\n' &&
      Split(line[..|line| - 1], '\t') == ["0", sample, "0", "0", "0", "0"] + Split(Join(genotypes, "\t"), '\t')
  {
    var g := Join(genotypes, "\t");
    var body := "0\t" + sample + "\t0\t0\t0\t0\t" + g;
    var line := PedLine(sample, genotypes);
    assert line == body + "\n";
    assert line[..|line| - 1] == body;
    PedLineRegroup(sample, g);
    SplitPedLead(sample, g);
    FlattenSix("0", sample, "0", "0", "0", "0", Split(g, '\t'));
  }

  /** A `.map` line read back at its tabs gives the record's four fields, as long
      as none of them holds a tab. */
  lemma MapLineFields(r: MapRecord)
    requires '\t' !in r.chrom && '\t' !in r.name && '\t' !in r.distance && '\t' !in r.pos
    ensures var line := MapLine(r);
      line[|line| - 1] == '\n' && Split(line[..|line| - 1], '\t') == [r.chrom, r.name, r.distance, r.pos]
  {
    var line := MapLine(r);
    assert line[..|line| - 1] == Join([r.chrom, r.name, r.distance, r.pos], "\t");
    SplitJoin([r.chrom, r.name, r.distance, r.pos], '\t');
  }

  method PedOutput(sampleList: seq<string>, gtDict: map<string, seq<string>>) returns (out: seq<string>)
    requires forall s :: s in sampleList ==> s in gtDict
    ensures out == PedLines(sampleList, gtDict)
  {
    out := [];
    var k := 0;
    while k < |sampleList|
      invariant 0 <= k <= |sampleList|
      invariant out == PedLines(sampleList, gtDict)[..k]
    {
      var sample := sampleList[k];
      var sampleLead := "0\t" + sample + "\t0\t0\t0\t0\t";
      var sampleGenotypes := Join(gtDict[sample], "\t");
      out := out + [sampleLead + sampleGenotypes + "\n"];
      k := k + 1;
    }
    assert PedLines(sampleList, gtDict)[..k] == PedLines(sampleList, gtDict);
  }

  method MapOutput(posList: seq<MapRecord>) returns (out: seq<string>)
    ensures out == MapLines(posList)
  {
    out := [];
    var k := 0;
    while k < |posList|
      invariant 0 <= k <= |posList|
      invariant out == MapLines(posList)[..k]
    {
      var snp := posList[k];
      out := out + [Join([snp.chrom, snp.name, snp.distance, snp.pos], "\t") + "\n"];
      k := k + 1;
    }
    assert MapLines(posList)[..k] == MapLines(posList);
  }

  // ---------------------------------------------------------------------------
  // The whole script

  /** The names and contents of the two files the script writes. */
  datatype Output = Output(pedName: string, mapName: string, pedLines: seq<string>, mapLines: seq<string>)

  function Convert(path: string, t: Thresholds, lines: seq<Line>): Result<Output>
  {
    match CheckThresholds(t)
    case Err(e) => Err(e)
    case Ok(_) =>
      match RunFrom(t, lines, 0, Initial)
      case Err(e) => Err(e)
      case Ok(st) =>
        var names := OutputNames(path, t);
        Ok(Output(names.0, names.1, PedLines(st.samples, st.gt), MapLines(st.pos)))
  }

  lemma RunFromNext(t: Thresholds, lines: seq<Line>, i: nat, st: State)
    requires HasLists(st) && i < |lines|
    ensures StepLine(t, st, lines[i]).Err? ==> RunFrom(t, lines, i, st) == Err(StepLine(t, st, lines[i]).error)
    ensures StepLine(t, st, lines[i]).Ok? ==>
      RunFrom(t, lines, i, st) == RunFrom(t, lines, i + 1, StepLine(t, st, lines[i]).value)
  {
  }

  lemma StepLineHeader(t: Thresholds, st: State, line: Line)
    requires HasLists(st) && IsHeader(line)
    ensures StepLine(t, st, line) ==
      Ok(State(st.samples + HeaderSamples(line), EmptyLists(st.samples + HeaderSamples(line)), st.pos, st.carried))
  {
  }

  lemma StepLineMalformed(t: Thresholds, st: State, line: Line)
    requires HasLists(st)
    ensures |line| == 0 ==> StepLine(t, st, line) == Err(IndexError)
    ensures 0 < |line| < 2 && !IsHeader(line) ==> StepLine(t, st, line) == Err(ValueError)
    ensures |line| >= 2 && !IsHeader(line) && RowValues(st.samples, line).Err? ==>
      StepLine(t, st, line) == Err(RowValues(st.samples, line).error)
  {
  }

  lemma StepLineData(t: Thresholds, st: State, line: Line, values: map<string, Call>)
    requires HasLists(st) && |line| >= 2 && !IsHeader(line)
    requires RowValues(st.samples, line) == Ok(values)
    requires forall s :: s in st.samples ==> s in values
    ensures FilterFrom(t, st.samples, values, 0, st.gt, st.carried).Err? ==>
      StepLine(t, st, line) == Err(FilterFrom(t, st.samples, values, 0, st.gt, st.carried).error)
    ensures FilterFrom(t, st.samples, values, 0, st.gt, st.carried).Ok? ==>
      var res := FilterFrom(t, st.samples, values, 0, st.gt, st.carried).value;
      StepLine(t, st, line) == Ok(State(st.samples, res.0, st.pos + [MapRecordOf(line[0], line[1])], res.1))
  {
  }

  /** The loop over the lines of the input file, from the empty lists on. */
  method RunLines(t: Thresholds, lines: seq<Line>) returns (r: Result<State>)
    ensures r == RunFrom(t, lines, 0, Initial)
  {
    var sampleList: seq<string> := [];
    var gtDict: map<string, seq<string>> := map[];
    var posList: seq<MapRecord> := [];
    var sampleGenotype: Carried := Unbound;
    var i := 0;
    while i < |lines|
      invariant 0 <= i <= |lines|
      invariant HasLists(State(sampleList, gtDict, posList, sampleGenotype))
      invariant RunFrom(t, lines, i, State(sampleList, gtDict, posList, sampleGenotype))
             == RunFrom(t, lines, 0, Initial)
    {
      ghost var st := State(sampleList, gtDict, posList, sampleGenotype);
      var line := lines[i];
      RunFromNext(t, lines, i, st);
      StepLineMalformed(t, st, line);
      if |line| == 0 {
        return Err(IndexError);
      }
      if line[0] == "CHROM" {
        StepLineHeader(t, st, line);
        sampleList := AppendHeaderSamples(sampleList, line);
        gtDict := EmptyLists(sampleList);
        i := i + 1;
        continue;
      }
      if |line| < 2 {
        return Err(ValueError);
      }
      var chrom, pos := line[0], line[1];
      posList := posList + [MapRecordOf(chrom, pos)];
      var valuesDict := ReadValues(sampleList, line);
      if valuesDict.Err? {
        return Err(valuesDict.error);
      }
      StepLineData(t, st, line, valuesDict.value);
      var filtered := FilterRow(t, sampleList, valuesDict.value, gtDict, sampleGenotype);
      if filtered.Err? {
        return Err(filtered.error);
      }
      FilterFromKeys(t, sampleList, valuesDict.value, 0, gtDict, sampleGenotype);
      gtDict, sampleGenotype := filtered.value.0, filtered.value.1;
      i := i + 1;
    }
    return Ok(State(sampleList, gtDict, posList, sampleGenotype));
  }

  /** The whole script: the threshold check, the output names, the loop over the
      lines and the two output files. */
  method ConvertReport(path: string, t: Thresholds, lines: seq<Line>) returns (r: Result<Output>)
    ensures r == Convert(path, t, lines)
  {
    if (Truthy(t.minGQ) && !Truthy(t.minRGQ)) || (!Truthy(t.minGQ) && Truthy(t.minRGQ)) {
      return Err(ConfigError);
    }
    var names := OutputNames(path, t);
    var run := RunLines(t, lines);
    if run.Err? {
      return Err(run.error);
    }
    var ped := PedOutput(run.value.samples, run.value.gt);
    var mapLines := MapOutput(run.value.pos);
    return Ok(Output(names.0, names.1, ped, mapLines));
  }

  /** A run that succeeds writes one `.ped` line per listed sample and one `.map`
      line per data row; for a report whose only header comes first, with distinct
      names, `.ped` line k is sample k's, and carries one genotype per `.map` line. */
  lemma ConvertShape(path: string, t: Thresholds, lines: seq<Line>)
    requires |lines| > 0 && IsHeader(lines[0]) && Distinct(HeaderSamples(lines[0]))
    requires forall j :: 0 < j < |lines| ==> !IsHeader(lines[j])
    ensures Convert(path, t, lines).Ok? ==>
      var out := Convert(path, t, lines).value;
      var st := RunFrom(t, lines, 0, Initial).value;
      var samples := HeaderSamples(lines[0]);
      && out.pedName == OutputBase(path) + "_" + ParamTag(t) + ".ped"
      && out.mapName == OutputBase(path) + "_" + ParamTag(t) + ".map"
      && |out.pedLines| == |samples|
      && |out.mapLines| == |lines| - 1
      && forall k :: 0 <= k < |samples| ==>
           && samples[k] in st.gt
           && out.pedLines[k] == PedLine(samples[k], st.gt[samples[k]])
           && |st.gt[samples[k]]| == |out.mapLines|
  {
    HeaderFirstLockStep(t, lines);
    if Convert(path, t, lines).Ok? {
      var st := RunFrom(t, lines, 0, Initial).value;
      var out := Convert(path, t, lines).value;
      assert out.pedLines == PedLines(st.samples, st.gt);
      assert out.mapLines == MapLines(st.pos);
    }
  }
}
