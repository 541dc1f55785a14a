/** SNP_concordance.py: per-sample genotype concordance between two PLINK datasets.
    Each dataset is a `.map` file (one SNP coordinate per line) and a `.ped` file
    (one sample per line, two allele tokens per SNP). Lines arrive already split
    at whitespace; reading the files and printing the report are not modelled. */
module SnpConcordance {
  import opened Results
  import opened Text

  /** One line of a `.map` or `.ped` file, split at whitespace. */
  type Line = seq<string>

  /** The coordinate key of a `.map` line whose chromosome and position are both "0". */
  const Sentinel: string := "0.0"

  // ---------------------------------------------------------------------------
  // make_coord_list_from_map

  /** `chromo + '.' + pos` of a `.map` line `chromo, snp, cM, pos`. */
  function CoordKey(fields: Line): string
    requires |fields| == 4
  {
    fields[0] + "." + fields[3]
  }

  predicate AllMapLines(lines: seq<Line>)
  {
    forall k :: 0 <= k < |lines| ==> |lines[k]| == 4
  }

  /** The coordinate list of a `.map` file: one key per line, in line order, or
      the ValueError of unpacking a line that does not have exactly four fields. */
  function CoordList(lines: seq<Line>): Result<seq<string>>
  {
    if AllMapLines(lines) then Ok(seq(|lines|, k requires 0 <= k < |lines| => CoordKey(lines[k])))
    else Err(ValueError)
  }

  method MakeCoordList(lines: seq<Line>) returns (r: Result<seq<string>>)
    ensures r == CoordList(lines)
    ensures r.Ok? <==> forall k :: 0 <= k < |lines| ==> |lines[k]| == 4
    ensures r.Err? ==> r.error == ValueError
    ensures r.Ok? ==> |r.value| == |lines|
    ensures r.Ok? ==> forall k :: 0 <= k < |lines| ==> r.value[k] == lines[k][0] + "." + lines[k][3]
  {
    var coords: seq<string> := [];
    var i := 0;
    while i < |lines|
      invariant 0 <= i <= |lines|
      invariant forall k :: 0 <= k < i ==> |lines[k]| == 4
      invariant |coords| == i
      invariant forall k :: 0 <= k < i ==> coords[k] == CoordKey(lines[k])
    {
      if |lines[i]| != 4 {
        return Err(ValueError);
      }
      coords := coords + [CoordKey(lines[i])];
      i := i + 1;
    }
    assert coords == seq(|lines|, k requires 0 <= k < |lines| => CoordKey(lines[k]));
    return Ok(coords);
  }

  // ---------------------------------------------------------------------------
  // make_geno_dict_from_ped

  /** An allele pair `(allele1, allele2)` of one sample at one SNP. */
  datatype Genotype = Genotype(allele1: string, allele2: string)

  /** The genotype list of a `.ped` line: `zip(line[6::2], line[7::2])`. */
  function PairAlleles(line: Line): seq<Genotype>
  {
    var firsts := Stride(line, 6, 2);
    var seconds := Stride(line, 7, 2);
    var n := if |firsts| < |seconds| then |firsts| else |seconds|;
    seq(n, j requires 0 <= j < n => Genotype(firsts[j], seconds[j]))
  }

  /** A line of n >= 6 fields yields (n - 6) / 2 pairs, pair j being fields
      6 + 2j and 7 + 2j; an odd trailing token is dropped, and a line of fewer
      than 7 fields yields no pair. */
  lemma PairAllelesShape(line: Line)
    ensures |PairAlleles(line)| == if |line| >= 6 then (|line| - 6) / 2 else 0
    ensures forall j :: 0 <= j < |PairAlleles(line)| ==>
      6 + 2 * j + 1 < |line| && PairAlleles(line)[j] == Genotype(line[6 + 2 * j], line[7 + 2 * j])
  {
    var m := if |line| >= 6 then (|line| - 6) / 2 else 0;
    StrideAt(line, 7, 2, m);
    if m > 0 {
      StrideAt(line, 6, 2, m - 1);
      StrideAt(line, 7, 2, m - 1);
    }
    forall j | 0 <= j < m
      ensures 6 + 2 * j + 1 < |line| && PairAlleles(line)[j] == Genotype(line[6 + 2 * j], line[7 + 2 * j])
    {
      StrideAt(line, 6, 2, j);
      StrideAt(line, 7, 2, j);
    }
  }

  /** A Python dict from sample id to genotype list: the keys in insertion order,
      which is the order `for sample in genotypes1` visits them, and the entries. */
  datatype GenoDict = GenoDict(order: seq<string>, entries: map<string, seq<Genotype>>)

  /** Every key is listed once in the order, and the order lists only keys. */
  ghost predicate ValidDict(d: GenoDict)
  {
    Distinct(d.order) && forall k :: k in d.entries <==> k in d.order
  }

  const EmptyDict: GenoDict := GenoDict([], map[])

  /** `d[key] = value`: a new key goes to the end of the order, an existing key
      keeps its place and has its entry replaced. */
  function Put(d: GenoDict, key: string, value: seq<Genotype>): (r: GenoDict)
    ensures ValidDict(d) ==> ValidDict(r)
    ensures r.entries == d.entries[key := value]
    ensures key in d.entries ==> r.order == d.order
    ensures key !in d.entries ==> r.order == d.order + [key]
  {
    if key in d.entries then GenoDict(d.order, d.entries[key := value])
    else GenoDict(d.order + [key], d.entries[key := value])
  }

  /** The dictionary make_geno_dict_from_ped returns once lines[i..] are read
      into d; a line without a second field raises IndexError. */
  function GenoDictFrom(lines: seq<Line>, i: nat, d: GenoDict): Result<GenoDict>
    decreases |lines| - i
  {
    if i >= |lines| then Ok(d)
    else if |lines[i]| < 2 then Err(IndexError)
    else GenoDictFrom(lines, i + 1, Put(d, lines[i][1], PairAlleles(lines[i])))
  }

  function GenoDictOf(lines: seq<Line>): Result<GenoDict>
  {
    GenoDictFrom(lines, 0, EmptyDict)
  }

  method MakeGenoDict(lines: seq<Line>) returns (r: Result<GenoDict>)
    ensures r == GenoDictOf(lines)
    ensures r.Ok? ==> ValidDict(r.value)
  {
    var genoDict := EmptyDict;
    var i := 0;
    while i < |lines|
      invariant 0 <= i <= |lines|
      invariant GenoDictFrom(lines, i, genoDict) == GenoDictOf(lines)
    {
      if |lines[i]| < 2 {
        return Err(IndexError);
      }
      genoDict := Put(genoDict, lines[i][1], PairAlleles(lines[i]));
      i := i + 1;
    }
    r := Ok(genoDict);
    GenoDictOutcome(lines);
  }

  lemma {:induction false} GenoDictFromSucceeds(lines: seq<Line>, i: nat, d: GenoDict)
    requires i <= |lines|
    ensures GenoDictFrom(lines, i, d).Ok? <==> forall j :: i <= j < |lines| ==> |lines[j]| >= 2
    ensures GenoDictFrom(lines, i, d).Err? ==> GenoDictFrom(lines, i, d).error == IndexError
    decreases |lines| - i
  {
    if i < |lines| && |lines[i]| >= 2 {
      GenoDictFromSucceeds(lines, i + 1, Put(d, lines[i][1], PairAlleles(lines[i])));
    }
  }

  lemma {:induction false} GenoDictFromKeys(lines: seq<Line>, i: nat, d: GenoDict)
    requires i <= |lines| && ValidDict(d)
    ensures GenoDictFrom(lines, i, d).Ok? ==>
      var e := GenoDictFrom(lines, i, d).value;
      && ValidDict(e)
      && (forall k :: k in d.entries ==> k in e.entries)
      && (forall j :: i <= j < |lines| ==> |lines[j]| >= 2 && lines[j][1] in e.entries)
    decreases |lines| - i
  {
    GenoDictFromSucceeds(lines, i, d);
    if i < |lines| && GenoDictFrom(lines, i, d).Ok? {
      var next := Put(d, lines[i][1], PairAlleles(lines[i]));
      GenoDictFromKeys(lines, i + 1, next);
      assert lines[i][1] in next.entries;
    }
  }

  lemma {:induction false} GenoDictFromOnly(lines: seq<Line>, i: nat, d: GenoDict)
    requires i <= |lines|
    ensures GenoDictFrom(lines, i, d).Ok? ==>
      forall k :: k in GenoDictFrom(lines, i, d).value.entries ==>
        k in d.entries || exists j :: i <= j < |lines| && |lines[j]| >= 2 && lines[j][1] == k
    decreases |lines| - i
  {
    if i < |lines| && |lines[i]| >= 2 && GenoDictFrom(lines, i, d).Ok? {
      var next := Put(d, lines[i][1], PairAlleles(lines[i]));
      GenoDictFromOnly(lines, i + 1, next);
      var e := GenoDictFrom(lines, i + 1, next).value;
      forall k | k in e.entries
        ensures k in d.entries || exists j :: i <= j < |lines| && |lines[j]| >= 2 && lines[j][1] == k
      {
        if k !in d.entries && k != lines[i][1] {
          assert k !in next.entries;
        }
      }
    }
  }

  /** The sample ids of `.ped` lines: their field 1. */
  function SampleIds(lines: seq<Line>): (r: seq<string>)
    requires forall j :: 0 <= j < |lines| ==> |lines[j]| >= 2
    ensures |r| == |lines| && forall j :: 0 <= j < |lines| ==> r[j] == lines[j][1]
  {
    seq(|lines|, j requires 0 <= j < |lines| => lines[j][1])
  }

  lemma {:induction false} GenoDictFromOrder(lines: seq<Line>, i: nat, d: GenoDict)
    requires i <= |lines| && forall j :: 0 <= j < |lines| ==> |lines[j]| >= 2
    requires ValidDict(d) && d.order == FirstOccurrences(SampleIds(lines)[..i])
    ensures GenoDictFrom(lines, i, d).Ok?
    ensures GenoDictFrom(lines, i, d).value.order == FirstOccurrences(SampleIds(lines))
    decreases |lines| - i
  {
    var ids := SampleIds(lines);
    if i == |lines| {
      assert ids[..i] == ids;
    } else {
      var key := lines[i][1];
      var next := Put(d, key, PairAlleles(lines[i]));
      assert ids[i] == key;
      assert key in d.entries <==> key in d.order;
      FirstOccurrencesSnoc(ids, i);
      assert next.order == FirstOccurrences(ids[..i + 1]);
      assert GenoDictFrom(lines, i, d) == GenoDictFrom(lines, i + 1, next);
      GenoDictFromOrder(lines, i + 1, next);
    }
  }


  /** The samples of a `.ped` file are visited in the order their ids first
      appear: the dictionary's order lists the distinct field-1 values, each once,
      in increasing order of the first line that names them. */
  lemma GenoDictOrder(lines: seq<Line>)
    ensures GenoDictOf(lines).Ok? ==>
      && (forall j :: 0 <= j < |lines| ==> |lines[j]| >= 2)
      && var order, ids := GenoDictOf(lines).value.order, SampleIds(lines);
         && order == FirstOccurrences(ids)
         && Distinct(order)
         && (forall x :: x in order <==> x in ids)
         && (forall a, b :: 0 <= a < b < |order| ==>
               order[a] in ids && order[b] in ids && IndexOf(ids, order[a]).value < IndexOf(ids, order[b]).value)
  {
    GenoDictFromSucceeds(lines, 0, EmptyDict);
    if GenoDictOf(lines).Ok? {
      assert SampleIds(lines)[..0] == [];
      GenoDictFromOrder(lines, 0, EmptyDict);
      FirstOccurrencesOrder(SampleIds(lines));
    }
  }

  /** Reading a `.ped` file fails exactly when a line has fewer than two fields;
      otherwise the keys are exactly the lines' sample ids (field 1). */
  lemma GenoDictOutcome(lines: seq<Line>)
    ensures GenoDictOf(lines).Ok? <==> forall j :: 0 <= j < |lines| ==> |lines[j]| >= 2
    ensures GenoDictOf(lines).Err? ==> GenoDictOf(lines).error == IndexError
    ensures GenoDictOf(lines).Ok? ==>
      var d := GenoDictOf(lines).value;
      && ValidDict(d)
      && (forall j :: 0 <= j < |lines| ==> lines[j][1] in d.entries)
      && (forall k :: k in d.entries ==> exists j :: 0 <= j < |lines| && |lines[j]| >= 2 && lines[j][1] == k)
  {
    GenoDictFromSucceeds(lines, 0, EmptyDict);
    GenoDictFromKeys(lines, 0, EmptyDict);
    GenoDictFromOnly(lines, 0, EmptyDict);
  }

  lemma {:induction false} GenoDictFromKeeps(lines: seq<Line>, i: nat, d: GenoDict, key: string)
    requires key in d.entries
    requires forall j :: i <= j < |lines| && |lines[j]| >= 2 ==> lines[j][1] != key
    ensures GenoDictFrom(lines, i, d).Ok? ==>
      key in GenoDictFrom(lines, i, d).value.entries &&
      GenoDictFrom(lines, i, d).value.entries[key] == d.entries[key]
    decreases |lines| - i
  {
    if i < |lines| && |lines[i]| >= 2 {
      GenoDictFromKeeps(lines, i + 1, Put(d, lines[i][1], PairAlleles(lines[i])), key);
    }
  }

  lemma {:induction false} GenoDictFromLastRow(lines: seq<Line>, i: nat, d: GenoDict, j: nat)
    requires i <= j < |lines| && |lines[j]| >= 2
    requires forall j' :: j < j' < |lines| && |lines[j']| >= 2 ==> lines[j'][1] != lines[j][1]
    ensures GenoDictFrom(lines, i, d).Ok? ==>
      lines[j][1] in GenoDictFrom(lines, i, d).value.entries &&
      GenoDictFrom(lines, i, d).value.entries[lines[j][1]] == PairAlleles(lines[j])
    decreases j - i
  {
    if |lines[i]| >= 2 {
      var next := Put(d, lines[i][1], PairAlleles(lines[i]));
      if i == j {
        GenoDictFromKeeps(lines, i + 1, next, lines[j][1]);
      } else {
        GenoDictFromLastRow(lines, i + 1, next, j);
      }
    }
  }

  /** When two lines share a sample id, the later line's genotypes replace the
      earlier ones: the entry of a sample is that of the last line naming it. */
  lemma LastRowWins(lines: seq<Line>, j: nat)
    requires j < |lines| && |lines[j]| >= 2
    requires forall j' :: j < j' < |lines| && |lines[j']| >= 2 ==> lines[j'][1] != lines[j][1]
    requires GenoDictOf(lines).Ok?
    ensures lines[j][1] in GenoDictOf(lines).value.entries
    ensures GenoDictOf(lines).value.entries[lines[j][1]] == PairAlleles(lines[j])
  {
    GenoDictFromLastRow(lines, 0, EmptyDict, j);
  }

  // ---------------------------------------------------------------------------
  // compare_genotypes

  /** `'0' in genotype`: one of the alleles is the missing-data token. */
  predicate HasMissing(g: Genotype)
  {
    g.allele1 == "0" || g.allele2 == "0"
  }

  /** `sorted(genotype)`, with Python's ordering of str. */
  function Sorted(g: Genotype): seq<string>
  {
    if StrLess(g.allele2, g.allele1) then [g.allele2, g.allele1] else [g.allele1, g.allele2]
  }

  /** The two genotypes hold the same alleles, in either order. */
  ghost predicate SameAlleles(g1: Genotype, g2: Genotype)
  {
    multiset{g1.allele1, g1.allele2} == multiset{g2.allele1, g2.allele2}
  }

  lemma SortedMultiset(g: Genotype)
    ensures multiset(Sorted(g)) == multiset{g.allele1, g.allele2}
  {
    if StrLess(g.allele2, g.allele1) {
      assert multiset([g.allele2, g.allele1]) == multiset{g.allele2, g.allele1};
    } else {
      assert multiset([g.allele1, g.allele2]) == multiset{g.allele1, g.allele2};
    }
  }

  lemma SortedSwap(a: string, b: string)
    ensures Sorted(Genotype(b, a)) == Sorted(Genotype(a, b))
  {
    StrLessTotalOrder(a, b);
  }

  lemma PairMultiset(a: string, b: string, c: string, d: string)
    requires multiset{a, b} == multiset{c, d}
    ensures (a == c && b == d) || (a == d && b == c)
  {
    assert a in multiset{c, d};
    if a == c {
      assert multiset{a, b} - multiset{a} == multiset{b};
      assert multiset{c, d} - multiset{c} == multiset{d};
    } else {
      assert multiset{a, b} - multiset{a} == multiset{b};
      assert multiset{c, d} - multiset{d} == multiset{c};
    }
  }

  /** Python's `sorted(g1) == sorted(g2)` holds exactly when the genotypes hold the
      same alleles, counted with multiplicity. */
  lemma SortedAgree(g1: Genotype, g2: Genotype)
    ensures Sorted(g1) == Sorted(g2) <==> SameAlleles(g1, g2)
  {
    SortedMultiset(g1);
    SortedMultiset(g2);
    if SameAlleles(g1, g2) {
      PairMultiset(g1.allele1, g1.allele2, g2.allele1, g2.allele2);
      SortedSwap(g2.allele1, g2.allele2);
    }
  }

  const Discordant: int := 0
  const Concordant: int := 1
  const Ignored: int := 2

  /** 2 (ignore) when either genotype has a missing allele, whatever the other
      alleles are; otherwise 1 (concordant) when both hold the same alleles in
      either order, and 0 (discordant) when they do not. */
  function CompareGenotypes(g1: Genotype, g2: Genotype): (r: int)
    ensures 0 <= r <= 2
    ensures r == Ignored <==> HasMissing(g1) || HasMissing(g2)
    ensures r == Concordant <==> !HasMissing(g1) && !HasMissing(g2) && SameAlleles(g1, g2)
    ensures r == Discordant <==> !HasMissing(g1) && !HasMissing(g2) && !SameAlleles(g1, g2)
  {
    SortedAgree(g1, g2);
    if HasMissing(g1) || HasMissing(g2) then Ignored
    else if Sorted(g1) == Sorted(g2) then Concordant
    else Discordant
  }

  /** The classification does not depend on the order of the arguments nor on
      the order of the alleles in either pair, and a genotype without a missing
      allele is concordant with itself. */
  lemma CompareSymmetries(a: string, b: string, c: string, d: string)
    ensures CompareGenotypes(Genotype(a, b), Genotype(c, d)) == CompareGenotypes(Genotype(c, d), Genotype(a, b))
    ensures CompareGenotypes(Genotype(a, b), Genotype(c, d)) == CompareGenotypes(Genotype(b, a), Genotype(c, d))
    ensures CompareGenotypes(Genotype(a, b), Genotype(c, d)) == CompareGenotypes(Genotype(a, b), Genotype(d, c))
    ensures a != "0" && b != "0" ==> CompareGenotypes(Genotype(a, b), Genotype(a, b)) == Concordant
  {
    assert multiset{a, b} == multiset{b, a};
    assert multiset{c, d} == multiset{d, c};
  }

  // ---------------------------------------------------------------------------
  // The counting loop of one sample (`for i, snp in enumerate(snps1)`)

  /** `concordances`, `discordances`, `ignores` and `not_found` of one sample. */
  datatype Tally = Tally(concordances: nat, discordances: nat, ignores: nat, notFound: nat)

  const NoCounts: Tally := Tally(0, 0, 0, 0)

  function Counted(t: Tally): nat
  {
    t.concordances + t.discordances + t.ignores + t.notFound
  }

  /** Adds a compare_genotypes result to its counter; any other value (the
      "something went wrong!" branch) changes nothing. */
  function Record(t: Tally, comparison: int): Tally
  {
    if comparison == Discordant then t.(discordances := t.discordances + 1)
    else if comparison == Concordant then t.(concordances := t.concordances + 1)
    else if comparison == Ignored then t.(ignores := t.ignores + 1)
    else t
  }

  /** One iteration of the loop over snps1 for a sample whose genotypes are geno1
      in dataset 1 and geno2 in dataset 2 (None where `genotypes2[sample]` raises
      KeyError). The sentinel is skipped; a key missing from snps2 only counts as
      not found; a key present is compared with the genotype at its FIRST
      position in snps2; every other entry adds one to exactly one counter. */
  function TallyStep(snps1: seq<string>, snps2: seq<string>, geno1: seq<Genotype>,
                     geno2: Option<seq<Genotype>>, i: nat, t: Tally): (r: Result<Tally>)
    requires i < |snps1|
    ensures snps1[i] == Sentinel ==> r == Ok(t)
    ensures snps1[i] != Sentinel && |geno1| <= i ==> r == Err(IndexError)
    ensures snps1[i] != Sentinel && i < |geno1| && snps1[i] !in snps2 ==>
      r == Ok(t.(notFound := t.notFound + 1))
    ensures snps1[i] != Sentinel && i < |geno1| && snps1[i] in snps2 && geno2.None? ==>
      r == Err(KeyError)
    ensures snps1[i] != Sentinel && i < |geno1| && snps1[i] in snps2 && geno2.Some? ==>
      var j := IndexOf(snps2, snps1[i]).value;
      r == if j < |geno2.value| then Ok(Record(t, CompareGenotypes(geno1[i], geno2.value[j])))
           else Err(IndexError)
    ensures r.Ok? ==> Counted(r.value) == Counted(t) + if snps1[i] == Sentinel then 0 else 1
  {
    var snp := snps1[i];
    if snp == Sentinel then Ok(t)
    else if |geno1| <= i then Err(IndexError)
    else
      match IndexOf(snps2, snp)
      case None => Ok(t.(notFound := t.notFound + 1))
      case Some(idx) =>
        if geno2.None? then Err(KeyError)
        else if |geno2.value| <= idx then Err(IndexError)
        else Ok(Record(t, CompareGenotypes(geno1[i], geno2.value[idx])))
  }

  /** The counters after the iterations i.. starting from t, or the exception
      that ends the run. */
  function TallyFrom(snps1: seq<string>, snps2: seq<string>, geno1: seq<Genotype>,
                     geno2: Option<seq<Genotype>>, i: nat, t: Tally): Result<Tally>
    decreases |snps1| - i
  {
    if i >= |snps1| then Ok(t)
    else
      match TallyStep(snps1, snps2, geno1, geno2, i, t)
      case Err(e) => Err(e)
      case Ok(next) => TallyFrom(snps1, snps2, geno1, geno2, i + 1, next)
  }

  function SampleTally(snps1: seq<string>, snps2: seq<string>, geno1: seq<Genotype>,
                       geno2: Option<seq<Genotype>>): Result<Tally>
  {
    TallyFrom(snps1, snps2, geno1, geno2, 0, NoCounts)
  }

  /** The number of entries of snps that are not the sentinel. */
  function NonSentinelCount(snps: seq<string>): nat
    decreases |snps|
  {
    if |snps| == 0 then 0
    else (if snps[0] == Sentinel then 0 else 1) + NonSentinelCount(snps[1..])
  }

  lemma {:induction false} TallyFromAccounts(snps1: seq<string>, snps2: seq<string>, geno1: seq<Genotype>,
                                             geno2: Option<seq<Genotype>>, i: nat, t: Tally)
    requires i <= |snps1|
    ensures TallyFrom(snps1, snps2, geno1, geno2, i, t).Ok? ==>
      Counted(TallyFrom(snps1, snps2, geno1, geno2, i, t).value) == Counted(t) + NonSentinelCount(snps1[i..])
    decreases |snps1| - i
  {
    if i < |snps1| {
      assert snps1[i..][1..] == snps1[i + 1..];
      match TallyStep(snps1, snps2, geno1, geno2, i, t)
      case Err(_) =>
      case Ok(next) => TallyFromAccounts(snps1, snps2, geno1, geno2, i + 1, next);
    }
  }

  /** Every entry of snps1 other than the sentinel is counted exactly once, as a
      concordance, a discordance, an ignore or a not-found. */
  lemma SampleTallyAccounts(snps1: seq<string>, snps2: seq<string>, geno1: seq<Genotype>,
                            geno2: Option<seq<Genotype>>)
    ensures SampleTally(snps1, snps2, geno1, geno2).Ok? ==>
      Counted(SampleTally(snps1, snps2, geno1, geno2).value) == NonSentinelCount(snps1)
  {
    TallyFromAccounts(snps1, snps2, geno1, geno2, 0, NoCounts);
    assert snps1[0..] == snps1;
  }

  method CountSample(snps1: seq<string>, snps2: seq<string>, geno1: seq<Genotype>,
                     geno2: Option<seq<Genotype>>) returns (r: Result<Tally>)
    ensures r == SampleTally(snps1, snps2, geno1, geno2)
    ensures r.Ok? ==> Counted(r.value) == NonSentinelCount(snps1)
  {
    var concordances: nat, discordances: nat, ignores: nat, notFound: nat := 0, 0, 0, 0;
    var i := 0;
    while i < |snps1|
      invariant 0 <= i <= |snps1|
      invariant TallyFrom(snps1, snps2, geno1, geno2, i, Tally(concordances, discordances, ignores, notFound))
             == SampleTally(snps1, snps2, geno1, geno2)
    {
      var snp := snps1[i];
      if snp == Sentinel {
        i := i + 1;
        continue;
      }
      if |geno1| <= i {
        return Err(IndexError);
      }
      var g1 := geno1[i];
      var idx := IndexOf(snps2, snp);
      if idx.None? {
        notFound := notFound + 1;
        i := i + 1;
        continue;
      }
      if geno2.None? {
        return Err(KeyError);
      }
      if |geno2.value| <= idx.value {
        return Err(IndexError);
      }
      var comparison := CompareGenotypes(g1, geno2.value[idx.value]);
      if comparison == Discordant {
        discordances := discordances + 1;
      } else if comparison == Concordant {
        concordances := concordances + 1;
      } else if comparison == Ignored {
        ignores := ignores + 1;
      }
      i := i + 1;
    }
    r := Ok(Tally(concordances, discordances, ignores, notFound));
    SampleTallyAccounts(snps1, snps2, geno1, geno2);
  }

  // ---------------------------------------------------------------------------
  // concordance_rate and total_positions

  /** `concordances / (concordances + discordances)`, kept as a fraction. */
  datatype Rate = Rate(numerator: nat, denominator: nat)

  /** What the report line of one sample states. */
  datatype Summary = Summary(sample: string, totalPositions: nat, rate: Rate, ignores: nat, notFound: nat)

  /** The division raises ZeroDivisionError when nothing was concordant or
      discordant; otherwise the rate lies in [0, 1] and the total counts the
      compared positions, not the ones missing from dataset 2. */
  function Summarize(sample: string, t: Tally): (r: Result<Summary>)
    ensures r.Err? <==> t.concordances + t.discordances == 0
    ensures r.Err? ==> r.error == ZeroDivisionError
    ensures r.Ok? ==> r.value.sample == sample && r.value.ignores == t.ignores && r.value.notFound == t.notFound
    ensures r.Ok? ==> r.value.totalPositions + r.value.notFound == Counted(t)
    ensures r.Ok? ==> 0 <= r.value.rate.numerator <= r.value.rate.denominator && 0 < r.value.rate.denominator
    ensures r.Ok? ==> r.value.rate.numerator == t.concordances
    ensures r.Ok? ==> r.value.rate.denominator == t.concordances + t.discordances
  {
    if t.concordances + t.discordances == 0 then Err(ZeroDivisionError)
    else
      Ok(Summary(sample, t.concordances + t.discordances + t.ignores,
                 Rate(t.concordances, t.concordances + t.discordances), t.ignores, t.notFound))
  }

  // ---------------------------------------------------------------------------
  // The loop over the samples of dataset 1 (`for sample in genotypes1`)

  /** What was printed, one summary per sample in dictionary order, and the
      exception that ended the run, if one did. */
  datatype Report = Report(summaries: seq<Summary>, failure: Option<Failure>)

  /** `genotypes2[sample]`, None where it raises KeyError. */
  function Lookup(d: GenoDict, sample: string): Option<seq<Genotype>>
  {
    if sample in d.entries then Some(d.entries[sample]) else None
  }

  function SampleSummary(snps1: seq<string>, snps2: seq<string>, g1: GenoDict, g2: GenoDict, sample: string)
    : Result<Summary>
    requires sample in g1.entries
  {
    match SampleTally(snps1, snps2, g1.entries[sample], Lookup(g2, sample))
    case Err(e) => Err(e)
    case Ok(t) => Summarize(sample, t)
  }

  /** The report once the samples g1.order[k..] remain and done are printed. */
  function ReportFrom(snps1: seq<string>, snps2: seq<string>, g1: GenoDict, g2: GenoDict,
                      k: nat, done: seq<Summary>): Report
    requires ValidDict(g1)
    decreases |g1.order| - k
  {
    if k >= |g1.order| then Report(done, None)
    else
      match SampleSummary(snps1, snps2, g1, g2, g1.order[k])
      case Err(e) => Report(done, Some(e))
      case Ok(s) => ReportFrom(snps1, snps2, g1, g2, k + 1, done + [s])
  }

  function ConcordanceOf(snps1: seq<string>, snps2: seq<string>, g1: GenoDict, g2: GenoDict): Report
    requires ValidDict(g1)
  {
    ReportFrom(snps1, snps2, g1, g2, 0, [])
  }

  lemma {:induction false} ReportFromLength(snps1: seq<string>, snps2: seq<string>, g1: GenoDict, g2: GenoDict,
                                            k: nat, done: seq<Summary>)
    requires ValidDict(g1) && k <= |g1.order| && |done| == k
    ensures var rep := ReportFrom(snps1, snps2, g1, g2, k, done);
      && k <= |rep.summaries| <= |g1.order|
      && (rep.failure.None? <==> |rep.summaries| == |g1.order|)
    decreases |g1.order| - k
  {
    if k < |g1.order| {
      var r := SampleSummary(snps1, snps2, g1, g2, g1.order[k]);
      if r.Ok? {
        ReportFromLength(snps1, snps2, g1, g2, k + 1, done + [r.value]);
      }
    }
  }

  lemma PrintedExtend(snps1: seq<string>, snps2: seq<string>, g1: GenoDict, g2: GenoDict,
                      done: seq<Summary>, next: Summary)
    requires ValidDict(g1) && |done| < |g1.order|
    requires forall j :: 0 <= j < |done| ==> SampleSummary(snps1, snps2, g1, g2, g1.order[j]) == Ok(done[j])
    requires SampleSummary(snps1, snps2, g1, g2, g1.order[|done|]) == Ok(next)
    ensures forall j :: 0 <= j < |done| + 1 ==>
      SampleSummary(snps1, snps2, g1, g2, g1.order[j]) == Ok((done + [next])[j])
  {
    forall j | 0 <= j < |done| + 1
      ensures SampleSummary(snps1, snps2, g1, g2, g1.order[j]) == Ok((done + [next])[j])
    {
      if j < |done| {
        assert (done + [next])[j] == done[j];
      }
    }
  }

  lemma {:induction false} ReportFromPrinted(snps1: seq<string>, snps2: seq<string>, g1: GenoDict, g2: GenoDict,
                                             k: nat, done: seq<Summary>)
    requires ValidDict(g1) && k <= |g1.order| && |done| == k
    requires forall j :: 0 <= j < k ==> SampleSummary(snps1, snps2, g1, g2, g1.order[j]) == Ok(done[j])
    ensures var rep := ReportFrom(snps1, snps2, g1, g2, k, done);
      |rep.summaries| <= |g1.order| &&
      forall j :: 0 <= j < |rep.summaries| ==> SampleSummary(snps1, snps2, g1, g2, g1.order[j]) == Ok(rep.summaries[j])
    decreases |g1.order| - k
  {
    if k < |g1.order| {
      var r := SampleSummary(snps1, snps2, g1, g2, g1.order[k]);
      if r.Ok? {
        PrintedExtend(snps1, snps2, g1, g2, done, r.value);
        ReportFromPrinted(snps1, snps2, g1, g2, k + 1, done + [r.value]);
      }
    }
  }

  lemma {:induction false} ReportFromFailure(snps1: seq<string>, snps2: seq<string>, g1: GenoDict, g2: GenoDict,
                                             k: nat, done: seq<Summary>)
    requires ValidDict(g1) && k <= |g1.order| && |done| == k
    ensures var rep := ReportFrom(snps1, snps2, g1, g2, k, done);
      rep.failure.Some? ==>
        |rep.summaries| < |g1.order| &&
        SampleSummary(snps1, snps2, g1, g2, g1.order[|rep.summaries|]) == Err(rep.failure.value)
    decreases |g1.order| - k
  {
    if k < |g1.order| {
      var r := SampleSummary(snps1, snps2, g1, g2, g1.order[k]);
      if r.Ok? {
        ReportFromFailure(snps1, snps2, g1, g2, k + 1, done + [r.value]);
      }
    }
  }

  /** The report holds one summary per sample of dataset 1, in dictionary order,
      up to the first sample whose counting or rate raises; that exception ends it. */
  lemma ReportShape(snps1: seq<string>, snps2: seq<string>, g1: GenoDict, g2: GenoDict)
    requires ValidDict(g1)
    ensures var rep := ConcordanceOf(snps1, snps2, g1, g2);
      && |rep.summaries| <= |g1.order|
      && (forall j :: 0 <= j < |rep.summaries| ==>
            SampleSummary(snps1, snps2, g1, g2, g1.order[j]) == Ok(rep.summaries[j]) &&
            rep.summaries[j].sample == g1.order[j])
      && (rep.failure.None? <==> |rep.summaries| == |g1.order|)
      && (rep.failure.Some? ==>
            SampleSummary(snps1, snps2, g1, g2, g1.order[|rep.summaries|]) == Err(rep.failure.value))
  {
    ReportFromLength(snps1, snps2, g1, g2, 0, []);
    ReportFromPrinted(snps1, snps2, g1, g2, 0, []);
    ReportFromFailure(snps1, snps2, g1, g2, 0, []);
    var rep := ConcordanceOf(snps1, snps2, g1, g2);
    forall j | 0 <= j < |rep.summaries| ensures rep.summaries[j].sample == g1.order[j] {
      assert SampleSummary(snps1, snps2, g1, g2, g1.order[j]) == Ok(rep.summaries[j]);
    }
  }

  /** Every printed summary accounts for all non-sentinel SNPs of dataset 1:
      total positions plus not-found is their number, and its rate is a fraction
      in [0, 1] with a positive denominator. */
  lemma SummaryAccounts(snps1: seq<string>, snps2: seq<string>, g1: GenoDict, g2: GenoDict, sample: string)
    requires sample in g1.entries
    ensures SampleSummary(snps1, snps2, g1, g2, sample).Ok? ==>
      var s := SampleSummary(snps1, snps2, g1, g2, sample).value;
      s.sample == sample && s.totalPositions + s.notFound == NonSentinelCount(snps1) &&
      s.rate.numerator <= s.rate.denominator && 0 < s.rate.denominator
  {
    SampleTallyAccounts(snps1, snps2, g1.entries[sample], Lookup(g2, sample));
  }

  method ConcordanceReport(snps1: seq<string>, snps2: seq<string>, g1: GenoDict, g2: GenoDict)
    returns (rep: Report)
    requires ValidDict(g1)
    ensures rep == ConcordanceOf(snps1, snps2, g1, g2)
    ensures |rep.summaries| <= |g1.order|
    ensures forall j :: 0 <= j < |rep.summaries| ==> rep.summaries[j].sample == g1.order[j]
    ensures rep.failure.None? <==> |rep.summaries| == |g1.order|
  {
    var printed: seq<Summary> := [];
    var k := 0;
    while k < |g1.order|
      invariant 0 <= k <= |g1.order| && |printed| == k
      invariant ReportFrom(snps1, snps2, g1, g2, k, printed) == ConcordanceOf(snps1, snps2, g1, g2)
    {
      var sample := g1.order[k];
      var tally := CountSample(snps1, snps2, g1.entries[sample], Lookup(g2, sample));
      if tally.Err? {
        rep := Report(printed, Some(tally.error));
        ReportShape(snps1, snps2, g1, g2);
        return;
      }
      var summary := Summarize(sample, tally.value);
      if summary.Err? {
        rep := Report(printed, Some(summary.error));
        ReportShape(snps1, snps2, g1, g2);
        return;
      }
      printed := printed + [summary.value];
      k := k + 1;
    }
    rep := Report(printed, None);
    ReportShape(snps1, snps2, g1, g2);
  }

  // ---------------------------------------------------------------------------
  // The whole script

  /** The report of the script run on the split lines of map1, ped1, map2 and
      ped2; an input that fails to parse ends the run before any line is printed. */
  function Concordance(map1: seq<Line>, ped1: seq<Line>, map2: seq<Line>, ped2: seq<Line>): Report
  {
    match CoordList(map1)
    case Err(e) => Report([], Some(e))
    case Ok(snps1) =>
      match CoordList(map2)
      case Err(e) => Report([], Some(e))
      case Ok(snps2) =>
        match GenoDictOf(ped1)
        case Err(e) => Report([], Some(e))
        case Ok(g1) =>
          match GenoDictOf(ped2)
          case Err(e) => Report([], Some(e))
          case Ok(g2) =>
            GenoDictOutcome(ped1);
            ConcordanceOf(snps1, snps2, g1, g2)
  }

  method RunConcordance(map1: seq<Line>, ped1: seq<Line>, map2: seq<Line>, ped2: seq<Line>)
    returns (rep: Report)
    ensures rep == Concordance(map1, ped1, map2, ped2)
  {
    var snps1 := MakeCoordList(map1);
    if snps1.Err? { return Report([], Some(snps1.error)); }
    var snps2 := MakeCoordList(map2);
    if snps2.Err? { return Report([], Some(snps2.error)); }
    var genotypes1 := MakeGenoDict(ped1);
    if genotypes1.Err? { return Report([], Some(genotypes1.error)); }
    var genotypes2 := MakeGenoDict(ped2);
    if genotypes2.Err? { return Report([], Some(genotypes2.error)); }
    rep := ConcordanceReport(snps1.value, snps2.value, genotypes1.value, genotypes2.value);
  }

  // ---------------------------------------------------------------------------
  // Self-concordance

  lemma SelfTallyStep(snps: seq<string>, geno: seq<Genotype>, i: nat, t: Tally)
    requires Distinct(snps) && |snps| <= |geno| && i < |snps|
    requires t.discordances == 0 && t.notFound == 0
    ensures TallyStep(snps, snps, geno, Some(geno), i, t).Ok?
    ensures TallyStep(snps, snps, geno, Some(geno), i, t).value.discordances == 0
    ensures TallyStep(snps, snps, geno, Some(geno), i, t).value.notFound == 0
    ensures TallyStep(snps, snps, geno, Some(geno), i, t).value.concordances ==
      t.concordances + if snps[i] != Sentinel && !HasMissing(geno[i]) then 1 else 0
  {
    if snps[i] != Sentinel {
      var idx := IndexOf(snps, snps[i]);
      assert idx == Some(i);
      var g := geno[i];
      CompareSymmetries(g.allele1, g.allele2, g.allele1, g.allele2);
      assert CompareGenotypes(g, g) != Discordant;
    }
  }

  lemma {:induction false} SelfTallyFrom(snps: seq<string>, geno: seq<Genotype>, i: nat, t: Tally)
    requires Distinct(snps) && |snps| <= |geno| && i <= |snps|
    requires t.discordances == 0 && t.notFound == 0
    ensures TallyFrom(snps, snps, geno, Some(geno), i, t).Ok?
    ensures TallyFrom(snps, snps, geno, Some(geno), i, t).value.discordances == 0
    ensures TallyFrom(snps, snps, geno, Some(geno), i, t).value.notFound == 0
    ensures TallyFrom(snps, snps, geno, Some(geno), i, t).value.concordances >= t.concordances
    ensures TallyFrom(snps, snps, geno, Some(geno), i, t).value.concordances == t.concordances ==>
      forall j :: i <= j < |snps| && snps[j] != Sentinel ==> HasMissing(geno[j])
    decreases |snps| - i
  {
    if i < |snps| {
      SelfTallyStep(snps, geno, i, t);
      SelfTallyFrom(snps, geno, i + 1, TallyStep(snps, snps, geno, Some(geno), i, t).value);
    }
  }

  /** A dataset compared with itself, when its coordinate keys are distinct and
      every genotype list covers the map: every summary has no not-found SNP and a
      rate of 1 (numerator equal to denominator), and the only exception is the
      ZeroDivisionError of a sample whose genotypes at every non-sentinel SNP
      hold missing data. */
  lemma SelfConcordance(snps: seq<string>, g: GenoDict)
    requires ValidDict(g) && Distinct(snps)
    requires forall s :: s in g.entries ==> |snps| <= |g.entries[s]|
    ensures var rep := ConcordanceOf(snps, snps, g, g);
      && (forall j :: 0 <= j < |rep.summaries| ==>
           rep.summaries[j].notFound == 0 && rep.summaries[j].rate.numerator == rep.summaries[j].rate.denominator)
      && (rep.failure.Some? ==>
           && rep.failure.value == ZeroDivisionError
           && |rep.summaries| < |g.order|
           && g.order[|rep.summaries|] in g.entries
           && forall i :: 0 <= i < |snps| && snps[i] != Sentinel ==>
                HasMissing(g.entries[g.order[|rep.summaries|]][i]))
  {
    ReportShape(snps, snps, g, g);
    var rep := ConcordanceOf(snps, snps, g, g);
    forall j | 0 <= j < |rep.summaries|
      ensures rep.summaries[j].notFound == 0 && rep.summaries[j].rate.numerator == rep.summaries[j].rate.denominator
    {
      SelfTallyFrom(snps, g.entries[g.order[j]], 0, NoCounts);
    }
    if rep.failure.Some? {
      var sample := g.order[|rep.summaries|];
      SelfTallyFrom(snps, g.entries[sample], 0, NoCounts);
      assert SampleTally(snps, snps, g.entries[sample], Lookup(g, sample)).Ok?;
    }
  }
}
