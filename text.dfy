/** The pieces of Python's string and list behaviour that the two scripts rely on:
    `str.split(c)`, `str.join`, `str.strip(chars)`, ordering of `str`, `int(...)`,
    `str(...)` of an int, extended slices `s[start::step]` and `list.index`. */
module Text {
  import opened Results

  /** `sep.join(parts)` */
  function Join(parts: seq<string>, sep: string): string
    decreases |parts|
  {
    if |parts| == 0 then ""
    else if |parts| == 1 then parts[0]
    else parts[0] + sep + Join(parts[1..], sep)
  }

  /** `s.split(c)` with a one-character separator: the pieces between the
      occurrences of c, empty pieces included, so there is always one piece more
      than there are separators. */
  function Split(s: string, c: char): (r: seq<string>)
    ensures |r| >= 1
    ensures forall k :: 0 <= k < |r| ==> c !in r[k]
    decreases |s|
  {
    if |s| == 0 then [""]
    else
      var rest := Split(s[1..], c);
      if s[0] == c then [""] + rest
      else [[s[0]] + rest[0]] + rest[1..]
  }

  /** s with every occurrence of a replaced by b. */
  function ReplaceChar(s: string, a: char, b: char): string
  {
    seq(|s|, k requires 0 <= k < |s| => if s[k] == a then b else s[k])
  }

  /** Splitting at a and joining with b replaces every a by b. */
  lemma {:induction false} JoinSplitReplaces(s: string, a: char, b: char)
    ensures Join(Split(s, a), [b]) == ReplaceChar(s, a, b)
    decreases |s|
  {
    if |s| > 0 {
      JoinSplitReplaces(s[1..], a, b);
      var rest := Split(s[1..], a);
      if s[0] == a {
        assert ([""] + rest)[1..] == rest;
      } else if |rest| > 1 {
        assert ([[s[0]] + rest[0]] + rest[1..])[1..] == rest[1..];
      }
      assert ReplaceChar(s, a, b) == [if s[0] == a then b else s[0]] + ReplaceChar(s[1..], a, b);
    }
  }

  /** Joining the pieces of a split with the same separator gives back the string. */
  lemma JoinSplit(s: string, c: char)
    ensures Join(Split(s, c), [c]) == s
  {
    JoinSplitReplaces(s, c, c);
    assert ReplaceChar(s, c, c) == s;
  }

  lemma {:induction false} SplitWithoutSeparator(x: string, c: char)
    requires c !in x
    ensures Split(x, c) == [x]
    decreases |x|
  {
    if |x| > 0 {
      SplitWithoutSeparator(x[1..], c);
      assert [x[0]] + x[1..] == x;
    }
  }

  lemma {:induction false} SplitFirstPiece(x: string, y: string, c: char)
    requires c !in x
    ensures Split(x + [c] + y, c) == [x] + Split(y, c)
    decreases |x|
  {
    var s := x + [c] + y;
    if |x| == 0 {
      assert s == [c] + y && s[1..] == y;
    } else {
      assert s[1..] == x[1..] + [c] + y;
      SplitFirstPiece(x[1..], y, c);
      assert [x[0]] + x[1..] == x;
    }
  }

  /** Splitting a join gives back the parts, as long as no part holds the separator. */
  lemma {:induction false} SplitJoin(parts: seq<string>, c: char)
    requires |parts| >= 1
    requires forall k :: 0 <= k < |parts| ==> c !in parts[k]
    ensures Split(Join(parts, [c]), c) == parts
    decreases |parts|
  {
    if |parts| == 1 {
      SplitWithoutSeparator(parts[0], c);
    } else {
      SplitJoin(parts[1..], c);
      SplitFirstPiece(parts[0], Join(parts[1..], [c]), c);
      assert [parts[0]] + parts[1..] == parts;
    }
  }

  /** The last piece of a split is a suffix without c that is either the whole
      string or preceded by c: Python's `s.split(c)[-1]`. */
  lemma {:induction false} LastPiece(s: string, c: char)
    ensures var r := Split(s, c); var p := r[|r| - 1];
      |p| <= |s| && p == s[|s| - |p|..] &&
      if |r| == 1 then p == s else |p| < |s| && s[|s| - |p| - 1] == c
    decreases |s|
  {
    if |s| > 0 {
      LastPiece(s[1..], c);
      var rest := Split(s[1..], c);
      if s[0] != c && |rest| == 1 {
        assert [s[0]] + s[1..] == s;
      }
    }
  }

  /** The first piece of a split is a prefix without c that is either the whole
      string or followed by c: Python's `s.split(c)[0]`. */
  lemma {:induction false} FirstPiece(s: string, c: char)
    ensures var p := Split(s, c)[0];
      |p| <= |s| && p == s[..|p|] && (|p| == |s| || s[|p|] == c)
    decreases |s|
  {
    if |s| > 0 && s[0] != c {
      FirstPiece(s[1..], c);
    }
  }

  /** How many leading characters of s are in cs. */
  function LeadingIn(s: string, cs: set<char>): (n: nat)
    ensures n <= |s|
    ensures forall k :: 0 <= k < n ==> s[k] in cs
    ensures n < |s| ==> s[n] !in cs
    decreases |s|
  {
    if |s| > 0 && s[0] in cs then 1 + LeadingIn(s[1..], cs) else 0
  }

  /** How many trailing characters of s are in cs. */
  function TrailingIn(s: string, cs: set<char>): (n: nat)
    ensures n <= |s|
    ensures forall k :: |s| - n <= k < |s| ==> s[k] in cs
    ensures n < |s| ==> s[|s| - 1 - n] !in cs
    decreases |s|
  {
    if |s| > 0 && s[|s| - 1] in cs then 1 + TrailingIn(s[..|s| - 1], cs) else 0
  }

  /** `s.strip(chars)`: the result is the slice of s left once every leading and
      every trailing character from cs is dropped; it neither starts nor ends
      with one of them. */
  function Strip(s: string, cs: set<char>): (r: string)
    ensures LeadingIn(s, cs) + |r| <= |s|
    ensures r == s[LeadingIn(s, cs)..LeadingIn(s, cs) + |r|]
    ensures forall k :: LeadingIn(s, cs) + |r| <= k < |s| ==> s[k] in cs
    ensures |r| > 0 ==> r[0] !in cs && r[|r| - 1] !in cs
  {
    var t := s[LeadingIn(s, cs)..];
    var n := TrailingIn(t, cs);
    assert forall k :: LeadingIn(s, cs) + |t| - n <= k < |s| ==> s[k] == t[k - LeadingIn(s, cs)];
    t[..|t| - n]
  }

  /** Python's `a < b` on str: the first differing code point decides, and a
      proper prefix comes first. */
  predicate StrLess(a: string, b: string)
    decreases |a|
  {
    if |a| == 0 then |b| > 0
    else if |b| == 0 then false
    else if a[0] != b[0] then a[0] < b[0]
    else StrLess(a[1..], b[1..])
  }

  /** StrLess is a strict total order. */
  lemma {:induction false} StrLessTotalOrder(a: string, b: string)
    ensures !StrLess(a, a)
    ensures !(StrLess(a, b) && StrLess(b, a))
    ensures a != b ==> StrLess(a, b) || StrLess(b, a)
    decreases |a|
  {
    if |a| > 0 {
      StrLessTotalOrder(a[1..], a[1..]);
      if |b| > 0 && a[0] == b[0] {
        StrLessTotalOrder(a[1..], b[1..]);
        if a[1..] == b[1..] {
          assert a == [a[0]] + a[1..] && b == [b[0]] + b[1..];
        }
      }
    }
  }

  predicate IsDigit(ch: char)
  {
    '0' <= ch <= '9'
  }

  /** A non-empty run of ASCII digits. */
  predicate IsNumeral(s: string)
  {
    |s| > 0 && forall k :: 0 <= k < |s| ==> IsDigit(s[k])
  }

  /** The value of a run of decimal digits. */
  function NumeralValue(s: string): nat
    requires forall k :: 0 <= k < |s| ==> IsDigit(s[k])
    decreases |s|
  {
    if |s| == 0 then 0
    else
      assert IsDigit(s[|s| - 1]);
      10 * NumeralValue(s[..|s| - 1]) + (s[|s| - 1] as int - '0' as int)
  }

  /** `int(s)` for a token: an optional sign and decimal digits; None where
      Python raises ValueError. */
  function ParseInt(s: string): Option<int>
  {
    if |s| > 0 && (s[0] == '+' || s[0] == '-') then
      if IsNumeral(s[1..]) then
        Some(if s[0] == '-' then -(NumeralValue(s[1..]) as int) else NumeralValue(s[1..]))
      else None
    else if IsNumeral(s) then Some(NumeralValue(s))
    else None
  }

  /** The decimal digits of n, without leading zeros. */
  function NatToString(n: nat): (r: string)
    ensures IsNumeral(r)
    ensures NumeralValue(r) == n
    decreases n
  {
    var last := [('0' as int + n % 10) as char];
    if n < 10 then last
    else
      var init := NatToString(n / 10);
      assert (init + last)[..|init|] == init;
      init + last
  }

  /** `str(n)` for an int; `int()` reads it back. */
  function IntToString(n: int): (r: string)
    ensures ParseInt(r) == Some(n)
  {
    if n < 0 then
      var digits := NatToString(-n);
      assert ("-" + digits)[1..] == digits;
      "-" + digits
    else NatToString(n)
  }

  /** The extended slice `s[start::step]`. */
  function Stride<T>(s: seq<T>, start: nat, step: nat): (r: seq<T>)
    requires step > 0
    decreases |s| - start
  {
    if start >= |s| then [] else [s[start]] + Stride(s, start + step, step)
  }

  /** Element k of `s[start::step]` is `s[start + step * k]`, and the slice takes
      every such index that is in range, and no more. */
  lemma {:induction false} StrideAt<T>(s: seq<T>, start: nat, step: nat, k: nat)
    requires step > 0
    ensures k < |Stride(s, start, step)| <==> start + step * k < |s|
    ensures k < |Stride(s, start, step)| ==> Stride(s, start, step)[k] == s[start + step * k]
    decreases |s| - start
  {
    if start < |s| && k > 0 {
      StrideAt(s, start + step, step, k - 1);
      assert start + step + step * (k - 1) == start + step * k;
    }
  }

  /** StrideAt for every index at once. */
  lemma StrideAll<T>(s: seq<T>, start: nat, step: nat)
    requires step > 0
    ensures forall k :: 0 <= k < |Stride(s, start, step)| ==>
      start + step * k < |s| && Stride(s, start, step)[k] == s[start + step * k]
    ensures start + step * |Stride(s, start, step)| >= |s|
  {
    forall k | 0 <= k < |Stride(s, start, step)|
      ensures start + step * k < |s| && Stride(s, start, step)[k] == s[start + step * k]
    {
      StrideAt(s, start, step, k);
    }
    StrideAt(s, start, step, |Stride(s, start, step)|);
  }

  /** `s.index(x)`: the first position holding x, or None where Python raises
      ValueError. */
  function IndexOf<T(==)>(s: seq<T>, x: T): (r: Option<nat>)
    ensures r.None? <==> x !in s
    ensures r.Some? ==> r.value < |s| && s[r.value] == x
    ensures r.Some? ==> forall j :: 0 <= j < r.value ==> s[j] != x
    decreases |s|
  {
    if |s| == 0 then None
    else if s[0] == x then Some(0)
    else
      match IndexOf(s[1..], x)
      case None => None
      case Some(k) => Some(k + 1)
  }

  /** The distinct values of s, each once, in the order of their first occurrence:
      the key order of a Python dict filled by assigning the keys of s in turn. */
  function FirstOccurrences<T(==, !new)>(s: seq<T>): (r: seq<T>)
    ensures Distinct(r)
    ensures forall x :: x in r <==> x in s
    decreases |s|
  {
    if |s| == 0 then []
    else
      var seen := FirstOccurrences(s[..|s| - 1]);
      if s[|s| - 1] in seen then seen else seen + [s[|s| - 1]]
  }

  /** A value that occurs in a prefix is first found there. */
  lemma {:induction false} IndexOfPrefix<T>(s: seq<T>, n: nat, x: T)
    requires n <= |s| && x in s[..n]
    ensures IndexOf(s, x) == IndexOf(s[..n], x)
    decreases n
  {
    if s[0] != x {
      assert s[1..][..n - 1] == s[..n][1..];
      IndexOfPrefix(s[1..], n - 1, x);
    }
  }

  lemma IndexOfLast<T>(s: seq<T>)
    requires |s| > 0 && s[|s| - 1] !in s[..|s| - 1]
    ensures IndexOf(s, s[|s| - 1]) == Some(|s| - 1)
  {
    assert forall j :: 0 <= j < |s| - 1 ==> s[..|s| - 1][j] == s[j];
  }

  /** Extending a prefix by one element extends its first occurrences by that
      element exactly when it is new. */
  lemma FirstOccurrencesSnoc<T(!new)>(s: seq<T>, n: nat)
    requires n < |s|
    ensures FirstOccurrences(s[..n + 1]) ==
      if s[n] in FirstOccurrences(s[..n]) then FirstOccurrences(s[..n])
      else FirstOccurrences(s[..n]) + [s[n]]
  {
    assert s[..n + 1][..n] == s[..n];
  }

  lemma {:induction false} FirstOccurrencesPair<T(!new)>(s: seq<T>, a: nat, b: nat)
    requires a < b < |FirstOccurrences(s)|
    ensures var r := FirstOccurrences(s);
      r[a] in s && r[b] in s && IndexOf(s, r[a]).value < IndexOf(s, r[b]).value
    decreases |s|
  {
    var init := s[..|s| - 1];
    var last := s[|s| - 1];
    var seen := FirstOccurrences(init);
    var r := FirstOccurrences(s);
    assert r == if last in seen then seen else seen + [last];
    assert r[a] == seen[a] && seen[a] in init;
    IndexOfPrefix(s, |s| - 1, seen[a]);
    if b < |seen| {
      assert r[b] == seen[b] && seen[b] in init;
      IndexOfPrefix(s, |s| - 1, seen[b]);
      FirstOccurrencesPair(init, a, b);
    } else {
      assert r[b] == last && last !in init;
      IndexOfLast(s);
    }
  }

  /** The values of FirstOccurrences come in increasing order of their first
      positions in s. */
  lemma FirstOccurrencesOrder<T(!new)>(s: seq<T>)
    ensures var r := FirstOccurrences(s);
      forall a, b :: 0 <= a < b < |r| ==>
        r[a] in s && r[b] in s && IndexOf(s, r[a]).value < IndexOf(s, r[b]).value
  {
    var r := FirstOccurrences(s);
    forall a, b | 0 <= a < b < |r|
      ensures r[a] in s && r[b] in s && IndexOf(s, r[a]).value < IndexOf(s, r[b]).value
    {
      FirstOccurrencesPair(s, a, b);
    }
  }

  predicate Distinct<T(==)>(s: seq<T>)
  {
    forall i, j :: 0 <= i < j < |s| ==> s[i] != s[j]
  }
}
