/** Product versions: dot-separated segments, numeric ones by value, and half-open ranges of them. */
module Versions {
  // ---------------------------------------------------------------- lexicographic comparison

  function Sign(n: int): int { if n < 0 then -1 else if n > 0 then 1 else 0 }

  /** The first difference decides; a missing element comes before a present one. */
  function Lexicographic<T>(a: seq<T>, b: seq<T>, cmp: (T, T) -> int): (r: int)
    decreases |a|
  {
    if a == [] || b == [] then Sign(|a| - |b|)
    else if cmp(a[0], b[0]) != 0 then Sign(cmp(a[0], b[0]))
    else Lexicographic(a[1..], b[1..], cmp)
  }

  /** cmp is a total preorder given by signs. */
  ghost predicate Ordered<T(!new)>(cmp: (T, T) -> int) {
    && (forall x, y :: Sign(cmp(x, y)) == -Sign(cmp(y, x)))
    && (forall x, y, z :: cmp(x, y) <= 0 && cmp(y, z) <= 0 ==> cmp(x, z) <= 0)
  }

  lemma {:induction false} Mirrored<T(!new)>(a: seq<T>, b: seq<T>, cmp: (T, T) -> int)
    requires Ordered(cmp)
    ensures Lexicographic(a, b, cmp) == -Lexicographic(b, a, cmp)
    decreases |a|
  {
    if a != [] && b != [] {
      assert Sign(cmp(a[0], b[0])) == -Sign(cmp(b[0], a[0]));
      Mirrored(a[1..], b[1..], cmp);
    }
  }

  lemma {:induction false} Transitive<T(!new)>(a: seq<T>, b: seq<T>, c: seq<T>, cmp: (T, T) -> int)
    requires Ordered(cmp) && Lexicographic(a, b, cmp) <= 0 && Lexicographic(b, c, cmp) <= 0
    ensures Lexicographic(a, c, cmp) <= 0
    decreases |a|
  {
    if a != [] && b != [] && c != [] {
      var x, y, z := a[0], b[0], c[0];
      assert Sign(cmp(x, y)) == -Sign(cmp(y, x)) && Sign(cmp(y, z)) == -Sign(cmp(z, y))
          && Sign(cmp(x, z)) == -Sign(cmp(z, x));
      assert cmp(x, z) <= 0;
      if cmp(x, z) == 0 {
        assert cmp(z, y) <= 0 && cmp(y, x) <= 0;
        Transitive(a[1..], b[1..], c[1..], cmp);
      }
    }
  }

  // ---------------------------------------------------------------- segments

  function CompareChars(x: char, y: char): int { x as int - y as int }

  function CompareText(a: string, b: string): int { Lexicographic(a, b, CompareChars) }

  predicate IsDigit(c: char) { '0' <= c <= '9' }

  predicate Digits(s: string) { forall i :: 0 <= i < |s| ==> IsDigit(s[i]) }

  predicate Numeric(s: string) { s != "" && Digits(s) }

  method IsNumeric(s: string) returns (r: bool)
    ensures r == Numeric(s)
  {
    if s == "" {
      return false;
    }
    var i := 0;
    while i < |s|
      invariant 0 <= i <= |s| && forall j :: 0 <= j < i ==> IsDigit(s[j])
    {
      if s[i] < '0' || s[i] > '9' {
        return false;
      }
      i := i + 1;
    }
    return true;
  }

  function TrimZeros(s: string): string {
    if s != "" && s[0] == '0' then TrimZeros(s[1..]) else s
  }

  function CompareSegment(a: string, b: string): int {
    if Numeric(a) && Numeric(b) then
      var x, y := TrimZeros(a), TrimZeros(b);
      if |x| != |y| then Sign(|x| - |y|) else CompareText(x, y)
    else if Numeric(a) then -1
    else if Numeric(b) then 1
    else CompareText(a, b)
  }

  function Pow(n: nat): (p: nat)
    ensures p > 0
  {
    if n == 0 then 1 else 10 * Pow(n - 1)
  }

  /** The integer a string of digits denotes. */
  function Value(s: string): nat
    requires Digits(s)
  {
    if s == "" then 0
    else
      ProductNat(s[0] as int - '0' as int, Pow(|s| - 1));
      (s[0] as int - '0' as int) * Pow(|s| - 1) + Value(s[1..])
  }

  lemma ProductNat(d: nat, p: nat)
    ensures d * p >= 0
  {
  }

  function Digit(s: string): nat
    requires Numeric(s)
  {
    s[0] as int - '0' as int
  }

  lemma {:induction false} ValueHead(s: string)
    requires Numeric(s)
    ensures Digit(s) <= 9 && Digits(s[1..]) && Value(s) == Digit(s) * Pow(|s| - 1) + Value(s[1..])
      && Pow(|s|) == 10 * Pow(|s| - 1)
  {
  }

  lemma Scale(d: int, e: int, p: nat)
    requires d < e
    ensures d * p + p <= e * p
  {
    assert (e - d - 1) * p >= 0;
  }

  lemma {:induction false} ValueBelow(s: string)
    requires Digits(s)
    ensures Value(s) < Pow(|s|)
  {
    if s != "" {
      ValueHead(s);
      hide Value, Pow;
      ValueBelow(s[1..]);
      Scale(Digit(s), 10, Pow(|s| - 1));
    }
  }

  lemma {:induction false} ValueAbove(s: string)
    requires Numeric(s) && s[0] != '0'
    ensures Value(s) >= Pow(|s| - 1)
  {
    var d, p := s[0] as int - '0' as int, Pow(|s| - 1);
    assert d >= 1;
    assert d * p >= p;
  }

  lemma {:induction false} TrimKeepsValue(s: string)
    requires Digits(s)
    ensures Digits(TrimZeros(s)) && Value(TrimZeros(s)) == Value(s) && (TrimZeros(s) != "" ==> TrimZeros(s)[0] != '0')
  {
    if s != "" && s[0] == '0' {
      TrimKeepsValue(s[1..]);
    }
  }

  lemma {:induction false} PowGrows(m: nat, n: nat)
    requires m <= n
    ensures Pow(m) <= Pow(n)
    decreases n
  {
    if m < n {
      PowGrows(m, n - 1);
    }
  }

  lemma {:induction false} ShorterIsSmaller(x: string, y: string)
    requires Digits(x) && Numeric(y) && y[0] != '0' && |x| < |y|
    ensures Value(x) < Value(y)
  {
    ValueBelow(x);
    ValueAbove(y);
    PowGrows(|x|, |y| - 1);
  }

  lemma {:induction false} SameLengthByText(x: string, y: string)
    requires Digits(x) && Digits(y) && |x| == |y|
    ensures CompareText(x, y) == Sign(Value(x) - Value(y))
  {
    if x != "" {
      hide Value, Pow;
      SameLengthByText(x[1..], y[1..]);
      ValueHead(x);
      ValueHead(y);
      ValueBelow(x[1..]);
      ValueBelow(y[1..]);
      if Digit(x) < Digit(y) {
        Scale(Digit(x), Digit(y), Pow(|x| - 1));
      } else if Digit(y) < Digit(x) {
        Scale(Digit(y), Digit(x), Pow(|x| - 1));
      }
    }
  }

  /** Numeric segments compare as the integers they denote, whatever their leading zeros and length. */
  lemma {:induction false} NumericByValue(a: string, b: string)
    requires Numeric(a) && Numeric(b)
    ensures CompareSegment(a, b) == Sign(Value(a) - Value(b))
  {
    TrimKeepsValue(a);
    TrimKeepsValue(b);
    var x, y := TrimZeros(a), TrimZeros(b);
    if |x| < |y| {
      ShorterIsSmaller(x, y);
    } else if |y| < |x| {
      ShorterIsSmaller(y, x);
    } else {
      SameLengthByText(x, y);
    }
  }

  lemma CharsOrdered()
    ensures Ordered(CompareChars)
  {
  }

  lemma SegmentMirrored(a: string, b: string)
    ensures CompareSegment(a, b) == -CompareSegment(b, a)
  {
    CharsOrdered();
    if Numeric(a) && Numeric(b) {
      NumericByValue(a, b);
      NumericByValue(b, a);
    } else {
      Mirrored(a, b, CompareChars);
    }
  }

  lemma SegmentTransitive(a: string, b: string, c: string)
    requires CompareSegment(a, b) <= 0 && CompareSegment(b, c) <= 0
    ensures CompareSegment(a, c) <= 0
  {
    CharsOrdered();
    if Numeric(a) && Numeric(b) && Numeric(c) {
      NumericByValue(a, b);
      NumericByValue(b, c);
      NumericByValue(a, c);
    } else if !Numeric(a) && !Numeric(b) && !Numeric(c) {
      Transitive(a, b, c, CompareChars);
    }
  }

  lemma SegmentsOrdered()
    ensures Ordered(CompareSegment)
  {
    forall a, b ensures Sign(CompareSegment(a, b)) == -Sign(CompareSegment(b, a)) {
      SegmentMirrored(a, b);
    }
    forall a, b, c | CompareSegment(a, b) <= 0 && CompareSegment(b, c) <= 0 ensures CompareSegment(a, c) <= 0 {
      SegmentTransitive(a, b, c);
    }
  }

  // ---------------------------------------------------------------- versions

  /** strings.Split at every dot; never empty. */
  function Split(s: string): (r: seq<string>)
    ensures r != []
  {
    if s == "" then [""]
    else
      var rest := Split(s[1..]);
      if s[0] == '.' then [""] + rest else [[s[0]] + rest[0]] + rest[1..]
  }

  function Join(parts: seq<string>): string
    requires parts != []
  {
    if |parts| == 1 then parts[0] else parts[0] + "." + Join(parts[1..])
  }

  /** Splitting loses nothing. */
  lemma {:induction false} SplitJoins(s: string)
    ensures Join(Split(s)) == s && forall k :: 0 <= k < |Split(s)| ==> '.' !in Split(s)[k]
  {
    if s != "" {
      SplitJoins(s[1..]);
      var rest := Split(s[1..]);
      if s[0] == '.' {
        assert Split(s)[1..] == rest;
      } else if |rest| > 1 {
        assert Split(s)[1..] == rest[1..];
      }
    }
  }

  function Compare(a: string, b: string): int {
    Lexicographic(Split(a), Split(b), CompareSegment)
  }

  /** CompareVersions, segment by segment. */
  method CompareVersions(a: string, b: string) returns (c: int)
    ensures c == Compare(a, b)
  {
    hide CompareSegment, Split;
    var xs, ys := Split(a), Split(b);
    var i := 0;
    while i < |xs| || i < |ys|
      invariant 0 <= i <= |xs| && i <= |ys|
      invariant Lexicographic(xs[i..], ys[i..], CompareSegment) == Compare(a, b)
      decreases |xs| + |ys| - i
    {
      if i >= |xs| {
        return -1;
      }
      if i >= |ys| {
        return 1;
      }
      assert xs[i..][1..] == xs[i + 1..] && ys[i..][1..] == ys[i + 1..];
      c := CompareSegment(xs[i], ys[i]);
      SegmentSign(xs[i], ys[i]);
      if c != 0 {
        return;
      }
      i := i + 1;
    }
    return 0;
  }

  lemma SegmentSign(a: string, b: string)
    ensures CompareSegment(a, b) == Sign(CompareSegment(a, b))
  {
    TextSign(a, b);
    TextSign(TrimZeros(a), TrimZeros(b));
  }

  lemma {:induction false} TextSign(a: string, b: string)
    ensures CompareText(a, b) == Sign(CompareText(a, b))
    decreases |a|
  {
    if a != "" && b != "" {
      TextSign(a[1..], b[1..]);
    }
  }

  /** A total preorder over all strings: any two compare, both ways round alike, and it is transitive. */
  lemma TotalPreorder(a: string, b: string, c: string)
    ensures Compare(a, a) == 0 && Compare(a, b) == -Compare(b, a)
    ensures Compare(a, b) <= 0 && Compare(b, c) <= 0 ==> Compare(a, c) <= 0
  {
    SegmentsOrdered();
    Mirrored(Split(a), Split(a), CompareSegment);
    Mirrored(Split(a), Split(b), CompareSegment);
    if Compare(a, b) <= 0 && Compare(b, c) <= 0 {
      Transitive(Split(a), Split(b), Split(c), CompareSegment);
    }
  }

  /** Two segments that no comparison tells apart. */
  predicate SameSegment(a: string, b: string) {
    if Numeric(a) && Numeric(b) then Value(a) == Value(b) else a == b
  }

  lemma {:induction false} SameText(a: string, b: string)
    ensures CompareText(a, b) == 0 <==> a == b
    decreases |a|
  {
    if a != "" && b != "" {
      SameText(a[1..], b[1..]);
      assert a == [a[0]] + a[1..] && b == [b[0]] + b[1..];
    }
  }

  lemma EqualSegments(a: string, b: string)
    ensures CompareSegment(a, b) == 0 <==> SameSegment(a, b)
  {
    if Numeric(a) && Numeric(b) {
      NumericByValue(a, b);
    } else {
      SameText(a, b);
    }
  }

  /** Versions compare equal exactly when they have the same segments up to leading zeros. */
  lemma {:induction false} EqualVersions(xs: seq<string>, ys: seq<string>)
    ensures Lexicographic(xs, ys, CompareSegment) == 0 <==>
      |xs| == |ys| && forall k :: 0 <= k < |xs| ==> SameSegment(xs[k], ys[k])
    decreases |xs|
  {
    hide CompareSegment, SameSegment;
    if xs != [] && ys != [] {
      EqualSegments(xs[0], ys[0]);
      EqualVersions(xs[1..], ys[1..]);
      assert xs == [xs[0]] + xs[1..] && ys == [ys[0]] + ys[1..];
    }
  }

  // ---------------------------------------------------------------- which of two versions comes first

  /** Text a comes before text b: by the first character that differs, or as a proper prefix. */
  ghost predicate TextBefore(a: string, b: string) {
    exists n: nat :: n <= |a| && n <= |b| && a[..n] == b[..n] && TextParts(a, b, n)
  }

  predicate TextParts(a: string, b: string, n: nat)
    requires n <= |a| && n <= |b|
  {
    if n == |a| then n < |b| else n < |b| && a[n] < b[n]
  }

  /** Smaller integers first, numbers before text, and text by its characters. */
  ghost predicate SegmentBefore(a: string, b: string) {
    if Numeric(a) && Numeric(b) then Value(a) < Value(b)
    else if Numeric(a) || Numeric(b) then Numeric(a)
    else TextBefore(a, b)
  }

  /** The first n segments are the same, and the next ones decide: a missing segment comes before any. */
  ghost predicate Parts(xs: seq<string>, ys: seq<string>, n: nat) {
    && n <= |xs| && n <= |ys| && (forall k :: 0 <= k < n ==> SameSegment(xs[k], ys[k]))
    && if n == |xs| then n < |ys| else n < |ys| && SegmentBefore(xs[n], ys[n])
  }

  ghost predicate Before(xs: seq<string>, ys: seq<string>) {
    exists n: nat :: Parts(xs, ys, n)
  }

  lemma {:induction false} TextDirection(a: string, b: string)
    ensures CompareText(a, b) < 0 <==> TextBefore(a, b)
    decreases |a|
  {
    if a == [] || b == [] {
      if a == [] && b != [] {
        assert a[..0] == b[..0] && TextParts(a, b, 0);
      }
    } else if a[0] != b[0] {
      if a[0] < b[0] {
        assert a[..0] == b[..0] && TextParts(a, b, 0);
      } else {
        forall n: nat | n <= |a| && n <= |b| && a[..n] == b[..n] ensures !TextParts(a, b, n) {
          if n > 0 {
            SameHead(a, b, n);
          }
        }
      }
    } else {
      TextDirection(a[1..], b[1..]);
      TextBeforeTail(a, b);
    }
  }

  lemma SameHead(a: string, b: string, n: nat)
    requires 0 < n <= |a| && n <= |b| && a[..n] == b[..n]
    ensures a[0] == b[0]
  {
    assert a[..n][0] == b[..n][0];
  }

  lemma TextBeforeTail(a: string, b: string)
    requires a != [] && b != [] && a[0] == b[0]
    ensures TextBefore(a, b) <==> TextBefore(a[1..], b[1..])
  {
    if TextBefore(a, b) {
      var n: nat :| n <= |a| && n <= |b| && a[..n] == b[..n] && TextParts(a, b, n);
      assert n > 0;
      assert a[1..][..n - 1] == a[..n][1..] && b[1..][..n - 1] == b[..n][1..];
      assert TextParts(a[1..], b[1..], n - 1);
    }
    if TextBefore(a[1..], b[1..]) {
      var n: nat :| n <= |a[1..]| && n <= |b[1..]| && a[1..][..n] == b[1..][..n] && TextParts(a[1..], b[1..], n);
      assert a[..n + 1] == [a[0]] + a[1..][..n] && b[..n + 1] == [b[0]] + b[1..][..n];
      assert TextParts(a, b, n + 1);
    }
  }

  lemma SegmentDirection(a: string, b: string)
    ensures CompareSegment(a, b) < 0 <==> SegmentBefore(a, b)
  {
    hide TextBefore;
    if Numeric(a) && Numeric(b) {
      NumericByValue(a, b);
    } else {
      TextDirection(a, b);
    }
  }

  lemma {:induction false} Direction(xs: seq<string>, ys: seq<string>)
    ensures Lexicographic(xs, ys, CompareSegment) < 0 <==> Before(xs, ys)
    decreases |xs|
  {
    hide CompareSegment, SegmentBefore, SameSegment;
    if xs == [] || ys == [] {
      if xs == [] && ys != [] {
        assert Parts(xs, ys, 0);
      }
    } else {
      SegmentDirection(xs[0], ys[0]);
      EqualSegments(xs[0], ys[0]);
      if CompareSegment(xs[0], ys[0]) == 0 {
        Direction(xs[1..], ys[1..]);
        BeforeTail(xs, ys);
      } else if SegmentBefore(xs[0], ys[0]) {
        assert Parts(xs, ys, 0);
      } else {
        forall n: nat ensures !Parts(xs, ys, n) {
        }
      }
    }
  }

  lemma BeforeTail(xs: seq<string>, ys: seq<string>)
    requires xs != [] && ys != [] && SameSegment(xs[0], ys[0]) && !SegmentBefore(xs[0], ys[0])
    ensures Before(xs, ys) <==> Before(xs[1..], ys[1..])
  {
    hide SegmentBefore, SameSegment;
    if Before(xs, ys) {
      var n: nat :| Parts(xs, ys, n);
      assert Parts(xs[1..], ys[1..], n - 1);
    }
    if Before(xs[1..], ys[1..]) {
      var n: nat :| Parts(xs[1..], ys[1..], n);
      forall k | 0 <= k < n + 1 ensures SameSegment(xs[k], ys[k]) {
        assert k > 0 ==> xs[k] == xs[1..][k - 1] && ys[k] == ys[1..][k - 1];
      }
      assert Parts(xs, ys, n + 1);
    }
  }

  ghost predicate DotFree(parts: seq<string>) {
    parts != [] && forall k :: 0 <= k < |parts| ==> '.' !in parts[k]
  }

  lemma {:induction false} SplitOne(s: string)
    requires '.' !in s
    ensures Split(s) == [s]
  {
    if s != "" {
      SplitOne(s[1..]);
      assert s == [s[0]] + s[1..];
    }
  }

  lemma {:induction false} SplitDotted(s: string, more: string)
    requires '.' !in s
    ensures Split(s + "." + more) == [s] + Split(more)
  {
    var all := s + "." + more;
    if s == "" {
      assert all[1..] == more;
    } else {
      SplitDotted(s[1..], more);
      assert all[1..] == s[1..] + "." + more;
      assert s == [s[0]] + s[1..];
    }
  }

  lemma {:induction false} JoinSplits(parts: seq<string>)
    requires DotFree(parts)
    ensures Split(Join(parts)) == parts
  {
    if |parts| == 1 {
      SplitOne(parts[0]);
    } else {
      JoinSplits(parts[1..]);
      SplitDotted(parts[0], Join(parts[1..]));
      assert parts == [parts[0]] + parts[1..];
    }
  }

  /** Of two versions the one comes first whose segment does at the first segment that differs: a missing
      segment before any, a smaller integer, a number before text, or text by its first differing character. */
  lemma {:induction false} FirstDifferenceDecides(xs: seq<string>, ys: seq<string>)
    requires DotFree(xs) && DotFree(ys)
    ensures Compare(Join(xs), Join(ys)) < 0 <==> Before(xs, ys)
    ensures Compare(Join(xs), Join(ys)) > 0 <==> Before(ys, xs)
  {
    hide Before, CompareSegment, Join, Split;
    JoinSplits(xs);
    JoinSplits(ys);
    Direction(xs, ys);
    Direction(ys, xs);
    SegmentsOrdered();
    Mirrored(xs, ys, CompareSegment);
  }

  /** A version comes before all its refinements. */
  lemma {:induction false} PrefixFirst(xs: seq<string>, more: seq<string>)
    requires DotFree(xs) && DotFree(more)
    ensures Compare(Join(xs), Join(xs + more)) < 0
  {
    hide Compare, Join, SameSegment;
    forall k | 0 <= k < |xs| ensures SameSegment(xs[k], (xs + more)[k]) {
      Itself(xs[k]);
    }
    assert Parts(xs, xs + more, |xs|);
    FirstDifferenceDecides(xs, xs + more);
  }

  lemma Itself(a: string)
    ensures SameSegment(a, a)
  {
  }

  // ---------------------------------------------------------------- ranges

  datatype VersionRange = VersionRange(min: string, maxExclusive: string)

  predicate Contains(r: VersionRange, v: string) {
    && (r.min != "" ==> Compare(v, r.min) >= 0)
    && (r.maxExclusive != "" ==> Compare(v, r.maxExclusive) < 0)
  }

  /** A range holds what does not come before its minimum and comes before its maximum, where they are set. */
  lemma {:induction false} ContainsByOrder(r: VersionRange, v: string)
    ensures Contains(r, v) <==>
      && (r.min == "" || !Before(Split(v), Split(r.min)))
      && (r.maxExclusive == "" || Before(Split(v), Split(r.maxExclusive)))
  {
    hide Before, CompareSegment, Split;
    Direction(Split(v), Split(r.min));
    Direction(Split(v), Split(r.maxExclusive));
  }

  /** A bound as compilation accepts it; `spaced` says whether it contains white space. */
  predicate ValidBound(v: string, spaced: string -> bool) {
    v == "" || (!spaced(v) && "" !in Split(v))
  }

  predicate Accepted(r: VersionRange, spaced: string -> bool) {
    && ValidBound(r.min, spaced) && ValidBound(r.maxExclusive, spaced)
    && (r.min != "" && r.maxExclusive != "" ==> Compare(r.min, r.maxExclusive) < 0)
  }

  /** A range has no holes. */
  lemma ContainsConvex(r: VersionRange, a: string, b: string, c: string)
    requires Contains(r, a) && Contains(r, c) && Compare(a, b) <= 0 && Compare(b, c) <= 0
    ensures Contains(r, b)
  {
    TotalPreorder(r.min, a, b);
    TotalPreorder(a, b, r.min);
    TotalPreorder(b, r.min, a);
    TotalPreorder(r.maxExclusive, b, c);
    TotalPreorder(c, r.maxExclusive, b);
  }

  /** A range that compilation accepts with a minimum contains it; with both bounds set it would be
      empty otherwise, which is exactly what compilation refuses. */
  lemma AcceptedContainsMinimum(r: VersionRange, spaced: string -> bool)
    requires ValidBound(r.min, spaced) && ValidBound(r.maxExclusive, spaced) && r.min != ""
    ensures Accepted(r, spaced) <==> Contains(r, r.min)
    ensures Accepted(r, spaced) <==> exists v :: Contains(r, v)
  {
    TotalPreorder(r.min, r.min, r.min);
    if Contains(r, r.min) {
    } else if exists v :: Contains(r, v) {
      var v :| Contains(r, v);
      TotalPreorder(r.min, v, r.maxExclusive);
      TotalPreorder(v, r.maxExclusive, r.min);
      TotalPreorder(r.maxExclusive, r.min, v);
      assert false;
    }
  }
}
