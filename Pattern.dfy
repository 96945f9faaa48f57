/** Character-window matchers: the shared vocabulary of the quantifier patterns.
    A matcher looks at `src` between `begin` and `end` and either consumes a
    length or mismatches. */
module Pattern {

  /** The outcome of one match. jparsec returns an `int` that is either a
      length or the sentinel `MISMATCH`; here the two cases are variants. */
  datatype MatchResult = Mismatch | Matched(length: nat)

  /** `match(src, begin, end)` of any pattern. */
  type Matcher = (seq<char>, int, int) -> MatchResult

  /** The contract every pattern keeps: on a window inside `src` it either
      mismatches or consumes at most the window. */
  ghost predicate InWindow(m: Matcher) {
    forall src: seq<char>, begin: int, end: int
      | 0 <= begin <= end <= |src| :: Fits(m(src, begin, end), end - begin)
  }

  predicate Fits(r: MatchResult, room: int) {
    r.Matched? ==> r.length <= room
  }

  /** A pattern is a matcher that stays inside its window. */
  type Pattern = m: Matcher | InWindow(m)
    witness (src: seq<char>, begin: int, end: int) => Mismatch

  /** Adds `k` to a successful length; a mismatch stays a mismatch. */
  function Plus(r: MatchResult, k: nat): (s: MatchResult)
    ensures s.Mismatch? <==> r.Mismatch?
    ensures s.Matched? ==> s.length == r.length + k
  {
    match r
    case Mismatch => Mismatch
    case Matched(l) => Matched(l + k)
  }

  /** Total length of a run of inner matches. */
  function Sum(ls: seq<nat>): nat {
    if ls == [] then 0 else ls[0] + Sum(ls[1..])
  }

  lemma {:induction false} SumAppend(xs: seq<nat>, ys: seq<nat>)
    ensures Sum(xs + ys) == Sum(xs) + Sum(ys)
  {
    if xs == [] {
      assert xs + ys == ys;
    } else {
      assert (xs + ys)[1..] == xs[1..] + ys;
      SumAppend(xs[1..], ys);
    }
  }

  /** `ls` is the list of lengths that `p` consumes when it is applied
      |ls| times in a row from `from`, every match bounded by the same
      window end `len`. */
  ghost predicate Chain(p: Matcher, src: seq<char>, len: int, from: int, ls: seq<nat>)
    decreases |ls|
  {
    ls == [] || (p(src, from, len) == Matched(ls[0]) && Chain(p, src, len, from + ls[0], ls[1..]))
  }

  lemma ChainCons(p: Matcher, src: seq<char>, len: int, from: int, l: nat, ls: seq<nat>)
    ensures Chain(p, src, len, from, [l] + ls)
        <==> p(src, from, len) == Matched(l) && Chain(p, src, len, from + l, ls)
  {
    assert ([l] + ls)[1..] == ls;
  }

  lemma SumPrefixTail(ls: seq<nat>, i: nat)
    requires 0 < |ls| && i < |ls|
    ensures Sum(ls[..i + 1]) == ls[0] + Sum(ls[1..][..i])
  {
    assert ls[..i + 1][1..] == ls[1..][..i];
  }

  /** Reading a chain at position i: the i-th match starts where the first
      i matches ended. */
  lemma {:induction false} ChainAt(p: Matcher, src: seq<char>, len: int, from: int, ls: seq<nat>, i: nat)
    requires Chain(p, src, len, from, ls) && i < |ls|
    ensures p(src, from + Sum(ls[..i]), len) == Matched(ls[i])
    decreases i
  {
    if i == 0 {
      assert ls[..0] == [];
    } else {
      ChainAt(p, src, len, from + ls[0], ls[1..], i - 1);
      SumPrefixTail(ls, i - 1);
    }
  }

  /** Conversely, matches found at every position make a chain. */
  lemma {:induction false} ChainFromPositions(p: Matcher, src: seq<char>, len: int, from: int, ls: seq<nat>)
    requires forall i | 0 <= i < |ls| :: p(src, from + Sum(ls[..i]), len) == Matched(ls[i])
    ensures Chain(p, src, len, from, ls)
    decreases |ls|
  {
    if ls != [] {
      assert ls[..0] == [];
      assert p(src, from + Sum(ls[..0]), len) == Matched(ls[0]);
      var rest := ls[1..];
      forall i | 0 <= i < |rest| ensures p(src, from + ls[0] + Sum(rest[..i]), len) == Matched(rest[i]) {
        SumPrefixTail(ls, i);
        assert p(src, from + Sum(ls[..i + 1]), len) == Matched(ls[i + 1]);
      }
      ChainFromPositions(p, src, len, from + ls[0], rest);
    }
  }

  /** A chain splits where its first part ends. */
  lemma {:induction false} ChainAppend(p: Matcher, src: seq<char>, len: int, from: int, xs: seq<nat>, ys: seq<nat>)
    ensures Chain(p, src, len, from, xs + ys)
        <==> Chain(p, src, len, from, xs) && Chain(p, src, len, from + Sum(xs), ys)
    decreases |xs|
  {
    if xs == [] {
      assert xs + ys == ys;
    } else {
      var x, rest := xs[0], xs[1..];
      assert xs == [x] + rest;
      assert xs + ys == [x] + (rest + ys);
      ChainCons(p, src, len, from, x, rest + ys);
      ChainCons(p, src, len, from, x, rest);
      ChainAppend(p, src, len, from + x, rest, ys);
    }
  }

  /** Every match of the chain consumed something. */
  predicate Positive(ls: seq<nat>) {
    forall i | 0 <= i < |ls| :: ls[i] > 0
  }

  /** Where zero-or-more repetition stops: a mismatch or an empty match. */
  predicate Stops(r: MatchResult) {
    r.Mismatch? || r == Matched(0)
  }

  /** A canonical decimal numeral for a natural number: digits only, and no
      leading zero except in "0" itself. */
  predicate NatNumeral(s: string) {
    && |s| > 0
    && (forall i | 0 <= i < |s| :: '0' <= s[i] <= '9')
    && (s[0] == '0' ==> |s| == 1)
  }

  /** A canonical decimal numeral for an integer, as `Integer.toString`
      writes it: an optional minus sign before a numeral other than "0". */
  predicate IntNumeral(s: string) {
    NatNumeral(s) || (|s| >= 2 && s[0] == '-' && NatNumeral(s[1..]) && s[1] != '0')
  }

  /** Decimal rendering of a Java `int`, as string concatenation does it. */
  function IntToString(n: int): (s: string)
    ensures IntNumeral(s)
  {
    if n < 0 then "-" + NatToString(-n) else NatToString(n)
  }

  function NatToString(n: nat): (s: string)
    ensures NatNumeral(s)
    ensures s[0] == '0' <==> n == 0
  {
    if n < 10 then [Digit(n)] else NatToString(n / 10) + [Digit(n % 10)]
  }

  function Digit(d: nat): (c: char)
    requires d < 10
    ensures '0' <= c <= '9' && (c == '0' <==> d == 0)
    ensures DigitValue(c) == d
  {
    "0123456789"[d]
  }

  /** Reads back a decimal numeral: the inverse of IntToString. */
  function ParseInt(s: string): int {
    if |s| > 0 && s[0] == '-' then -(ParseNat(s[1..]) as int) else ParseNat(s)
  }

  function ParseNat(s: string): nat {
    if s == [] then 0 else 10 * ParseNat(s[..|s| - 1]) + DigitValue(s[|s| - 1])
  }

  function DigitValue(c: char): nat {
    if '0' <= c <= '9' then (c as int) - ('0' as int) else 0
  }

  lemma {:induction false} ParseNatToString(n: nat)
    ensures ParseNat(NatToString(n)) == n
  {
    var s := NatToString(n);
    if n < 10 {
      assert s[..|s| - 1] == [];
    } else {
      assert s[..|s| - 1] == NatToString(n / 10);
      ParseNatToString(n / 10);
    }
  }

  lemma IntToStringRoundTrip(n: int)
    ensures ParseInt(IntToString(n)) == n
  {
    if n < 0 {
      var t := NatToString(-n);
      assert IntToString(n) == "-" + t;
      assert ("-" + t)[1..] == t;
      ParseNatToString(-n);
    } else {
      var t := NatToString(n);
      assert IntToString(n) == t && '0' <= t[0] <= '9';
      ParseNatToString(n);
    }
  }

  /** A numeral that does not start with zero denotes a positive number. */
  lemma {:induction false} ParseNatPositive(s: string)
    requires NatNumeral(s) && s[0] != '0'
    ensures ParseNat(s) >= 1
    decreases |s|
  {
    if |s| > 1 {
      var init := s[..|s| - 1];
      assert init[0] == s[0];
      ParseNatPositive(init);
    }
  }

  /** Every canonical numeral is the rendering of the number it denotes, so
      no two canonical numerals denote the same number. */
  lemma {:induction false} NatToStringParse(s: string)
    requires NatNumeral(s)
    ensures NatToString(ParseNat(s)) == s
    decreases |s|
  {
    var d := s[|s| - 1];
    if |s| == 1 {
      assert s[..0] == [];
      assert ParseNat(s) == DigitValue(d) < 10;
      assert Digit(DigitValue(d)) == d;
    } else {
      var init := s[..|s| - 1];
      assert init[0] == s[0];
      ParseNatPositive(init);
      NatToStringParse(init);
      var n := ParseNat(s);
      assert n / 10 == ParseNat(init) && n % 10 == DigitValue(d);
      assert Digit(DigitValue(d)) == d;
      assert s == init + [d];
    }
  }

  lemma IntToStringParse(s: string)
    requires IntNumeral(s)
    ensures IntToString(ParseInt(s)) == s
  {
    if NatNumeral(s) {
      NatToStringParse(s);
    } else {
      ParseNatPositive(s[1..]);
      NatToStringParse(s[1..]);
      assert s == "-" + s[1..];
    }
  }
}
