/** `RepeatPattern`: a pattern applied exactly `n` times in a row. */
module RepeatPattern {
  import opened Pattern

  /** What `n` back-to-back matches of `p` from `from` consume, each bounded
      by the window end `len`; `n <= 0` consumes nothing and never looks at
      `p`. */
  function RepeatLength(n: int, p: Matcher, src: seq<char>, len: int, from: int): MatchResult
    decreases n
  {
    if n <= 0 then Matched(0)
    else match p(src, from, len)
      case Mismatch => Mismatch
      case Matched(l) => Plus(RepeatLength(n - 1, p, src, len, from + l), l)
  }

  /** `matchRepeat`: the counted loop that advances `end` by each inner
      length and gives up on the first mismatch. */
  method MatchRepeat(n: int, p: Matcher, src: seq<char>, len: int, from: int, acc: nat)
    returns (r: MatchResult)
    ensures r == Plus(RepeatLength(n, p, src, len, from), acc)
  {
    var end := from;
    var i := 0;
    while i < n
      invariant 0 <= i && (0 <= n ==> i <= n)
      invariant from <= end
      invariant RepeatLength(n, p, src, len, from)
             == Plus(RepeatLength(n - i, p, src, len, end), end - from)
    {
      var l := p(src, end, len);
      if l.Mismatch? {
        return Mismatch;
      }
      end := end + l.length;
      i := i + 1;
    }
    return Matched(end - from + acc);
  }

  /** `match(src, begin, end)`: note that the window end is passed before the
      start. The result never leaves the window. */
  method Match(n: int, p: Pattern, src: seq<char>, begin: int, end: int) returns (r: MatchResult)
    requires 0 <= begin <= end <= |src|
    ensures r == RepeatLength(n, p, src, end, begin)
    ensures Fits(r, end - begin)
  {
    r := MatchRepeat(n, p, src, end, begin, 0);
    RepeatFits(n, p, src, end, begin);
  }

  /** `toString`: the inner description followed by `{n}`. */
  function ToString(n: int, pattern: string): (s: string)
    ensures |s| >= |pattern| + 3 && s[..|pattern|] == pattern
    ensures s[|pattern|] == '{' && s[|s| - 1] == '}'
    ensures IntNumeral(s[|pattern| + 1..|s| - 1]) && ParseInt(s[|pattern| + 1..|s| - 1]) == n
  {
    var s := pattern + "{" + IntToString(n) + "}";
    assert s[|pattern| + 1..|s| - 1] == IntToString(n);
    IntToStringRoundTrip(n);
    s
  }

  /** The shape `ToString` promises leaves exactly one text: the canonical
      numeral of `n` is the only one denoting `n`. */
  lemma ToStringDetermined(n: int, pattern: string, t: string)
    requires |t| >= |pattern| + 3 && t[..|pattern|] == pattern
    requires t[|pattern|] == '{' && t[|t| - 1] == '}'
    requires IntNumeral(t[|pattern| + 1..|t| - 1]) && ParseInt(t[|pattern| + 1..|t| - 1]) == n
    ensures t == ToString(n, pattern)
  {
    var mid := t[|pattern| + 1..|t| - 1];
    IntToStringParse(mid);
    assert t == pattern + "{" + mid + "}";
  }

  /** If the inner pattern stays in its window, so do the repetitions. */
  lemma {:induction false} RepeatFits(n: int, p: Pattern, src: seq<char>, len: int, from: int)
    requires 0 <= from <= len <= |src|
    ensures Fits(RepeatLength(n, p, src, len, from), len - from)
    decreases n
  {
    if n > 0 {
      match p(src, from, len)
      case Mismatch =>
      case Matched(l) =>
        RepeatFits(n - 1, p, src, len, from + l);
    }
  }

  /** Success means exactly `n` inner matches, the i-th starting where the
      previous ones ended, and the result is the sum of their lengths. */
  lemma RepeatMatchedIff(n: nat, p: Matcher, src: seq<char>, len: int, from: int, k: nat)
    ensures RepeatLength(n, p, src, len, from) == Matched(k)
        <==> exists ls :: |ls| == n && Chain(p, src, len, from, ls) && Sum(ls) == k
  {
    if RepeatLength(n, p, src, len, from) == Matched(k) {
      var ls := RepeatWitness(n, p, src, len, from);
    }
    if ls :| |ls| == n && Chain(p, src, len, from, ls) && Sum(ls) == k {
      RepeatFromChain(p, src, len, from, ls);
    }
  }

  lemma {:induction false} RepeatWitness(n: nat, p: Matcher, src: seq<char>, len: int, from: int)
    returns (ls: seq<nat>)
    requires RepeatLength(n, p, src, len, from).Matched?
    ensures |ls| == n && Chain(p, src, len, from, ls)
    ensures RepeatLength(n, p, src, len, from) == Matched(Sum(ls))
  {
    if n == 0 {
      ls := [];
    } else {
      var l := p(src, from, len).length;
      var rest := RepeatWitness(n - 1, p, src, len, from + l);
      ls := [l] + rest;
      ChainCons(p, src, len, from, l, rest);
      assert ls[1..] == rest;
    }
  }

  lemma {:induction false} RepeatFromChain(p: Matcher, src: seq<char>, len: int, from: int, ls: seq<nat>)
    requires Chain(p, src, len, from, ls)
    ensures RepeatLength(|ls|, p, src, len, from) == Matched(Sum(ls))
    decreases |ls|
  {
    if ls != [] {
      RepeatFromChain(p, src, len, from + ls[0], ls[1..]);
    }
  }

  /** The whole repetition mismatches exactly when one of the `n` inner
      matches does, after the ones before it succeeded. */
  lemma RepeatMismatchIff(n: nat, p: Matcher, src: seq<char>, len: int, from: int)
    ensures RepeatLength(n, p, src, len, from) == Mismatch
        <==> exists ls :: |ls| < n && Chain(p, src, len, from, ls)
                          && p(src, from + Sum(ls), len) == Mismatch
  {
    if RepeatLength(n, p, src, len, from) == Mismatch {
      var ls := MismatchWitness(n, p, src, len, from);
    }
    if ls :| |ls| < n && Chain(p, src, len, from, ls) && p(src, from + Sum(ls), len) == Mismatch {
      MismatchFromWitness(n, p, src, len, from, ls);
    }
  }

  lemma {:induction false} MismatchWitness(n: nat, p: Matcher, src: seq<char>, len: int, from: int)
    returns (ls: seq<nat>)
    requires RepeatLength(n, p, src, len, from) == Mismatch
    ensures |ls| < n && Chain(p, src, len, from, ls) && p(src, from + Sum(ls), len) == Mismatch
  {
    if p(src, from, len).Mismatch? {
      ls := [];
    } else {
      var l := p(src, from, len).length;
      var rest := MismatchWitness(n - 1, p, src, len, from + l);
      ls := [l] + rest;
      ChainCons(p, src, len, from, l, rest);
      assert ls[1..] == rest;
    }
  }

  lemma {:induction false} MismatchFromWitness(n: nat, p: Matcher, src: seq<char>, len: int, from: int, ls: seq<nat>)
    requires |ls| < n && Chain(p, src, len, from, ls) && p(src, from + Sum(ls), len) == Mismatch
    ensures RepeatLength(n, p, src, len, from) == Mismatch
    decreases n
  {
    if ls != [] {
      MismatchFromWitness(n - 1, p, src, len, from + ls[0], ls[1..]);
    }
  }
}
