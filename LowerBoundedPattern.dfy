/** `LowerBoundedPattern`: a pattern applied at least `min` times. */
module LowerBoundedPattern {
  import opened Pattern
  import RepeatPattern
  import ManyPattern

  /** The mandatory `min` repetitions, then zero or more further ones from
      where they ended; the total is measured from `begin`. */
  function LowerBoundedLength(min: int, p: Pattern, src: seq<char>, begin: int, end: int): MatchResult
    requires 0 <= begin <= end <= |src|
  {
    RepeatPattern.RepeatFits(min, p, src, end, begin);
    match RepeatPattern.RepeatLength(min, p, src, end, begin)
    case Mismatch => Mismatch
    case Matched(minLen) => Matched(minLen + ManyPattern.ManyLength(p, src, end, begin + minLen))
  }

  /** `match(src, begin, end)`: `matchRepeat` for the mandatory part, and on
      success `matchMany` from just past it, seeded with its length. */
  method Match(min: int, p: Pattern, src: seq<char>, begin: int, end: int) returns (r: MatchResult)
    requires 0 <= begin <= end <= |src|
    ensures r == LowerBoundedLength(min, p, src, begin, end)
    ensures Fits(r, end - begin)
  {
    var minLen := RepeatPattern.MatchRepeat(min, p, src, end, begin, 0);
    if minLen.Mismatch? {
      return Mismatch;
    }
    RepeatPattern.RepeatFits(min, p, src, end, begin);
    var total := ManyPattern.MatchMany(p, src, end, begin + minLen.length, minLen.length);
    return Matched(total);
  }

  /** `toString`: `p{min,}` for `min > 1`, and `p+` otherwise, which
      includes `min = 0` and negative `min`. */
  function ToString(min: int, pattern: string): (s: string)
    ensures min <= 1 ==> s == pattern + "+"
    ensures min > 1 ==> |s| >= |pattern| + 4 && s[..|pattern|] == pattern && s[|pattern|] == '{'
                        && s[|s| - 2..] == ",}"
                        && IntNumeral(s[|pattern| + 1..|s| - 2]) && ParseInt(s[|pattern| + 1..|s| - 2]) == min
  {
    if min > 1 then
      var s := pattern + "{" + IntToString(min) + ",}";
      assert s[|pattern| + 1..|s| - 2] == IntToString(min);
      IntToStringRoundTrip(min);
      s
    else
      pattern + "+"
  }

  /** For `min > 1` the promised shape leaves exactly one text. */
  lemma ToStringDetermined(min: int, pattern: string, t: string)
    requires min > 1
    requires |t| >= |pattern| + 4 && t[..|pattern|] == pattern && t[|pattern|] == '{'
    requires t[|t| - 2..] == ",}"
    requires IntNumeral(t[|pattern| + 1..|t| - 2]) && ParseInt(t[|pattern| + 1..|t| - 2]) == min
    ensures t == ToString(min, pattern)
  {
    var mid := t[|pattern| + 1..|t| - 2];
    IntToStringParse(mid);
    assert t == pattern + "{" + mid + ",}";
  }

  /** With no mandatory repetitions the pattern is zero-or-more. */
  lemma NoMinimumIsMany(min: int, p: Pattern, src: seq<char>, begin: int, end: int)
    requires 0 <= begin <= end <= |src| && min <= 0
    ensures LowerBoundedLength(min, p, src, begin, end) == Matched(ManyPattern.ManyLength(p, src, end, begin))
  {
  }

  /** A mismatch of the mandatory part is a mismatch of the whole; a success
      consumes at least the mandatory part and at most the window. */
  lemma Bounds(min: int, p: Pattern, src: seq<char>, begin: int, end: int)
    requires 0 <= begin <= end <= |src|
    ensures var r := LowerBoundedLength(min, p, src, begin, end);
            var m := RepeatPattern.RepeatLength(min, p, src, end, begin);
            && (r.Mismatch? <==> m.Mismatch?)
            && (r.Matched? ==> m.length <= r.length <= end - begin)
  {
    RepeatPattern.RepeatFits(min, p, src, end, begin);
  }

  /** At least `min` in one chain: exactly `min` matches (which may be
      empty), then non-empty ones until the pattern mismatches or matches
      empty. */
  lemma LowerBoundedIff(min: nat, p: Pattern, src: seq<char>, begin: int, end: int, k: nat)
    requires 0 <= begin <= end <= |src|
    ensures LowerBoundedLength(min, p, src, begin, end) == Matched(k)
        <==> exists ls :: |ls| >= min && Chain(p, src, end, begin, ls) && Positive(ls[min..])
                          && Sum(ls) == k && Stops(p(src, begin + k, end))
  {
    if LowerBoundedLength(min, p, src, begin, end) == Matched(k) {
      var ls := LowerBoundedWitness(min, p, src, begin, end, k);
    }
    if ls :| |ls| >= min && Chain(p, src, end, begin, ls) && Positive(ls[min..])
             && Sum(ls) == k && Stops(p(src, begin + k, end)) {
      LowerBoundedFromWitness(min, p, src, begin, end, ls);
    }
  }

  lemma LowerBoundedWitness(min: nat, p: Pattern, src: seq<char>, begin: int, end: int, k: nat)
    returns (ls: seq<nat>)
    requires 0 <= begin <= end <= |src|
    requires LowerBoundedLength(min, p, src, begin, end) == Matched(k)
    ensures |ls| >= min && Chain(p, src, end, begin, ls) && Positive(ls[min..])
    ensures Sum(ls) == k && Stops(p(src, begin + k, end))
  {
    RepeatPattern.RepeatFits(min, p, src, end, begin);
    var xs := RepeatPattern.RepeatWitness(min, p, src, end, begin);
    var m := Sum(xs);
    var ys := ManyPattern.ManyWitness(p, src, end, begin + m);
    ChainAppend(p, src, end, begin, xs, ys);
    SumAppend(xs, ys);
    ls := xs + ys;
    assert ls[min..] == ys;
  }

  lemma LowerBoundedFromWitness(min: nat, p: Pattern, src: seq<char>, begin: int, end: int, ls: seq<nat>)
    requires 0 <= begin <= end <= |src|
    requires |ls| >= min && Chain(p, src, end, begin, ls) && Positive(ls[min..])
    requires Stops(p(src, begin + Sum(ls), end))
    ensures LowerBoundedLength(min, p, src, begin, end) == Matched(Sum(ls))
  {
    var xs, ys := ls[..min], ls[min..];
    assert ls == xs + ys;
    ChainAppend(p, src, end, begin, xs, ys);
    SumAppend(xs, ys);
    RepeatPattern.RepeatFromChain(p, src, end, begin, xs);
    RepeatPattern.RepeatFits(min, p, src, end, begin);
    ManyPattern.ManyFromWitness(p, src, end, begin + Sum(xs), ys);
  }
}
