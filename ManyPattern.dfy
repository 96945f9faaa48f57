/** `ManyPattern`: a pattern applied zero or more times. */
module ManyPattern {
  import opened Pattern

  /** What repeated matches of `p` from `i` consume: stop at the first
      mismatch, and also at the first empty match (the guard against looping
      forever on a pattern that matches the empty string). */
  function ManyLength(p: Pattern, src: seq<char>, len: int, i: int): (r: nat)
    requires 0 <= i <= len <= |src|
    ensures r <= len - i
    decreases len - i
  {
    match p(src, i, len)
    case Mismatch => 0
    case Matched(l) => if l == 0 then 0 else l + ManyLength(p, src, len, i + l)
  }

  /** `matchMany`: the unbounded loop that advances `i` by each inner length.
      It never mismatches; it answers `acc` plus what the loop consumed. */
  method MatchMany(p: Pattern, src: seq<char>, len: int, from: int, acc: nat) returns (r: nat)
    requires 0 <= from <= len <= |src|
    ensures r == acc + ManyLength(p, src, len, from)
    ensures acc <= r <= acc + len - from
  {
    var i := from;
    while true
      invariant from <= i <= len
      invariant ManyLength(p, src, len, from) == i - from + ManyLength(p, src, len, i)
      decreases len - i
    {
      var l := p(src, i, len);
      if l.Mismatch? {
        return i - from + acc;
      }
      if l.length == 0 {
        return i - from + acc;
      }
      i := i + l.length;
    }
  }

  /** `match(src, begin, end)`: the loop from `begin` with nothing
      accumulated, so the result lies in [0, end - begin]. */
  method Match(p: Pattern, src: seq<char>, begin: int, end: int) returns (r: nat)
    requires 0 <= begin <= end <= |src|
    ensures r == ManyLength(p, src, end, begin)
    ensures r <= end - begin
  {
    r := MatchMany(p, src, end, begin, 0);
  }

  /** `toString`: the inner description followed by `*`. */
  function ToString(pattern: string): (s: string)
    ensures |s| == |pattern| + 1 && s[..|pattern|] == pattern && s[|pattern|] == '*'
  {
    pattern + "*"
  }

  /** The loop consumes exactly a chain of non-empty inner matches that ends
      where the inner pattern mismatches or matches empty. Such a chain is
      unique, so this pins the result down. */
  lemma ManyIff(p: Pattern, src: seq<char>, len: int, i: int, k: nat)
    requires 0 <= i <= len <= |src|
    ensures ManyLength(p, src, len, i) == k
        <==> exists ls :: Chain(p, src, len, i, ls) && Positive(ls) && Sum(ls) == k
                          && Stops(p(src, i + k, len))
  {
    if ManyLength(p, src, len, i) == k {
      var ls := ManyWitness(p, src, len, i);
    }
    if ls :| Chain(p, src, len, i, ls) && Positive(ls) && Sum(ls) == k && Stops(p(src, i + k, len)) {
      ManyFromWitness(p, src, len, i, ls);
    }
  }

  lemma {:induction false} ManyWitness(p: Pattern, src: seq<char>, len: int, i: int)
    returns (ls: seq<nat>)
    requires 0 <= i <= len <= |src|
    ensures Chain(p, src, len, i, ls) && Positive(ls) && Sum(ls) == ManyLength(p, src, len, i)
    ensures Stops(p(src, i + Sum(ls), len))
    decreases len - i
  {
    match p(src, i, len)
    case Mismatch =>
      ls := [];
    case Matched(l) =>
      if l == 0 {
        ls := [];
      } else {
        var rest := ManyWitness(p, src, len, i + l);
        ls := [l] + rest;
        ChainCons(p, src, len, i, l, rest);
        assert ls[1..] == rest;
      }
  }

  lemma {:induction false} ManyFromWitness(p: Pattern, src: seq<char>, len: int, i: int, ls: seq<nat>)
    requires 0 <= i <= len <= |src|
    requires Chain(p, src, len, i, ls) && Positive(ls) && Stops(p(src, i + Sum(ls), len))
    ensures ManyLength(p, src, len, i) == Sum(ls)
    decreases |ls|
  {
    if ls != [] {
      assert ls[0] > 0;
      ManyFromWitness(p, src, len, i + ls[0], ls[1..]);
    }
  }
}
