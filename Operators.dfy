/** The reductions behind jparsec's operator combinators: once `infixl`,
    `infixr`, `prefix` and `postfix` have parsed their operands and
    operators, these folds decide how the operator applications nest. */
module Operators {

  /** An operator together with its right operand, as `infixr` and `infixl`
      collect them after the first operand. */
  datatype Rhs<!T> = Rhs(op: (T, T) -> T, rhs: T)

  /* Specifications. */

  /** Applies the maps first to last: the last map is the outermost. */
  function ApplyInOrder<T>(a: T, ms: seq<T -> T>): T
    decreases |ms|
  {
    if ms == [] then a else ms[|ms| - 1](ApplyInOrder(a, ms[..|ms| - 1]))
  }

  /** Applies the maps last to first: the first map is the outermost. */
  function ApplyPrefix<T>(a: T, ms: seq<T -> T>): T
    decreases |ms|
  {
    if ms == [] then a else ms[0](ApplyPrefix(a, ms[1..]))
  }

  function Reverse<X>(xs: seq<X>): (r: seq<X>)
    ensures |r| == |xs|
    ensures forall i | 0 <= i < |xs| :: r[i] == xs[|xs| - 1 - i]
  {
    if xs == [] then [] else Reverse(xs[1..]) + [xs[0]]
  }

  /** The left-associative reading `((first op1 r1) op2 r2) ...`. */
  function FoldLeft<T>(first: T, rhss: seq<Rhs<T>>): T
    decreases |rhss|
  {
    if rhss == [] then first else FoldLeft(rhss[0].op(first, rhss[0].rhs), rhss[1..])
  }

  /** The right-associative reading `first op1 (r1 op2 (r2 ... rn))`. */
  function InfixrValue<T>(first: T, rhss: seq<Rhs<T>>): T
    decreases |rhss|
  {
    if rhss == [] then first else rhss[0].op(first, InfixrValue(rhss[0].rhs, rhss[1..]))
  }

  /** What `infixl` turns an operator and its right operand into: the map
      that applies the operator with the right operand fixed. */
  function Closure<T>(r: Rhs<T>): T -> T {
    (a: T) => r.op(a, r.rhs)
  }

  function Closures<T>(rhss: seq<Rhs<T>>): (ms: seq<T -> T>)
    ensures |ms| == |rhss|
    ensures forall i | 0 <= i < |rhss| :: ms[i] == Closure(rhss[i])
  {
    if rhss == [] then [] else [Closure(rhss[0])] + Closures(rhss[1..])
  }

  ghost predicate Associative<T(!new)>(op: (T, T) -> T) {
    forall x: T, y: T, z: T :: op(op(x, y), z) == op(x, op(y, z))
  }

  ghost predicate AllOp<T>(rhss: seq<Rhs<T>>, op: (T, T) -> T) {
    forall i | 0 <= i < |rhss| :: rhss[i].op == op
  }

  /* The folds of `Parsers`. */

  /** `applyInfixOperators(initialValue, maps)`. */
  method ApplyInfixOperators<T>(initialValue: T, maps: seq<T -> T>) returns (result: T)
    ensures result == ApplyInOrder(initialValue, maps)
  {
    result := initialValue;
    for i := 0 to |maps|
      invariant result == ApplyInOrder(initialValue, maps[..i])
    {
      assert maps[..i + 1][..i] == maps[..i];
      result := maps[i](result);
    }
    assert maps[..|maps|] == maps;
  }

  /** `applyPostfixOperators(a, ms)`: the same first-to-last loop as
      `applyInfixOperators`. */
  method ApplyPostfixOperators<T>(a: T, ms: seq<T -> T>) returns (r: T)
    ensures r == ApplyInOrder(a, ms)
  {
    r := ApplyInfixOperators(a, ms);
  }

  /** `applyPrefixOperators(a, ms)`: walks the list from its end. */
  method ApplyPrefixOperators<T>(a: T, ms: seq<T -> T>) returns (r: T)
    ensures r == ApplyPrefix(a, ms)
  {
    r := a;
    var i := |ms|;
    while i > 0
      invariant 0 <= i <= |ms|
      invariant r == ApplyPrefix(a, ms[i..])
    {
      assert ms[i - 1..][1..] == ms[i..];
      r := ms[i - 1](r);
      i := i - 1;
    }
  }

  /** The map that `infixr` hands the first operand and the collected
      `Rhs` list: folds the right operands from the last one back, then
      applies the first operator to `first`. */
  method ApplyInfixrOperators<T>(first: T, rhss: seq<Rhs<T>>) returns (r: T)
    ensures r == InfixrValue(first, rhss)
  {
    if |rhss| == 0 {
      return first;
    }
    var lastIndex := |rhss| - 1;
    var o2 := rhss[lastIndex].rhs;
    var i := lastIndex;
    while i > 0
      invariant 0 <= i <= lastIndex
      invariant o2 == InfixrValue(rhss[i].rhs, rhss[i + 1..])
    {
      var o1 := rhss[i - 1].rhs;
      assert rhss[i..][0] == rhss[i] && rhss[i..][1..] == rhss[i + 1..];
      o2 := rhss[i].op(o1, o2);
      i := i - 1;
    }
    r := rhss[0].op(first, o2);
  }

  /** The reduction of `infixl`: the closures of the collected operators and
      right operands, applied to the first operand in order. */
  method ReduceInfixl<T>(first: T, rhss: seq<Rhs<T>>) returns (r: T)
    ensures r == FoldLeft(first, rhss)
  {
    r := ApplyInfixOperators(first, Closures(rhss));
    InfixlIsFoldLeft(first, rhss);
  }

  /* Properties. */

  /** Applying in order: the first map is applied first. */
  lemma {:induction false} ApplyInOrderCons<T>(a: T, m: T -> T, ms: seq<T -> T>)
    ensures ApplyInOrder(a, [m] + ms) == ApplyInOrder(m(a), ms)
    decreases |ms|
  {
    if ms == [] {
      assert ([m] + ms)[..0] == [];
    } else {
      var init := ms[..|ms| - 1];
      assert ([m] + ms)[..|ms|] == [m] + init;
      ApplyInOrderCons(a, m, init);
    }
  }

  /** Applying in order over a concatenation: the second part continues from
      the value the first part produced. */
  lemma {:induction false} ApplyInOrderAppend<T>(a: T, xs: seq<T -> T>, ys: seq<T -> T>)
    ensures ApplyInOrder(a, xs + ys) == ApplyInOrder(ApplyInOrder(a, xs), ys)
    decreases |ys|
  {
    if ys == [] {
      assert xs + ys == xs;
    } else {
      assert (xs + ys)[..|xs + ys| - 1] == xs + ys[..|ys| - 1];
      ApplyInOrderAppend(a, xs, ys[..|ys| - 1]);
    }
  }

  /** Prefix operators are the postfix loop run over the reversed list. */
  lemma {:induction false} PrefixIsReversedPostfix<T>(a: T, ms: seq<T -> T>)
    ensures ApplyPrefix(a, ms) == ApplyInOrder(a, Reverse(ms))
    decreases |ms|
  {
    if ms != [] {
      var rest := Reverse(ms[1..]);
      assert (rest + [ms[0]])[..|rest|] == rest;
      PrefixIsReversedPostfix(a, ms[1..]);
    }
  }

  /** `infixl` reduces `a op1 r1 op2 r2 ...` to `((a op1 r1) op2 r2) ...`. */
  lemma {:induction false} InfixlIsFoldLeft<T>(first: T, rhss: seq<Rhs<T>>)
    ensures ApplyInOrder(first, Closures(rhss)) == FoldLeft(first, rhss)
    decreases |rhss|
  {
    if rhss != [] {
      ApplyInOrderCons(first, Closure(rhss[0]), Closures(rhss[1..]));
      InfixlIsFoldLeft(rhss[0].op(first, rhss[0].rhs), rhss[1..]);
    }
  }

  /** Under one associative operator the left fold may pull its first
      operand out. */
  lemma {:induction false} FoldLeftShift<T(!new)>(op: (T, T) -> T, a: T, b: T, rhss: seq<Rhs<T>>)
    requires Associative(op) && AllOp(rhss, op)
    ensures FoldLeft(op(a, b), rhss) == op(a, FoldLeft(b, rhss))
    decreases |rhss|
  {
    if rhss != [] {
      var r := rhss[0];
      assert r.op == op;
      assert op(op(a, b), r.rhs) == op(a, op(b, r.rhs));
      FoldLeftShift(op, a, op(b, r.rhs), rhss[1..]);
    }
  }

  /** When every operator is the same associative one, `infixl` and `infixr`
      compute the same value. */
  lemma {:induction false} AssociativeInfixAgree<T(!new)>(op: (T, T) -> T, first: T, rhss: seq<Rhs<T>>)
    requires Associative(op) && AllOp(rhss, op)
    ensures FoldLeft(first, rhss) == InfixrValue(first, rhss)
    decreases |rhss|
  {
    if rhss != [] {
      var r := rhss[0];
      assert r.op == op;
      AssociativeInfixAgree(op, r.rhs, rhss[1..]);
      FoldLeftShift(op, first, r.rhs, rhss[1..]);
    }
  }

  /* Grouping, shown on expression trees. */

  datatype Expr = Num(n: int) | Plus(left: Expr, right: Expr) | Minus(left: Expr, right: Expr)

  function Eval(e: Expr): int {
    match e
    case Num(n) => n
    case Plus(l, r) => Eval(l) + Eval(r)
    case Minus(l, r) => Eval(l) - Eval(r)
  }

  const PlusOp: (Expr, Expr) -> Expr := (x: Expr, y: Expr) => Plus(x, y)
  const MinusOp: (Expr, Expr) -> Expr := (x: Expr, y: Expr) => Minus(x, y)

  /** `a + b + c + d`: `infixl` builds `((a + b) + c) + d`, `infixr` builds
      `a + (b + (c + d))`. */
  lemma Grouping(a: Expr, b: Expr, c: Expr, d: Expr)
    ensures var rhss := [Rhs(PlusOp, b), Rhs(PlusOp, c), Rhs(PlusOp, d)];
            && FoldLeft(a, rhss) == Plus(Plus(Plus(a, b), c), d)
            && InfixrValue(a, rhss) == Plus(a, Plus(b, Plus(c, d)))
  {
    var rhss := [Rhs(PlusOp, b), Rhs(PlusOp, c), Rhs(PlusOp, d)];
    var r1, r2 := rhss[1..], rhss[1..][1..];
    assert r1 == [Rhs(PlusOp, c), Rhs(PlusOp, d)] && r2 == [Rhs(PlusOp, d)] && r2[1..] == [];
    assert FoldLeft(Plus(Plus(Plus(a, b), c), d), r2[1..]) == Plus(Plus(Plus(a, b), c), d);
    assert FoldLeft(Plus(Plus(a, b), c), r2) == Plus(Plus(Plus(a, b), c), d);
    assert FoldLeft(Plus(a, b), r1) == Plus(Plus(Plus(a, b), c), d);
    assert InfixrValue(d, r2[1..]) == d;
    assert InfixrValue(c, r2) == Plus(c, d);
    assert InfixrValue(b, r1) == Plus(b, Plus(c, d));
  }

  /** `1 - 2 - 3`: the left grouping evaluates to -4, the right one to 2. */
  lemma SubtractionGroups()
    ensures var rhss := [Rhs(MinusOp, Num(2)), Rhs(MinusOp, Num(3))];
            && Eval(FoldLeft(Num(1), rhss)) == -4
            && Eval(InfixrValue(Num(1), rhss)) == 2
  {
    var rhss := [Rhs(MinusOp, Num(2)), Rhs(MinusOp, Num(3))];
    var r1 := rhss[1..];
    assert r1 == [Rhs(MinusOp, Num(3))] && r1[1..] == [];
    var left := Minus(Minus(Num(1), Num(2)), Num(3));
    assert FoldLeft(left, r1[1..]) == left;
    assert FoldLeft(Minus(Num(1), Num(2)), r1) == left;
    assert InfixrValue(Num(3), r1[1..]) == Num(3);
    assert InfixrValue(Num(2), r1) == Minus(Num(2), Num(3));
    assert InfixrValue(Num(1), rhss) == Minus(Num(1), Minus(Num(2), Num(3)));
  }
}
