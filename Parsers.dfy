/** The combinator engine of `Parsers`: a closed set of parser nodes, their
    meaning as a function of the context state (`Run`), and the interpreter
    that mutates a `ParseContext` the way each node's `apply` does. */
module Parsers {
  import opened Context

  /** `TokenMap`: maps the current token to a value; `Null` is Java's null,
      the map's way of rejecting the token.
      `name` is its description, the key of the `missing` diagnostic. */
  datatype TokenMap = TokenMap(name: string, apply: Token -> Value)

  datatype Parser =
    | Constant(value: Value)
    | Never
    | Eof(message: string)
    | Fail(message: string)
    | Expect(name: string)
    | UnexpectedName(name: string)
    | Index
    | TokenOf(fromToken: TokenMap)
      /** Variadic `sequence`: runs the children, keeps no results of its own. */
    | Sequence(parsers: seq<Parser>)
      /** `array`, `list` and `sequence(p1, ..., pn, map)`: runs the children
          and combines their results. */
    | Collect(parsers: seq<Parser>, combine: seq<Value> -> Value)
      /** The anonymous parser of `or(alternatives...)`. */
    | Or(alternatives: seq<Parser>)

  datatype Outcome = Outcome(ok: bool, state: State)

  /** What applying `p` to a context in state `s` over `input` does. */
  function Run(p: Parser, input: seq<Token>, s: State): Outcome
    decreases p
  {
    match p
    case Constant(v) => Outcome(true, s.(result := v))
    case Never => Outcome(false, s)
    case Eof(message) =>
      if s.at >= |input| then Outcome(true, s)
      else Outcome(false, Record(s, Missing(s.at, message)))
    case Fail(message) => Outcome(false, Record(s, Failure(s.at, message)))
    case Expect(name) => Outcome(false, Record(s, Expected(s.at, name)))
    case UnexpectedName(name) => Outcome(false, Record(s, Unexpected(s.at, name)))
    case Index => Outcome(true, s.(result := Int(s.at)))
    case TokenOf(fromToken) =>
      if s.at >= |input| then Outcome(false, Record(s, Missing(s.at, fromToken.name)))
      else
        var v := fromToken.apply(input[s.at]);
        if v == Null then Outcome(false, Record(s, Missing(s.at, fromToken.name)))
        else Outcome(true, Advance(s.(result := v)))
    case Sequence(ps) => RunSequence(ps, input, s)
    case Collect(ps, f) => RunCollect(ps, f, input, s, [])
    case Or(alts) => RunOr(alts, input, s)
  }

  /** Children in order; the first failure ends the run. */
  function RunSequence(ps: seq<Parser>, input: seq<Token>, s: State): Outcome
    decreases ps
  {
    if ps == [] then Outcome(true, s)
    else
      var o := Run(ps[0], input, s);
      if !o.ok then o else RunSequence(ps[1..], input, o.state)
  }

  /** As RunSequence, collecting each child's result in `acc`; the combined
      value becomes the result once every child has succeeded. */
  function RunCollect(ps: seq<Parser>, f: seq<Value> -> Value, input: seq<Token>, s: State, acc: seq<Value>): Outcome
    decreases ps
  {
    if ps == [] then Outcome(true, s.(result := f(acc)))
    else
      var o := Run(ps[0], input, s);
      if !o.ok then o else RunCollect(ps[1..], f, input, o.state, acc + [o.state.result])
  }

  /** Alternatives in order from the same position, step and result; the
      first success wins. */
  function RunOr(alts: seq<Parser>, input: seq<Token>, s: State): Outcome
    decreases alts
  {
    if alts == [] then Outcome(false, s)
    else
      var o := Run(alts[0], input, s);
      if o.ok then o else RunOr(alts[1..], input, Restore(o.state, s.step, s.at, s.result))
  }

  /** `apply(ctxt)` of every node: changes the context as `Run` says and
      answers whether the node succeeded. The bodies of `constant`, `never`,
      `eof`, `fail`, `expect`, `unexpected` and `INDEX` are inline. */
  method Apply(p: Parser, ctxt: ParseContext) returns (ok: bool)
    modifies ctxt
    ensures Outcome(ok, ctxt.Snapshot()) == Run(p, ctxt.input, old(ctxt.Snapshot()))
    decreases p
  {
    match p
    case Constant(v) =>
      ctxt.result := v;
      ok := true;
    case Never =>
      ok := false;
    case Eof(message) =>
      if ctxt.IsEof() {
        return true;
      }
      ctxt.RecordMissing(message);
      ok := false;
    case Fail(message) =>
      ctxt.RecordFailure(message);
      ok := false;
    case Expect(name) =>
      ctxt.RecordExpected(name);
      ok := false;
    case UnexpectedName(name) =>
      ctxt.RecordUnexpected(name);
      ok := false;
    case Index =>
      ctxt.result := Int(ctxt.at);
      ok := true;
    case TokenOf(fromToken) =>
      ok := ApplyToken(fromToken, ctxt);
    case Sequence(ps) =>
      ok := ApplySequence(ps, ctxt);
    case Collect(ps, f) =>
      ok := ApplyCollect(ps, f, ctxt);
    case Or(alts) =>
      ok := ApplyOr(alts, ctxt);
  }

  /** `apply` of `token(fromToken)`. */
  method ApplyToken(fromToken: TokenMap, ctxt: ParseContext) returns (ok: bool)
    modifies ctxt
    ensures Outcome(ok, ctxt.Snapshot()) == Run(TokenOf(fromToken), ctxt.input, old(ctxt.Snapshot()))
  {
    if ctxt.IsEof() {
      ctxt.RecordMissing(fromToken.name);
      return false;
    }
    var token := ctxt.GetToken();
    var v := fromToken.apply(token);
    if v == Null {
      ctxt.RecordMissing(fromToken.name);
      return false;
    }
    ctxt.result := v;
    ctxt.Next();
    ok := true;
  }

  /** `apply` of the variadic `sequence(parsers...)`. */
  method ApplySequence(ps: seq<Parser>, ctxt: ParseContext) returns (ok: bool)
    modifies ctxt
    ensures Outcome(ok, ctxt.Snapshot()) == RunSequence(ps, ctxt.input, old(ctxt.Snapshot()))
    decreases ps
  {
    var i := 0;
    while i < |ps|
      invariant 0 <= i <= |ps|
      invariant RunSequence(ps, ctxt.input, old(ctxt.Snapshot())) == RunSequence(ps[i..], ctxt.input, ctxt.Snapshot())
    {
      assert ps[i..][1..] == ps[i + 1..];
      var r := Apply(ps[i], ctxt);
      if !r {
        return false;
      }
      i := i + 1;
    }
    ok := true;
  }

  /** `apply` of `array`, `list` and `sequence(p1, ..., map)`: the children's
      results are collected, then combined into the result slot. */
  method ApplyCollect(ps: seq<Parser>, f: seq<Value> -> Value, ctxt: ParseContext) returns (ok: bool)
    modifies ctxt
    ensures Outcome(ok, ctxt.Snapshot()) == RunCollect(ps, f, ctxt.input, old(ctxt.Snapshot()), [])
    decreases ps
  {
    var values := [];
    var i := 0;
    while i < |ps|
      invariant 0 <= i <= |ps|
      invariant RunCollect(ps, f, ctxt.input, old(ctxt.Snapshot()), []) == RunCollect(ps[i..], f, ctxt.input, ctxt.Snapshot(), values)
    {
      assert ps[i..][1..] == ps[i + 1..];
      var r := Apply(ps[i], ctxt);
      if !r {
        return false;
      }
      values := values + [ctxt.result];
      i := i + 1;
    }
    ctxt.result := f(values);
    ok := true;
  }

  /** `apply` of the parser `or(alternatives...)` builds for two or more
      alternatives. */
  method ApplyOr(alts: seq<Parser>, ctxt: ParseContext) returns (ok: bool)
    modifies ctxt
    ensures Outcome(ok, ctxt.Snapshot()) == RunOr(alts, ctxt.input, old(ctxt.Snapshot()))
    decreases alts
  {
    var result, at, step := ctxt.result, ctxt.at, ctxt.step;
    var i := 0;
    while i < |alts|
      invariant 0 <= i <= |alts|
      invariant ctxt.result == result && ctxt.at == at && ctxt.step == step
      invariant RunOr(alts, ctxt.input, old(ctxt.Snapshot())) == RunOr(alts[i..], ctxt.input, ctxt.Snapshot())
    {
      assert alts[i..][1..] == alts[i + 1..];
      var r := Apply(alts[i], ctxt);
      if r {
        return true;
      }
      ctxt.Set(step, at, result);
      i := i + 1;
    }
    ok := false;
  }

  /** Factories: how the public constructors of `Parsers` build nodes. */

  /** `EOF`. */
  const EndOfInput: Parser := Eof("EOF")

  /** `always()`. */
  const Always: Parser := Constant(Null)

  /** `ANY_TOKEN`: the token's value, failing when that value is null. */
  const AnyToken: Parser := TokenOf(TokenMap("any token", (t: Token) => t.value))

  /** `or(alternatives...)`: no alternative is `never()`, one is that
      alternative itself; the fixed-arity `or`s all end here. */
  function OrOf(alternatives: seq<Parser>): Parser {
    if |alternatives| == 0 then Never
    else if |alternatives| == 1 then alternatives[0]
    else Or(alternatives)
  }

  /** `longest(parsers...)` with at most one parser. */
  function Longest(parsers: seq<Parser>): Parser
    requires |parsers| <= 1
  {
    if |parsers| == 0 then Never else parsers[0]
  }

  /** `shortest(parsers...)` with at most one parser. */
  function Shortest(parsers: seq<Parser>): Parser
    requires |parsers| <= 1
  {
    if |parsers| == 0 then Never else parsers[0]
  }

  /** `array(parsers...)` and `list(parsers)`: one result per child. */
  function ArrayOf(parsers: seq<Parser>): Parser {
    Collect(parsers, (vs: seq<Value>) => Items(vs))
  }

  /** The i-th collected value. */
  function Arg(vs: seq<Value>, i: nat): Value {
    if i < |vs| then vs[i] else Null
  }

  /** `sequence(p1, p2, join)`. */
  function Sequence2(p1: Parser, p2: Parser, join: (Value, Value) -> Value): Parser {
    Collect([p1, p2], (vs: seq<Value>) => join(Arg(vs, 0), Arg(vs, 1)))
  }

  /** `sequence(p1, p2, p3, join)`. */
  function Sequence3(p1: Parser, p2: Parser, p3: Parser, join: (Value, Value, Value) -> Value): Parser {
    Collect([p1, p2, p3], (vs: seq<Value>) => join(Arg(vs, 0), Arg(vs, 1), Arg(vs, 2)))
  }

  /** `sequence(p1, p2, p3, p4, join)`. */
  function Sequence4(p1: Parser, p2: Parser, p3: Parser, p4: Parser,
                     join: (Value, Value, Value, Value) -> Value): Parser {
    Collect([p1, p2, p3, p4], (vs: seq<Value>) => join(Arg(vs, 0), Arg(vs, 1), Arg(vs, 2), Arg(vs, 3)))
  }

  /** `sequence(p1, p2, p3, p4, p5, join)`. */
  function Sequence5(p1: Parser, p2: Parser, p3: Parser, p4: Parser, p5: Parser,
                     join: (Value, Value, Value, Value, Value) -> Value): Parser {
    Collect([p1, p2, p3, p4, p5],
            (vs: seq<Value>) => join(Arg(vs, 0), Arg(vs, 1), Arg(vs, 2), Arg(vs, 3), Arg(vs, 4)))
  }

  /** `sequence(p1, p2)`: the second result, through `lastOfTwo`. */
  function Then(p1: Parser, p2: Parser): Parser {
    Sequence2(p1, p2, (a: Value, b: Value) => b)
  }

  /** `sequence(p1, p2, p3)`: the last result, through `lastOfThree`. */
  function Then3(p1: Parser, p2: Parser, p3: Parser): Parser {
    Sequence3(p1, p2, p3, (a: Value, b: Value, c: Value) => c)
  }

  /** `sequence(p1, p2, p3, p4)`: the last result, through `lastOfFour`. */
  function Then4(p1: Parser, p2: Parser, p3: Parser, p4: Parser): Parser {
    Sequence4(p1, p2, p3, p4, (a: Value, b: Value, c: Value, d: Value) => d)
  }

  /** `sequence(p1, p2, p3, p4, p5)`: the last result, through `lastOfFive`. */
  function Then5(p1: Parser, p2: Parser, p3: Parser, p4: Parser, p5: Parser): Parser {
    Sequence5(p1, p2, p3, p4, p5, (a: Value, b: Value, c: Value, d: Value, e: Value) => e)
  }

  /** `tokenType(type, name)`: succeeds on a token whose value is an instance
      of the type; `isInstance` stands for the reflective test. A null value
      maps to null whatever the test says, so it never succeeds. */
  function TokenType(isInstance: Value -> bool, name: string): Parser {
    TokenOf(TokenMap(name, (t: Token) => if isInstance(t.value) then t.value else Null))
  }

  /** The parser `infixn` builds once the left operand `a` is known:
      `or(sequence(op, p, (m2, b) -> m2.map(a, b)), constant(a))`, where
      `combine(m2, a, b)` stands for applying the operator value `m2`. */
  function InfixnTail(a: Value, op: Parser, p: Parser, combine: (Value, Value, Value) -> Value): Parser {
    OrOf([Sequence2(op, p, WithLeft(a, combine)), Constant(a)])
  }

  /** The `(m2, b) -> m2.map(a, b)` of `infixn`, `a` fixed. */
  function WithLeft(a: Value, combine: (Value, Value, Value) -> Value): (Value, Value) -> Value {
    (m2: Value, b: Value) => combine(m2, a, b)
  }

  /* Laws of the engine. */

  /** Nothing moves back: position and step never decrease, diagnostics are
      only appended, and a position inside the input stays inside it. */
  ghost predicate Grows(input: seq<Token>, s: State, t: State) {
    && s.at <= t.at && s.step <= t.step && s.log <= t.log
    && (s.at <= |input| ==> t.at <= |input|)
  }

  lemma {:induction false} RunGrows(p: Parser, input: seq<Token>, s: State)
    ensures Grows(input, s, Run(p, input, s).state)
    decreases p
  {
    match p
    case Sequence(ps) => SequenceGrows(ps, input, s);
    case Collect(ps, f) => CollectGrows(ps, f, input, s, []);
    case Or(alts) => OrGrows(alts, input, s);
    case _ =>
  }

  lemma {:induction false} SequenceGrows(ps: seq<Parser>, input: seq<Token>, s: State)
    ensures Grows(input, s, RunSequence(ps, input, s).state)
    decreases ps
  {
    if ps != [] {
      var o := Run(ps[0], input, s);
      RunGrows(ps[0], input, s);
      if o.ok {
        SequenceGrows(ps[1..], input, o.state);
      }
    }
  }

  lemma {:induction false} CollectGrows(ps: seq<Parser>, f: seq<Value> -> Value, input: seq<Token>, s: State, acc: seq<Value>)
    ensures Grows(input, s, RunCollect(ps, f, input, s, acc).state)
    decreases ps
  {
    if ps != [] {
      var o := Run(ps[0], input, s);
      RunGrows(ps[0], input, s);
      if o.ok {
        CollectGrows(ps[1..], f, input, o.state, acc + [o.state.result]);
      }
    }
  }

  lemma {:induction false} OrGrows(alts: seq<Parser>, input: seq<Token>, s: State)
    ensures Grows(input, s, RunOr(alts, input, s).state)
    decreases alts
  {
    if alts != [] {
      var o := Run(alts[0], input, s);
      RunGrows(alts[0], input, s);
      if !o.ok {
        OrGrows(alts[1..], input, Restore(o.state, s.step, s.at, s.result));
      }
    }
  }

  /** When every alternative fails, `or` fails in its entry position, step
      and result; the diagnostics the alternatives recorded stay, starting
      with those of the first alternative. */
  lemma {:induction false} OrFailureRestores(alts: seq<Parser>, input: seq<Token>, s: State)
    ensures var o := Run(Or(alts), input, s);
            !o.ok ==> o.state.at == s.at && o.state.step == s.step && o.state.result == s.result
                      && s.log <= o.state.log
    ensures var o := Run(Or(alts), input, s);
            alts != [] && !o.ok ==> Run(alts[0], input, s).state.log <= o.state.log
    decreases alts
  {
    if alts != [] {
      var o := Run(alts[0], input, s);
      RunGrows(alts[0], input, s);
      if !o.ok {
        var t := Restore(o.state, s.step, s.at, s.result);
        OrFailureRestores(alts[1..], input, t);
      }
    }
  }

  /** The whole log of a failed `or`: the last alternative runs from the entry
      position, step and result, on top of every diagnostic the alternatives
      before it recorded, and its own diagnostics are kept as well. */
  lemma OrFailureLog(xs: seq<Parser>, p: Parser, input: seq<Token>, s: State)
    ensures var o := Run(Or(xs + [p]), input, s);
            var before := Run(Or(xs), input, s);
            !o.ok ==> && !before.ok
                      && o.state == Restore(Run(p, input, Restore(before.state, s.step, s.at, s.result)).state,
                                            s.step, s.at, s.result)
  {
    OrAppend(xs, [p], input, s);
    var before := Run(Or(xs), input, s);
    if !before.ok {
      var t := Restore(before.state, s.step, s.at, s.result);
      var last := Run(p, input, t);
      assert [p][0] == p && [p][1..] == [];
      if !last.ok {
        assert RunOr([p], input, t) == RunOr([], input, Restore(last.state, t.step, t.at, t.result));
      }
    }
  }

  /** `or(fail(m), never())`: the failure of the first alternative survives
      the rollback that precedes the second. */
  lemma OrKeepsFailure(m: string, input: seq<Token>, s: State)
    ensures Run(Or([Fail(m), Never]), input, s) == Outcome(false, Record(s, Failure(s.at, m)))
  {
    var alts := [Fail(m), Never];
    var failed := Record(s, Failure(s.at, m));
    assert Run(alts[0], input, s) == Outcome(false, failed);
    assert Restore(failed, s.step, s.at, s.result) == failed;
    assert alts[1..] == [Never] && [Never][1..] == [];
    assert Restore(failed, failed.step, failed.at, failed.result) == failed;
    assert RunOr([Never], input, failed) == RunOr([], input, failed);
  }

  /** Ordered choice over `xs + ys`: if some alternative of `xs` succeeds,
      the alternatives in `ys` are never tried; otherwise `ys` is tried from
      the entry state, carrying the diagnostics `xs` left. */
  lemma {:induction false} OrAppend(xs: seq<Parser>, ys: seq<Parser>, input: seq<Token>, s: State)
    ensures var o := Run(Or(xs), input, s);
            Run(Or(xs + ys), input, s)
            == if o.ok then o else Run(Or(ys), input, Restore(o.state, s.step, s.at, s.result))
    decreases xs
  {
    if xs == [] {
      assert xs + ys == ys;
    } else {
      assert (xs + ys)[0] == xs[0] && (xs + ys)[1..] == xs[1..] + ys;
      var o := Run(xs[0], input, s);
      if !o.ok {
        var t := Restore(o.state, s.step, s.at, s.result);
        OrAppend(xs[1..], ys, input, t);
        OrFailureRestores(xs[1..], input, t);
      }
    }
  }

  /** Sequencing over `xs + ys`: a failure inside `xs` ends the run before
      any parser of `ys` runs; otherwise `ys` continues where `xs` stopped. */
  lemma {:induction false} SequenceAppend(xs: seq<Parser>, ys: seq<Parser>, input: seq<Token>, s: State)
    ensures var o := Run(Sequence(xs), input, s);
            Run(Sequence(xs + ys), input, s) == if !o.ok then o else Run(Sequence(ys), input, o.state)
    decreases xs
  {
    if xs == [] {
      assert xs + ys == ys;
    } else {
      assert (xs + ys)[0] == xs[0] && (xs + ys)[1..] == xs[1..] + ys;
      var o := Run(xs[0], input, s);
      if o.ok {
        SequenceAppend(xs[1..], ys, input, o.state);
      }
    }
  }

  /** The results of the children of a successful sequence, in order. */
  ghost function ChildResults(ps: seq<Parser>, input: seq<Token>, s: State): seq<Value>
    decreases ps
  {
    if ps == [] then []
    else
      var o := Run(ps[0], input, s);
      if !o.ok then [] else [o.state.result] + ChildResults(ps[1..], input, o.state)
  }

  /** A collecting node runs exactly like the plain sequence of its
      children, failing where it fails; on success it holds one result per
      child, in order, combined by its function, the last of them being what
      the plain sequence leaves in the result slot. */
  lemma {:induction false} CollectIsSequence(ps: seq<Parser>, f: seq<Value> -> Value, input: seq<Token>, s: State)
    ensures var c := Run(Collect(ps, f), input, s);
            var q := Run(Sequence(ps), input, s);
            var vs := ChildResults(ps, input, s);
            && c.ok == q.ok
            && (!c.ok ==> c == q)
            && (c.ok ==> |vs| == |ps| && c.state == q.state.(result := f(vs))
                         && (ps != [] ==> vs[|ps| - 1] == q.state.result))
  {
    CollectIsSequenceFrom(ps, f, input, s, []);
    assert [] + ChildResults(ps, input, s) == ChildResults(ps, input, s);
  }

  lemma {:induction false} CollectIsSequenceFrom(ps: seq<Parser>, f: seq<Value> -> Value, input: seq<Token>, s: State, acc: seq<Value>)
    ensures var c := RunCollect(ps, f, input, s, acc);
            var q := RunSequence(ps, input, s);
            var vs := ChildResults(ps, input, s);
            && c.ok == q.ok
            && (!c.ok ==> c == q)
            && (c.ok ==> |vs| == |ps| && c.state == q.state.(result := f(acc + vs))
                         && (ps != [] ==> vs[|ps| - 1] == q.state.result))
    decreases ps
  {
    if ps == [] {
      assert acc + [] == acc;
    } else {
      var o := Run(ps[0], input, s);
      if o.ok {
        var rest := ChildResults(ps[1..], input, o.state);
        CollectIsSequenceFrom(ps[1..], f, input, o.state, acc + [o.state.result]);
        assert acc + [o.state.result] + rest == acc + ([o.state.result] + rest);
        if ps[1..] == [] {
          assert rest == [];
        }
      }
    }
  }

  /** `sequence(p1, p2, join)`: fails where `p1` or `p2` fails (and `p2` is
      not run after a failing `p1`); on success the result is `join` of the
      two results and everything else is as `p2` left it. */
  lemma Sequence2Run(p1: Parser, p2: Parser, join: (Value, Value) -> Value, input: seq<Token>, s: State)
    ensures var o1 := Run(p1, input, s);
            var o2 := Run(p2, input, o1.state);
            Run(Sequence2(p1, p2, join), input, s)
            == if !o1.ok then o1
               else if !o2.ok then o2
               else Outcome(true, o2.state.(result := join(o1.state.result, o2.state.result)))
  {
    var g := Sequence2(p1, p2, join).combine;
    CollectTwo(p1, p2, g, input, s);
    var o1 := Run(p1, input, s);
    var o2 := Run(p2, input, o1.state);
    var vs := [o1.state.result, o2.state.result];
    assert Arg(vs, 0) == o1.state.result && Arg(vs, 1) == o2.state.result;
  }

  /** Two children collected: each result in its place. */
  lemma CollectTwo(p1: Parser, p2: Parser, f: seq<Value> -> Value, input: seq<Token>, s: State)
    ensures var o1 := Run(p1, input, s);
            var o2 := Run(p2, input, o1.state);
            RunCollect([p1, p2], f, input, s, [])
            == if !o1.ok then o1
               else if !o2.ok then o2
               else Outcome(true, o2.state.(result := f([o1.state.result, o2.state.result])))
  {
    var ps := [p1, p2];
    assert ps[1..] == [p2] && ps[1..][1..] == [];
    var o1 := Run(p1, input, s);
    assert [] + [o1.state.result] == [o1.state.result];
    if o1.ok {
      assert RunCollect(ps, f, input, s, []) == RunCollect([p2], f, input, o1.state, [o1.state.result]);
      var o2 := Run(p2, input, o1.state);
      if o2.ok {
        assert [o1.state.result] + [o2.state.result] == [o1.state.result, o2.state.result];
        assert RunCollect([p2], f, input, o1.state, [o1.state.result])
            == RunCollect([], f, input, o2.state, [o1.state.result, o2.state.result]);
      }
    }
  }

  /** `token`: at the end of input, or when the map answers null, it records
      `missing` under the map's name where it stands and fails without
      moving; otherwise it yields the mapped value and advances exactly one
      token and one step. */
  lemma TokenRun(fromToken: TokenMap, input: seq<Token>, s: State)
    ensures var o := Run(TokenOf(fromToken), input, s);
            && (o.ok <==> s.at < |input| && fromToken.apply(input[s.at]) != Null)
            && (!o.ok ==> o.state == s.(log := s.log + [Missing(s.at, fromToken.name)]))
            && (o.ok ==> o.state.result == fromToken.apply(input[s.at]) && o.state.result != Null
                         && o.state.at == s.at + 1 && o.state.step == s.step + 1 && o.state.log == s.log)
  {
  }

  /** `ANY_TOKEN`: accepts exactly the tokens whose value is not null,
      yielding that value and advancing one token. */
  lemma AnyTokenRun(input: seq<Token>, s: State)
    ensures var o := Run(AnyToken, input, s);
            && (o.ok <==> s.at < |input| && input[s.at].value != Null)
            && (o.ok ==> o.state.result == input[s.at].value && o.state.at == s.at + 1)
            && (!o.ok ==> o.state == s.(log := s.log + [Missing(s.at, "any token")]))
  {
  }

  /** `tokenType`: accepts exactly the tokens whose non-null value passes
      the instance test, yielding that value. */
  lemma TokenTypeRun(isInstance: Value -> bool, name: string, input: seq<Token>, s: State)
    ensures var o := Run(TokenType(isInstance, name), input, s);
            && (o.ok <==> s.at < |input| && input[s.at].value != Null && isInstance(input[s.at].value))
            && (o.ok ==> o.state.result == input[s.at].value && o.state.at == s.at + 1)
            && (!o.ok ==> o.state.at == s.at)
  {
  }

  /** The shortcuts of `or(...)` for zero and one alternative: with none or
      with two or more the factory is the general node; with one it is the
      alternative itself, which agrees with the general node except that a
      failure is not rolled back to the entry position, step and result. */
  lemma OrOfAgrees(alts: seq<Parser>, input: seq<Token>, s: State)
    ensures var o := Run(OrOf(alts), input, s);
            var g := Run(Or(alts), input, s);
            && o.ok == g.ok
            && o.state.log == g.state.log
            && (o.ok || |alts| != 1 ==> o == g)
            && (!o.ok && |alts| == 1 ==> g.state == Restore(o.state, s.step, s.at, s.result))
    ensures |alts| == 0 ==> Run(OrOf(alts), input, s) == Outcome(false, s)
    ensures |alts| == 1 ==> Run(OrOf(alts), input, s) == Run(alts[0], input, s)
  {
    if |alts| == 1 {
      assert alts[1..] == [];
      var o := Run(alts[0], input, s);
      assert Run(Or(alts), input, s) == if o.ok then o else RunOr([], input, Restore(o.state, s.step, s.at, s.result));
    }
  }

  /** `longest` and `shortest` with no parser never succeed and change
      nothing; with one parser they run just that parser. */
  lemma DegenerateBest(parsers: seq<Parser>, input: seq<Token>, s: State)
    requires |parsers| <= 1
    ensures |parsers| == 0 ==> Run(Longest(parsers), input, s) == Outcome(false, s)
                               && Run(Shortest(parsers), input, s) == Outcome(false, s)
    ensures |parsers| == 1 ==> Run(Longest(parsers), input, s) == Run(parsers[0], input, s)
                               && Run(Shortest(parsers), input, s) == Run(parsers[0], input, s)
  {
  }

  /** `(op p)?` after the left operand `a`: never fails. If `op` and then `p`
      succeed, the result is `a` combined with the right operand; otherwise
      the position, step and result are back to the entry ones except that
      the result is `a`. */
  lemma InfixnTailRun(a: Value, op: Parser, p: Parser, combine: (Value, Value, Value) -> Value,
                      input: seq<Token>, s: State)
    ensures var o := Run(InfixnTail(a, op, p, combine), input, s);
            var o1 := Run(op, input, s);
            var o2 := Run(p, input, o1.state);
            && o.ok
            && (o1.ok && o2.ok ==> o.state == o2.state.(result := combine(o1.state.result, a, o2.state.result)))
            && (!(o1.ok && o2.ok) ==> o.state.at == s.at && o.state.step == s.step && o.state.result == a)
  {
    var shift := Sequence2(op, p, WithLeft(a, combine));
    Sequence2Run(op, p, WithLeft(a, combine), input, s);
    var alts := [shift, Constant(a)];
    assert alts[1..] == [Constant(a)] && alts[1..][1..] == [];
    var o := Run(shift, input, s);
    if !o.ok {
      RunGrows(shift, input, s);
      var t := Restore(o.state, s.step, s.at, s.result);
      assert RunOr(alts[1..], input, t) == Outcome(true, t.(result := a));
    }
  }

  /** `constant`, `never`, `eof` and `INDEX`. `constant(v)` succeeds with `v`
      and moves nothing; `never()` fails and changes nothing; `eof` succeeds
      exactly at the end of input, changing nothing, and otherwise records
      `missing` with its message; `INDEX` yields the current position. */
  lemma PrimitivesRun(v: Value, message: string, input: seq<Token>, s: State)
    ensures Run(Constant(v), input, s) == Outcome(true, s.(result := v))
    ensures Run(Never, input, s) == Outcome(false, s)
    ensures var o := Run(Eof(message), input, s);
            && (o.ok <==> s.at >= |input|)
            && (o.ok ==> o.state == s)
            && (!o.ok ==> o.state == s.(log := s.log + [Missing(s.at, message)]))
    ensures Run(Index, input, s) == Outcome(true, s.(result := Int(s.at)))
  {
  }

  /** `array(parsers...)` and `list(parsers)`: on success the result holds
      one value per child, in the children's order. */
  lemma ArrayRun(parsers: seq<Parser>, input: seq<Token>, s: State)
    ensures var o := Run(ArrayOf(parsers), input, s);
            var vs := ChildResults(parsers, input, s);
            && o.ok == Run(Sequence(parsers), input, s).ok
            && (o.ok ==> o.state.result == Items(vs) && |vs| == |parsers|)
  {
    CollectIsSequence(parsers, (vs: seq<Value>) => Items(vs), input, s);
  }

  /** `sequence` of three, four and five parsers with a map: the map applied
      to the children's results, in order, when every child succeeds. */
  lemma WideSequencesRun(p1: Parser, p2: Parser, p3: Parser, p4: Parser, p5: Parser,
                         join3: (Value, Value, Value) -> Value,
                         join4: (Value, Value, Value, Value) -> Value,
                         join5: (Value, Value, Value, Value, Value) -> Value,
                         input: seq<Token>, s: State)
    ensures var o := Run(Sequence3(p1, p2, p3, join3), input, s);
            var vs := ChildResults([p1, p2, p3], input, s);
            && o.ok == Run(Sequence([p1, p2, p3]), input, s).ok
            && (o.ok ==> |vs| == 3 && o.state.result == join3(vs[0], vs[1], vs[2]))
    ensures var o := Run(Sequence4(p1, p2, p3, p4, join4), input, s);
            var vs := ChildResults([p1, p2, p3, p4], input, s);
            && o.ok == Run(Sequence([p1, p2, p3, p4]), input, s).ok
            && (o.ok ==> |vs| == 4 && o.state.result == join4(vs[0], vs[1], vs[2], vs[3]))
    ensures var o := Run(Sequence5(p1, p2, p3, p4, p5, join5), input, s);
            var vs := ChildResults([p1, p2, p3, p4, p5], input, s);
            && o.ok == Run(Sequence([p1, p2, p3, p4, p5]), input, s).ok
            && (o.ok ==> |vs| == 5 && o.state.result == join5(vs[0], vs[1], vs[2], vs[3], vs[4]))
  {
    CollectIsSequence([p1, p2, p3], Sequence3(p1, p2, p3, join3).combine, input, s);
    var v3 := ChildResults([p1, p2, p3], input, s);
    if |v3| == 3 {
      assert Arg(v3, 0) == v3[0] && Arg(v3, 1) == v3[1] && Arg(v3, 2) == v3[2];
    }
    CollectIsSequence([p1, p2, p3, p4], Sequence4(p1, p2, p3, p4, join4).combine, input, s);
    var v4 := ChildResults([p1, p2, p3, p4], input, s);
    if |v4| == 4 {
      assert Arg(v4, 0) == v4[0] && Arg(v4, 1) == v4[1] && Arg(v4, 2) == v4[2] && Arg(v4, 3) == v4[3];
    }
    CollectIsSequence([p1, p2, p3, p4, p5], Sequence5(p1, p2, p3, p4, p5, join5).combine, input, s);
    var v5 := ChildResults([p1, p2, p3, p4, p5], input, s);
    if |v5| == 5 {
      assert Arg(v5, 0) == v5[0] && Arg(v5, 1) == v5[1] && Arg(v5, 2) == v5[2]
          && Arg(v5, 3) == v5[3] && Arg(v5, 4) == v5[4];
    }
  }

  /** `sequence(p1, p2)`: both must succeed, and the second's result is
      kept. */
  lemma ThenRun(p1: Parser, p2: Parser, input: seq<Token>, s: State)
    ensures var o1 := Run(p1, input, s);
            var o2 := Run(p2, input, o1.state);
            var o := Run(Then(p1, p2), input, s);
            && (o.ok <==> o1.ok && o2.ok)
            && (o.ok ==> o == o2)
  {
    Sequence2Run(p1, p2, (a: Value, b: Value) => b, input, s);
    var o1 := Run(p1, input, s);
    var o2 := Run(p2, input, o1.state);
    if o1.ok && o2.ok {
      assert o2.state.(result := o2.state.result) == o2.state;
    }
  }

  /** `sequence(p1, ..., pn)` for three to five parsers: keeping the last
      result makes it exactly the plain sequence of the parsers, in success
      and in failure. */
  lemma ThenWideRun(p1: Parser, p2: Parser, p3: Parser, p4: Parser, p5: Parser, input: seq<Token>, s: State)
    ensures Run(Then3(p1, p2, p3), input, s) == Run(Sequence([p1, p2, p3]), input, s)
    ensures Run(Then4(p1, p2, p3, p4), input, s) == Run(Sequence([p1, p2, p3, p4]), input, s)
    ensures Run(Then5(p1, p2, p3, p4, p5), input, s) == Run(Sequence([p1, p2, p3, p4, p5]), input, s)
  {
    var q3 := Run(Sequence([p1, p2, p3]), input, s);
    CollectIsSequence([p1, p2, p3], Then3(p1, p2, p3).combine, input, s);
    if q3.ok {
      var vs := ChildResults([p1, p2, p3], input, s);
      assert Arg(vs, 2) == vs[2] == q3.state.result;
      assert q3.state.(result := q3.state.result) == q3.state;
    }
    var q4 := Run(Sequence([p1, p2, p3, p4]), input, s);
    CollectIsSequence([p1, p2, p3, p4], Then4(p1, p2, p3, p4).combine, input, s);
    if q4.ok {
      var vs := ChildResults([p1, p2, p3, p4], input, s);
      assert Arg(vs, 3) == vs[3] == q4.state.result;
      assert q4.state.(result := q4.state.result) == q4.state;
    }
    var q5 := Run(Sequence([p1, p2, p3, p4, p5]), input, s);
    CollectIsSequence([p1, p2, p3, p4, p5], Then5(p1, p2, p3, p4, p5).combine, input, s);
    if q5.ok {
      var vs := ChildResults([p1, p2, p3, p4, p5], input, s);
      assert Arg(vs, 4) == vs[4] == q5.state.result;
      assert q5.state.(result := q5.state.result) == q5.state;
    }
  }
}
