/** The mutable state one parse run threads through the combinators: the
    position `at`, the step counter, the result slot and the diagnostics.
    The context class itself is not part of the modelled sources; this
    module gives it just the operations the combinators call. */
module Context {

  /** The values parsers leave in the result slot (Java objects). */
  datatype Value = Null | Int(i: int) | Bool(b: bool) | Text(s: string) | Items(items: seq<Value>)

  /** A token produced by a lexing phase: where it starts, how long it is,
      and the value it carries. */
  datatype Token = Token(index: int, length: nat, value: Value)

  /** What `missing`, `expected`, `unexpected` and `fail` record, with the
      position they were recorded at. */
  datatype Diagnostic =
    | Missing(at: nat, name: string)
    | Expected(at: nat, name: string)
    | Unexpected(at: nat, name: string)
    | Failure(at: nat, message: string)

  /** A snapshot of the context's mutable fields. */
  datatype State = State(at: nat, step: nat, result: Value, log: seq<Diagnostic>)

  /** `next()`: consume one token, committing a step. */
  function Advance(s: State): State {
    s.(at := s.at + 1, step := s.step + 1)
  }

  /** Diagnostics are appended and never taken back. */
  function Record(s: State, d: Diagnostic): State {
    s.(log := s.log + [d])
  }

  /** `set(step, at, result)`: roll back the position, step and result,
      keeping the diagnostics. */
  function Restore(s: State, step: nat, at: nat, result: Value): State {
    State(at, step, result, s.log)
  }

  class ParseContext {
    const input: seq<Token>
    var at: nat
    var step: nat
    var result: Value
    var log: seq<Diagnostic>

    function Snapshot(): State
      reads this
    {
      State(at, step, result, log)
    }

    constructor (input: seq<Token>)
      ensures this.input == input && Snapshot() == State(0, 0, Null, [])
    {
      this.input := input;
      at, step, result, log := 0, 0, Null, [];
    }

    predicate IsEof()
      reads this
    {
      at >= |input|
    }

    function GetToken(): Token
      reads this
      requires !IsEof()
    {
      input[at]
    }

    method Next()
      requires !IsEof()
      modifies this
      ensures Snapshot() == Advance(old(Snapshot()))
    {
      at, step := at + 1, step + 1;
    }

    method Set(step: nat, at: nat, result: Value)
      modifies this
      ensures Snapshot() == Restore(old(Snapshot()), step, at, result)
    {
      this.step, this.at, this.result := step, at, result;
    }

    method RecordMissing(name: string)
      modifies this
      ensures Snapshot() == Record(old(Snapshot()), Missing(old(at), name))
    {
      log := log + [Missing(at, name)];
    }

    method RecordExpected(name: string)
      modifies this
      ensures Snapshot() == Record(old(Snapshot()), Expected(old(at), name))
    {
      log := log + [Expected(at, name)];
    }

    method RecordUnexpected(name: string)
      modifies this
      ensures Snapshot() == Record(old(Snapshot()), Unexpected(old(at), name))
    {
      log := log + [Unexpected(at, name)];
    }

    method RecordFailure(message: string)
      modifies this
      ensures Snapshot() == Record(old(Snapshot()), Failure(old(at), message))
    {
      log := log + [Failure(at, message)];
    }
  }
}
