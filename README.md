# jparsec core in Dafny

This project models two layers of jparsec, a parser-combinator library for Java.

**Character patterns.** A `Pattern` looks at a window `src[begin..end]` of the source text. It either consumes a length or answers `MISMATCH`. Three quantifiers are modelled:

- `RepeatPattern`: exactly `n` repetitions.
- `ManyPattern`: zero or more repetitions, stopping at a mismatch or at the first empty match.
- `LowerBoundedPattern`: at least `min` repetitions.

The inner pattern is any matcher that stays inside its window (`Pattern.Pattern`, a subset type of matcher functions). `MISMATCH` is the `Mismatch` variant of `MatchResult`. The loops of `matchRepeat` and `matchMany` are methods. Each is proved equal to a recursive specification: `RepeatLength` and `ManyLength`. Both specifications are then characterised independently as a chain of inner matches (`Pattern.Chain`). A chain is a list of lengths where the i-th match starts where the previous ones ended.

**The combinator engine of `Parsers`.** A parser's `apply` changes a parse context, which has four parts:

- the position `at`;
- the step counter `step`;
- the result slot `result`;
- the diagnostics recorded by `missing`, `expected`, `unexpected` and `fail`.

The context is the class `Context.ParseContext`. Parsers form a closed datatype (`Parsers.Parser`) with these nodes:

- constants and failures;
- end of input, index and token;
- the variadic sequence;
- the collecting sequences behind `array`, `list` and `sequence(p1, …, map)`;
- ordered choice.

The method `Parsers.Apply`, with `ApplyOr`, `ApplySequence`, `ApplyCollect` and `ApplyToken`, mutates the context as each Java `apply` does. Each is proved to agree with the pure semantics `Parsers.Run`, and the laws of the combinators are proved about `Run`. The factory functions (`OrOf`, `Longest`, `Shortest`, `ArrayOf`, `Sequence2` … `Sequence5`, `Then`, `Then3` … `Then5`, `TokenType`, `InfixnTail`) build nodes the way the public `Parsers` methods do.

**The operator folds of `Parsers`** live in module `Operators`. They fix how the applications of parsed operators nest:

- `applyInfixOperators` and `applyPostfixOperators`: first to last.
- `applyPrefixOperators`: last to first.
- `applyInfixrOperators`: right-nested.

Each loop is a method proved against a recursive specification. Further lemmas relate the folds:

- left fold versus `infixl`;
- prefix versus reversed postfix;
- `infixl` versus `infixr` under an associative operator.

The context class itself is not among the modelled sources, so some of its operations are modelled on assumptions:

- `next()` moves one token on and counts one step.
- `getIndex()` is the token position `at`.
- Java `null` is the `Null` value, both in the result slot and as the answer of a token map.
- `set(step, at, result)` rolls back those three fields and leaves the diagnostics alone.
- A diagnostic is recorded with the position where it was raised.

## Model

| member | source | states |
|---|---|---|
| RepeatPattern.MatchRepeat | jparsec/src/main/java/org/codehaus/jparsec/pattern/RepeatPattern.java:40-54 | The loop returns `acc` plus the result of `n` chained inner matches, each bounded by the same `len`. It returns a mismatch as soon as any inner match mismatches, and returns `acc` when `n <= 0`. |
| RepeatPattern.Match | jparsec/src/main/java/org/codehaus/jparsec/pattern/RepeatPattern.java:32-34 | Calls `matchRepeat` with `len = end`, `from = begin` and `acc = 0`. A success lies within `end - begin`. |
| RepeatPattern.RepeatFits | jparsec/src/main/java/org/codehaus/jparsec/pattern/RepeatPattern.java:41-53 | When the inner pattern keeps to its window, a successful repetition consumes at most `len - from`. |
| RepeatPattern.RepeatMatchedIff | jparsec/src/main/java/org/codehaus/jparsec/pattern/RepeatPattern.java:41-53 | Success with length `k` holds exactly when there are `n` chained inner matches whose lengths sum to `k`. |
| RepeatPattern.RepeatWitness | jparsec/src/main/java/org/codehaus/jparsec/pattern/RepeatPattern.java:41-53 | A success yields the `n` chained inner lengths, which sum to the result. |
| RepeatPattern.RepeatFromChain | jparsec/src/main/java/org/codehaus/jparsec/pattern/RepeatPattern.java:41-53 | Any chain of inner matches is a success of that many repetitions, with length equal to the sum. |
| RepeatPattern.RepeatMismatchIff | jparsec/src/main/java/org/codehaus/jparsec/pattern/RepeatPattern.java:44-47 | A mismatch happens exactly when, after fewer than `n` chained matches, the next inner match mismatches. |
| RepeatPattern.MismatchWitness | jparsec/src/main/java/org/codehaus/jparsec/pattern/RepeatPattern.java:44-47 | A mismatch yields the chain of matches before the failing one. |
| RepeatPattern.MismatchFromWitness | jparsec/src/main/java/org/codehaus/jparsec/pattern/RepeatPattern.java:44-47 | A mismatch after fewer than `n` chained matches makes the whole repetition mismatch. |
| RepeatPattern.ToString | jparsec/src/main/java/org/codehaus/jparsec/pattern/RepeatPattern.java:36-38 | The text is the pattern, then `{`, then the canonical decimal numeral of `n` (optional minus sign, digits, no leading zero), then `}`. |
| RepeatPattern.ToStringDetermined | jparsec/src/main/java/org/codehaus/jparsec/pattern/RepeatPattern.java:36-38 | Only one text has the shape `ToString` promises, so its contract fixes the text completely. |
| Pattern.ChainAt | jparsec/src/main/java/org/codehaus/jparsec/pattern/RepeatPattern.java:41-50 | In a chain, the i-th inner match starts at `from` plus the sum of the first i lengths, bounded by the same window end. |
| Pattern.ChainFromPositions | jparsec/src/main/java/org/codehaus/jparsec/pattern/RepeatPattern.java:41-50 | Matches found at those positions form a chain. |
| Pattern.ChainAppend | jparsec/src/main/java/org/codehaus/jparsec/pattern/LowerBoundedPattern.java:34-37 | A chain splits into two chains where its first part ends, and two such chains join into one. |
| Pattern.IntToString | jparsec/src/main/java/org/codehaus/jparsec/pattern/RepeatPattern.java:37 | The decimal rendering of an `int` is a canonical numeral, as `Integer.toString` writes it. |
| Pattern.IntToStringRoundTrip | jparsec/src/main/java/org/codehaus/jparsec/pattern/RepeatPattern.java:37 | Reading back the decimal rendering of an `int` gives the `int`. |
| Pattern.IntToStringParse | jparsec/src/main/java/org/codehaus/jparsec/pattern/RepeatPattern.java:37 | Every canonical numeral is the rendering of the number it denotes, so distinct canonical numerals denote distinct numbers. |
| ManyPattern.ManyLength | jparsec/src/main/java/org/codehaus/jparsec/pattern/ManyPattern.java:30-45 | Zero or more repetitions never consume more than the window left. |
| ManyPattern.MatchMany | jparsec/src/main/java/org/codehaus/jparsec/pattern/ManyPattern.java:30-45 | The loop terminates. It never mismatches and returns `acc` plus the length consumed up to the first mismatch or empty match, a value in `[acc, acc + len - from]`. |
| ManyPattern.Match | jparsec/src/main/java/org/codehaus/jparsec/pattern/ManyPattern.java:47-50 | Calls `matchMany` with `len = end`, `from = begin` and `acc = 0`. The result lies in `[0, end - begin]`. |
| ManyPattern.ManyIff | jparsec/src/main/java/org/codehaus/jparsec/pattern/ManyPattern.java:33-43 | The result is `k` exactly when a chain of non-empty matches sums to `k` and the inner pattern then mismatches or matches empty. |
| ManyPattern.ManyWitness | jparsec/src/main/java/org/codehaus/jparsec/pattern/ManyPattern.java:33-43 | The result is the sum of a chain of non-empty matches followed by a stop. |
| ManyPattern.ManyFromWitness | jparsec/src/main/java/org/codehaus/jparsec/pattern/ManyPattern.java:38-42 | Any such chain followed by a stop determines the result. |
| ManyPattern.ToString | jparsec/src/main/java/org/codehaus/jparsec/pattern/ManyPattern.java:52-55 | The text is the pattern followed by `*`. |
| LowerBoundedPattern.Match | jparsec/src/main/java/org/codehaus/jparsec/pattern/LowerBoundedPattern.java:32-38 | The result is `min` repetitions followed by zero or more repetitions from where they ended, measured from `begin`, and it fits the window. |
| LowerBoundedPattern.NoMinimumIsMany | jparsec/src/main/java/org/codehaus/jparsec/pattern/LowerBoundedPattern.java:34-37 | With `min <= 0` the result equals zero or more repetitions on the same window. |
| LowerBoundedPattern.Bounds | jparsec/src/main/java/org/codehaus/jparsec/pattern/LowerBoundedPattern.java:34-37 | The result mismatches exactly when the mandatory `min` repetitions do. A success is at least their length and at most `end - begin`. |
| LowerBoundedPattern.LowerBoundedIff | jparsec/src/main/java/org/codehaus/jparsec/pattern/LowerBoundedPattern.java:34-37 | Success with `k` holds exactly when one chain summing to `k` consists of `min` matches then non-empty matches, followed by a stop. |
| LowerBoundedPattern.LowerBoundedWitness | jparsec/src/main/java/org/codehaus/jparsec/pattern/LowerBoundedPattern.java:34-37 | A success yields such a chain. |
| LowerBoundedPattern.LowerBoundedFromWitness | jparsec/src/main/java/org/codehaus/jparsec/pattern/LowerBoundedPattern.java:34-37 | Such a chain determines the result. |
| LowerBoundedPattern.ToString | jparsec/src/main/java/org/codehaus/jparsec/pattern/LowerBoundedPattern.java:40-42 | The text is `p+` when `min <= 1`. Otherwise it is `p{`, then the canonical decimal numeral of `min`, then `,}`. |
| LowerBoundedPattern.ToStringDetermined | jparsec/src/main/java/org/codehaus/jparsec/pattern/LowerBoundedPattern.java:40-42 | For `min > 1`, only one text has the promised shape. |
| Context.ParseContext.Set | jparsec/src/main/java/org/codehaus/jparsec/Parsers.java:573 | `set(step, at, result)` rolls back those three fields and keeps the diagnostics. |
| Context.ParseContext.Next | jparsec/src/main/java/org/codehaus/jparsec/Parsers.java:699 | `next()` advances one token and one step. |
| Context.ParseContext.RecordMissing | jparsec/src/main/java/org/codehaus/jparsec/Parsers.java:94 | `missing(name)` appends a diagnostic at the current position and changes nothing else. |
| Context.ParseContext.RecordFailure | jparsec/src/main/java/org/codehaus/jparsec/Parsers.java:108 | `fail(message)` appends a diagnostic at the current position. |
| Context.ParseContext.RecordExpected | jparsec/src/main/java/org/codehaus/jparsec/Parsers.java:654 | `expected(name)` appends a diagnostic at the current position. |
| Context.ParseContext.RecordUnexpected | jparsec/src/main/java/org/codehaus/jparsec/Parsers.java:668 | `unexpected(name)` appends a diagnostic at the current position. |
| Parsers.Apply | jparsec/src/main/java/org/codehaus/jparsec/Parsers.java:51-102 | Each node's `apply` changes the context and answers exactly as `Run` says. `INDEX` stores the position, `never()` changes nothing, and `eof` records `missing` unless at the end. `constant`, `fail`, `expect` and `unexpected` are handled the same way. |
| Parsers.ApplyOr | jparsec/src/main/java/org/codehaus/jparsec/Parsers.java:562-576 | The `or` loop saves `result`, `at` and `step`. It stops at the first success and restores the three after each failure, ending as `Run` says. |
| Parsers.ApplyCollect | jparsec/src/main/java/org/codehaus/jparsec/Parsers.java:266-275 | The `array` loop (and the `list` loop at lines 290-298) stops at the first failing child and otherwise stores the children's results. It ends as `Run` says. |
| Parsers.ApplySequence | jparsec/src/main/java/org/codehaus/jparsec/Parsers.java:455-460 | The variadic `sequence` loop stops at the first failing child. It ends as `Run` says. |
| Parsers.ApplyToken | jparsec/src/main/java/org/codehaus/jparsec/Parsers.java:687-701 | `token` records `missing` at EOF or on a null mapping. Otherwise it stores the value and calls `next()`, ending as `Run` says. |
| Parsers.PrimitivesRun | jparsec/src/main/java/org/codehaus/jparsec/Parsers.java:51-102 | `constant(v)`, `never()`, `eof` and `INDEX` behave as follows. `constant(v)` succeeds with `v` and moves nothing. `never()` fails and changes nothing. `eof` succeeds exactly at the end of input, unchanged, and otherwise records `missing`. `INDEX` yields the position. |
| Parsers.RunGrows | jparsec/src/main/java/org/codehaus/jparsec/Parsers.java:687-701 | No parser moves the position or step back or removes a diagnostic, and the position stays within the input. |
| Parsers.OrFailureRestores | jparsec/src/main/java/org/codehaus/jparsec/Parsers.java:564-576 | When all alternatives fail, `or` fails with the entry `at`, `step` and `result`. The entry log stays, and so does every diagnostic the first alternative recorded. |
| Parsers.OrFailureLog | jparsec/src/main/java/org/codehaus/jparsec/Parsers.java:567-576 | When `or(xs..., p)` fails, `or(xs...)` failed too. The final state is what `p` leaves when run from the entry `at`, `step` and `result` on top of the log of `or(xs...)`, rolled back once more by `set`. So every alternative's diagnostics stay. |
| Parsers.OrKeepsFailure | jparsec/src/main/java/org/codehaus/jparsec/Parsers.java:567-576 | `or(fail(m), never())` fails in its entry state with exactly the diagnostic of `fail(m)` added: `set` does not take it back. |
| Parsers.OrAppend | jparsec/src/main/java/org/codehaus/jparsec/Parsers.java:567-574 | The first success wins, so later alternatives are not run. After failures, later ones start from the entry state. |
| Parsers.OrOfAgrees | jparsec/src/main/java/org/codehaus/jparsec/Parsers.java:558-561 | `or()` with no alternatives is `never()`, and with one it is that alternative. Only in the one-alternative case does a failure keep the moved position. |
| Parsers.DegenerateBest | jparsec/src/main/java/org/codehaus/jparsec/Parsers.java:609-638 | `longest` and `shortest` with no parser always fail and change nothing. With one parser they are that parser. |
| Parsers.SequenceAppend | jparsec/src/main/java/org/codehaus/jparsec/Parsers.java:455-460 | A failure in the first part ends the sequence before any later child runs. Otherwise the rest continues from there. |
| Parsers.CollectIsSequence | jparsec/src/main/java/org/codehaus/jparsec/Parsers.java:290-298 | A collecting sequence fails exactly where the plain sequence fails. On success it holds one result per child, in order, combined by its function. |
| Parsers.ArrayRun | jparsec/src/main/java/org/codehaus/jparsec/Parsers.java:266-275 | `array`/`list`: on success the result is the list of the children's results, one per child, in order. |
| Parsers.Sequence2Run | jparsec/src/main/java/org/codehaus/jparsec/Parsers.java:321-330 | `sequence(p1, p2, map)` fails if `p1` fails (without running `p2`) or if `p2` fails. Otherwise the result is `map(o1, o2)`. |
| Parsers.WideSequencesRun | jparsec/src/main/java/org/codehaus/jparsec/Parsers.java:345-357 | The 3-, 4- and 5-parser `sequence` forms fail where their children fail, and otherwise apply the map to the children's results in order. |
| Parsers.ThenRun | jparsec/src/main/java/org/codehaus/jparsec/Parsers.java:193-195 | `sequence(p1, p2)` succeeds when both do and keeps the second result. |
| Parsers.ThenWideRun | jparsec/src/main/java/org/codehaus/jparsec/Parsers.java:198-213 | `sequence(p1, p2, p3)`, and the 4- and 5-parser forms without a map, keep the last result. Each is exactly the plain sequence of its parsers, on success and on failure. |
| Parsers.TokenRun | jparsec/src/main/java/org/codehaus/jparsec/Parsers.java:687-701 | `token` at EOF, or when the map returns null (`Value.Null`), records `missing` and fails without moving. Otherwise it yields the mapped non-null value and advances exactly one token and one step. |
| Parsers.AnyTokenRun | jparsec/src/main/java/org/codehaus/jparsec/Parsers.java:41-48 | `ANY_TOKEN` accepts exactly the tokens whose value is not null. It yields that value and advances one token. |
| Parsers.TokenTypeRun | jparsec/src/main/java/org/codehaus/jparsec/Parsers.java:717-729 | `tokenType` accepts exactly the tokens whose non-null value is an instance of the type, and yields that value. |
| Parsers.InfixnTailRun | jparsec/src/main/java/org/codehaus/jparsec/Parsers.java:775-786 | After the left operand `a`, `(op p)?` never fails. It applies the operator to `a` and the right operand when both parse, and otherwise yields `a` at the entry position. |
| Operators.ApplyInfixOperators | jparsec/src/main/java/org/codehaus/jparsec/Parsers.java:861-867 | Applies the maps first to last: the last map is outermost. |
| Operators.ApplyPostfixOperators | jparsec/src/main/java/org/codehaus/jparsec/Parsers.java:890-897 | Applies the maps first to last. |
| Operators.ApplyPrefixOperators | jparsec/src/main/java/org/codehaus/jparsec/Parsers.java:869-876 | Applies the maps last to first: the first map is outermost. |
| Operators.ApplyInfixrOperators | jparsec/src/main/java/org/codehaus/jparsec/Parsers.java:930-942 | Returns `first` for no operators, and otherwise the right-nested `first op1 (r1 op2 (r2 … rn))`. |
| Operators.ReduceInfixl | jparsec/src/main/java/org/codehaus/jparsec/Parsers.java:806-826 | The `infixl` reduction yields the left-nested `((first op1 r1) op2 r2) …`. |
| Operators.InfixlIsFoldLeft | jparsec/src/main/java/org/codehaus/jparsec/Parsers.java:808-815 | Applying the operator-and-operand closures in order is the left fold. |
| Operators.ApplyInOrderCons | jparsec/src/main/java/org/codehaus/jparsec/Parsers.java:861-867 | The first map is applied first. |
| Operators.ApplyInOrderAppend | jparsec/src/main/java/org/codehaus/jparsec/Parsers.java:861-867 | Applying a concatenation is applying the second part to the first part's value. |
| Operators.PrefixIsReversedPostfix | jparsec/src/main/java/org/codehaus/jparsec/Parsers.java:869-876 | Prefix application is first-to-last application over the reversed list. |
| Operators.FoldLeftShift | jparsec/src/main/java/org/codehaus/jparsec/Parsers.java:861-867 | Under one associative operator the left fold can pull out its first operand. |
| Operators.AssociativeInfixAgree | jparsec/src/main/java/org/codehaus/jparsec/Parsers.java:843-854 | When all operators are the same associative one, `infixl` and `infixr` give the same value. |
| Operators.Grouping | jparsec/src/main/java/org/codehaus/jparsec/Parsers.java:796-834 | `a + b + c + d` groups as `((a + b) + c) + d` under `infixl` and as `a + (b + (c + d))` under `infixr`. |
| Operators.SubtractionGroups | jparsec/src/main/java/org/codehaus/jparsec/Parsers.java:832-834 | `1 - 2 - 3` is -4 when grouped left and 2 when grouped right. |

## Left out

- Logging (`log.trace`) is not modelled. Its messages do not change any result. One trace call, at jparsec/src/main/java/org/codehaus/jparsec/pattern/LowerBoundedPattern.java:33, builds its arguments on every match. It takes `src.subSequence(begin, end)`, which throws on a window outside `src`. The `requires 0 <= begin <= end <= |src|` on `LowerBoundedPattern.Match` stands for that. The cost of copying the window is not modelled.
- Java `int` overflow is not modelled. Lengths, positions and `acc` are unbounded naturals, and the inner pattern is assumed to stay inside its window.
- `ParseContext` and `ParserState` internals (the source module, locator and trace) are not part of this model. The context is reduced to the token list, position, step, result and an append-only diagnostic list. Which failure is reported to the user is not modelled.
- `longest` and `shortest` with two or more parsers build a `BestParser`, whose source is not part of this model.
- Parsers.Longest: the precondition admits at most one parser for the same reason. Parsers.Shortest: the same.
- `nested` depends on `ParserState` and `applyNested`, which are not part of this model.
- `runnable` runs a foreign side effect, and `tokens` only converts a collection to an array. Neither is modelled.
- `Parser.next`, `many` and `map` belong to the `Parser` class, which is not part of this model. So for `infixl` and `infixr` only the reductions they feed are modelled: `ReduceInfixl` and `ApplyInfixrOperators`, over the list of operator–operand pairs. For `infixn` the model covers the `or(shift, constant(a))` that runs after the left operand.
- The `Iterable` overloads, `toArray`, `pair` and `tuple`, `between`, and the fixed-arity `or` overloads are Java plumbing over the modelled nodes (`OrOf`, `ArrayOf`, `Sequence2` … `Sequence5`). They are not separate members.
- The `toString` methods of `Parsers` only describe parsers. The pattern `toString` methods are modelled.
- `tokenType` uses Java reflection (`Class.isInstance` and `cast`). It is modelled as a predicate on the token value. A null value is rejected whatever the predicate says.
- INDEX: yields the position `at` in the token list. The context class is not part of this model. In a token-level parse it may report the current token's source offset (`Token.index`) instead. The model does not capture that.
- `getReturn` reads the result slot. The type casts are not modelled, because values are one untyped `Value` datatype.
