# mockall's expectation engine, modelled in Dafny

mockall builds mock objects for Rust traits and structs. A test registers
*expectations* on a mock (`mock.expect_foo().with(..).times(..).returning(..)`),
then exercises code that calls the mock, and the mock judges every call and,
at a `checkpoint()` or when it is dropped, every expectation's call count.
This project models the runtime part of that machinery — the expectation
engine — as the two integration-test files `mock_struct.rs` and
`mock_return_reference.rs` pin it down, and proves what those tests rely on.

The engine, as modelled:

- **Expectation** (`Expectations.Expectation`): a matcher (`<anything>`,
  `eq(..)` or a `withf` closure), a call-count range `Times(min, max)` with a
  possibly unbounded `max`, a call counter, a return policy (constant,
  function of the arguments, or none) and an optional slot in a sequence.
- **Builder** (`Expectations.Builder`): the chain of builder calls after
  `expect_m()`; a later call of the same kind replaces an earlier one, so the
  last `times` wins.
- **Counts** (module `Counts`): the `times` arguments `n`, `a..b`, `..b`,
  `a..=b`, `a..` and `..`, their normalisation to a kept range, the judgement
  made at each call (the upper bound, eagerly) and the one made at a check
  (lower bound first, then upper).
- **Sequence** (`Sequencing.Sequence`, a class around `SeqState`): one slot
  per participant, in `in_sequence` order, each saying whether its holder has
  reached its minimum, and a cursor, the first participant not yet passed.
  A participant may be called when every slot from the cursor up to it is
  satisfied; a call passes every earlier participant, and passes the
  participant itself once it reaches its maximum.
- **Mock** (`Mocks.Mock`, a class): one list of expectations per mocked
  method, oldest first. `Expect` appends, `Call` resolves and judges a call,
  `Drop` and `Checkpoint` check the counts, and `Checkpoint` clears the lists
  when the check passes.

A call of method `m` with arguments `args` (`Expectations.CallSpec`, which
`Mock.Call` is proved against):

1. resolves to the oldest expectation that matches `args` and is not done —
   done meaning exhausted, or passed by its sequence — where the method's only
   expectation is taken even when done; with none, the call fails with "No
   matching expectation found";
2. fails with "Method sequence violation" if that expectation's sequence has
   not reached it, changing nothing;
3. bumps the counter, and fails with "should not have been called"
   (`never()`) or "called n times which is more than the expected max" if the
   new count is above the upper bound (the bumped counter stays);
4. records the call in the sequence and answers with the return policy, or
   fails with "Returning default values requires" when there is none.

The check at a checkpoint or drop (`Expectations.Audit`) scans the methods in
declaration order and each method's expectations oldest first, and reports
the first count out of range: "fewer than expected" before "more than
expected".

Failures are structured values (`Outcomes.MockError`) carrying the method
name, the arguments or the matcher's rendering, and the counts; the text of
each message is given beside its constructor. The scenario modules replay
every test of the two files on a `Mock`. Each scenario method builds its own
mock and states exactly what the test observes as its postcondition. A
method returning `()` answers 0, and a method returning `&u32` answers the
value it points to.

## Model

| member | source | states |
|---|---|---|
| Counts.Normalize | mockall/tests/mock_struct.rs:455-562 | the range kept for a `times` argument, when there is one, holds some count |
| Counts.NormalizeAllows | mockall/tests/mock_struct.rs:455-562 | the kept range accepts exactly the counts the Rust range names: `2..4` is 2 to 3, `..4` is 0 to 3, `2..=4` is 2 to 4, `2..` has no upper bound |
| Counts.AnyCount | mockall/tests/mock_struct.rs:197-203 | the range of an expectation on which `times` was never called: any number of calls, from 0 up, with no upper bound |
| Counts.NormalizeRefusesOnlyEmpty | mockall/tests/mock_struct.rs:455-470 | an argument is refused exactly when it names no count |
| Counts.ExhaustedIffNextExceeds | mockall/tests/mock_struct.rs:440-453 | an expectation is exhausted exactly when one more call would exceed its upper bound |
| Counts.CallCheck | mockall/tests/mock_struct.rs:440-453 | a call is refused exactly when the count including it exceeds the maximum; `never()` reports "should not have been called", any other range "called n times which is more than the expected max" |
| Counts.AuditCount | mockall/tests/mock_struct.rs:44-69 | a check passes exactly when the count is in range; a count below the minimum is reported as too few, one above the maximum as too many |
| Counts.RejectedCallIsAuditedAsTooMany | mockall/tests/mock_struct.rs:56-69 | the count left by a refused call is reported by a later check as too many |
| Matching.Describe | mockall/tests/mock_struct.rs:428-438 | the default matcher is rendered `<anything>` and an `eq` matcher shows its value |
| Sequencing.SeqState.Join | mockall/tests/mock_struct.rs:282-308 | `in_sequence` adds a slot at the end, satisfied from the start exactly when the participant's minimum is 0, and leaves the rest unchanged |
| Sequencing.SeqState.Record | mockall/tests/mock_struct.rs:348-411 | an accepted call updates only its own slot, passes every earlier participant, passes the participant itself exactly when it is exhausted, and passes no later one, so the next participant becomes callable |
| Sequencing.Sequence.NextHandle | mockall/tests/mock_struct.rs:246-262 | the new participant gets the next position and the state is the joined one |
| Sequencing.Sequence.Satisfy | mockall/tests/mock_struct.rs:246-262 | the sequence's new state is the recorded one |
| Expectations.NoExpectations | mockall/tests/mock_struct.rs:81-92 | a fresh or cleared mock has an empty list for every method |
| Expectations.SelectFrom | mockall/tests/mock_struct.rs:100-133 | the scan returns a candidate with no candidate before it, or none when there is no candidate |
| Expectations.SelectIsOldestCandidate | mockall/tests/mock_struct.rs:100-133 | a call resolves to expectation `i` exactly when `i` is a candidate and no older one is |
| Expectations.Builder.With | mockall/tests/mock_struct.rs:145-152 | `with` sets the matcher |
| Expectations.Builder.WithTimes | mockall/tests/mock_struct.rs:565-574 | `times` replaces the range argument, so the last `times` wins |
| Expectations.Builder.Never | mockall/tests/mock_struct.rs:178-187 | `never()` is `times(0)` |
| Expectations.Builder.ReturnConst | mockall/tests/mock_struct.rs:197-203 | `return_const` sets a constant return policy |
| Expectations.Builder.Returning | mockall/tests/mock_struct.rs:216-222 | `returning` sets a return policy computed from the arguments |
| Expectations.Builder.InSequence | mockall/tests/mock_struct.rs:246-262 | `in_sequence` names the sequence the expectation joins |
| Expectations.Blank | mockall/tests/mock_struct.rs:209-214 | what `expect_m()` starts from: the match-all matcher, the full range `..`, no return policy and no sequence |
| Expectations.BlankTakesAnything | mockall/tests/mock_return_reference.rs:48-54 | an expectation left as `expect_m()` built it matches any arguments, is rendered `<anything>`, allows any number of calls, and has no return policy and no sequence |
| Expectations.Fresh | mockall/tests/mock_struct.rs:264-280 | a registered expectation starts with no calls, the builder's matcher and policy, and the next slot of the sequence it names |
| Expectations.Done | mockall/tests/mock_struct.rs:348-411 | an expectation is done when it is exhausted or its sequence has passed it |
| Expectations.Candidate | mockall/tests/mock_struct.rs:113-133 | an expectation may take a call when it matches and is not done, or when it matches and is its method's only expectation |
| Expectations.Select | mockall/tests/mock_struct.rs:100-133 | a call resolves to the oldest candidate |
| Expectations.InTurn | mockall/tests/mock_struct.rs:227-244 | an expectation in a sequence may be called only when the sequence has reached it |
| Expectations.Register | mockall/tests/mock_struct.rs:264-280 | registration refuses an empty range, otherwise appends the expectation and joins its sequence with a slot satisfied exactly when the minimum is 0 |
| Expectations.Reply | mockall/tests/mock_struct.rs:197-222 | an accepted call answers with the constant, the function of the arguments, or the missing-default failure |
| Expectations.CallSpec | mockall/tests/mock_struct.rs:100-222 | one call: resolve, check the sequence, count, check the upper bound, record, answer |
| Expectations.Verdict | mockall/tests/mock_struct.rs:44-69 | the judgement on one expectation at a check: its count against its range, named by method and matcher |
| Expectations.AuditFrom | mockall/tests/mock_struct.rs:44-69 | the scan of one method's expectations at a check, oldest first, stopping at the first count out of range |
| Expectations.AuditMethods | mockall/tests/mock_struct.rs:44-79 | the scan across the methods in declaration order, stopping at the first method whose scan fails |
| Expectations.Audit | mockall/tests/mock_struct.rs:44-79 | the check at a checkpoint or drop: the first count out of range, in method and registration order |
| Matching.Matches | mockall/tests/mock_struct.rs:135-171 | `<anything>` accepts every argument, `eq` an equal one, `withf` those its closure holds for |
| Counts.Exhausted | mockall/tests/mock_struct.rs:440-453 | an expectation is exhausted when its count has reached a finite maximum |
| Sequencing.SeqState.Passed | mockall/tests/mock_struct.rs:388-411 | a participant is passed once the cursor has moved beyond it |
| Sequencing.SeqState.Eligible | mockall/tests/mock_struct.rs:282-343 | a participant may be called when it has not been passed and every participant from the cursor up to it has reached its minimum |
| Sequencing.Sequence.constructor | mockall/tests/mock_struct.rs:248 | `Sequence::new()` has no participants |
| Mocks.Mock.constructor | mockall/tests/mock_struct.rs:30-42 | a new mock has no expectations and has joined no sequence |
| Mocks.Mock.Expect | mockall/tests/mock_struct.rs:565-574 | registration appends the expectation the builder describes, with the last `times` in force, and joins its sequence; the mock invariant is kept |
| Mocks.Mock.Find | mockall/tests/mock_struct.rs:100-133 | the resolution loop finds exactly the oldest candidate |
| Mocks.Mock.Call | mockall/tests/mock_struct.rs:100-222 | a call's result, new counters and new sequence states are those of the call rule above; the mock invariant is kept |
| Mocks.Mock.Drop | mockall/tests/mock_struct.rs:428-438 | the drop check loop reports the check's verdict, the first count out of range |
| Mocks.Mock.Checkpoint | mockall/tests/mock_struct.rs:30-92 | a checkpoint reports the same verdict; when it passes, every expectation is removed |
| EngineLaws.CallChangesOnlyChosen | mockall/tests/mock_struct.rs:100-133 | a call changes at most the counter of the expectation it resolved to, by one, and at most the slot and cursor of the sequence that expectation joined; every other sequence is unchanged and no cursor moves back |
| EngineLaws.CallKeepsConsistent | mockall/tests/mock_struct.rs:246-411 | every call keeps the invariant: well-formed ranges, distinct slots, and each slot saying whether its holder has reached its minimum |
| EngineLaws.NoMatchIffNoCandidate | mockall/tests/mock_struct.rs:135-171 | "No matching expectation found" is reported exactly when no expectation is a candidate, and such a call changes nothing |
| EngineLaws.OutOfTurnIsViolation | mockall/tests/mock_struct.rs:227-244 | a call is refused as a sequence violation exactly when the expectation it resolved to is not in turn, and then changes nothing |
| EngineLaws.RequiredParticipantBlocks | mockall/tests/mock_struct.rs:310-343 | an earlier participant that has not been passed and is below its minimum blocks the call |
| EngineLaws.SatisfiedPredecessorsAdmit | mockall/tests/mock_struct.rs:282-308 | when every participant from the cursor up to the called one has reached its minimum, the call is in turn, so participants with minimum 0 may be skipped |
| EngineLaws.RegisterKeepsConsistent | mockall/tests/mock_struct.rs:246-262 | registration keeps the invariant |
| EngineLaws.OverCallFailsAndCounts | mockall/tests/mock_struct.rs:56-69 | a call to an exhausted expectation fails at once, with "should not have been called" or the over-count report, bumps the counter and leaves the sequences alone; a later check reports it as too many |
| EngineLaws.AcceptedCallFollowsPolicy | mockall/tests/mock_struct.rs:197-222 | an accepted call is counted and answered with the constant, the function of the arguments, or the missing-default failure; in its sequence its slot says whether it reached its minimum, the other slots are kept, earlier participants are passed, it is passed exactly when exhausted, and no later participant is |
| EngineLaws.SoleExpectationTakesMatchingCalls | mockall/tests/mock_struct.rs:440-453 | a method's only expectation takes every call it matches, even when exhausted, so an extra call is reported as over the bound |
| EngineLaws.NeverIsSkippedWhenNotSole | mockall/tests/mock_struct.rs:178-187 | a `never()` expectation that is not its method's only one is passed over: a matching call goes to the next expectation that has room and is answered by it |
| EngineLaws.EmptyMethodMatchesNothing | mockall/tests/mock_struct.rs:81-92 | after a passed checkpoint every call finds no matching expectation and changes nothing |
| EngineLaws.AuditFromPasses | mockall/tests/mock_struct.rs:71-79 | a method's scan passes when all its counts are in range |
| EngineLaws.AuditMethodsPasses | mockall/tests/mock_struct.rs:71-79 | the scan over all methods passes when all counts are in range |
| EngineLaws.ScanIsAudit | mockall/tests/mock_struct.rs:44-79 | the method-by-method scan is the check, and the check passes exactly when every count is in range, so it fails whenever some count is out of range |
| EngineLaws.AuditFromPassesOnlyInRange | mockall/tests/mock_struct.rs:44-54 | a method's scan passes only when all its counts are in range |
| EngineLaws.AuditMethodsPassesOnlyInRange | mockall/tests/mock_struct.rs:44-54 | the scan over all methods passes only when all counts are in range |
| EngineLaws.AuditFromStops | mockall/tests/mock_struct.rs:44-54 | a method's scan stops at its first count out of range and reports it |
| EngineLaws.AuditMethodsStops | mockall/tests/mock_struct.rs:44-54 | the scan over the methods stops at the first method whose scan fails |
| EngineLaws.AuditReportsFirstOffender | mockall/tests/mock_struct.rs:44-54 | a failing check reports the first expectation out of range, in method order and then registration order |
| StructScenarios.CallSole | mockall/tests/mock_struct.rs:418-453 | a call to a method's only expectation is counted and answered, or refused over the bound |
| StructScenarios.CheckpointExpectAgain | mockall/tests/mock_struct.rs:30-42 | foo answers 5, the checkpoint passes, a new expectation answers 25, and drop passes |
| StructScenarios.CallThenCheckpoint | mockall/tests/mock_struct.rs:71-79 | one call within `1..3`, then a checkpoint, which passes and leaves the mock empty |
| StructScenarios.CheckpointNotYetSatisfied | mockall/tests/mock_struct.rs:44-54 | the checkpoint fails with "called 0 time(s) which is fewer than expected 1" |
| StructScenarios.CheckpointTooManyCalls | mockall/tests/mock_struct.rs:56-69 | the call fails with "should not have been called", and the checkpoint reports "called 1 time(s) which is more than expected 0" |
| StructScenarios.CheckpointOk | mockall/tests/mock_struct.rs:71-79 | the call answers 5, and the checkpoint and drop pass |
| StructScenarios.CheckpointRemovesOldExpectations | mockall/tests/mock_struct.rs:81-92 | after the checkpoint the same call finds no matching expectation |
| StructScenarios.MatchFifoOrder | mockall/tests/mock_struct.rs:100-111 | the older `eq(5)` expectation wins over the later catch-all: 99 |
| StructScenarios.MatchOneMatch | mockall/tests/mock_struct.rs:113-133 | `foo(6)` skips the `eq(5)` expectation and answers 42; the second `foo(5)` call goes to the first mock and answers 99 |
| StructScenarios.FiveThenSix | mockall/tests/mock_struct.rs:113-122 | the registrations and the call `foo(6)` leave exactly the second expectation called once |
| StructScenarios.UncalledFiveThenSix | mockall/tests/mock_struct.rs:124-131 | the second mock, never called, passes at drop |
| StructScenarios.MatchWithNoMatches | mockall/tests/mock_struct.rs:135-143 | `bar(5)` against `eq(4)` fails with "MockFoo::bar(5): No matching expectation found" |
| StructScenarios.MatchWithOk | mockall/tests/mock_struct.rs:145-152 | `bar(5)` against `eq(5)` is accepted |
| StructScenarios.MatchWithfOk | mockall/tests/mock_struct.rs:154-161 | `bar(5)` against a `withf` closure that holds is accepted |
| StructScenarios.MatchWithfNoMatches | mockall/tests/mock_struct.rs:163-171 | `bar(5)` against a `withf` closure that fails finds no match |
| StructScenarios.NeverFail | mockall/tests/mock_struct.rs:178-187 | a call to `never()` fails with "should not have been called" |
| StructScenarios.NeverOk | mockall/tests/mock_struct.rs:189-194 | an uncalled `never()` passes at drop |
| StructScenarios.ReturnConst | mockall/tests/mock_struct.rs:197-203 | `return_const(42)` answers 42 |
| StructScenarios.ReturnDefault | mockall/tests/mock_struct.rs:205-214 | without a policy the call fails with "Returning default values requires" |
| StructScenarios.Returning | mockall/tests/mock_struct.rs:216-222 | `returning(|x| x + 1)` answers 6 for 5 |
| TimesScenarios.TimesOk | mockall/tests/mock_struct.rs:418-426 | two calls within `times(2)` and a passing drop |
| TimesScenarios.TimesTooFew | mockall/tests/mock_struct.rs:428-438 | drop reports `var == 5` called 1 time, fewer than expected 2 |
| TimesScenarios.TimesTooMany | mockall/tests/mock_struct.rs:440-453 | the third call fails with "called 3 times which is more than the expected 2" |
| TimesScenarios.RangeOk | mockall/tests/mock_struct.rs:455-470 | two and three calls within `2..4`, and a passing drop |
| TimesScenarios.TwiceOnBaz | mockall/tests/mock_struct.rs:455-461 | two calls of `baz` within a range from 2 leave the expectation called twice |
| TimesScenarios.RangeTooFew | mockall/tests/mock_struct.rs:472-481 | one call is fewer than expected 2 at drop |
| TimesScenarios.RangeTooMany | mockall/tests/mock_struct.rs:483-497 | the fourth call fails with "called 4 times which is more than the expected 3" |
| TimesScenarios.RangeToOk | mockall/tests/mock_struct.rs:499-508 | three calls within `..4` |
| TimesScenarios.RangeToTooMany | mockall/tests/mock_struct.rs:510-522 | the fourth call exceeds `..4` |
| TimesScenarios.RangeInclusiveOk | mockall/tests/mock_struct.rs:524-534 | four calls within `2..=4` |
| TimesScenarios.RangeFromOk | mockall/tests/mock_struct.rs:536-551 | two and three calls within `2..` |
| TimesScenarios.RangeFromTooFew | mockall/tests/mock_struct.rs:553-562 | one call is fewer than expected 2 under `2..` |
| TimesScenarios.TimesFull | mockall/tests/mock_struct.rs:565-574 | `times(1).times(..)` accepts two calls: the last `times` wins |
| SequenceScenarios.SequenceFail | mockall/tests/mock_struct.rs:227-244 | calling `baz` before the required `bar` fails with "MockFoo::baz(): Method sequence violation" |
| SequenceScenarios.SequenceOk | mockall/tests/mock_struct.rs:246-262 | calls in sequence order are accepted and drop passes |
| SequenceScenarios.SequenceOkVariableCount | mockall/tests/mock_struct.rs:264-280 | the same with open-ended ranges `1..` |
| SequenceScenarios.BazThenBar | mockall/tests/mock_struct.rs:246-259 | registers `baz` then `bar` in a new sequence, both required |
| SequenceScenarios.BazThenBarInOrder | mockall/tests/mock_struct.rs:260-261 | `baz` then `bar` both answer and each is called once |
| SequenceScenarios.SequenceOkVariableCountSkip | mockall/tests/mock_struct.rs:282-308 | participants with minimum 0 may be skipped: calling `baz` first is accepted |
| SequenceScenarios.SequenceErrVariableCountSkip | mockall/tests/mock_struct.rs:310-343 | `bar(3)` skips the required `baz`; the test expects a panic without naming its message, and the model reports it as a sequence violation of `MockFoo::bar` with argument 3 |
| SequenceScenarios.BarOutOfTurn | mockall/tests/mock_struct.rs:342 | the call reaches the fourth expectation of `bar` and is refused as out of turn |
| SequenceScenarios.FirstBar | mockall/tests/mock_struct.rs:287-290 | the first skippable `bar`, satisfied from the start |
| SequenceScenarios.AddBar | mockall/tests/mock_struct.rs:291-298 | each further skippable `bar` takes the next slot, satisfied from the start |
| SequenceScenarios.AddBlockingBaz | mockall/tests/mock_struct.rs:300-304 | the required `baz` takes the next slot, unsatisfied |
| SequenceScenarios.SkippableBars | mockall/tests/mock_struct.rs:282-305 | three skippable bars and a required `baz`, in that order |
| SequenceScenarios.SequenceSingleMethod | mockall/tests/mock_struct.rs:348-368 | three `times(1)` expectations with the same arguments answer 1, 2, 3 in order, and drop passes |
| SequenceScenarios.OneTwoThree | mockall/tests/mock_struct.rs:348-364 | registers three `times(1)` expectations of `foo` in a new sequence |
| SequenceScenarios.FirstOfThree | mockall/tests/mock_struct.rs:365 | the first call answers 1 and passes the first participant |
| SequenceScenarios.SecondOfThree | mockall/tests/mock_struct.rs:366 | the second call passes over the exhausted first expectation and answers 2 |
| SequenceScenarios.ThirdOfThree | mockall/tests/mock_struct.rs:367 | the third call answers 3 and passes the last participant |
| SequenceScenarios.SequenceSingleMethodVariableCount | mockall/tests/mock_struct.rs:370-386 | a `1..=2` participant answers twice with 1, then the next answers 3 |
| SequenceScenarios.OneOrTwoThenThree | mockall/tests/mock_struct.rs:370-382 | registers a `1..=2` and a `times(1)` expectation of `foo` in a new sequence |
| SequenceScenarios.FirstOfOneOrTwo | mockall/tests/mock_struct.rs:383 | the first call satisfies the `1..=2` participant without passing it |
| SequenceScenarios.SecondOfOneOrTwo | mockall/tests/mock_struct.rs:384 | the second call still answers 1 and exhausts, so passes, the first participant |
| SequenceScenarios.ThenThreeOnce | mockall/tests/mock_struct.rs:385 | once the first participant is exhausted, the call goes to the next one |
| SequenceScenarios.SequenceSingleMethodVariableCountMixed | mockall/tests/mock_struct.rs:388-411 | `baz`, `bar`, `baz` with `1..` each are all accepted and drop passes |
| SequenceScenarios.BazBarBaz | mockall/tests/mock_struct.rs:388-407 | registers `baz`, `bar`, `baz`, each `1..`, in a new sequence |
| SequenceScenarios.BazFirst | mockall/tests/mock_struct.rs:408 | the first `baz` call satisfies the first participant without passing it |
| SequenceScenarios.BarSecond | mockall/tests/mock_struct.rs:409 | the call of `bar` passes the first `baz` participant |
| SequenceScenarios.BazAgain | mockall/tests/mock_struct.rs:410 | the second `baz` call skips the passed first expectation and goes to the third participant |
| ReferenceScenarios.NeverFail | mockall/tests/mock_return_reference.rs:17-26 | `return_const(0).never()` still refuses the call with "should not have been called" |
| ReferenceScenarios.NeverOk | mockall/tests/mock_return_reference.rs:28-33 | an uncalled `never()` passes at drop |
| ReferenceScenarios.ReturnConst | mockall/tests/mock_return_reference.rs:36-42 | `return_const(5)` answers a reference to 5 |
| ReferenceScenarios.ReturnDefault | mockall/tests/mock_return_reference.rs:44-53 | without a policy the call fails with "Returning default values requires" |
| ReferenceScenarios.SequenceFail | mockall/tests/mock_return_reference.rs:58-75 | `foo(4)` before the required `bar` fails with "MockFoo::foo(4): Method sequence violation" |
| ReferenceScenarios.SequenceOk | mockall/tests/mock_return_reference.rs:77-93 | `foo` then `bar` in sequence order are accepted and drop passes |
| ReferenceScenarios.FooThenBar | mockall/tests/mock_return_reference.rs:77-89 | registers `foo` then `bar`, both `times(1)`, in a new sequence |
| ReferenceScenarios.FooThenBarInOrder | mockall/tests/mock_return_reference.rs:91-92 | both calls answer 0 and each expectation is called once |
| ReferenceScenarios.SequenceOkVariableCount | mockall/tests/mock_return_reference.rs:95-104 | one call of a `1..3` participant is in range, so drop passes |
| ReferenceScenarios.CalledOnceInSequence | mockall/tests/mock_return_reference.rs:95-104 | after the call the expectation is called once and the call answered 0 |

## Left out

- The `mock!` macro and the code it generates (mockall/tests/mock_struct.rs:18-24, mockall/tests/mock_return_reference.rs:7-12) are not modelled: a `Mock` is built from the qualified names of its methods, methods are numbered, and arguments are a sequence of integers.
- The predicates library behind `eq`, `always` and `withf` is not modelled; a matcher is `Always`, `Eq(values)` or an arbitrary Dafny function of the arguments.
- Panics are modelled as `Err`/`Fail` results. Unwinding, `catch_unwind` and a panic during drop are not modelled; a scenario ends at the first failure its test expects.
- Message text is not rendered; each failure is a structured value whose fields (name, arguments or matcher rendering, counts) are those the message shows.
- The `nightly` feature, under which a missing return policy yields a default value, is not modelled; only the default build, where it fails, is.
- Reference lifetimes and borrowing in `mock_return_reference.rs` are not modelled; a returned reference is the value it points to.
- Threads, `Send`/`Sync` and concurrent use of a mock are not modelled; calls are sequential.
- Integer widths (`u32`, `i32`, `usize` counters) are not modelled; counts and values are unbounded integers, which the tests never approach.
- Mocks.Mock.Expect: the builder is applied in one step at registration, so the intermediate states of a half-built expectation are not modelled.
- Mocks.Mock.Valid: each mock keeps the state of every sequence it joined in its own record and requires it to match the sequence object, so a `Sequence` shared by two mocks is not modelled: once the second mock registers in it or records a call, the first mock's invariant no longer holds. All the scenarios use one mock per sequence.
- Expectations.Candidate: a `never()` expectation is done from the start, so it refuses a call only when it is its method's only expectation; next to other expectations, a matching call passes over it to a later candidate, or fails with "No matching expectation found" when there is none (EngineLaws.NeverIsSkippedWhenNotSole). A `never()` that rejects a matching call regardless of the other expectations is not modelled; the tests use `never()` only as a method's sole expectation.
- Mocks.Mock.Checkpoint: on a failing check the state is left unchanged; the tests end at that failure, so what the engine leaves behind is not pinned down.
- Counts.NormalizeRefusesOnlyEmpty: the refusal of a range that holds no count (such as `3..2`) is not exercised by the tests; it is modelled as a failed registration.
- The resolution rule used here takes a method's only expectation even when it is done. A shorter statement of the rule, without that exception, would make the extra call in `times::too_many` (mockall/tests/mock_struct.rs:440-453) fail with "No matching expectation found" instead of the over-count the test expects. The model follows the tests.
- StructScenarios.MatchOneMatch: the test's last call goes to the first mock, not to the second one it just built (mockall/tests/mock_struct.rs:132). The model replays it as written: the second mock is dropped uncalled.
