/** The scenarios that pin the engine down, replayed on a mock of a struct
    with methods `foo(x: u32) -> u32`, `bar(x: u32)` and `baz()`. Each method
    builds its own mock, returns what the scenario observes and states it
    exactly; a scenario that ends without a failure also returns the verdict
    of dropping the mock. A unit result is modelled as 0. */
module StructScenarios {
  import opened Outcomes
  import opened Counts
  import opened Matching
  import opened Sequencing
  import opened Expectations
  import opened Mocks
  import opened EngineLaws

  const Foo: nat := 0
  const Bar: nat := 1
  const Baz: nat := 2
  const MockFoo: seq<string> := ["MockFoo::foo", "MockFoo::bar", "MockFoo::baz"]

  // The closures the scenarios pass to `returning` and `withf`.
  function Unit(args: seq<int>): int { 0 }
  function One(args: seq<int>): int { 1 }
  function Two(args: seq<int>): int { 2 }
  function Three(args: seq<int>): int { 3 }
  function Five(args: seq<int>): int { 5 }
  function TwentyFive(args: seq<int>): int { 25 }
  function FortyTwo(args: seq<int>): int { 42 }
  function NinetyNine(args: seq<int>): int { 99 }
  function Succ(args: seq<int>): int { if |args| == 0 then 0 else args[0] + 1 }
  function IsFive(args: seq<int>): bool { args == [5] }
  function IsSix(args: seq<int>): bool { args == [6] }

  /** A call of method `m` whose only expectation, in no sequence, matches
      `args`: it is counted, and answered unless the count is over the
      bound. */
  method CallSole(mock: Mock, m: nat, args: seq<int>) returns (r: Result<int>)
    requires mock.Valid() && m < |mock.names| && |mock.sets[m]| == 1
    requires mock.sets[m][0].handle.None? && Matches(mock.sets[m][0].matcher, args)
    modifies mock, mock.seqs.Keys
    ensures mock.Valid() && mock.seqs == old(mock.seqs)
    ensures var e := old(mock.sets[m][0]);
      && mock.sets == old(mock.sets)[m := [e.(calls := e.calls + 1)]]
      && r == (if Within(e.times.max, e.calls + 1) then Reply(e, mock.names[m], args)
               else Err(CallCheck(mock.names[m], Describe(e.matcher), e.times, e.calls + 1).value))
  {
    SoleExpectationTakesMatchingCalls(mock.names, mock.sets, mock.seqs, m, args);
    r := mock.Call(m, args);
  }

  /** Expectations registered after a checkpoint work as usual. */
  method CheckpointExpectAgain() returns (first: Result<int>, check: Outcome, again: Result<int>, dropped: Outcome)
    ensures first == Ok(5) && check == Pass && again == Ok(25) && dropped == Pass
  {
    var mock := new Mock(MockFoo);
    first, check := CallThenCheckpoint(mock, Five);
    var o2 := mock.Expect(Foo, Blank.Returning(TwentyFive));
    again := mock.Call(Foo, [0]);
    dropped := mock.Drop();
  }

  /** The part `CheckpointOk` and `CheckpointExpectAgain` share: an
      expectation of `foo` for one or two calls, called once, then a
      checkpoint, which passes and leaves the mock empty. */
  method CallThenCheckpoint(mock: Mock, f: seq<int> -> int) returns (r: Result<int>, check: Outcome)
    requires mock.Valid() && mock.names == MockFoo && mock.sets == NoExpectations(3) && mock.seqs == map[]
    modifies mock
    ensures mock.Valid() && mock.sets == NoExpectations(3) && mock.seqs == map[]
    ensures r == Ok(f([0])) && check == Pass
  {
    var o := mock.Expect(Foo, Blank.Returning(f).WithTimes(Range(1, 3)));
    r := mock.Call(Foo, [0]);
    check := mock.Checkpoint();
  }

  /** A checkpoint fails on an expectation below its minimum. */
  method CheckpointNotYetSatisfied() returns (check: Outcome)
    ensures check == Fail(TooFew("MockFoo::foo", Anything, 0, 1))
  {
    var mock := new Mock(MockFoo);
    var o := mock.Expect(Foo, Blank.Returning(FortyTwo).WithTimes(Exactly(1)));
    AuditReportsFirstOffender(mock.names, mock.sets, Foo, 0);
    check := mock.Checkpoint();
  }

  /** The refused call to a `times(0)` expectation is still counted, so the
      checkpoint reports it as called too many times. */
  method CheckpointTooManyCalls() returns (r: Result<int>, check: Outcome)
    ensures r == Err(NotCalled("MockFoo::foo", Anything))
    ensures check == Fail(TooMany("MockFoo::foo", Anything, 1, 0))
  {
    var mock := new Mock(MockFoo);
    var o := mock.Expect(Foo, Blank.Returning(FortyTwo).WithTimes(Exactly(0)));
    r := mock.Call(Foo, [0]);
    AuditReportsFirstOffender(mock.names, mock.sets, Foo, 0);
    check := mock.Checkpoint();
  }

  /** A checkpoint passes when every count is in range. */
  method CheckpointOk() returns (r: Result<int>, check: Outcome, dropped: Outcome)
    ensures r == Ok(5) && check == Pass && dropped == Pass
  {
    var mock := new Mock(MockFoo);
    r, check := CallThenCheckpoint(mock, Five);
    dropped := mock.Drop();
  }

  /** A passed checkpoint removes the expectations it checked. */
  method CheckpointRemovesOldExpectations() returns (first: Result<int>, check: Outcome, again: Result<int>)
    ensures first == Ok(42) && check == Pass
    ensures again == Err(NoMatch("MockFoo::foo", [0]))
  {
    var mock := new Mock(MockFoo);
    var o := mock.Expect(Foo, Blank.Returning(FortyTwo).WithTimes(Range(1, 3)));
    first := mock.Call(Foo, [0]);
    check := mock.Checkpoint();
    again := mock.Call(Foo, [0]);
  }

  /** The oldest matching expectation wins over a later catch-all. */
  method MatchFifoOrder() returns (r: Result<int>, dropped: Outcome)
    ensures r == Ok(99) && dropped == Pass
  {
    var mock := new Mock(MockFoo);
    var o1 := mock.Expect(Foo, Blank.With(Eq([5])).Returning(NinetyNine));
    var o2 := mock.Expect(Foo, Blank.With(Always).Returning(FortyTwo));
    r := mock.Call(Foo, [5]);
    dropped := mock.Drop();
  }

  /** A call skips the older expectations whose matcher refuses it. The
      second mock is never called (the second call goes to the first mock);
      both pass when dropped. */
  method MatchOneMatch() returns (a: Result<int>, b: Result<int>, dropped0: Outcome, dropped1: Outcome)
    ensures a == Ok(42) && b == Ok(99) && dropped0 == Pass && dropped1 == Pass
  {
    var mock0 := new Mock(MockFoo);
    a := FiveThenSix(mock0);
    dropped1 := UncalledFiveThenSix();
    b := mock0.Call(Foo, [5]);
    dropped0 := mock0.Drop();
  }

  /** The second mock of `MatchOneMatch`: the same expectations, never
      called, then dropped. */
  method UncalledFiveThenSix() returns (dropped: Outcome)
    ensures dropped == Pass
  {
    var mock := new Mock(MockFoo);
    var o1 := mock.Expect(Foo, Blank.With(Eq([5])).Returning(NinetyNine));
    var o2 := mock.Expect(Foo, Blank.With(Eq([6])).Returning(FortyTwo));
    dropped := mock.Drop();
  }

  /** The first part of `MatchOneMatch`: expectations of `foo` for 5, then
      for 6, and a call with 6. */
  method FiveThenSix(mock: Mock) returns (r: Result<int>)
    requires mock.Valid() && mock.names == MockFoo && mock.sets == NoExpectations(3) && mock.seqs == map[]
    modifies mock
    ensures mock.Valid() && mock.seqs == map[]
    ensures mock.sets == [[Expectation(Eq([5]), AnyCount, 0, Compute(NinetyNine), None),
                           Expectation(Eq([6]), AnyCount, 1, Compute(FortyTwo), None)], [], []]
    ensures r == Ok(42)
  {
    var o1 := mock.Expect(Foo, Blank.With(Eq([5])).Returning(NinetyNine));
    var o2 := mock.Expect(Foo, Blank.With(Eq([6])).Returning(FortyTwo));
    assert mock.sets[Foo][1] == Expectation(Eq([6]), AnyCount, 0, Compute(FortyTwo), None);
    assert !Candidate(mock.sets[Foo], 0, [6], mock.seqs) && Candidate(mock.sets[Foo], 1, [6], mock.seqs);
    r := mock.Call(Foo, [6]);
    assert mock.sets[Foo][0] == Expectation(Eq([5]), AnyCount, 0, Compute(NinetyNine), None);
    assert mock.sets[Foo][1] == Expectation(Eq([6]), AnyCount, 1, Compute(FortyTwo), None);
    assert mock.sets[Foo] == [Expectation(Eq([5]), AnyCount, 0, Compute(NinetyNine), None),
                              Expectation(Eq([6]), AnyCount, 1, Compute(FortyTwo), None)];
    assert mock.sets[Bar] == [] && mock.sets[Baz] == [];
  }

  /** A call no matcher accepts fails. */
  method MatchWithNoMatches() returns (r: Result<int>)
    ensures r == Err(NoMatch("MockFoo::bar", [5]))
  {
    var mock := new Mock(MockFoo);
    var o := mock.Expect(Bar, Blank.With(Eq([4])).ReturnConst(0));
    r := mock.Call(Bar, [5]);
  }

  /** An `eq` matcher accepts an equal argument. */
  method MatchWithOk() returns (r: Result<int>, dropped: Outcome)
    ensures r == Ok(0) && dropped == Pass
  {
    var mock := new Mock(MockFoo);
    var o := mock.Expect(Bar, Blank.With(Eq([5])).ReturnConst(0));
    r := mock.Call(Bar, [5]);
    dropped := mock.Drop();
  }

  /** A `withf` predicate accepts the arguments it holds for. */
  method MatchWithfOk() returns (r: Result<int>, dropped: Outcome)
    ensures r == Ok(0) && dropped == Pass
  {
    var mock := new Mock(MockFoo);
    var o := mock.Expect(Bar, Blank.With(Pred(IsFive)).ReturnConst(0));
    r := mock.Call(Bar, [5]);
    dropped := mock.Drop();
  }

  /** A `withf` predicate refuses the arguments it fails on. */
  method MatchWithfNoMatches() returns (r: Result<int>)
    ensures r == Err(NoMatch("MockFoo::bar", [5]))
  {
    var mock := new Mock(MockFoo);
    var o := mock.Expect(Bar, Blank.With(Pred(IsSix)).ReturnConst(0));
    r := mock.Call(Bar, [5]);
  }

  /** `never()` refuses every call, whatever its return policy. */
  method NeverFail() returns (r: Result<int>)
    ensures r == Err(NotCalled("MockFoo::bar", Anything))
  {
    var mock := new Mock(MockFoo);
    var o := mock.Expect(Bar, Blank.Returning(Unit).Never());
    r := mock.Call(Bar, [0]);
  }

  /** An unused `never()` expectation passes when the mock is dropped. */
  method NeverOk() returns (dropped: Outcome)
    ensures dropped == Pass
  {
    var mock := new Mock(MockFoo);
    var o := mock.Expect(Foo, Blank.Never());
    dropped := mock.Drop();
  }

  /** `return_const` answers with its constant. */
  method ReturnConst() returns (r: Result<int>, dropped: Outcome)
    ensures r == Ok(42) && dropped == Pass
  {
    var mock := new Mock(MockFoo);
    var o := mock.Expect(Foo, Blank.ReturnConst(42));
    r := mock.Call(Foo, [5]);
    dropped := mock.Drop();
  }

  /** Without a return policy the call fails. */
  method ReturnDefault() returns (r: Result<int>)
    ensures r == Err(MissingDefault("MockFoo::foo", Anything))
  {
    var mock := new Mock(MockFoo);
    var o := mock.Expect(Foo, Blank);
    r := mock.Call(Foo, [5]);
  }

  /** `returning` answers with its function of the arguments. */
  method Returning() returns (r: Result<int>, dropped: Outcome)
    ensures r == Ok(6) && dropped == Pass
  {
    var mock := new Mock(MockFoo);
    var o := mock.Expect(Foo, Blank.Returning(Succ));
    r := mock.Call(Foo, [5]);
    dropped := mock.Drop();
  }
}
