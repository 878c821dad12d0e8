/** The `times` scenarios of the struct mock: call counts against the
    range each expectation allows. */
module TimesScenarios {
  import opened Outcomes
  import opened Counts
  import opened Matching
  import opened Expectations
  import opened Mocks
  import opened StructScenarios
  import opened EngineLaws

  /** Exactly two calls of a `times(2)` expectation. */
  method TimesOk() returns (r1: Result<int>, r2: Result<int>, dropped: Outcome)
    ensures r1 == Ok(0) && r2 == Ok(0) && dropped == Pass
  {
    var mock := new Mock(MockFoo);
    var o := mock.Expect(Baz, Blank.Returning(Unit).WithTimes(Exactly(2)));
    r1 := CallSole(mock, Baz, []);
    r2 := CallSole(mock, Baz, []);
    dropped := mock.Drop();
  }

  /** One call of a `times(2)` expectation is too few when the mock is
      dropped. */
  method TimesTooFew() returns (r: Result<int>, dropped: Outcome)
    ensures r == Ok(0)
    ensures dropped == Fail(TooFew("MockFoo::bar", Equals([5]), 1, 2))
  {
    var mock := new Mock(MockFoo);
    var o := mock.Expect(Bar, Blank.With(Eq([5])).Returning(Unit).WithTimes(Exactly(2)));
    r := CallSole(mock, Bar, [5]);
    AuditReportsFirstOffender(mock.names, mock.sets, Bar, 0);
    dropped := mock.Drop();
  }

  /** The third call of a `times(2)` expectation fails at once. */
  method TimesTooMany() returns (r1: Result<int>, r2: Result<int>, r3: Result<int>)
    ensures r1 == Ok(0) && r2 == Ok(0)
    ensures r3 == Err(OverCount("MockFoo::baz", Anything, 3, 2))
  {
    var mock := new Mock(MockFoo);
    var o := mock.Expect(Baz, Blank.Returning(Unit).WithTimes(Exactly(2)));
    r1 := CallSole(mock, Baz, []);
    r2 := CallSole(mock, Baz, []);
    r3 := CallSole(mock, Baz, []);
  }

  /** Counts inside half-open ranges, on two methods. */
  method RangeOk() returns (r1: Result<int>, r2: Result<int>, r3: Result<int>, r4: Result<int>, r5: Result<int>, dropped: Outcome)
    ensures r1 == Ok(0) && r2 == Ok(0) && r3 == Ok(0) && r4 == Ok(0) && r5 == Ok(0)
    ensures dropped == Pass
  {
    var mock := new Mock(MockFoo);
    r1, r2 := TwiceOnBaz(mock, Range(2, 4));
    var o2 := mock.Expect(Bar, Blank.Returning(Unit).WithTimes(Range(2, 4)));
    r3 := CallSole(mock, Bar, [0]);
    r4 := CallSole(mock, Bar, [0]);
    r5 := CallSole(mock, Bar, [0]);
    dropped := mock.Drop();
  }

  /** The first half of `RangeOk` and `RangeFromOk`: an expectation of `baz`
      for `arg`, called twice. */
  method TwiceOnBaz(mock: Mock, arg: TimesArg) returns (r1: Result<int>, r2: Result<int>)
    requires mock.Valid() && mock.names == MockFoo && mock.sets == NoExpectations(3) && mock.seqs == map[]
    requires arg == Range(2, 4) || arg == RangeFrom(2)
    modifies mock
    ensures mock.Valid() && mock.seqs == map[]
    ensures mock.sets == [[], [], [Expectation(Always, Normalize(arg).value, 2, Compute(Unit), None)]]
    ensures r1 == Ok(0) && r2 == Ok(0)
  {
    var o1 := mock.Expect(Baz, Blank.Returning(Unit).WithTimes(arg));
    r1 := CallSole(mock, Baz, []);
    r2 := CallSole(mock, Baz, []);
    assert mock.sets[Baz][0] == Expectation(Always, Normalize(arg).value, 2, Compute(Unit), None);
    assert mock.sets[Baz] == [Expectation(Always, Normalize(arg).value, 2, Compute(Unit), None)];
    assert mock.sets[Foo] == [] && mock.sets[Bar] == [];
  }

  /** One call is below the range `2..4`. */
  method RangeTooFew() returns (r: Result<int>, dropped: Outcome)
    ensures r == Ok(0)
    ensures dropped == Fail(TooFew("MockFoo::baz", Anything, 1, 2))
  {
    var mock := new Mock(MockFoo);
    var o := mock.Expect(Baz, Blank.Returning(Unit).WithTimes(Range(2, 4)));
    r := CallSole(mock, Baz, []);
    AuditReportsFirstOffender(mock.names, mock.sets, Baz, 0);
    dropped := mock.Drop();
  }

  /** The fourth call is above the range `2..4`, whose largest count is 3. */
  method RangeTooMany() returns (r1: Result<int>, r2: Result<int>, r3: Result<int>, r4: Result<int>)
    ensures r1 == Ok(0) && r2 == Ok(0) && r3 == Ok(0)
    ensures r4 == Err(OverCount("MockFoo::baz", Anything, 4, 3))
  {
    var mock := new Mock(MockFoo);
    var o := mock.Expect(Baz, Blank.Returning(Unit).WithTimes(Range(2, 4)));
    r1 := CallSole(mock, Baz, []);
    r2 := CallSole(mock, Baz, []);
    r3 := CallSole(mock, Baz, []);
    r4 := CallSole(mock, Baz, []);
  }

  /** Three calls inside `..4`. */
  method RangeToOk() returns (r1: Result<int>, r2: Result<int>, r3: Result<int>, dropped: Outcome)
    ensures r1 == Ok(0) && r2 == Ok(0) && r3 == Ok(0) && dropped == Pass
  {
    var mock := new Mock(MockFoo);
    var o := mock.Expect(Bar, Blank.Returning(Unit).WithTimes(RangeTo(4)));
    r1 := CallSole(mock, Bar, [0]);
    r2 := CallSole(mock, Bar, [0]);
    r3 := CallSole(mock, Bar, [0]);
    dropped := mock.Drop();
  }

  /** The fourth call is above `..4`. */
  method RangeToTooMany() returns (r1: Result<int>, r2: Result<int>, r3: Result<int>, r4: Result<int>)
    ensures r1 == Ok(0) && r2 == Ok(0) && r3 == Ok(0)
    ensures r4 == Err(OverCount("MockFoo::baz", Anything, 4, 3))
  {
    var mock := new Mock(MockFoo);
    var o := mock.Expect(Baz, Blank.Returning(Unit).WithTimes(RangeTo(4)));
    r1 := CallSole(mock, Baz, []);
    r2 := CallSole(mock, Baz, []);
    r3 := CallSole(mock, Baz, []);
    r4 := CallSole(mock, Baz, []);
  }

  /** Four calls at the top of `2..=4`. */
  method RangeInclusiveOk() returns (r1: Result<int>, r2: Result<int>, r3: Result<int>, r4: Result<int>, dropped: Outcome)
    ensures r1 == Ok(0) && r2 == Ok(0) && r3 == Ok(0) && r4 == Ok(0) && dropped == Pass
  {
    var mock := new Mock(MockFoo);
    var o := mock.Expect(Bar, Blank.Returning(Unit).WithTimes(RangeInclusive(2, 4)));
    r1 := CallSole(mock, Bar, [0]);
    r2 := CallSole(mock, Bar, [0]);
    r3 := CallSole(mock, Bar, [0]);
    r4 := CallSole(mock, Bar, [0]);
    dropped := mock.Drop();
  }

  /** Counts in the unbounded range `2..`, on two methods. */
  method RangeFromOk() returns (r1: Result<int>, r2: Result<int>, r3: Result<int>, r4: Result<int>, r5: Result<int>, dropped: Outcome)
    ensures r1 == Ok(0) && r2 == Ok(0) && r3 == Ok(0) && r4 == Ok(0) && r5 == Ok(0)
    ensures dropped == Pass
  {
    var mock := new Mock(MockFoo);
    r1, r2 := TwiceOnBaz(mock, RangeFrom(2));
    var o2 := mock.Expect(Bar, Blank.Returning(Unit).WithTimes(RangeFrom(2)));
    r3 := CallSole(mock, Bar, [0]);
    r4 := CallSole(mock, Bar, [0]);
    r5 := CallSole(mock, Bar, [0]);
    dropped := mock.Drop();
  }

  /** One call is below `2..`. */
  method RangeFromTooFew() returns (r: Result<int>, dropped: Outcome)
    ensures r == Ok(0)
    ensures dropped == Fail(TooFew("MockFoo::baz", Anything, 1, 2))
  {
    var mock := new Mock(MockFoo);
    var o := mock.Expect(Baz, Blank.Returning(Unit).WithTimes(RangeFrom(2)));
    r := CallSole(mock, Baz, []);
    AuditReportsFirstOffender(mock.names, mock.sets, Baz, 0);
    dropped := mock.Drop();
  }

  /** A later `times` replaces an earlier one: `times(1).times(..)` allows
      any count. */
  method TimesFull() returns (r1: Result<int>, r2: Result<int>, dropped: Outcome)
    ensures r1 == Ok(0) && r2 == Ok(0) && dropped == Pass
  {
    var mock := new Mock(MockFoo);
    var o := mock.Expect(Baz, Blank.Returning(Unit).WithTimes(Exactly(1)).WithTimes(RangeFull));
    r1 := CallSole(mock, Baz, []);
    r2 := CallSole(mock, Baz, []);
    dropped := mock.Drop();
  }
}
