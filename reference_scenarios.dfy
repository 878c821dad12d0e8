/** The scenarios of a mock whose methods return references,
    `foo(x: i32) -> &u32` and `bar() -> &u32`. The engine is the same; the
    reference is modelled as the value it points to. */
module ReferenceScenarios {
  import opened Outcomes
  import opened Counts
  import opened Matching
  import opened Sequencing
  import opened Expectations
  import opened Mocks
  import StructScenarios

  const Foo: nat := 0
  const Bar: nat := 1
  const MockFoo: seq<string> := ["MockFoo::foo", "MockFoo::bar"]

  /** A call to a `never` expectation is refused, whatever its policy. */
  method NeverFail() returns (r: Result<int>)
    ensures r == Err(NotCalled("MockFoo::bar", Anything))
  {
    var mock := new Mock(MockFoo);
    var o := mock.Expect(Bar, Blank.ReturnConst(0).Never());
    r := StructScenarios.CallSole(mock, Bar, []);
  }

  /** An uncalled `never` expectation passes the drop check. */
  method NeverOk() returns (dropped: Outcome)
    ensures dropped == Pass
  {
    var mock := new Mock(MockFoo);
    var o := mock.Expect(Foo, Blank.Never());
    dropped := mock.Drop();
  }

  /** `return_const` answers every call with its value. */
  method ReturnConst() returns (r: Result<int>, dropped: Outcome)
    ensures r == Ok(5) && dropped == Pass
  {
    var mock := new Mock(MockFoo);
    var o := mock.Expect(Foo, Blank.ReturnConst(5));
    r := StructScenarios.CallSole(mock, Foo, [4]);
    dropped := mock.Drop();
  }

  /** Without a return policy, a call that is accepted still fails: there is
      no default value to return. */
  method ReturnDefault() returns (r: Result<int>)
    ensures r == Err(MissingDefault("MockFoo::foo", Anything))
  {
    var mock := new Mock(MockFoo);
    var o := mock.Expect(Foo, Blank);
    r := StructScenarios.CallSole(mock, Foo, [4]);
  }

  /** `foo` is second in the sequence, so calling it first is a
      violation. */
  method SequenceFail() returns (r: Result<int>)
    ensures r == Err(SequenceViolation("MockFoo::foo", [4]))
  {
    var s := new Sequence();
    var mock := new Mock(MockFoo);
    var o1 := mock.Expect(Bar, Blank.WithTimes(Exactly(1)).ReturnConst(0).InSequence(s));
    var o2 := mock.Expect(Foo, Blank.WithTimes(Exactly(1)).ReturnConst(0).InSequence(s));
    r := mock.Call(Foo, [4]);
  }

  /** Calls in the order of the sequence. */
  method SequenceOk() returns (r1: Result<int>, r2: Result<int>, dropped: Outcome)
    ensures r1 == Ok(0) && r2 == Ok(0) && dropped == Pass
  {
    var s, mock := FooThenBar();
    r1, r2 := FooThenBarInOrder(s, mock);
    dropped := mock.Drop();
  }

  /** The mock of `SequenceOk`: `times(1)` expectations of `foo` and then
      of `bar` in `s`, both answering 0, called `fooCalls` and `barCalls`
      times. */
  ghost predicate FooThenBarAt(mock: Mock, s: Sequence, fooCalls: nat, barCalls: nat)
    reads mock, s, mock.seqs.Keys
  {
    && mock.Valid() && mock.names == MockFoo && mock.seqs == map[s := s.state] && |mock.sets| == 2
    && mock.sets[Foo] == [Expectation(Always, Times(1, Finite(1)), fooCalls, Const(0), Some(Handle(s, 0)))]
    && mock.sets[Bar] == [Expectation(Always, Times(1, Finite(1)), barCalls, Const(0), Some(Handle(s, 1)))]
  }

  /** A new sequence and the registrations of `SequenceOk`. */
  method FooThenBar() returns (s: Sequence, mock: Mock)
    ensures fresh(s) && fresh(mock)
    ensures FooThenBarAt(mock, s, 0, 0) && s.state == SeqState([false, false], 0)
  {
    s := new Sequence();
    mock := new Mock(MockFoo);
    var o1 := mock.Expect(Foo, Blank.WithTimes(Exactly(1)).ReturnConst(0).InSequence(s));
    var o2 := mock.Expect(Bar, Blank.WithTimes(Exactly(1)).ReturnConst(0).InSequence(s));
  }

  /** The calls of `SequenceOk`: `foo`, then `bar`. */
  method FooThenBarInOrder(s: Sequence, mock: Mock) returns (r1: Result<int>, r2: Result<int>)
    requires FooThenBarAt(mock, s, 0, 0) && s.state == SeqState([false, false], 0)
    modifies mock, s
    ensures FooThenBarAt(mock, s, 1, 1)
    ensures r1 == Ok(0) && r2 == Ok(0)
  {
    r1 := mock.Call(Foo, [4]);
    r2 := mock.Call(Bar, []);
  }

  /** A sequence of one participant for one or two calls, called once. */
  method SequenceOkVariableCount() returns (r: Result<int>, dropped: Outcome)
    ensures r == Ok(0) && dropped == Pass
  {
    var s, mock;
    s, mock, r := CalledOnceInSequence();
    dropped := mock.Drop();
  }

  /** The registration and the call of `SequenceOkVariableCount`. */
  method CalledOnceInSequence() returns (s: Sequence, mock: Mock, r: Result<int>)
    ensures mock.Valid() && mock.names == MockFoo
    ensures mock.sets == [[Expectation(Always, Times(1, Finite(2)), 1, Const(0), Some(Handle(s, 0)))], []]
    ensures r == Ok(0)
  {
    s := new Sequence();
    mock := new Mock(MockFoo);
    var o := mock.Expect(Foo, Blank.WithTimes(Range(1, 3)).ReturnConst(0).InSequence(s));
    r := mock.Call(Foo, [4]);
    assert mock.sets[Foo][0] == Expectation(Always, Times(1, Finite(2)), 1, Const(0), Some(Handle(s, 0)));
    assert mock.sets[Foo] == [Expectation(Always, Times(1, Finite(2)), 1, Const(0), Some(Handle(s, 0)))];
    assert mock.sets[Bar] == [];
  }
}
