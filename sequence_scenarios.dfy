/** The `in_sequence` scenarios of the struct mock: expectations of one or
    several methods joined to one sequence, which fixes the order of their
    calls. */
module SequenceScenarios {
  import opened Outcomes
  import opened Counts
  import opened Matching
  import opened Sequencing
  import opened Expectations
  import opened Mocks
  import opened StructScenarios

  /** `baz` is second in the sequence, so calling it first is a
      violation. */
  method SequenceFail() returns (r: Result<int>)
    ensures r == Err(SequenceViolation("MockFoo::baz", []))
  {
    var s := new Sequence();
    var mock := new Mock(MockFoo);
    var o1 := mock.Expect(Bar, Blank.WithTimes(Exactly(1)).Returning(Unit).InSequence(s));
    var o2 := mock.Expect(Baz, Blank.WithTimes(Exactly(1)).Returning(Unit).InSequence(s));
    r := mock.Call(Baz, []);
  }

  /** Calls in the order of the sequence. */
  method SequenceOk() returns (r1: Result<int>, r2: Result<int>, dropped: Outcome)
    ensures r1 == Ok(0) && r2 == Ok(0) && dropped == Pass
  {
    var s, mock := BazThenBar(Exactly(1));
    r1, r2 := BazThenBarInOrder(s, mock, Times(1, Finite(1)));
    dropped := mock.Drop();
  }

  /** The same with open-ended counts `1..`. */
  method SequenceOkVariableCount() returns (r1: Result<int>, r2: Result<int>, dropped: Outcome)
    ensures r1 == Ok(0) && r2 == Ok(0) && dropped == Pass
  {
    var s, mock := BazThenBar(RangeFrom(1));
    r1, r2 := BazThenBarInOrder(s, mock, Times(1, Unbounded));
    dropped := mock.Drop();
  }

  /** An expectation joined to sequence `s` at `pos`, answering with `f`. */
  function Joined(matcher: Matcher, t: Times, calls: nat, f: seq<int> -> int, s: Sequence, pos: nat): Expectation {
    Expectation(matcher, t, calls, Compute(f), Some(Handle(s, pos)))
  }

  /** The mock of `SequenceOk`: an expectation of `baz` and then one of
      `bar` in `s`, both for `t`, called `bazCalls` and `barCalls` times. */
  ghost predicate BazThenBarAt(mock: Mock, s: Sequence, t: Times, bazCalls: nat, barCalls: nat)
    reads mock, s, mock.seqs.Keys
  {
    && mock.Valid() && mock.names == MockFoo && mock.seqs == map[s := s.state]
    && |mock.sets| == 3 && mock.sets[Foo] == []
    && |mock.sets[Bar]| == 1 && mock.sets[Bar][0] == Joined(Always, t, barCalls, Unit, s, 1)
    && |mock.sets[Baz]| == 1 && mock.sets[Baz][0] == Joined(Always, t, bazCalls, Unit, s, 0)
  }

  /** A new sequence and the registrations of `SequenceOk` for `arg`. */
  method BazThenBar(arg: TimesArg) returns (s: Sequence, mock: Mock)
    requires Normalize(arg).Some? && Normalize(arg).value.min > 0
    ensures fresh(s) && fresh(mock)
    ensures BazThenBarAt(mock, s, Normalize(arg).value, 0, 0) && s.state == SeqState([false, false], 0)
  {
    s := new Sequence();
    mock := new Mock(MockFoo);
    var o1 := mock.Expect(Baz, Blank.WithTimes(arg).Returning(Unit).InSequence(s));
    var o2 := mock.Expect(Bar, Blank.WithTimes(arg).Returning(Unit).InSequence(s));
  }

  /** The calls of `SequenceOk`: `baz`, then `bar`. */
  method BazThenBarInOrder(s: Sequence, mock: Mock, t: Times) returns (r1: Result<int>, r2: Result<int>)
    requires t == Times(1, Finite(1)) || t == Times(1, Unbounded)
    requires BazThenBarAt(mock, s, t, 0, 0) && s.state == SeqState([false, false], 0)
    modifies mock, s
    ensures BazThenBarAt(mock, s, t, 1, 1)
    ensures r1 == Ok(0) && r2 == Ok(0)
  {
    r1 := mock.Call(Baz, []);
    r2 := mock.Call(Bar, [0]);
  }

  /** Expectations of `bar` for 0, 1 and 2, which may be skipped, and then
      one of `baz`, which may not: calling `baz` first is in order. */
  method SequenceOkVariableCountSkip() returns (r: Result<int>, dropped: Outcome)
    ensures r == Ok(0) && dropped == Pass
  {
    var s, mock := SkippableBars();
    r := mock.Call(Baz, []);
    dropped := mock.Drop();
  }

  /** With one more expectation of `bar`, for 3, after the one of `baz`:
      calling `bar(3)` skips `baz`, whose minimum is 1, so it is a
      violation. */
  method SequenceErrVariableCountSkip() returns (r: Result<int>)
    ensures r == Err(SequenceViolation("MockFoo::bar", [3]))
  {
    var s, mock := SkippableBars();
    var o := mock.Expect(Bar, Blank.With(Eq([3])).Returning(Unit).InSequence(s));
    r := BarOutOfTurn(s, mock);
  }

  /** The call of `SequenceErrVariableCountSkip`: it reaches the fourth
      expectation of `bar`, which the one of `baz` still blocks. */
  method BarOutOfTurn(s: Sequence, mock: Mock) returns (r: Result<int>)
    requires mock.Valid() && mock.names == MockFoo && mock.seqs == map[s := s.state]
    requires s.state == SeqState([true, true, true, false, true], 0)
    requires BarsAt(mock, s, 3) && |mock.sets[Bar]| == 4
    requires mock.sets[Bar][3] == Joined(Eq([3]), AnyCount, 0, Unit, s, 4)
    modifies mock, s
    ensures r == Err(SequenceViolation("MockFoo::bar", [3]))
  {
    assert forall k | 0 <= k < 3 :: !Candidate(mock.sets[Bar], k, [3], mock.seqs);
    assert Candidate(mock.sets[Bar], 3, [3], mock.seqs);
    assert !s.state.Eligible(4) by { assert !s.state.satisfied[3]; }
    r := mock.Call(Bar, [3]);
  }

  /** The first `n` expectations of `bar`: for argument `j`, at position `j`
      of `s`, any number of times, not called yet. */
  ghost predicate BarsAt(mock: Mock, s: Sequence, n: nat)
    reads mock
  {
    && |mock.sets| == 3 && mock.sets[Foo] == [] && n <= |mock.sets[Bar]|
    && forall j | 0 <= j < n :: mock.sets[Bar][j] == Joined(Eq([j]), AnyCount, 0, Unit, s, j)
  }

  /** The mock of the skip scenarios once it holds `n` of the bars and nothing
      else: each of them is satisfied from the start. */
  ghost predicate SkippableAt(mock: Mock, s: Sequence, n: nat)
    reads mock, s, mock.seqs.Keys
  {
    && mock.Valid() && mock.names == MockFoo && mock.seqs == map[s := s.state]
    && BarsAt(mock, s, n) && |mock.sets[Bar]| == n && mock.sets[Baz] == []
    && s.state.cursor == 0 && |s.state.satisfied| == n
    && forall j | 0 <= j < n :: s.state.satisfied[j]
  }

  /** Registers the next bar. */
  method AddBar(s: Sequence, mock: Mock, n: nat)
    requires SkippableAt(mock, s, n)
    modifies mock, s
    ensures SkippableAt(mock, s, n + 1)
  {
    var o := mock.Expect(Bar, Blank.With(Eq([n])).Returning(Unit).InSequence(s));
  }

  /** The state both skip scenarios start from: the bars, then `baz` at
      position 3 for `1..`. */
  method SkippableBars() returns (s: Sequence, mock: Mock)
    ensures fresh(s) && fresh(mock) && mock.Valid() && mock.names == MockFoo
    ensures s.state == SeqState([true, true, true, false], 0) && mock.seqs == map[s := s.state]
    ensures BarsAt(mock, s, 3) && |mock.sets[Bar]| == 3
    ensures mock.sets[Baz] == [Joined(Always, Times(1, Unbounded), 0, Unit, s, 3)]
  {
    s, mock := FirstBar();
    AddBar(s, mock, 1);
    AddBar(s, mock, 2);
    AddBlockingBaz(s, mock);
  }

  /** A new sequence and a mock with the first bar. */
  method FirstBar() returns (s: Sequence, mock: Mock)
    ensures fresh(s) && fresh(mock) && SkippableAt(mock, s, 1)
  {
    s := new Sequence();
    mock := new Mock(MockFoo);
    var o := mock.Expect(Bar, Blank.With(Eq([0])).Returning(Unit).InSequence(s));
  }

  /** Registers `baz` for `1..` after the three bars. */
  method AddBlockingBaz(s: Sequence, mock: Mock)
    requires SkippableAt(mock, s, 3)
    modifies mock, s
    ensures mock.Valid() && mock.names == MockFoo
    ensures s.state == SeqState([true, true, true, false], 0) && mock.seqs == map[s := s.state]
    ensures BarsAt(mock, s, 3) && |mock.sets[Bar]| == 3
    ensures mock.sets[Baz] == [Joined(Always, Times(1, Unbounded), 0, Unit, s, 3)]
  {
    assert s.state.satisfied == [true, true, true];
    var o := mock.Expect(Baz, Blank.WithTimes(RangeFrom(1)).Returning(Unit).InSequence(s));
  }

  /** Three `times(1)` expectations of `foo` with the same arguments: each
      answers once, in order, and is then passed over. */
  method SequenceSingleMethod() returns (r1: Result<int>, r2: Result<int>, r3: Result<int>, dropped: Outcome)
    ensures r1 == Ok(1) && r2 == Ok(2) && r3 == Ok(3) && dropped == Pass
  {
    var s, mock := OneTwoThree();
    r1 := FirstOfThree(s, mock);
    r2 := SecondOfThree(s, mock);
    r3 := ThirdOfThree(s, mock);
    dropped := mock.Drop();
  }

  /** The mock of `SequenceSingleMethod`: `times(1)` expectations of `foo`
      answering 1, 2 and 3 at positions 0 to 2 of `s`, called `c0`, `c1`
      and `c2` times. */
  ghost predicate OneTwoThreeAt(mock: Mock, s: Sequence, c0: nat, c1: nat, c2: nat)
    reads mock, s, mock.seqs.Keys
  {
    && mock.Valid() && mock.names == MockFoo && mock.seqs == map[s := s.state]
    && |mock.sets| == 3 && mock.sets[Bar] == [] && mock.sets[Baz] == [] && |mock.sets[Foo]| == 3
    && mock.sets[Foo][0] == Joined(Always, Times(1, Finite(1)), c0, One, s, 0)
    && mock.sets[Foo][1] == Joined(Always, Times(1, Finite(1)), c1, Two, s, 1)
    && mock.sets[Foo][2] == Joined(Always, Times(1, Finite(1)), c2, Three, s, 2)
  }

  /** The registrations of `SequenceSingleMethod`. */
  method OneTwoThree() returns (s: Sequence, mock: Mock)
    ensures fresh(s) && fresh(mock)
    ensures OneTwoThreeAt(mock, s, 0, 0, 0) && s.state == SeqState([false, false, false], 0)
  {
    s := new Sequence();
    mock := new Mock(MockFoo);
    var o1 := mock.Expect(Foo, Blank.WithTimes(Exactly(1)).InSequence(s).Returning(One));
    var o2 := mock.Expect(Foo, Blank.WithTimes(Exactly(1)).InSequence(s).Returning(Two));
    var o3 := mock.Expect(Foo, Blank.WithTimes(Exactly(1)).InSequence(s).Returning(Three));
  }

  /** The first call of `SequenceSingleMethod` goes to the first
      expectation and exhausts it. */
  method FirstOfThree(s: Sequence, mock: Mock) returns (r: Result<int>)
    requires OneTwoThreeAt(mock, s, 0, 0, 0) && s.state == SeqState([false, false, false], 0)
    modifies mock, s
    ensures OneTwoThreeAt(mock, s, 1, 0, 0) && s.state == SeqState([true, false, false], 1)
    ensures r == Ok(1)
  {
    r := mock.Call(Foo, [0]);
  }

  /** The second call passes over the exhausted first expectation. */
  method SecondOfThree(s: Sequence, mock: Mock) returns (r: Result<int>)
    requires OneTwoThreeAt(mock, s, 1, 0, 0) && s.state == SeqState([true, false, false], 1)
    modifies mock, s
    ensures OneTwoThreeAt(mock, s, 1, 1, 0) && s.state == SeqState([true, true, false], 2)
    ensures r == Ok(2)
  {
    assert !Candidate(mock.sets[Foo], 0, [0], mock.seqs) && Candidate(mock.sets[Foo], 1, [0], mock.seqs);
    r := mock.Call(Foo, [0]);
  }

  /** The third call passes over both. */
  method ThirdOfThree(s: Sequence, mock: Mock) returns (r: Result<int>)
    requires OneTwoThreeAt(mock, s, 1, 1, 0) && s.state == SeqState([true, true, false], 2)
    modifies mock, s
    ensures OneTwoThreeAt(mock, s, 1, 1, 1) && s.state == SeqState([true, true, true], 3)
    ensures r == Ok(3)
  {
    assert !Candidate(mock.sets[Foo], 0, [0], mock.seqs) && !Candidate(mock.sets[Foo], 1, [0], mock.seqs);
    assert Candidate(mock.sets[Foo], 2, [0], mock.seqs);
    r := mock.Call(Foo, [0]);
  }

  /** An expectation for one or two calls answers both, and the next one in
      the sequence answers after it. */
  method SequenceSingleMethodVariableCount() returns (r1: Result<int>, r2: Result<int>, r3: Result<int>, dropped: Outcome)
    ensures r1 == Ok(1) && r2 == Ok(1) && r3 == Ok(3) && dropped == Pass
  {
    var s, mock := OneOrTwoThenThree();
    r1 := FirstOfOneOrTwo(s, mock);
    r2 := SecondOfOneOrTwo(s, mock);
    r3 := ThenThreeOnce(s, mock);
    dropped := mock.Drop();
  }

  /** The mock of `SequenceSingleMethodVariableCount`: expectations of `foo`
      for one or two calls answering 1 and for one call answering 3, at
      positions 0 and 1 of `s`, called `c0` and `c1` times. */
  ghost predicate OneOrTwoThenThreeAt(mock: Mock, s: Sequence, c0: nat, c1: nat)
    reads mock, s, mock.seqs.Keys
  {
    && mock.Valid() && mock.names == MockFoo && mock.seqs == map[s := s.state]
    && |mock.sets| == 3 && mock.sets[Bar] == [] && mock.sets[Baz] == [] && |mock.sets[Foo]| == 2
    && mock.sets[Foo][0] == Joined(Always, Times(1, Finite(2)), c0, One, s, 0)
    && mock.sets[Foo][1] == Joined(Always, Times(1, Finite(1)), c1, Three, s, 1)
  }

  /** The registrations of `SequenceSingleMethodVariableCount`. */
  method OneOrTwoThenThree() returns (s: Sequence, mock: Mock)
    ensures fresh(s) && fresh(mock)
    ensures OneOrTwoThenThreeAt(mock, s, 0, 0) && s.state == SeqState([false, false], 0)
  {
    s := new Sequence();
    mock := new Mock(MockFoo);
    var o1 := mock.Expect(Foo, Blank.WithTimes(RangeInclusive(1, 2)).InSequence(s).Returning(One));
    var o2 := mock.Expect(Foo, Blank.WithTimes(Exactly(1)).InSequence(s).Returning(Three));
  }

  /** The first call reaches the first expectation's minimum but not its
      maximum, so the cursor stays. */
  method FirstOfOneOrTwo(s: Sequence, mock: Mock) returns (r: Result<int>)
    requires OneOrTwoThenThreeAt(mock, s, 0, 0) && s.state == SeqState([false, false], 0)
    modifies mock, s
    ensures OneOrTwoThenThreeAt(mock, s, 1, 0) && s.state == SeqState([true, false], 0)
    ensures r == Ok(1)
  {
    r := mock.Call(Foo, [0]);
  }

  /** The second call still goes to the first expectation and exhausts it. */
  method SecondOfOneOrTwo(s: Sequence, mock: Mock) returns (r: Result<int>)
    requires OneOrTwoThenThreeAt(mock, s, 1, 0) && s.state == SeqState([true, false], 0)
    modifies mock, s
    ensures OneOrTwoThenThreeAt(mock, s, 2, 0) && s.state == SeqState([true, false], 1)
    ensures r == Ok(1)
  {
    r := mock.Call(Foo, [0]);
  }

  /** The third call passes over the exhausted first expectation. */
  method ThenThreeOnce(s: Sequence, mock: Mock) returns (r: Result<int>)
    requires OneOrTwoThenThreeAt(mock, s, 2, 0) && s.state == SeqState([true, false], 1)
    modifies mock, s
    ensures OneOrTwoThenThreeAt(mock, s, 2, 1) && s.state == SeqState([true, true], 2)
    ensures r == Ok(3)
  {
    assert !Candidate(mock.sets[Foo], 0, [0], mock.seqs) && Candidate(mock.sets[Foo], 1, [0], mock.seqs);
    r := mock.Call(Foo, [0]);
  }

  /** `baz`, `bar`, `baz`, each open-ended: the second call of `baz` passes
      over the first expectation of `baz`, which the call of `bar` left
      behind, and goes to the third in the sequence. */
  method SequenceSingleMethodVariableCountMixed() returns (r1: Result<int>, r2: Result<int>, r3: Result<int>, dropped: Outcome)
    ensures r1 == Ok(0) && r2 == Ok(0) && r3 == Ok(0) && dropped == Pass
  {
    var s, mock := BazBarBaz();
    r1 := BazFirst(s, mock);
    r2 := BarSecond(s, mock);
    r3 := BazAgain(s, mock);
    dropped := mock.Drop();
  }

  /** The mock of `SequenceSingleMethodVariableCountMixed`: open-ended
      expectations of `baz`, `bar` and `baz` at positions 0 to 2 of `s`,
      called `c0`, `c1` and `c2` times. */
  ghost predicate BazBarBazAt(mock: Mock, s: Sequence, c0: nat, c1: nat, c2: nat)
    reads mock, s, mock.seqs.Keys
  {
    && mock.Valid() && mock.names == MockFoo && mock.seqs == map[s := s.state]
    && |mock.sets| == 3 && mock.sets[Foo] == [] && |mock.sets[Bar]| == 1 && |mock.sets[Baz]| == 2
    && mock.sets[Baz][0] == Joined(Always, Times(1, Unbounded), c0, Unit, s, 0)
    && mock.sets[Bar][0] == Joined(Always, Times(1, Unbounded), c1, Unit, s, 1)
    && mock.sets[Baz][1] == Joined(Always, Times(1, Unbounded), c2, Unit, s, 2)
  }

  /** The registrations of `SequenceSingleMethodVariableCountMixed`. */
  method BazBarBaz() returns (s: Sequence, mock: Mock)
    ensures fresh(s) && fresh(mock)
    ensures BazBarBazAt(mock, s, 0, 0, 0) && s.state == SeqState([false, false, false], 0)
  {
    s := new Sequence();
    mock := new Mock(MockFoo);
    var o1 := mock.Expect(Baz, Blank.WithTimes(RangeFrom(1)).Returning(Unit).InSequence(s));
    var o2 := mock.Expect(Bar, Blank.WithTimes(RangeFrom(1)).Returning(Unit).InSequence(s));
    var o3 := mock.Expect(Baz, Blank.WithTimes(RangeFrom(1)).Returning(Unit).InSequence(s));
  }

  /** The first call of `baz`: the first participant reaches its minimum and
      stays open. */
  method BazFirst(s: Sequence, mock: Mock) returns (r: Result<int>)
    requires BazBarBazAt(mock, s, 0, 0, 0) && s.state == SeqState([false, false, false], 0)
    modifies mock, s
    ensures BazBarBazAt(mock, s, 1, 0, 0) && s.state == SeqState([true, false, false], 0)
    ensures r == Ok(0)
  {
    r := mock.Call(Baz, []);
  }

  /** The call of `bar` passes the first participant. */
  method BarSecond(s: Sequence, mock: Mock) returns (r: Result<int>)
    requires BazBarBazAt(mock, s, 1, 0, 0) && s.state == SeqState([true, false, false], 0)
    modifies mock, s
    ensures BazBarBazAt(mock, s, 1, 1, 0) && s.state == SeqState([true, true, false], 1)
    ensures r == Ok(0)
  {
    r := mock.Call(Bar, [0]);
  }

  /** The second call of `baz` goes to the second expectation of `baz`. */
  method BazAgain(s: Sequence, mock: Mock) returns (r: Result<int>)
    requires BazBarBazAt(mock, s, 1, 1, 0) && s.state == SeqState([true, true, false], 1)
    modifies mock, s
    ensures BazBarBazAt(mock, s, 1, 1, 1) && s.state == SeqState([true, true, true], 2)
    ensures r == Ok(0)
  {
    assert !Candidate(mock.sets[Baz], 0, [], mock.seqs) && Candidate(mock.sets[Baz], 1, [], mock.seqs);
    r := mock.Call(Baz, []);
  }
}
