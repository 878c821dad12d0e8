/** Expectations and the rules that resolve a call, judge it and check the
    remaining expectations. This module is the specification the `Mock` class
    is proved against: `CallSpec` is one call, `Audit` is the check run at a
    checkpoint and when a mock is dropped. */
module Expectations {
  import opened Outcomes
  import opened Counts
  import opened Matching
  import opened Sequencing

  /** What an accepted call returns: nothing configured (`returning` and
      `return_const` never called), a constant, or a function of the
      arguments. */
  datatype Policy = NoPolicy | Const(value: int) | Compute(f: seq<int> -> int)

  /** An expectation's place in a sequence. */
  datatype Handle = Handle(sequence: Sequence, pos: nat)

  /** One registered expectation of one method, with its call counter. */
  datatype Expectation = Expectation(
    matcher: Matcher,
    times: Times,
    calls: nat,
    policy: Policy,
    handle: Option<Handle>)

  /** The configuration the chain `expect_m().with(..).times(..)...`
      accumulates; a later call of the same kind replaces an earlier one. */
  datatype Builder = Builder(matcher: Matcher, times: TimesArg, policy: Policy, inSequence: Option<Sequence>) {
    function With(m: Matcher): Builder { this.(matcher := m) }
    function WithTimes(arg: TimesArg): Builder { this.(times := arg) }
    function Never(): Builder { this.(times := Exactly(0)) }
    function ReturnConst(v: int): Builder { this.(policy := Const(v)) }
    function Returning(f: seq<int> -> int): Builder { this.(policy := Compute(f)) }
    function InSequence(s: Sequence): Builder { this.(inSequence := Some(s)) }
  }

  /** What `expect_m()` starts from: any arguments, any number of calls, no
      return policy, no sequence. */
  const Blank: Builder := Builder(Always, RangeFull, NoPolicy, None)

  /** An expectation registered from `Blank` accepts any arguments and any
      number of calls, and has no return policy and no sequence. */
  lemma BlankTakesAnything(args: seq<int>, n: nat)
    ensures Matches(Blank.matcher, args) && Describe(Blank.matcher) == Anything
    ensures Normalize(Blank.times) == Some(AnyCount) && Allows(AnyCount, n)
    ensures Blank.policy == NoPolicy && Blank.inSequence.None?
  {
  }

  /** The expectations of `n` methods none of which has any. */
  function NoExpectations(n: nat): (sets: seq<seq<Expectation>>)
    ensures |sets| == n && forall m | 0 <= m < n :: sets[m] == []
  {
    seq(n, _ => [])
  }

  type SeqMap = map<Sequence, SeqState>

  ghost predicate ValidSeqs(seqs: SeqMap) {
    forall s | s in seqs :: seqs[s].Valid()
  }

  /** Every handle in `es` names an existing slot of a sequence in `seqs`. */
  ghost predicate Known(es: seq<Expectation>, seqs: SeqMap) {
    forall i | 0 <= i < |es| && es[i].handle.Some? ::
      es[i].handle.value.sequence in seqs &&
      es[i].handle.value.pos < |seqs[es[i].handle.value.sequence].satisfied|
  }

  /** An expectation is done when no further call fits in its range or when
      its sequence has moved past it. */
  predicate Done(e: Expectation, seqs: SeqMap)
    requires e.handle.Some? ==> e.handle.value.sequence in seqs
  {
    Exhausted(e.times, e.calls) ||
    (e.handle.Some? && seqs[e.handle.value.sequence].Passed(e.handle.value.pos))
  }

  /** Expectation `i` may take a call with `args`: it matches them and is not
      done, unless it is the only expectation of its method (then it takes the
      call and reports what is wrong with it). */
  predicate Candidate(es: seq<Expectation>, i: nat, args: seq<int>, seqs: SeqMap)
    requires i < |es| && Known(es, seqs)
  {
    Matches(es[i].matcher, args) && (!Done(es[i], seqs) || |es| == 1)
  }

  /** The first candidate at or after `k`, in registration order. */
  function SelectFrom(es: seq<Expectation>, args: seq<int>, seqs: SeqMap, k: nat): (r: Option<nat>)
    requires k <= |es| && Known(es, seqs)
    ensures r.Some? ==> k <= r.value < |es| && Candidate(es, r.value, args, seqs)
    ensures r.Some? ==> forall j | k <= j < r.value :: !Candidate(es, j, args, seqs)
    ensures r.None? ==> forall j | k <= j < |es| :: !Candidate(es, j, args, seqs)
    decreases |es| - k
  {
    if k == |es| then None
    else if Candidate(es, k, args, seqs) then Some(k)
    else SelectFrom(es, args, seqs, k + 1)
  }

  /** The oldest candidate: the expectation a call with `args` is resolved to. */
  function Select(es: seq<Expectation>, args: seq<int>, seqs: SeqMap): Option<nat>
    requires Known(es, seqs)
  {
    SelectFrom(es, args, seqs, 0)
  }

  /** Resolution is FIFO: a call goes to expectation `i` exactly when `i` is a
      candidate and no older expectation is. */
  lemma SelectIsOldestCandidate(es: seq<Expectation>, args: seq<int>, seqs: SeqMap, i: nat)
    requires Known(es, seqs) && i < |es|
    ensures Select(es, args, seqs) == Some(i) <==>
      Candidate(es, i, args, seqs) && forall j | 0 <= j < i :: !Candidate(es, j, args, seqs)
  {
    var r := Select(es, args, seqs);
    if Candidate(es, i, args, seqs) && forall j | 0 <= j < i :: !Candidate(es, j, args, seqs) {
      assert r.Some?;
      assert !(r.value < i) && !(i < r.value);
    }
  }

  /** The expectation's sequence, if it has one, has reached it. */
  predicate InTurn(e: Expectation, seqs: SeqMap)
    requires e.handle.Some? ==> e.handle.value.sequence in seqs
  {
    e.handle.None? || seqs[e.handle.value.sequence].Eligible(e.handle.value.pos)
  }

  /** Every range was normalized, so some count satisfies it. */
  ghost predicate RangesWellFormed(sets: seq<seq<Expectation>>) {
    forall m, i | 0 <= m < |sets| && 0 <= i < |sets[m]| :: WellFormed(sets[m][i].times)
  }

  /** Each sequence slot says whether the expectation holding it has reached
      its minimum. */
  ghost predicate Coherent(sets: seq<seq<Expectation>>, seqs: SeqMap) {
    forall m, i | 0 <= m < |sets| && 0 <= i < |sets[m]| && sets[m][i].handle.Some? ::
      var h := sets[m][i].handle.value;
      h.sequence in seqs && h.pos < |seqs[h.sequence].satisfied| &&
      seqs[h.sequence].satisfied[h.pos] == (sets[m][i].calls >= sets[m][i].times.min)
  }

  /** Expectations `(m1, i1)` and `(m2, i2)` hold the same sequence slot. */
  ghost predicate SameSlot(sets: seq<seq<Expectation>>, m1: nat, i1: nat, m2: nat, i2: nat) {
    m1 < |sets| && i1 < |sets[m1]| && m2 < |sets| && i2 < |sets[m2]| &&
    sets[m1][i1].handle.Some? && sets[m1][i1].handle == sets[m2][i2].handle
  }

  /** No two expectations hold the same sequence slot. */
  ghost predicate Distinct(sets: seq<seq<Expectation>>) {
    forall m1: nat, i1: nat, m2: nat, i2: nat :: SameSlot(sets, m1, i1, m2, i2) ==> m1 == m2 && i1 == i2
  }

  /** The invariant of a mock's expectations and the sequences they joined. */
  ghost predicate Consistent(sets: seq<seq<Expectation>>, seqs: SeqMap) {
    ValidSeqs(seqs) && RangesWellFormed(sets) && Coherent(sets, seqs) && Distinct(sets)
  }

  lemma ConsistentKnown(sets: seq<seq<Expectation>>, seqs: SeqMap, m: nat)
    requires Consistent(sets, seqs) && m < |sets|
    ensures Known(sets[m], seqs)
  {
    forall i | 0 <= i < |sets[m]| && sets[m][i].handle.Some?
      ensures sets[m][i].handle.value.sequence in seqs
      ensures sets[m][i].handle.value.pos < |seqs[sets[m][i].handle.value.sequence].satisfied|
    {
    }
  }

  /** The outcome of a registration and the state after it. */
  datatype Registration = Registration(outcome: Outcome, sets: seq<seq<Expectation>>, seqs: SeqMap)

  /** The expectation a builder adds: range `t`, no calls yet, and slot `pos`
      of the sequence the builder names, if any. */
  function Fresh(b: Builder, t: Times, pos: nat): Expectation {
    Expectation(b.matcher, t, 0, b.policy, if b.inSequence.Some? then Some(Handle(b.inSequence.value, pos)) else None)
  }

  /** `expect_m()` and the builder calls collected in `b`, for method `m`;
      `joined` is the current state of the sequence `b` names (unused when it
      names none). A range that holds no count is refused; otherwise the new
      expectation goes to the end of the method's list and takes the next
      slot of its sequence, a slot that starts satisfied when its minimum is
      0. */
  function Register(sets: seq<seq<Expectation>>, seqs: SeqMap, m: nat, b: Builder, joined: SeqState): Registration
    requires m < |sets| && joined.Valid()
  {
    match Normalize(b.times)
    case None => Registration(Fail(BackwardsRange), sets, seqs)
    case Some(t) =>
      var sets' := sets[m := sets[m] + [Fresh(b, t, |joined.satisfied|)]];
      if b.inSequence.None? then Registration(Pass, sets', seqs)
      else Registration(Pass, sets', seqs[b.inSequence.value := joined.Join(t.min > 0)])
  }

  /** The result of one call and the state after it. */
  datatype Step = Step(result: Result<int>, sets: seq<seq<Expectation>>, seqs: SeqMap)

  /** What an accepted call returns under its policy. */
  function Reply(e: Expectation, name: string, args: seq<int>): Result<int> {
    match e.policy
    case NoPolicy => Err(MissingDefault(name, Describe(e.matcher)))
    case Const(v) => Ok(v)
    case Compute(f) => Ok(f(args))
  }

  /** One call of method `m` with `args`, where `sets[m]` lists the method's
      expectations oldest first and `names[m]` is its qualified name:
      resolve to the oldest candidate, refuse it if its sequence is not at
      it, count the call, refuse it if the count is over the upper bound,
      record it in the sequence, and answer with the return policy. */
  ghost function CallSpec(names: seq<string>, sets: seq<seq<Expectation>>, seqs: SeqMap, m: nat, args: seq<int>): Step
    requires m < |sets| == |names| && Known(sets[m], seqs) && ValidSeqs(seqs)
  {
    var es := sets[m];
    match Select(es, args, seqs)
    case None => Step(Err(NoMatch(names[m], args)), sets, seqs)
    case Some(i) =>
      var e := es[i];
      if !InTurn(e, seqs) then
        Step(Err(SequenceViolation(names[m], args)), sets, seqs)
      else
        var n := e.calls + 1;
        var sets' := sets[m := es[i := e.(calls := n)]];
        match CallCheck(names[m], Describe(e.matcher), e.times, n)
        case Some(err) => Step(Err(err), sets', seqs)
        case None =>
          var seqs' :=
            if e.handle.Some? then
              var h := e.handle.value;
              seqs[h.sequence := seqs[h.sequence].Record(h.pos, n >= e.times.min, Exhausted(e.times, n))]
            else seqs;
          Step(Reply(e, names[m], args), sets', seqs')
  }

  /** The judgement on one expectation at a checkpoint or drop. */
  function Verdict(name: string, e: Expectation): Option<MockError> {
    AuditCount(name, Describe(e.matcher), e.times, e.calls)
  }

  /** The scan made at a checkpoint or drop over one method's
      expectations, oldest first from position `k`: the first verdict
      found. */
  function AuditFrom(name: string, es: seq<Expectation>, k: nat): Outcome
    requires k <= |es|
    decreases |es| - k
  {
    if k == |es| then Pass
    else match Verdict(name, es[k])
      case Some(err) => Fail(err)
      case None => AuditFrom(name, es, k + 1)
  }

  /** The same scan over the methods from `k` on, in declaration order. */
  function AuditMethods(names: seq<string>, sets: seq<seq<Expectation>>, k: nat): Outcome
    requires k <= |sets| == |names|
    decreases |sets| - k
  {
    if k == |sets| then Pass
    else match AuditFrom(names[k], sets[k], 0)
      case Fail(err) => Fail(err)
      case Pass => AuditMethods(names, sets, k + 1)
  }

  /** Every remaining expectation's count lies in its range. */
  predicate AllInRange(sets: seq<seq<Expectation>>) {
    forall m, i | 0 <= m < |sets| && 0 <= i < |sets[m]| :: Allows(sets[m][i].times, sets[m][i].calls)
  }

  /** The check made at a checkpoint and when a mock is dropped: it passes
      when every count is in range, and otherwise reports what the scan
      finds first (`ScanIsAudit` shows the scan alone gives the same). */
  function Audit(names: seq<string>, sets: seq<seq<Expectation>>): Outcome
    requires |sets| == |names|
  {
    if AllInRange(sets) then Pass else AuditMethods(names, sets, 0)
  }
}
