/** What one call and one check do, stated over the specification functions
    of module Expectations: FIFO resolution, the sequence rule, the eager
    upper bound, the return policies, and the invariant every call keeps. */
module EngineLaws {
  import opened Outcomes
  import opened Counts
  import opened Matching
  import opened Sequencing
  import opened Expectations

  /** The state a call of method `m` may start from. */
  ghost predicate Callable(names: seq<string>, sets: seq<seq<Expectation>>, seqs: SeqMap, m: nat) {
    m < |sets| == |names| && Consistent(sets, seqs)
  }

  /** The sequence slot of the expectation a call with `args` resolves to,
      if it resolves to one in a sequence. */
  ghost function Chosen(es: seq<Expectation>, args: seq<int>, seqs: SeqMap): Option<Handle>
    requires Known(es, seqs)
  {
    match Select(es, args, seqs)
    case None => None
    case Some(i) => es[i].handle
  }

  /** A call changes at most the counter of the expectation it resolved to,
      and at most the slot and the cursor of the sequence that expectation
      joined; every cursor stays or moves forward. */
  lemma CallChangesOnlyChosen(names: seq<string>, sets: seq<seq<Expectation>>, seqs: SeqMap, m: nat, args: seq<int>)
    requires Callable(names, sets, seqs, m)
    ensures Known(sets[m], seqs)
    ensures var st := CallSpec(names, sets, seqs, m, args);
      && |st.sets| == |sets|
      && (forall p | 0 <= p < |sets| :: |st.sets[p]| == |sets[p]|)
      && (forall p, q | 0 <= p < |sets| && 0 <= q < |sets[p]| ::
            st.sets[p][q] == sets[p][q].(calls := st.sets[p][q].calls))
      && (forall p, q | 0 <= p < |sets| && 0 <= q < |sets[p]| && st.sets[p][q].calls != sets[p][q].calls ::
            p == m && Select(sets[m], args, seqs) == Some(q) && st.sets[p][q].calls == sets[p][q].calls + 1)
      && st.seqs.Keys == seqs.Keys
      && (forall s | s in seqs :: |st.seqs[s].satisfied| == |seqs[s].satisfied| && seqs[s].cursor <= st.seqs[s].cursor)
      && (forall s | s in seqs && st.seqs[s] != seqs[s] ::
            Chosen(sets[m], args, seqs).Some? && Chosen(sets[m], args, seqs).value.sequence == s)
      && (forall s, j | s in seqs && 0 <= j < |seqs[s].satisfied| && st.seqs[s].satisfied[j] != seqs[s].satisfied[j] ::
            Chosen(sets[m], args, seqs) == Some(Handle(s, j)))
  {
    ConsistentKnown(sets, seqs, m);
  }

  /** Every call keeps the invariant: ranges stay well formed, no two
      expectations share a slot, and each slot still says whether its holder
      has reached its minimum. */
  lemma CallKeepsConsistent(names: seq<string>, sets: seq<seq<Expectation>>, seqs: SeqMap, m: nat, args: seq<int>)
    requires Callable(names, sets, seqs, m)
    ensures Known(sets[m], seqs)
    ensures var st := CallSpec(names, sets, seqs, m, args); Consistent(st.sets, st.seqs)
  {
    ConsistentKnown(sets, seqs, m);
    CallChangesOnlyChosen(names, sets, seqs, m, args);
    var st := CallSpec(names, sets, seqs, m, args);
    var es := sets[m];
    match Select(es, args, seqs)
    case None =>
    case Some(i) =>
      var e := es[i];
      if InTurn(e, seqs) {
        var n := e.calls + 1;
        assert st.sets == sets[m := es[i := e.(calls := n)]];
        forall p, q | 0 <= p < |st.sets| && 0 <= q < |st.sets[p]| && st.sets[p][q].handle.Some?
          ensures var h := st.sets[p][q].handle.value;
            h.sequence in st.seqs && h.pos < |st.seqs[h.sequence].satisfied| &&
            st.seqs[h.sequence].satisfied[h.pos] == (st.sets[p][q].calls >= st.sets[p][q].times.min)
        {
          var h := st.sets[p][q].handle.value;
          assert sets[p][q].handle == st.sets[p][q].handle;
          if p == m && q == i {
            if CallCheck(names[m], Describe(e.matcher), e.times, n).Some? {
              assert WellFormed(e.times);
            }
          } else {
            assert !SameSlot(sets, p, q, m, i);
          }
        }
        forall p1: nat, q1: nat, p2: nat, q2: nat | SameSlot(st.sets, p1, q1, p2, q2)
          ensures p1 == p2 && q1 == q2
        {
          assert SameSlot(sets, p1, q1, p2, q2);
        }
      }
  }

  /** "No matching expectation found" is reported exactly when no expectation
      of the method matches the arguments and is still available; such a
      call changes nothing. */
  lemma NoMatchIffNoCandidate(names: seq<string>, sets: seq<seq<Expectation>>, seqs: SeqMap, m: nat, args: seq<int>)
    requires Callable(names, sets, seqs, m)
    ensures Known(sets[m], seqs)
    ensures var st := CallSpec(names, sets, seqs, m, args);
      (st.result == Err(NoMatch(names[m], args)) <==>
        forall i | 0 <= i < |sets[m]| :: !Candidate(sets[m], i, args, seqs))
    ensures var st := CallSpec(names, sets, seqs, m, args);
      st.result == Err(NoMatch(names[m], args)) ==> st.sets == sets && st.seqs == seqs
  {
    ConsistentKnown(sets, seqs, m);
    var st := CallSpec(names, sets, seqs, m, args);
    match Select(sets[m], args, seqs)
    case None =>
    case Some(i) =>
      var e := sets[m][i];
      if InTurn(e, seqs) {
        assert Reply(e, names[m], args) != Err(NoMatch(names[m], args));
      }
  }

  /** A call resolved to a sequence participant whose turn has not come is
      refused as a sequence violation, naming the call's arguments, and
      changes nothing; otherwise the refusal is never a sequence violation. */
  lemma OutOfTurnIsViolation(names: seq<string>, sets: seq<seq<Expectation>>, seqs: SeqMap, m: nat, args: seq<int>, i: nat)
    requires Callable(names, sets, seqs, m)
    requires Select(sets[m], args, seqs) == Some(i)
    ensures Known(sets[m], seqs)
    ensures var st := CallSpec(names, sets, seqs, m, args);
      (st.result == Err(SequenceViolation(names[m], args)) <==> !InTurn(sets[m][i], seqs))
    ensures var st := CallSpec(names, sets, seqs, m, args);
      !InTurn(sets[m][i], seqs) ==> st.sets == sets && st.seqs == seqs
  {
    ConsistentKnown(sets, seqs, m);
    var e := sets[m][i];
    if InTurn(e, seqs) {
      assert Reply(e, names[m], args) != Err(SequenceViolation(names[m], args));
    }
  }

  /** An earlier participant of the same sequence that has not been passed
      and has not reached its minimum blocks the call. */
  lemma RequiredParticipantBlocks(
    names: seq<string>, sets: seq<seq<Expectation>>, seqs: SeqMap, m: nat, args: seq<int>, i: nat,
    p: nat, q: nat)
    requires Callable(names, sets, seqs, m)
    requires Select(sets[m], args, seqs) == Some(i) && sets[m][i].handle.Some?
    requires p < |sets| && q < |sets[p]| && sets[p][q].handle.Some?
    requires sets[p][q].handle.value.sequence == sets[m][i].handle.value.sequence
    requires seqs[sets[m][i].handle.value.sequence].cursor <= sets[p][q].handle.value.pos < sets[m][i].handle.value.pos
    requires sets[p][q].calls < sets[p][q].times.min
    ensures Known(sets[m], seqs)
    ensures CallSpec(names, sets, seqs, m, args).result == Err(SequenceViolation(names[m], args))
  {
    ConsistentKnown(sets, seqs, m);
    var s := sets[m][i].handle.value.sequence;
    var j := sets[p][q].handle.value.pos;
    assert !seqs[s].satisfied[j];
    assert !InTurn(sets[m][i], seqs);
  }

  /** Conversely, when every participant from the cursor up to the called one
      is held by an expectation of this mock that has reached its minimum
      (always so for a minimum of 0, which may therefore be skipped), the
      participant's turn has come. */
  lemma SatisfiedPredecessorsAdmit(
    names: seq<string>, sets: seq<seq<Expectation>>, seqs: SeqMap, m: nat, i: nat)
    requires Callable(names, sets, seqs, m)
    requires i < |sets[m]| && sets[m][i].handle.Some?
    requires var h := sets[m][i].handle.value; seqs[h.sequence].cursor <= h.pos
    requires var h := sets[m][i].handle.value;
      forall j | seqs[h.sequence].cursor <= j < h.pos :: HeldSatisfied(sets, h.sequence, j)
    ensures Known(sets[m], seqs)
    ensures InTurn(sets[m][i], seqs)
  {
    ConsistentKnown(sets, seqs, m);
    var h := sets[m][i].handle.value;
    var st := seqs[h.sequence];
    forall j | st.cursor <= j < h.pos
      ensures st.satisfied[j]
    {
      assert HeldSatisfied(sets, h.sequence, j);
      var p, q :| 0 <= p < |sets| && 0 <= q < |sets[p]| &&
        sets[p][q].handle == Some(Handle(h.sequence, j)) && sets[p][q].calls >= sets[p][q].times.min;
      assert sets[p][q].handle.Some?;
    }
  }

  /** Slot `j` of sequence `s` is held by an expectation that has reached
      its minimum. */
  ghost predicate HeldSatisfied(sets: seq<seq<Expectation>>, s: Sequence, j: nat) {
    exists p, q | 0 <= p < |sets| && 0 <= q < |sets[p]| ::
      sets[p][q].handle == Some(Handle(s, j)) && sets[p][q].calls >= sets[p][q].times.min
  }

  /** Registering keeps the invariant: a fresh expectation takes the slot
      after the last one of its sequence, and that slot starts satisfied
      exactly when its minimum is 0. */
  lemma RegisterKeepsConsistent(sets: seq<seq<Expectation>>, seqs: SeqMap, m: nat, b: Builder, joined: SeqState)
    requires Consistent(sets, seqs) && m < |sets| && joined.Valid()
    requires b.inSequence.Some? && b.inSequence.value in seqs ==> seqs[b.inSequence.value] == joined
    ensures var r := Register(sets, seqs, m, b, joined); Consistent(r.sets, r.seqs)
  {
    var r := Register(sets, seqs, m, b, joined);
    if r.outcome.Pass? {
      var t := Normalize(b.times).value;
      var e := Fresh(b, t, |joined.satisfied|);
      assert r.sets == sets[m := sets[m] + [e]];
      forall p, q | 0 <= p < |r.sets| && 0 <= q < |r.sets[p]| && r.sets[p][q].handle.Some?
        ensures var h := r.sets[p][q].handle.value;
          h.sequence in r.seqs && h.pos < |r.seqs[h.sequence].satisfied| &&
          r.seqs[h.sequence].satisfied[h.pos] == (r.sets[p][q].calls >= r.sets[p][q].times.min)
      {
        if p != m || q < |sets[m]| {
          assert r.sets[p][q] == sets[p][q];
        }
      }
      forall p1: nat, q1: nat, p2: nat, q2: nat | SameSlot(r.sets, p1, q1, p2, q2)
        ensures p1 == p2 && q1 == q2
      {
        if !(p1 == m && q1 == |sets[m]|) && !(p2 == m && q2 == |sets[m]|) {
          assert r.sets[p1][q1] == sets[p1][q1] && r.sets[p2][q2] == sets[p2][q2];
          assert SameSlot(sets, p1, q1, p2, q2);
        }
      }
    }
  }

  /** A call that fits no more in the range of the expectation it resolved to
      fails at once: "should not have been called" for `never()`, "called n
      times which is more than the expected max" otherwise. The counter is
      still bumped, so a later check reports the expectation as called too
      many times. */
  lemma OverCallFailsAndCounts(names: seq<string>, sets: seq<seq<Expectation>>, seqs: SeqMap, m: nat, args: seq<int>, i: nat)
    requires Callable(names, sets, seqs, m)
    requires Select(sets[m], args, seqs) == Some(i) && InTurn(sets[m][i], seqs)
    requires Exhausted(sets[m][i].times, sets[m][i].calls)
    ensures Known(sets[m], seqs)
    ensures var e := sets[m][i]; var st := CallSpec(names, sets, seqs, m, args);
      && st.result == Err(if e.times.max.n == 0 then NotCalled(names[m], Describe(e.matcher))
                          else OverCount(names[m], Describe(e.matcher), e.calls + 1, e.times.max.n))
      && st.sets[m][i].calls == e.calls + 1
      && st.seqs == seqs
      && Verdict(names[m], st.sets[m][i]) == Some(TooMany(names[m], Describe(e.matcher), e.calls + 1, e.times.max.n))
  {
    ConsistentKnown(sets, seqs, m);
    var e := sets[m][i];
    assert WellFormed(e.times);
    RejectedCallIsAuditedAsTooMany(names[m], Describe(e.matcher), e.times, e.calls);
  }

  /** A call that fits in the range is counted, recorded in its sequence
      (its slot says whether it has reached its minimum, the other slots are
      kept, earlier participants are passed, the participant itself once it
      reaches its maximum, later ones not) and answered by the return policy: the constant,
      the function of the arguments, or "Returning default values requires"
      when no policy was given. */
  lemma AcceptedCallFollowsPolicy(names: seq<string>, sets: seq<seq<Expectation>>, seqs: SeqMap, m: nat, args: seq<int>, i: nat)
    requires Callable(names, sets, seqs, m)
    requires Select(sets[m], args, seqs) == Some(i) && InTurn(sets[m][i], seqs)
    requires !Exhausted(sets[m][i].times, sets[m][i].calls)
    ensures Known(sets[m], seqs)
    ensures var e := sets[m][i]; var st := CallSpec(names, sets, seqs, m, args);
      && st.sets[m][i].calls == e.calls + 1
      && Within(e.times.max, st.sets[m][i].calls)
      && (e.policy.Const? ==> st.result == Ok(e.policy.value))
      && (e.policy.Compute? ==> st.result == Ok(e.policy.f(args)))
      && (e.policy.NoPolicy? ==> st.result == Err(MissingDefault(names[m], Describe(e.matcher))))
    ensures var e := sets[m][i]; var st := CallSpec(names, sets, seqs, m, args);
      e.handle.Some? ==>
        var s := e.handle.value.sequence;
        var pos := e.handle.value.pos;
        && st.seqs[s].satisfied[pos] == (e.calls + 1 >= e.times.min)
        && (forall j | 0 <= j < |seqs[s].satisfied| && j != pos :: st.seqs[s].satisfied[j] == seqs[s].satisfied[j])
        && (forall j | 0 <= j < pos :: st.seqs[s].Passed(j))
        && (st.seqs[s].Passed(pos) <==> Exhausted(e.times, e.calls + 1))
        && (forall j | pos < j :: !st.seqs[s].Passed(j))
  {
    ConsistentKnown(sets, seqs, m);
  }

  /** The only expectation of a method takes every call it matches, even
      once it is done: a call past its upper bound is counted and reported
      as over the bound, never as matching nothing. */
  lemma SoleExpectationTakesMatchingCalls(names: seq<string>, sets: seq<seq<Expectation>>, seqs: SeqMap, m: nat, args: seq<int>)
    requires Callable(names, sets, seqs, m)
    requires |sets[m]| == 1 && sets[m][0].handle.None? && Matches(sets[m][0].matcher, args)
    ensures Known(sets[m], seqs)
    ensures var e := sets[m][0]; var st := CallSpec(names, sets, seqs, m, args);
      && st.sets == sets[m := [e.(calls := e.calls + 1)]] && st.seqs == seqs
      && st.result == (if Within(e.times.max, e.calls + 1) then Reply(e, names[m], args)
                       else Err(CallCheck(names[m], Describe(e.matcher), e.times, e.calls + 1).value))
  {
    ConsistentKnown(sets, seqs, m);
    assert Candidate(sets[m], 0, args, seqs);
    assert sets[m][0 := sets[m][0].(calls := sets[m][0].calls + 1)] == [sets[m][0].(calls := sets[m][0].calls + 1)];
  }

  /** A `never()` expectation refuses a call only when it is its method's
      only expectation: otherwise it is done from the start, and a matching
      call passes over it to the next candidate, here a second expectation
      in no sequence that still has room, which answers the call. */
  lemma NeverIsSkippedWhenNotSole(names: seq<string>, sets: seq<seq<Expectation>>, seqs: SeqMap, m: nat, args: seq<int>)
    requires Callable(names, sets, seqs, m) && |sets[m]| == 2
    requires sets[m][0].times.max == Finite(0) && Matches(sets[m][0].matcher, args)
    requires Matches(sets[m][1].matcher, args) && sets[m][1].handle.None?
    requires Within(sets[m][1].times.max, sets[m][1].calls + 1)
    ensures Known(sets[m], seqs)
    ensures Select(sets[m], args, seqs) == Some(1)
    ensures CallSpec(names, sets, seqs, m, args).result == Reply(sets[m][1], names[m], args)
  {
    ConsistentKnown(sets, seqs, m);
    assert !Candidate(sets[m], 0, args, seqs) && Candidate(sets[m], 1, args, seqs);
  }

  /** A method whose expectations were all removed answers every call with
      "No matching expectation found". */
  lemma EmptyMethodMatchesNothing(names: seq<string>, sets: seq<seq<Expectation>>, seqs: SeqMap, m: nat, args: seq<int>)
    requires Callable(names, sets, seqs, m) && sets[m] == []
    ensures Known(sets[m], seqs)
    ensures CallSpec(names, sets, seqs, m, args) == Step(Err(NoMatch(names[m], args)), sets, seqs)
  {
    NoMatchIffNoCandidate(names, sets, seqs, m, args);
  }

  /** A method's scan passes when every one of its counts is in range. */
  lemma {:induction false} AuditFromPasses(name: string, es: seq<Expectation>, k: nat)
    requires k <= |es|
    requires forall j | k <= j < |es| :: Allows(es[j].times, es[j].calls)
    ensures AuditFrom(name, es, k) == Pass
    decreases |es| - k
  {
    if k < |es| {
      AuditFromPasses(name, es, k + 1);
    }
  }

  /** The scan over the methods passes when every count is in range. */
  lemma {:induction false} AuditMethodsPasses(names: seq<string>, sets: seq<seq<Expectation>>, k: nat)
    requires k <= |sets| == |names|
    requires forall m, j | k <= m < |sets| && 0 <= j < |sets[m]| :: Allows(sets[m][j].times, sets[m][j].calls)
    ensures AuditMethods(names, sets, k) == Pass
    decreases |sets| - k
  {
    if k < |sets| {
      AuditFromPasses(names[k], sets[k], 0);
      AuditMethodsPasses(names, sets, k + 1);
    }
  }

  /** A method's scan passes only when all its counts are in range. */
  lemma {:induction false} AuditFromPassesOnlyInRange(name: string, es: seq<Expectation>, k: nat)
    requires k <= |es| && AuditFrom(name, es, k) == Pass
    ensures forall j | k <= j < |es| :: Allows(es[j].times, es[j].calls)
    decreases |es| - k
  {
    if k < |es| {
      AuditFromPassesOnlyInRange(name, es, k + 1);
    }
  }

  /** The scan over the methods passes only when all counts are in range. */
  lemma {:induction false} AuditMethodsPassesOnlyInRange(names: seq<string>, sets: seq<seq<Expectation>>, k: nat)
    requires k <= |sets| == |names| && AuditMethods(names, sets, k) == Pass
    ensures forall m, j | k <= m < |sets| && 0 <= j < |sets[m]| :: Allows(sets[m][j].times, sets[m][j].calls)
    decreases |sets| - k
  {
    if k < |sets| {
      AuditFromPassesOnlyInRange(names[k], sets[k], 0);
      AuditMethodsPassesOnlyInRange(names, sets, k + 1);
    }
  }

  /** The scan made at a checkpoint or drop, method by method and oldest
      expectation first, is the check itself, and it passes exactly when
      every count is in range: a checkpoint or drop fails whenever some
      count is out of range. */
  lemma ScanIsAudit(names: seq<string>, sets: seq<seq<Expectation>>)
    requires |sets| == |names|
    ensures AuditMethods(names, sets, 0) == Audit(names, sets)
    ensures Audit(names, sets) == Pass <==> AllInRange(sets)
  {
    if AllInRange(sets) {
      AuditMethodsPasses(names, sets, 0);
    } else if AuditMethods(names, sets, 0) == Pass {
      AuditMethodsPassesOnlyInRange(names, sets, 0);
      assert false;
    }
  }

  /** A method's scan stops at the first count out of range. */
  lemma {:induction false} AuditFromStops(name: string, es: seq<Expectation>, k: nat, i: nat)
    requires k <= i < |es| && !Allows(es[i].times, es[i].calls)
    requires forall j | k <= j < i :: Allows(es[j].times, es[j].calls)
    ensures AuditFrom(name, es, k) == Fail(Verdict(name, es[i]).value)
    decreases i - k
  {
    if k < i {
      AuditFromStops(name, es, k + 1, i);
    }
  }

  /** The scan over the methods stops at the first method whose own scan
      fails. */
  lemma {:induction false} AuditMethodsStops(names: seq<string>, sets: seq<seq<Expectation>>, k: nat, m: nat)
    requires k <= m < |sets| == |names|
    requires forall p | k <= p < m :: AuditFrom(names[p], sets[p], 0) == Pass
    requires AuditFrom(names[m], sets[m], 0).Fail?
    ensures AuditMethods(names, sets, k) == AuditFrom(names[m], sets[m], 0)
    decreases m - k
  {
    if k < m {
      AuditMethodsStops(names, sets, k + 1, m);
    }
  }

  /** When the check fails it reports the first offending expectation:
      the one at `(m, i)` when every expectation of an earlier method, and
      every older one of the same method, is in range. */
  lemma AuditReportsFirstOffender(names: seq<string>, sets: seq<seq<Expectation>>, m: nat, i: nat)
    requires |sets| == |names| && m < |sets| && i < |sets[m]|
    requires !Allows(sets[m][i].times, sets[m][i].calls)
    requires forall p, j | 0 <= p < m && 0 <= j < |sets[p]| :: Allows(sets[p][j].times, sets[p][j].calls)
    requires forall j | 0 <= j < i :: Allows(sets[m][j].times, sets[m][j].calls)
    ensures Audit(names, sets) == Fail(Verdict(names[m], sets[m][i]).value)
  {
    forall p | 0 <= p < m
      ensures AuditFrom(names[p], sets[p], 0) == Pass
    {
      AuditFromPasses(names[p], sets[p], 0);
    }
    AuditFromStops(names[m], sets[m], 0, i);
    AuditMethodsStops(names, sets, 0, m);
  }
}
