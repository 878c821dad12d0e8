/** A mock object: one list of expectations per mocked method, changed in
    place by registration, by every call and by `checkpoint`. The code
    generator that produces a mock type for an interface is not modelled; a
    `Mock` is built from the qualified names of the methods it mocks. */
module Mocks {
  import opened Outcomes
  import opened Counts
  import opened Matching
  import opened Sequencing
  import opened Expectations
  import opened EngineLaws

  class Mock {
    /** Qualified names of the mocked methods, in declaration order. */
    const names: seq<string>
    /** The expectations of each method, oldest first. */
    var sets: seq<seq<Expectation>>
    /** The sequences some expectation of this mock joined, with their
        states. */
    ghost var seqs: SeqMap

    ghost predicate Valid()
      reads this, seqs.Keys
    {
      && |sets| == |names|
      && Consistent(sets, seqs)
      && forall s | s in seqs :: s.state == seqs[s]
    }

    constructor (names: seq<string>)
      ensures Valid() && this.names == names && seqs == map[]
      ensures sets == NoExpectations(|names|)
    {
      this.names := names;
      sets := NoExpectations(|names|);
      seqs := map[];
    }

    /** `expect_m()` followed by the builder calls in `b`: appends the
        expectation to method `m`'s list, joining its sequence if it names
        one, or refuses a `times` range that holds no count. */
    method Expect(m: nat, b: Builder) returns (o: Outcome)
      requires Valid() && m < |names|
      requires b.inSequence.Some? ==> b.inSequence.value.Valid()
      modifies this, if b.inSequence.Some? then {b.inSequence.value} else {}
      ensures Valid()
      ensures var r := Register(old(sets), old(seqs), m, b,
          if b.inSequence.Some? then old(b.inSequence.value.state) else SeqState([], 0));
        o == r.outcome && sets == r.sets && seqs == r.seqs
      ensures o.Fail? && b.inSequence.Some? ==> b.inSequence.value.state == old(b.inSequence.value.state)
    {
      var t := Normalize(b.times);
      if t.None? {
        return Fail(BackwardsRange);
      }
      var pos := 0;
      if b.inSequence.Some? {
        var s := b.inSequence.value;
        ghost var st0 := s.state;
        RegisterKeepsConsistent(sets, seqs, m, b, st0);
        pos := s.NextHandle(t.value.min > 0);
        seqs := seqs[s := s.state];
      } else {
        RegisterKeepsConsistent(sets, seqs, m, b, SeqState([], 0));
      }
      sets := sets[m := sets[m] + [Fresh(b, t.value, pos)]];
      o := Pass;
    }

    /** The resolution scan: the oldest expectation of method `m` that
        matches `args` and is not done (or is the method's only one). */
    method Find(m: nat, args: seq<int>) returns (found: Option<nat>)
      requires Valid() && m < |names|
      ensures Known(sets[m], seqs)
      ensures found == Select(sets[m], args, seqs)
    {
      ConsistentKnown(sets, seqs, m);
      var es := sets[m];
      var k := 0;
      while k < |es|
        invariant k <= |es|
        invariant Select(es, args, seqs) == SelectFrom(es, args, seqs, k)
      {
        var e := es[k];
        var done := Exhausted(e.times, e.calls) ||
          (e.handle.Some? && e.handle.value.sequence.state.Passed(e.handle.value.pos));
        if Matches(e.matcher, args) && (!done || |es| == 1) {
          return Some(k);
        }
        k := k + 1;
      }
      return None;
    }

    /** A call of method `m` with `args`, as `CallSpec` describes it. */
    method Call(m: nat, args: seq<int>) returns (r: Result<int>)
      requires Valid() && m < |names|
      modifies this, seqs.Keys
      ensures Known(old(sets)[m], old(seqs))
      ensures Valid()
      ensures var st := CallSpec(names, old(sets), old(seqs), m, args);
        r == st.result && sets == st.sets && seqs == st.seqs
    {
      CallKeepsConsistent(names, sets, seqs, m, args);
      var found := Find(m, args);
      if found.None? {
        return Err(NoMatch(names[m], args));
      }
      var i := found.value;
      var e := sets[m][i];
      if e.handle.Some? && !e.handle.value.sequence.state.Eligible(e.handle.value.pos) {
        return Err(SequenceViolation(names[m], args));
      }
      var n := e.calls + 1;
      sets := sets[m := sets[m][i := e.(calls := n)]];
      var verdict := CallCheck(names[m], Describe(e.matcher), e.times, n);
      if verdict.Some? {
        return Err(verdict.value);
      }
      if e.handle.Some? {
        var h := e.handle.value;
        h.sequence.Satisfy(h.pos, n >= e.times.min, Exhausted(e.times, n));
        seqs := seqs[h.sequence := h.sequence.state];
      }
      r := Reply(e, names[m], args);
    }

    /** The check made when the mock is dropped: every remaining expectation's
        count must lie in its range. */
    method Drop() returns (o: Outcome)
      requires Valid()
      ensures o == Audit(names, sets)
    {
      var m := 0;
      while m < |sets|
        invariant m <= |sets|
        invariant forall p, j | 0 <= p < m && 0 <= j < |sets[p]| :: Allows(sets[p][j].times, sets[p][j].calls)
      {
        var es := sets[m];
        var i := 0;
        while i < |es|
          invariant i <= |es|
          invariant forall j | 0 <= j < i :: Allows(es[j].times, es[j].calls)
        {
          var v := Verdict(names[m], es[i]);
          if v.Some? {
            AuditReportsFirstOffender(names, sets, m, i);
            return Fail(v.value);
          }
          i := i + 1;
        }
        m := m + 1;
      }
      return Pass;
    }

    /** `checkpoint()`: the same check as at drop; when it passes, every
        expectation is removed, so later calls find none until new ones are
        registered. */
    method Checkpoint() returns (o: Outcome)
      requires Valid()
      modifies this
      ensures Valid() && seqs == old(seqs)
      ensures o == Audit(names, old(sets))
      ensures o.Pass? ==> sets == NoExpectations(|names|)
      ensures o.Fail? ==> sets == old(sets)
    {
      o := Drop();
      if o.Pass? {
        sets := NoExpectations(|names|);
      }
    }
  }
}
