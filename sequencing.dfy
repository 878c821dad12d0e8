/** Sequences: an ordering shared by expectations of possibly many methods.
    A sequence keeps one slot per participant, in the order `in_sequence`
    added them, and a cursor, the first participant not yet passed. */
module Sequencing {

  /** The shared state of one sequence. `satisfied[j]` says whether participant
      `j` has reached the minimum of its call range (true from the start for a
      participant whose minimum is 0, so that it may be skipped). */
  datatype SeqState = SeqState(satisfied: seq<bool>, cursor: nat) {

    predicate Valid() {
      cursor <= |satisfied|
    }

    /** Participant `pos` has been passed: a later participant was called, or
        it reached its maximum. */
    predicate Passed(pos: nat) {
      pos < cursor
    }

    /** Participant `pos` may be called now: it has not been passed, and every
        participant from the cursor up to it has reached its minimum. */
    predicate Eligible(pos: nat) {
      cursor <= pos < |satisfied| && forall j | cursor <= j < pos :: satisfied[j]
    }

    /** Adds a participant at the end; `required` is true when its minimum is
        above 0. */
    function Join(required: bool): (r: SeqState)
      requires Valid()
      ensures r.Valid() && r.cursor == cursor
      ensures |r.satisfied| == |satisfied| + 1 && r.satisfied[..|satisfied|] == satisfied
      ensures r.satisfied[|satisfied|] == !required
    {
      SeqState(satisfied + [!required], cursor)
    }

    /** The state after an accepted call to participant `pos`: its slot now
        says whether it has reached its minimum, every earlier participant is
        passed, so is `pos` itself once it has reached its maximum, and no
        later participant is. */
    function Record(pos: nat, reachedMin: bool, exhausted: bool): (r: SeqState)
      requires Valid() && Eligible(pos)
      ensures r.Valid() && |r.satisfied| == |satisfied|
      ensures r.satisfied[pos] == reachedMin
      ensures forall j | 0 <= j < |satisfied| && j != pos :: r.satisfied[j] == satisfied[j]
      ensures cursor <= r.cursor
      ensures forall j | 0 <= j < pos :: r.Passed(j)
      ensures r.Passed(pos) <==> exhausted
      ensures forall j | pos < j :: !r.Passed(j)
    {
      SeqState(satisfied[pos := reachedMin], if exhausted then pos + 1 else pos)
    }
  }

  /** A sequence object, shared by reference among the expectations that
      joined it and changed by whichever of them accepts a call. */
  class Sequence {
    var state: SeqState

    ghost predicate Valid()
      reads this
    {
      state.Valid()
    }

    constructor ()
      ensures Valid() && state == SeqState([], 0)
    {
      state := SeqState([], 0);
    }

    /** `in_sequence`: gives the next position to a new participant. */
    method NextHandle(required: bool) returns (pos: nat)
      requires Valid()
      modifies this
      ensures Valid()
      ensures pos == |old(state.satisfied)| && state == old(state).Join(required)
    {
      pos := |state.satisfied|;
      state := state.Join(required);
    }

    /** Records an accepted call to participant `pos`. */
    method Satisfy(pos: nat, reachedMin: bool, exhausted: bool)
      requires Valid() && state.Eligible(pos)
      modifies this
      ensures Valid()
      ensures state == old(state).Record(pos, reachedMin, exhausted)
    {
      state := state.Record(pos, reachedMin, exhausted);
    }
  }
}
