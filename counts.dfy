/** Call-count ranges: what `times(..)` and `never()` accept, the range an
    expectation keeps, and how a count is judged at a call and at a check. */
module Counts {
  import opened Outcomes

  /** An upper bound on calls; `times(2..)` and the default have none. */
  datatype Bound = Finite(n: nat) | Unbounded

  /** The number of calls an expectation accepts: at least `min`, at most `max`. */
  datatype Times = Times(min: nat, max: Bound)

  /** The argument of `times`: a plain count `n` or one of Rust's ranges
      `lo..hi`, `..hi`, `lo..=hi`, `lo..` and `..`. */
  datatype TimesArg =
    | Exactly(n: nat)
    | Range(lo: nat, hi: nat)
    | RangeTo(hi: nat)
    | RangeInclusive(lo: nat, hi: nat)
    | RangeFrom(lo: nat)
    | RangeFull

  /** The range of an expectation on which `times` was never called. */
  const AnyCount: Times := Times(0, Unbounded)

  predicate Within(b: Bound, n: nat) {
    b.Unbounded? || n <= b.n
  }

  /** `n` calls in total satisfy `t`. */
  predicate Allows(t: Times, n: nat) {
    t.min <= n && Within(t.max, n)
  }

  /** A range that some count satisfies. */
  predicate WellFormed(t: Times) {
    Within(t.max, t.min)
  }

  /** The counts a `times` argument names, read as Rust reads the range. */
  predicate Contains(arg: TimesArg, n: nat) {
    match arg
    case Exactly(k) => n == k
    case Range(lo, hi) => lo <= n < hi
    case RangeTo(hi) => n < hi
    case RangeInclusive(lo, hi) => lo <= n <= hi
    case RangeFrom(lo) => lo <= n
    case RangeFull => true
  }

  /** The range an expectation keeps for a `times` argument, or None for a
      range that holds no count (the source refuses it as a backwards range). */
  function Normalize(arg: TimesArg): (t: Option<Times>)
    ensures t.Some? ==> WellFormed(t.value)
  {
    match arg
    case Exactly(k) => Some(Times(k, Finite(k)))
    case Range(lo, hi) => if lo < hi then Some(Times(lo, Finite(hi - 1))) else None
    case RangeTo(hi) => if 0 < hi then Some(Times(0, Finite(hi - 1))) else None
    case RangeInclusive(lo, hi) => if lo <= hi then Some(Times(lo, Finite(hi))) else None
    case RangeFrom(lo) => Some(Times(lo, Unbounded))
    case RangeFull => Some(AnyCount)
  }

  /** The kept range accepts exactly the counts the argument names. */
  lemma NormalizeAllows(arg: TimesArg, n: nat)
    requires Normalize(arg).Some?
    ensures Allows(Normalize(arg).value, n) <==> Contains(arg, n)
  {
  }

  /** Normalization refuses an argument exactly when it names no count. */
  lemma NormalizeRefusesOnlyEmpty(arg: TimesArg)
    ensures Normalize(arg).None? <==> forall n: nat :: !Contains(arg, n)
  {
    match arg
    case Exactly(k) =>
      assert Contains(arg, k);
    case Range(lo, hi) =>
      if lo < hi { assert Contains(arg, lo); }
    case RangeTo(hi) =>
      if 0 < hi { assert Contains(arg, 0); }
    case RangeInclusive(lo, hi) =>
      if lo <= hi { assert Contains(arg, lo); }
    case RangeFrom(lo) =>
      assert Contains(arg, lo);
    case RangeFull =>
      assert Contains(arg, 0);
  }

  /** An expectation that already has `calls` calls is exhausted: no further
      call fits in its range. */
  predicate Exhausted(t: Times, calls: nat) {
    t.max.Finite? && calls >= t.max.n
  }

  /** Exhausted means exactly that one more call would go over the upper bound. */
  lemma ExhaustedIffNextExceeds(t: Times, calls: nat)
    ensures Exhausted(t, calls) <==> !Within(t.max, calls + 1)
  {
  }

  /** The judgement at a call, where `n` counts this call too: None while `n`
      is within the upper bound, otherwise "should not have been called" for a
      `never()` range and "called n times which is more than the expected max"
      for any other. */
  function CallCheck(name: string, matcher: Repr, t: Times, n: nat): (r: Option<MockError>)
    ensures r.None? <==> Within(t.max, n)
    ensures r.Some? && t.max == Finite(0) ==> r.value == NotCalled(name, matcher)
    ensures r.Some? && t.max != Finite(0) ==> r.value == OverCount(name, matcher, n, t.max.n) && n > t.max.n > 0
  {
    if Within(t.max, n) then None
    else if t.max.n == 0 then Some(NotCalled(name, matcher))
    else Some(OverCount(name, matcher, n, t.max.n))
  }

  /** The judgement at a checkpoint or when the mock is dropped: None when
      `calls` satisfies the range; otherwise the lower bound is reported
      before the upper one. */
  function AuditCount(name: string, matcher: Repr, t: Times, calls: nat): (r: Option<MockError>)
    ensures r.None? <==> Allows(t, calls)
    ensures calls < t.min ==> r == Some(TooFew(name, matcher, calls, t.min))
    ensures t.min <= calls && !Within(t.max, calls) ==> r == Some(TooMany(name, matcher, calls, t.max.n))
  {
    if calls < t.min then Some(TooFew(name, matcher, calls, t.min))
    else if !Within(t.max, calls) then Some(TooMany(name, matcher, calls, t.max.n))
    else None
  }

  /** The counter is bumped even by the call that goes over the bound, so a
      later check of that count reports it as too many. */
  lemma RejectedCallIsAuditedAsTooMany(name: string, matcher: Repr, t: Times, calls: nat)
    requires WellFormed(t) && CallCheck(name, matcher, t, calls + 1).Some?
    ensures AuditCount(name, matcher, t, calls + 1) == Some(TooMany(name, matcher, calls + 1, t.max.n))
  {
  }
}
