/** Argument matchers: the match-all matcher of an expectation on which
    `with` was never called (rendered `<anything>`; the model maps
    `predicate::always()` to it too), `with(predicate::eq(..))` and
    `withf(closure)`. A matcher is stateless and judged afresh at every
    call. */
module Matching {
  import opened Outcomes

  datatype Matcher = Always | Eq(values: seq<int>) | Pred(accepts: seq<int> -> bool)

  /** Whether the matcher accepts the argument tuple of a call. */
  predicate Matches(m: Matcher, args: seq<int>) {
    match m
    case Always => true
    case Eq(values) => args == values
    case Pred(accepts) => accepts(args)
  }

  /** How the matcher is named in a failure report. */
  function Describe(m: Matcher): (r: Repr)
    ensures r == Anything <==> m.Always?
    ensures r.Equals? <==> m.Eq?
    ensures m.Eq? ==> r.values == m.values
  {
    match m
    case Always => Anything
    case Eq(values) => Equals(values)
    case Pred(_) => Closure
  }
}
