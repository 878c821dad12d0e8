/** Values shared by every part of the expectation engine: optional values,
    the structured failure reports and the results of calls and checks. */
module Outcomes {

  datatype Option<+T> = None | Some(value: T)

  /** How a matcher is shown in a failure report: `<anything>`, `var == 5`,
      or a user closure. */
  datatype Repr = Anything | Equals(values: seq<int>) | Closure

  /** A failure report. `name` is the qualified method name, as in
      `MockFoo::bar`; the message shape each constructor stands for is given
      beside it. */
  datatype MockError =
      // "<name>(<args>): No matching expectation found"
    | NoMatch(name: string, args: seq<int>)
      // "<name>(<args>): Method sequence violation"
    | SequenceViolation(name: string, args: seq<int>)
      // "<name>: Expectation(<matcher>) should not have been called"
    | NotCalled(name: string, matcher: Repr)
      // "<name>: Expectation(<matcher>) called <calls> times which is more than the expected <max>"
    | OverCount(name: string, matcher: Repr, calls: nat, max: nat)
      // "<name>: Expectation(<matcher>) Returning default values requires ..."
    | MissingDefault(name: string, matcher: Repr)
      // "<name>: Expectation(<matcher>) called <calls> time(s) which is fewer than expected <min>"
    | TooFew(name: string, matcher: Repr, calls: nat, min: nat)
      // "<name>: Expectation(<matcher>) called <calls> time(s) which is more than expected <max>"
    | TooMany(name: string, matcher: Repr, calls: nat, max: nat)
      // "Backwards range": a `times` range that holds no count at all
    | BackwardsRange

  /** The outcome of a call on a mocked method: its return value or a failure. */
  datatype Result<+T> = Ok(value: T) | Err(error: MockError)

  /** The outcome of a step that returns nothing (registration, checkpoint, drop). */
  datatype Outcome = Pass | Fail(error: MockError)
}
