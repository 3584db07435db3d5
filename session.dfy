/**
 The port-discovery session of the `useSidecarPort` hook, as a pure state
 machine.  One `Session` value holds the two closure variables of the effect
 (`attempts`, `isComponentMounted`), whether a `pollForPort` run is pending
 (the first call made by the effect, or the 500 ms timer it arms), and the
 three React state cells (`sidecarPort`, `isLoading`, `error`).

 Time is counted in callbacks, not in milliseconds: an `Event` is either the
 pending callback firing with the answer the host query gave, or the effect's
 cleanup running when the consumer unmounts.
 */
module PollSession {
  import opened Options

  /** The attempt budget of one mount: thirty tries, about fifteen seconds. */
  const MaxAttempts: nat := 30

  /** The error text the hook exposes when the budget runs out. */
  const TimeoutMessage: string := "Timeout: Sidecar não iniciou em tempo hábil"

  /** What one `invoke('get_sidecar_port')` call produced. */
  datatype QueryResult =
    | Threw             // the promise was rejected
    | Absent            // it resolved to null or undefined
    | Value(port: int)  // it resolved to a number

  /** The hook keeps a port only when the answer is truthy and positive. */
  predicate Accepted(r: QueryResult) {
    r.Value? && r.port != 0 && r.port > 0
  }

  datatype Event =
    | Fire(result: QueryResult)  // the pending callback runs; `result` is what the query would answer
    | Unmount                    // the effect's cleanup runs

  datatype Session = Session(
    attempts: nat,
    mounted: bool,
    scheduled: bool,
    sidecarPort: Option<int>,
    isLoading: bool,
    error: Option<string>)
  {
    /** The derived flag the hook returns next to its three state cells. */
    predicate IsReady() {
      sidecarPort.Some? && !isLoading && error.None?
    }

    /** The session has an outcome: a port or the timeout error. */
    predicate Final() {
      sidecarPort.Some? || error.Some?
    }

    /** What the consumer can observe: the three state cells. */
    function Visible(): (Option<int>, bool, Option<string>) {
      (sidecarPort, isLoading, error)
    }

    /** The invariant every reachable session keeps. */
    predicate Valid() {
      && attempts <= MaxAttempts
      // loading exactly while there is neither a port nor an error
      && (isLoading <==> sidecarPort.None? && error.None?)
      // a kept port is positive, was found within the budget and ends polling
      && (sidecarPort.Some? ==> sidecarPort.value > 0 && attempts < MaxAttempts && !scheduled)
      // the only error is the timeout, raised with the budget spent, and it ends polling
      && (error.Some? ==> error.value == TimeoutMessage && attempts == MaxAttempts && !scheduled)
      // a mounted session that is still loading always has a callback pending
      && (mounted && isLoading ==> scheduled)
    }
  }

  /** The state right after the hook's first render and the start of its effect. */
  function Init(): Session {
    Session(0, true, true, None, true, None)
  }

  /** Whether running `e` in `s` issues a host query. */
  predicate Issues(s: Session, e: Event) {
    e.Fire? && s.scheduled && s.mounted && s.attempts < MaxAttempts
  }

  /** One run of `pollForPort` whose host query (if it is issued) answers `r`. */
  function PollOnce(s: Session, r: QueryResult): Session {
    if !s.mounted || s.attempts >= MaxAttempts then
      if s.attempts >= MaxAttempts && s.mounted then
        s.(error := Some(TimeoutMessage), isLoading := false, scheduled := false)
      else
        s.(scheduled := false)
    else if Accepted(r) && s.mounted then
      s.(sidecarPort := Some(r.port), isLoading := false, error := None, scheduled := false)
    else
      s.(attempts := s.attempts + 1, scheduled := true)
  }

  /** One event: a callback fires only when one is pending. */
  function Step(s: Session, e: Event): (t: Session)
    ensures t.mounted == (s.mounted && !e.Unmount?)
    ensures s.Valid() ==> t.Valid()
    // `isLoading` is never set back to true
    ensures !s.isLoading ==> !t.isLoading
    // once there is an outcome, the visible state is frozen
    ensures s.Valid() && s.Final() ==> t.Visible() == s.Visible() && !t.scheduled
    // after unmount nothing visible changes and nothing new is scheduled
    ensures !s.mounted ==> t.Visible() == s.Visible() && t.attempts == s.attempts && !Issues(s, e)
    ensures !s.mounted && e.Fire? ==> !t.scheduled
    // a query that gives no usable port costs exactly one attempt and schedules one retry
    ensures Issues(s, e) && !Accepted(e.result) ==>
              t == s.(attempts := s.attempts + 1, scheduled := true)
    // a positive answer is kept, and polling stops
    ensures Issues(s, e) && Accepted(e.result) ==>
              t.sidecarPort == Some(e.result.port) && !t.isLoading && t.error.None? && !t.scheduled
              && t.attempts == s.attempts
    // with the budget spent, the pending callback raises the timeout instead of querying
    ensures e.Fire? && s.scheduled && s.mounted && s.attempts >= MaxAttempts ==>
              t.error == Some(TimeoutMessage) && !t.isLoading && !t.scheduled
              && t.sidecarPort == s.sidecarPort && t.attempts == s.attempts
  {
    match e
    case Fire(r) => if s.scheduled then PollOnce(s, r) else s
    case Unmount => s.(mounted := false)
  }

  /** The session after a sequence of events. */
  function Run(s: Session, evs: seq<Event>): (t: Session)
    decreases |evs|
    ensures s.Valid() ==> t.Valid()
    ensures !s.isLoading ==> !t.isLoading
    ensures t.mounted ==> s.mounted
    ensures s.attempts <= t.attempts
  {
    if evs == [] then s else Run(Step(s, evs[0]), evs[1..])
  }

  /** The number of host queries issued along a sequence of events. */
  function Queries(s: Session, evs: seq<Event>): (n: nat)
    decreases |evs|
    ensures n <= |evs|
  {
    if evs == [] then 0
    else (if Issues(s, evs[0]) then 1 else 0) + Queries(Step(s, evs[0]), evs[1..])
  }
}
