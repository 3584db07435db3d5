/**
 The `useSidecarPort` hook as the object its effect mutates: the closure
 variables and the state cells are fields, one run of `pollForPort` is the
 method `PollStep`, the effect's cleanup is `Unmount`, and the event loop that
 keeps delivering the rescheduled callbacks is `RunEvents`.  Each method is
 tied to the pure session machine of `PollSession`, whose properties are
 proved in `PollProperties`.
 */
module SidecarPortHook {
  import opened Options
  import opened PollSession

  class PortPoller {
    // closure variables of the effect
    var attempts: nat
    var mounted: bool
    // a `pollForPort` run is due: the effect's first call, or the armed 500 ms timer
    var scheduled: bool
    // React state cells
    var sidecarPort: Option<int>
    var isLoading: bool
    var error: Option<string>

    /** The fields as a session value. */
    function Snapshot(): Session
      reads this
    {
      Session(attempts, mounted, scheduled, sidecarPort, isLoading, error)
    }

    predicate Valid()
      reads this
    {
      Snapshot().Valid()
    }

    /** The derived `isReady` flag of the hook's return value. */
    function IsReady(): (b: bool)
      reads this
      requires Valid()
      ensures b <==> sidecarPort.Some?
      ensures b ==> sidecarPort.value > 0 && !isLoading && error.None?
      ensures !b ==> isLoading || error == Some(TimeoutMessage)
    {
      Snapshot().IsReady()
    }

    /** First render (the three state cells) and the start of the effect. */
    constructor ()
      ensures Snapshot() == Init() && Valid()
      ensures sidecarPort.None? && isLoading && error.None? && !IsReady()
    {
      sidecarPort, isLoading, error := None, true, None;
      mounted, attempts := true, 0;
      scheduled := true;
    }

    /** One run of `pollForPort`; `result` is what the host query answers if it is issued. */
    method PollStep(result: QueryResult) returns (queried: bool)
      requires Valid() && scheduled
      modifies this
      ensures queried == Issues(old(Snapshot()), Fire(result))
      ensures Snapshot() == Step(old(Snapshot()), Fire(result))
      ensures Valid()
    {
      scheduled := false;
      if !mounted || attempts >= MaxAttempts {
        if attempts >= MaxAttempts && mounted {
          error := Some(TimeoutMessage);
          isLoading := false;
        }
        return false;
      }
      queried := true;
      match result {
        case Threw =>
          // the catch branch only logs
        case Absent =>
        case Value(port) =>
          if port != 0 && port > 0 && mounted {
            sidecarPort := Some(port);
            isLoading := false;
            error := None;
            return;
          }
      }
      attempts := attempts + 1;
      scheduled := true;
    }

    /** The effect's cleanup. */
    method Unmount()
      requires Valid()
      modifies this
      ensures !mounted
      ensures attempts == old(attempts) && scheduled == old(scheduled)
      ensures sidecarPort == old(sidecarPort) && isLoading == old(isLoading) && error == old(error)
      ensures Snapshot() == Step(old(Snapshot()), Event.Unmount)
      ensures Valid()
    {
      mounted := false;
    }

    /** The event loop: callbacks fire while one is pending, interleaved with the cleanup. */
    method RunEvents(events: seq<Event>) returns (queries: nat)
      requires Valid()
      modifies this
      ensures Snapshot() == Run(old(Snapshot()), events)
      ensures queries == Queries(old(Snapshot()), events)
      ensures Valid()
    {
      queries := 0;
      var i := 0;
      while i < |events|
        invariant 0 <= i <= |events|
        invariant Valid()
        invariant Run(Snapshot(), events[i..]) == Run(old(Snapshot()), events)
        invariant queries + Queries(Snapshot(), events[i..]) == Queries(old(Snapshot()), events)
      {
        assert events[i..][0] == events[i] && events[i..][1..] == events[i + 1..];
        match events[i] {
          case Fire(r) =>
            if scheduled {
              var q := PollStep(r);
              if q {
                queries := queries + 1;
              }
            }
          case Unmount =>
            Unmount();
        }
        i := i + 1;
      }
    }
  }

  /** The sidecar answers on the second query: the hook becomes ready with that port. */
  method SecondQueryFindsPort() returns (port: Option<int>, ready: bool, queries: nat)
    ensures port == Some(54321) && ready && queries == 2
  {
    var p := new PortPoller();
    var q1 := p.PollStep(Absent);
    var q2 := p.PollStep(Value(54321));
    port, ready := p.sidecarPort, p.IsReady();
    queries := (if q1 then 1 else 0) + (if q2 then 1 else 0);
  }

  /** The sidecar never answers: thirty queries, then the timeout error, even if a port shows up late. */
  method NeverAnswers() returns (error: Option<string>, loading: bool, queries: nat)
    ensures error == Some(TimeoutMessage) && !loading && queries == MaxAttempts
  {
    var p := new PortPoller();
    queries := 0;
    while p.attempts < MaxAttempts
      invariant p.attempts <= MaxAttempts
      invariant p.Snapshot() == Init().(attempts := p.attempts)
      invariant queries == p.attempts
      decreases MaxAttempts - p.attempts
    {
      var q := p.PollStep(Threw);
      queries := queries + (if q then 1 else 0);
    }
    var late := p.PollStep(Value(54321));
    queries := queries + (if late then 1 else 0);
    error, loading := p.error, p.isLoading;
  }
}
