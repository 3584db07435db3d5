/**
 What the discovery session promises over whole sequences of events: the
 attempt budget bounds the queries, an outcome is final, unmount silences the
 loop, every failed attempt looks alike, and the loop always settles.
 */
module PollProperties {
  import opened Options
  import opened PollSession

  /** The host queries a session may still issue. */
  function Budget(s: Session): int {
    if s.mounted && s.scheduled then MaxAttempts - s.attempts else 0
  }

  /** Every event is a callback whose query gives no usable port. */
  predicate FailingFires(evs: seq<Event>) {
    forall i | 0 <= i < |evs| :: evs[i].Fire? && !Accepted(evs[i].result)
  }

  /** Every event is a callback: the consumer stays mounted. */
  predicate OnlyFires(evs: seq<Event>) {
    forall i | 0 <= i < |evs| :: evs[i].Fire?
  }

  /** An event with every unusable answer replaced by a thrown query. */
  function Canonical(e: Event): Event {
    if e.Fire? && !Accepted(e.result) then Fire(Threw) else e
  }

  function Normalize(evs: seq<Event>): (out: seq<Event>)
    decreases |evs|
    ensures |out| == |evs|
  {
    if evs == [] then [] else [Canonical(evs[0])] + Normalize(evs[1..])
  }

  /** Running two sequences of events one after the other. */
  lemma {:induction false} RunAppend(s: Session, a: seq<Event>, b: seq<Event>)
    ensures Run(s, a + b) == Run(Run(s, a), b)
    ensures Queries(s, a + b) == Queries(s, a) + Queries(Run(s, a), b)
    decreases |a|
  {
    if a != [] {
      assert (a + b)[0] == a[0];
      assert (a + b)[1..] == a[1..] + b;
      RunAppend(Step(s, a[0]), a[1..], b);
    } else {
      assert a + b == b;
    }
  }

  /** However the events interleave, no more queries are issued than the budget left. */
  lemma {:induction false} QueriesWithinBudget(s: Session, evs: seq<Event>)
    requires s.Valid()
    ensures Queries(s, evs) <= Budget(s)
    decreases |evs|
  {
    if evs != [] {
      QueriesWithinBudget(Step(s, evs[0]), evs[1..]);
    }
  }

  /** At most thirty queries are issued per mount. */
  lemma AtMostThirtyQueries(evs: seq<Event>)
    ensures Queries(Init(), evs) <= MaxAttempts
  {
    QueriesWithinBudget(Init(), evs);
  }

  /** Every query is either one counted attempt or the one that found the port. */
  lemma {:induction false} QueriesCountAttempts(s: Session, evs: seq<Event>)
    requires s.Valid()
    ensures var t := Run(s, evs);
      Queries(s, evs) == (t.attempts - s.attempts) + (if s.sidecarPort.None? && t.sidecarPort.Some? then 1 else 0)
    decreases |evs|
  {
    if evs != [] {
      var s' := Step(s, evs[0]);
      QueriesCountAttempts(s', evs[1..]);
      if s'.sidecarPort.Some? {
        FinalIsStable(s', evs[1..]);
      }
    }
  }

  /** Once there is a port or a timeout, nothing visible changes and nothing is queried. */
  lemma {:induction false} FinalIsStable(s: Session, evs: seq<Event>)
    requires s.Valid() && s.Final()
    ensures Run(s, evs).Visible() == s.Visible()
    ensures Run(s, evs).attempts == s.attempts
    ensures Queries(s, evs) == 0
    decreases |evs|
  {
    if evs != [] {
      FinalIsStable(Step(s, evs[0]), evs[1..]);
    }
  }

  /** After unmount no callback queries the host or touches a state cell. */
  lemma {:induction false} UnmountedIsInert(s: Session, evs: seq<Event>)
    requires !s.mounted
    ensures Run(s, evs).Visible() == s.Visible()
    ensures Run(s, evs).attempts == s.attempts
    ensures Queries(s, evs) == 0
    decreases |evs|
  {
    if evs != [] {
      UnmountedIsInert(Step(s, evs[0]), evs[1..]);
    }
  }

  /** Cancelling between two attempts: no later attempt is observed. */
  lemma CancellationIsPrompt(s: Session, evs: seq<Event>)
    ensures Run(s, [Unmount] + evs).Visible() == s.Visible()
    ensures Queries(s, [Unmount] + evs) == 0
  {
    assert ([Unmount] + evs)[1..] == evs;
    UnmountedIsInert(Step(s, Unmount), evs);
  }

  /** A thrown query, a null answer and a non-positive port are the same "no port yet". */
  lemma {:induction false} FailuresLookAlike(s: Session, evs: seq<Event>)
    ensures Run(s, Normalize(evs)) == Run(s, evs)
    ensures Queries(s, Normalize(evs)) == Queries(s, evs)
    decreases |evs|
  {
    if evs != [] {
      var n := Normalize(evs);
      assert n[0] == Canonical(evs[0]) && n[1..] == Normalize(evs[1..]);
      assert Step(s, n[0]) == Step(s, evs[0]);
      FailuresLookAlike(Step(s, evs[0]), evs[1..]);
    }
  }

  /** Failed attempts only count: the state cells stay loading and one retry stays pending. */
  lemma {:induction false} FailingRun(s: Session, evs: seq<Event>)
    requires s.Valid() && s.mounted && s.isLoading
    requires FailingFires(evs) && s.attempts + |evs| <= MaxAttempts
    ensures Run(s, evs) == s.(attempts := s.attempts + |evs|)
    ensures Queries(s, evs) == |evs|
    decreases |evs|
  {
    if evs != [] {
      assert evs[0].Fire? && !Accepted(evs[0].result);
      var s' := Step(s, evs[0]);
      assert s' == s.(attempts := s.attempts + 1);
      assert FailingFires(evs[1..]) by {
        forall i | 0 <= i < |evs[1..]| ensures evs[1..][i].Fire? && !Accepted(evs[1..][i].result) {
          assert evs[1..][i] == evs[i + 1];
        }
      }
      FailingRun(s', evs[1..]);
    }
  }

  /** While mounted, the loop reaches a port or the timeout within the budget's callbacks. */
  lemma {:induction false} SettlesWithinBudget(s: Session, evs: seq<Event>)
    requires s.Valid() && s.mounted
    requires OnlyFires(evs) && |evs| > MaxAttempts - s.attempts
    ensures Run(s, evs).Final()
    decreases |evs|
  {
    if s.Final() {
      FinalIsStable(s, evs);
    } else {
      var s' := Step(s, evs[0]);
      assert OnlyFires(evs[1..]) by {
        forall i | 0 <= i < |evs[1..]| ensures evs[1..][i].Fire? {
          assert evs[1..][i] == evs[i + 1];
        }
      }
      if s'.Final() {
        FinalIsStable(s', evs[1..]);
      } else {
        SettlesWithinBudget(s', evs[1..]);
      }
    }
  }

  /** Thirty failed queries, then the next callback raises the timeout without querying. */
  lemma TimeoutAfterThirtyFailures(evs: seq<Event>, r: QueryResult)
    requires FailingFires(evs) && |evs| == MaxAttempts
    ensures var t := Run(Init(), evs + [Fire(r)]);
      t.error == Some(TimeoutMessage) && !t.isLoading && t.sidecarPort.None? && !t.scheduled
    ensures Queries(Init(), evs + [Fire(r)]) == MaxAttempts
  {
    FailingRun(Init(), evs);
    RunAppend(Init(), evs, [Fire(r)]);
  }

  /** A positive answer after `k` failed attempts makes the session ready with that port. */
  lemma ReadyAfterFailures(evs: seq<Event>, port: int)
    requires FailingFires(evs) && |evs| < MaxAttempts && port > 0
    ensures var t := Run(Init(), evs + [Fire(Value(port))]);
      t.sidecarPort == Some(port) && t.IsReady() && t.attempts == |evs| && !t.scheduled
    ensures Queries(Init(), evs + [Fire(Value(port))]) == |evs| + 1
  {
    FailingRun(Init(), evs);
    RunAppend(Init(), evs, [Fire(Value(port))]);
  }
}
