/** How many attempts of one activity a run of the table launches. */
module LaunchCounts {
  import opened Prelude
  import opened Retry
  import opened ActivityMachine
  import opened ActivityProofs
  import ActivityBudget
  import ActivityLimits

  /** The attempt numbers launched for one activity, in order. */
  function Launched(launches: seq<Launch>, s: nat): seq<nat> {
    if launches == [] then []
    else
      var last := launches[|launches| - 1];
      Launched(launches[..|launches| - 1], s) + if last.seq_ == s then [last.exec.attempt] else []
  }

  ghost predicate SameRecord(e: Exec, e': Exec) {
    e'.attempt == e.attempt && e'.request == e.request
  }

  /** The launches of an activity carry its request and ascending attempt numbers. */
  ghost predicate Ordered(launches: seq<Launch>) {
    forall i, j :: 0 <= i < j < |launches| && launches[i].seq_ == launches[j].seq_ ==>
      launches[i].exec.attempt < launches[j].exec.attempt && launches[i].exec.request == launches[j].exec.request
  }

  /** ...none of an activity still to be dispatched, none beyond the open record's. */
  ghost predicate Numbered(t: Table) {
    && Ordered(t.launches)
    && (forall l <- t.launches :: l.seq_ < t.next && l.seq_ !in t.commands && l.exec.attempt >= 1)
    && (forall l <- t.launches :: l.seq_ in t.pending ==>
          l.exec.attempt <= t.pending[l.seq_].attempt && l.exec.request == t.pending[l.seq_].request)
  }

  /** No launch, no attempt counted, and what is new is numbered anew. */
  ghost predicate Still(t: Table, t': Table) {
    && t'.launches == t.launches && t.next <= t'.next
    && (forall c <- t'.commands :: c in t.commands || c >= t.next)
    && (forall s <- t'.pending :: s >= t.next || (s in t.pending && SameRecord(t.pending[s], t'.pending[s])))
  }

  lemma StillNumbered(t: Table, t': Table)
    requires Numbered(t) && Still(t, t')
    ensures Numbered(t')
  {
  }

  /** A launch from u, which has counted one attempt more than t's launches of it. */
  lemma LaunchNumbered(t: Table, u: Table, s: nat)
    requires Numbered(t) && Still(t.(pending := t.pending - {s}), u.(pending := u.pending - {s}))
    requires s in u.pending && s < u.next && s !in u.commands && u.pending[s].attempt >= 1
    requires forall l <- t.launches :: l.seq_ == s ==>
        l.exec.attempt < u.pending[s].attempt && l.exec.request == u.pending[s].request
    ensures Numbered(LaunchAttempt(u, s))
  {
    var t' := LaunchAttempt(u, s);
    var l := t'.launches[|t.launches|];
    assert t'.launches == t.launches + [l] && l.seq_ == s && SameRecord(u.pending[s], l.exec);
    assert forall m <- t'.launches :: m in t.launches || m == l;
    forall m | m in t.launches && m.seq_ in t'.pending
      ensures m.exec.attempt <= t'.pending[m.seq_].attempt && m.exec.request == t'.pending[m.seq_].request
    {
      if m.seq_ != s {
        assert m.seq_ in u.pending - {s};
      }
    }
    forall i, j | 0 <= i < j < |t'.launches| && t'.launches[i].seq_ == t'.launches[j].seq_
      ensures t'.launches[i].exec.attempt < t'.launches[j].exec.attempt
      ensures t'.launches[i].exec.request == t'.launches[j].exec.request
    {
      assert t'.launches[i] == t.launches[i] && t.launches[i] in t.launches;
      if j < |t.launches| {
        assert t'.launches[j] == t.launches[j];
      }
    }
  }

  // ---------------------------------------------------------------------
  // The steps
  // ---------------------------------------------------------------------

  lemma FailStill(t: Table, s: nat, e: Exec, failure: Failure)
    requires e.attempt >= 1 && s in t.pending && SameRecord(t.pending[s], e)
    requires s in t.futures && t.futures[s].Pending?
    ensures Still(t, FailAttempt(t, s, e, failure))
  {
  }

  lemma TimedOutStill(t: Table, s: nat, timeout: TimeoutType)
    requires Awake(t, s)
    ensures Still(t, ParkTimedOut(t, s, timeout))
  {
    if t.pending[s].parked {
      FailStill(t.(waiters := RetireParked(t.waiters, s)), s, t.pending[s].(parked := false), TimeoutFailure(timeout));
    }
  }

  lemma AttemptStill(t: Table, s: nat, env: Envelope)
    requires Awake(t, s) && !t.pending[s].inBackoff
    ensures Still(t, DeliverRun(t, s, env))
  {
    var later := Advance(t, env.endedAt);
    match env.result {
      case CompletesLater(startedAt) => ParkStill(later, s, startedAt, env.endedAt);
      case Ok =>
      case Err(failure) =>
        if !(t.pending[s].cancelRequested && failure.cls.CancelledError?) {
          FailStill(later, s, t.pending[s], failure);
        }
    }
  }

  lemma ParkStill(t: Table, s: nat, startedAt: real, endedAt: real)
    requires s in t.pending
    ensures Still(t, Park(t, s, t.pending[s], startedAt, endedAt))
  {
  }

  lemma BackoffNumbered(t: Table, s: nat, env: Envelope)
    requires Numbered(t) && Awake(t, s) && t.pending[s].inBackoff && s < t.next && s !in t.commands
    ensures Numbered(DeliverRun(t, s, env))
  {
    LaunchNumbered(t, Resumed(t, s), s);
  }

  lemma DeadlineStill(t: Table, s: nat) returns (t': Table)
    requires Awake(t, s)
    ensures t' == DeliverDeadline(t, s) && Still(t, t')
  {
    var e := t.pending[s];
    var charged := Update(Advance(t, t.clock + e.pendingWait), s, e.(pendingWait := 0.0));
    t' := ParkTimedOut(charged, s, e.parkTimeout);
    TimedOutStill(charged, s, e.parkTimeout);
  }

  lemma HeartbeatStill(t: Table, s: nat)
    requires Awake(t, s)
    ensures Still(t, DeliverHeartbeat(t, s))
  {
    TimedOutStill(t, s, Heartbeat);
  }

  lemma RunNumbered(t: Table, s: nat, env: Envelope)
    requires Numbered(t) && Awake(t, s) && s < t.next && s !in t.commands
    ensures Numbered(DeliverRun(t, s, env))
  {
    if t.pending[s].inBackoff {
      BackoffNumbered(t, s, env);
    } else {
      AttemptStill(t, s, env);
      StillNumbered(t, DeliverRun(t, s, env));
    }
  }

  lemma QueueStill(t: Table, s: nat, env: Envelope)
    requires Awake(t, s)
    ensures Still(t, DeliverQueued(t, s, env))
  {
  }

  lemma DeliverNumbered(t: Table, i: nat, env: Envelope)
    requires Good(t) && Numbered(t) && t.cancelled == [] && i < |t.waiters|
    ensures Possible(t, Delivers(i, env)) && Numbered(Deliver(t, i, env))
  {
    var w := t.waiters[i];
    var s := w.seq_;
    WaiterIsAwake(t, w);
    var removed := t.(waiters := WithoutAt(t.waiters, i));
    match w.kind {
      case Run => RunNumbered(removed, s, env);
      case Queue =>
        QueueStill(removed, s, env);
        StillNumbered(removed, DeliverQueued(removed, s, env));
      case ParkDeadline =>
        var t' := DeadlineStill(removed, s);
        StillNumbered(removed, t');
      case ParkHeartbeat =>
        HeartbeatStill(removed, s);
        StillNumbered(removed, DeliverHeartbeat(removed, s));
    }
  }

  lemma DispatchStill(t: Table, enqueued: bool)
    requires Possible(t, Dispatches(enqueued))
    requires t.commands[0] in t.pending ==> t.pending[t.commands[0]].request.elsewhere
    ensures Still(t, Dispatch(t, enqueued))
  {
  }

  lemma DispatchNumbered(t: Table, enqueued: bool)
    requires Good(t) && Numbered(t) && Possible(t, Dispatches(enqueued))
    ensures Numbered(Dispatch(t, enqueued))
  {
    var s := t.commands[0];
    if s in t.pending && !t.pending[s].request.elsewhere {
      var taken := CommandTaken(t);
      StillNumbered(t, taken);
      FirstLaunchNumbered(t, taken, s);
    } else {
      DispatchStill(t, enqueued);
      StillNumbered(t, Dispatch(t, enqueued));
    }
  }

  /** A command's own activity has not been launched before. */
  lemma FirstLaunchNumbered(t: Table, taken: Table, s: nat)
    requires Numbered(t) && Numbered(taken) && s in t.commands && s in t.pending && t.pending[s].attempt >= 1
    requires taken.pending == t.pending && taken.launches == t.launches && taken.next == t.next
    requires s !in taken.commands && s < t.next
    ensures Numbered(LaunchAttempt(taken, s))
  {
    LaunchNumbered(taken, taken, s);
  }

  lemma CompleteStill(t: Table, s: nat, completion: Completion)
    requires Awake(t, s) && t.pending[s].parked
    ensures Still(t, CompleteParked(t, s, completion))
  {
    if completion.Fail? {
      FailStill(t.(waiters := RetireParked(t.waiters, s)), s, t.pending[s].(parked := false), completion.failure);
    }
  }

  lemma CompletesNumbered(t: Table, id: string, completion: Completion, sentAt: real)
    requires Good(t) && Numbered(t) && Possible(t, Completes(id, completion, sentAt))
    ensures Numbered(Next(t, Completes(id, completion, sentAt)))
  {
    var later := Advance(t, sentAt);
    AdvanceGood(t, sentAt);
    var s := OpenUnder(t, id);
    if s.Some? {
      SweptIsAwake(later, s.value);
      CompleteStill(later, s.value, completion);
      StillNumbered(later, CompleteParked(later, s.value, completion));
    }
    CompletesWhere(t, id, completion, sentAt, s);
  }

  lemma BeatsNumbered(t: Table, id: string, sentAt: real)
    requires Good(t) && Numbered(t) && Possible(t, Beats(id, sentAt))
    ensures Numbered(Next(t, Beats(id, sentAt)))
  {
    var later := Advance(t, sentAt);
    var s := OpenUnder(t, id);
    if s.Some? {
      StillNumbered(later, Beat(later, s.value));
    }
    BeatsWhere(t, id, sentAt, s);
  }

  lemma {:induction false} SweepStill(t: Table)
    ensures Still(t, Sweep(t))
    decreases |t.cancelled|
  {
    if t.cancelled != [] {
      SweepStill(SweepOne(t));
    }
  }

  lemma CodeStill(t: Table, event: Event)
    requires event.Starts? || event.CancelsHandle? || event.CancelsAwait? || event.Passes?
    ensures Still(t, Next(t, event))
  {
  }

  lemma NextNumbered(t: Table, event: Event)
    requires Good(t) && Numbered(t) && Possible(t, event)
    ensures Numbered(Next(t, event))
  {
    match event
    case Dispatches(enqueued) => DispatchNumbered(t, enqueued);
    case Delivers(i, env) => DeliverNumbered(t, i, env);
    case Completes(id, completion, sentAt) => CompletesNumbered(t, id, completion, sentAt);
    case Beats(id, sentAt) => BeatsNumbered(t, id, sentAt);
    case Sweeps =>
      SweepStill(t);
      StillNumbered(t, Sweep(t));
    case _ =>
      CodeStill(t, event);
      StillNumbered(t, Next(t, event));
  }

  lemma {:induction false} RunsStayNumbered(t: Table, events: seq<Event>, t': Table)
    requires Good(t) && Numbered(t) && Runs(t, events, t')
    ensures Numbered(t')
    decreases |events|
  {
    if events != [] {
      NextIsGood(t, events[0]);
      NextNumbered(t, events[0]);
      RunsStayNumbered(Next(t, events[0]), events[1..], t');
    }
  }

  // ---------------------------------------------------------------------
  // The counts
  // ---------------------------------------------------------------------

  /** Ascending attempt numbers from one on are no more than the last of them says. */
  lemma {:induction false} NoMoreThanLast(launches: seq<Launch>, s: nat) returns (k: nat)
    requires Ordered(launches)
    requires forall i :: 0 <= i < |launches| ==> launches[i].exec.attempt >= 1
    ensures |Launched(launches, s)| > 0 ==>
        k < |launches| && launches[k].seq_ == s && |Launched(launches, s)| <= launches[k].exec.attempt
    decreases |launches|
  {
    k := 0;
    if launches != [] {
      var last := |launches| - 1;
      var front := launches[..last];
      assert forall i :: 0 <= i < last ==> front[i] == launches[i];
      k := NoMoreThanLast(front, s);
      if launches[last].seq_ == s {
        assert |Launched(front, s)| > 0 ==> launches[k].exec.attempt < launches[last].exec.attempt;
        assert |Launched(launches, s)| == |Launched(front, s)| + 1;
        k := last;
      }
    }
  }

  lemma {:induction false} LaunchedHas(launches: seq<Launch>, l: Launch)
    requires l in launches
    ensures |Launched(launches, l.seq_)| > 0
    decreases |launches|
  {
    var last, front := launches[|launches| - 1], launches[..|launches| - 1];
    assert launches == front + [last];
    if l != last {
      LaunchedHas(front, l);
    }
  }

  lemma SameRequest(launches: seq<Launch>, l: Launch, m: Launch)
    requires Ordered(launches) && l in launches && m in launches && l.seq_ == m.seq_
    ensures l.exec.request == m.exec.request
  {
    var i :| 0 <= i < |launches| && launches[i] == l;
    var j :| 0 <= j < |launches| && launches[j] == m;
    assert i < j || j < i || l == m;
  }

  /** The launch whose attempt number bounds how often its activity was launched. */
  lemma CountedBy(clock: real, events: seq<Event>, t: Table, l: Launch) returns (m: Launch)
    requires Runs(Empty(clock), events, t) && l in t.launches
    ensures m in t.launches && m.seq_ == l.seq_ && m.exec.request == l.exec.request
    ensures 1 <= |Launched(t.launches, l.seq_)| <= m.exec.attempt
  {
    RunsStayNumbered(Empty(clock), events, t);
    assert forall i :: 0 <= i < |t.launches| ==> t.launches[i] in t.launches;
    var k := NoMoreThanLast(t.launches, l.seq_);
    LaunchedHas(t.launches, l);
    m := t.launches[k];
    SameRequest(t.launches, l, m);
  }

  /** With a schedule-to-close budget B and initial interval d an activity is
      launched at most ceil(B/d) times. */
  lemma BudgetBoundsLaunches(clock: real, events: seq<Event>, t: Table, l: Launch, budget: real)
    requires Runs(Empty(clock), events, t) && (forall e <- events :: ActivityBudget.NoOverride(e)) && l in t.launches
    requires l.exec.request.scheduleToClose == Some(budget) && budget > 0.0
    requires l.exec.request.policy.initialInterval > 0.0
    ensures |Launched(t.launches, l.seq_)| <= ActivityBudget.Ceiling(budget / l.exec.request.policy.initialInterval)
    ensures l.deadline.Some? && l.deadline.value <= Max(0.0, budget - (l.at - l.exec.scheduledAt))
  {
    var m := CountedBy(clock, events, t, l);
    ActivityBudget.AttemptsAreBounded(clock, events, t, m, budget);
    ActivityBudget.AttemptsAreBounded(clock, events, t, l, budget);
  }

  /** No activity is launched more often than its policy's maximum. */
  lemma MaximumBoundsLaunches(clock: real, events: seq<Event>, t: Table, l: Launch)
    requires Runs(Empty(clock), events, t) && l in t.launches
    ensures
      var most := l.exec.request.policy.maximumAttempts;
      most >= 1 ==> |Launched(t.launches, l.seq_)| <= most
  {
    var m := CountedBy(clock, events, t, l);
    ActivityLimits.AttemptsRespectMaximum(clock, events, t, m);
  }
}
