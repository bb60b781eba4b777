/**
 What becomes of an activity: how each event changes its record, its future and the
 clock, told from the record and the event alone.
 */
module ActivityOutcomes {
  import opened Prelude
  import opened Retry
  import opened ActivityMachine
  import opened ActivityProofs
  import A = Attempts
  import Decimal

  /** Closed with this outcome: no record and no waiter is left. */
  ghost predicate ResolvedAs(t': Table, s: nat, future: Future) {
    && s !in t'.pending && s in t'.futures && t'.futures[s] == future
    && forall kind: WaiterKind :: Waiter(kind, s) !in t'.waiters
  }

  /** The retry decision at the new time: a backoff of its length, or the state it gives up with. */
  ghost predicate FailedInto(t': Table, s: nat, e: Exec, failure: Failure)
    requires e.attempt >= 1
  {
    var budget := e.request.scheduleToClose;
    var elapsed := if budget.Some? then Some(t'.clock - e.scheduledAt) else None;
    var (delay, state) := RetryDecision(e.request.policy, e.attempt, failure, elapsed, budget);
    if delay.None? then ResolvedAs(t', s, Failed(Some(state)))
    else
      && s in t'.pending && t'.pending[s] == e.(parked := false, inBackoff := true, pendingWait := delay.value)
      && Waiter(Run, s) in t'.waiters && s in t'.futures && t'.futures[s].Pending?
  }

  /** The clock moves on to a reported time, never back. */
  ghost predicate Advances(t: Table, t': Table, to: real) {
    t'.clock == if to > t.clock then to else t.clock
  }

  lemma ClosedIsResolved(t': Table, s: nat, future: Future)
    requires Good(t') && s !in t'.pending && s in t'.futures && t'.futures[s] == future
    ensures ResolvedAs(t', s, future)
  {
    forall kind: WaiterKind ensures Waiter(kind, s) !in t'.waiters {
    }
  }

  /** The delivery of one done waiter, and what the invariant says of it. */
  lemma Delivered(t: Table, i: nat, env: Envelope, t': Table)
    requires Good(t) && t.cancelled == [] && i < |t.waiters| && Runs(t, [Delivers(i, env)], t')
    ensures t' == Deliver(t, i, env) && Good(t') && Awake(t, t.waiters[i].seq_)
    ensures Touches(t, t', t.waiters[i].seq_)
    ensures t' == Wake(t.(waiters := WithoutAt(t.waiters, i)), t.waiters[i], env)
  {
    var after := DeliverGood(t, i, env);
    WaiterIsAwake(t, t.waiters[i]);
    assert Runs(Deliver(t, i, env), [Delivers(i, env)][1..], t');
  }

  /** Whether the result confirms a cancellation that was asked for. */
  ghost predicate Confirms(e: Exec, env: Envelope) {
    e.cancelRequested && env.result.Err? && env.result.failure.cls == CancelledError
  }

  /** A queued activity's result is final: it closes the activity as succeeded, as
      cancelled if it confirms a cancellation, or as failed with the state it reports. */
  lemma QueuedOutcome(t: Table, i: nat, env: Envelope, t': Table)
    requires Good(t) && t.cancelled == [] && i < |t.waiters| && t.waiters[i].kind == Queue
    requires Runs(t, [Delivers(i, env)], t') && !env.result.CompletesLater?
    ensures
      var s := t.waiters[i].seq_;
      && s in t.pending && Advances(t, t', env.endedAt) && Touches(t, t', s)
      && (env.result == Ok ==> ResolvedAs(t', s, Succeeded))
      && (Confirms(t.pending[s], env) ==> ResolvedAs(t', s, Cancelled))
      && (env.result.Err? && !Confirms(t.pending[s], env) ==> ResolvedAs(t', s, Failed(env.retryState)))
  {
    var s := t.waiters[i].seq_;
    Delivered(t, i, env, t');
    ClosedIsResolved(t', s, t'.futures[s]);
  }

  /** The end of an attempt made here: succeeded, cancelled if it confirms a
      cancellation, parked if it completes later, else retried or failed as decided. */
  lemma AttemptOutcome(t: Table, i: nat, env: Envelope, t': Table)
    requires Good(t) && t.cancelled == [] && i < |t.waiters| && t.waiters[i].kind == Run
    requires t.waiters[i].seq_ in t.pending && !t.pending[t.waiters[i].seq_].inBackoff
    requires Runs(t, [Delivers(i, env)], t')
    ensures
      var s := t.waiters[i].seq_;
      var e := t.pending[s];
      && e.attempt >= 1 && Advances(t, t', env.endedAt) && Touches(t, t', s) && t'.launches == t.launches
      && AttemptEnded(t', s, e, env)
  {
    var s := t.waiters[i].seq_;
    Delivered(t, i, env, t');
    WaiterIsAwake(t, t.waiters[i]);
    assert !t.pending[s].queued by {
      PhaseWaiters(t, t.waiters[i]);
    }
    AttemptDecided(t.(waiters := WithoutAt(t.waiters, i)), s, env, t');
  }

  /** What an attempt's envelope makes of its record. */
  ghost predicate AttemptEnded(t': Table, s: nat, e: Exec, env: Envelope)
    requires e.attempt >= 1
  {
    && (env.result == Ok ==> ResolvedAs(t', s, Succeeded))
    && (Confirms(e, env) ==> ResolvedAs(t', s, Cancelled))
    && (env.result.Err? && !Confirms(e, env) ==> FailedInto(t', s, e, env.result.failure))
    && (env.result.CompletesLater? ==> ParkedFor(t', s, e, env.endedAt - env.result.startedAt))
  }

  lemma AttemptDecided(t: Table, s: nat, env: Envelope, t': Table)
    requires Awake(t, s) && !t.pending[s].inBackoff && !t.pending[s].parked && !t.pending[s].queued
    requires t' == DeliverRun(t, s, env) && Good(t')
    ensures Advances(t, t', env.endedAt) && t'.launches == t.launches && AttemptEnded(t', s, t.pending[s], env)
  {
    if env.result.CompletesLater? {
      ParkDecided(Advance(t, env.endedAt), s, env.result.startedAt, env.endedAt, t');
    } else if env.result == Ok || Confirms(t.pending[s], env) {
      SettledEnd(t, s, env, t');
    } else {
      FailureDecided(Advance(t, env.endedAt), s, t.pending[s], env.result.failure, t');
    }
  }

  lemma SettledEnd(t: Table, s: nat, env: Envelope, t': Table)
    requires Awake(t, s) && !t.pending[s].inBackoff && t' == DeliverRun(t, s, env) && Good(t')
    requires env.result == Ok || Confirms(t.pending[s], env)
    ensures t'.clock == Max(t.clock, env.endedAt) && t'.launches == t.launches
    ensures ResolvedAs(t', s, if env.result == Ok then Succeeded else Cancelled)
  {
    ClosedIsResolved(t', s, if env.result == Ok then Succeeded else Cancelled);
  }

  lemma FailureDecided(t: Table, s: nat, e: Exec, failure: Failure, t': Table)
    requires e.attempt >= 1 && !e.parked && s in t.futures && t.futures[s].Pending?
    requires t' == FailAttempt(t, s, e, failure) && Good(t')
    ensures FailedInto(t', s, e, failure) && t'.clock == t.clock && t'.launches == t.launches
  {
    if s !in t'.pending {
      ClosedIsResolved(t', s, t'.futures[s]);
    }
  }

  /** What is left of a bound, at least nothing. */
  function Left(bound: real): real {
    if bound > 0.0 then bound else 0.0
  }

  /** Parked after a body that ran so long: a deadline if either bound is set, the
      tighter one and at least 0.05 s away, and a heartbeat window if one is asked for. */
  ghost predicate ParkedFor(t': Table, s: nat, e: Exec, ran: real) {
    var r := e.request;
    && s in t'.pending && t'.pending[s].parked && !t'.pending[s].inBackoff && !t'.pending[s].queued
    && t'.pending[s].attempt == e.attempt && t'.pending[s].request == r && t'.pending[s].scheduledAt == e.scheduledAt
    && t'.pending[s].cancelRequested == e.cancelRequested
    && (Waiter(ParkDeadline, s) in t'.waiters <==> r.startToClose.Some? || r.scheduleToClose.Some?)
    && (Waiter(ParkHeartbeat, s) in t'.waiters <==> r.heartbeat.Some?) && (r.heartbeat.Some? ==> !t'.pending[s].beat)
    && ((r.startToClose.Some? || r.scheduleToClose.Some?) ==>
          var body := if r.startToClose.Some? then Some(Left(r.startToClose.value - Left(ran))) else None;
          var budget := if r.scheduleToClose.Some? then Some(Left(r.scheduleToClose.value - (t'.clock - e.scheduledAt))) else None;
          var tight := body.None? || (budget.Some? && budget.value < body.value);
          var until := if tight then budget.value else body.value;
          && t'.pending[s].parkTimeout == (if tight then ScheduleToClose else StartToClose)
          && t'.pending[s].pendingWait == (if until > 0.05 then until else 0.05))
  }

  lemma ParkDecided(t: Table, s: nat, startedAt: real, endedAt: real, t': Table)
    requires s in t.pending && !t.pending[s].inBackoff && !t.pending[s].queued
    requires t' == Park(t, s, t.pending[s], startedAt, endedAt) && Good(t')
    ensures ParkedFor(t', s, t.pending[s], endedAt - startedAt) && t'.launches == t.launches && t'.clock == t.clock
  {
    var e := t.pending[s];
    var (bound, timeout) := ParkBound(t, e, startedAt, endedAt);
    ParkedList(t, s, startedAt, endedAt);
    ParkTimersWait(t', s);
    ParkLength(t, e, startedAt, endedAt);
    assert t'.pending[s] == ParkedExec(e, bound, timeout);
  }

  /** A parked activity's timers are those its request calls for. */
  lemma ParkTimersWait(t: Table, s: nat)
    requires Good(t) && s in t.pending && t.pending[s].parked
    ensures
      var r := t.pending[s].request;
      && (Waiter(ParkDeadline, s) in t.waiters <==> r.startToClose.Some? || r.scheduleToClose.Some?)
      && (Waiter(ParkHeartbeat, s) in t.waiters <==> r.heartbeat.Some?)
  {
    assert Record(t, s);
    Counted(t.waiters, Waiter(ParkDeadline, s));
    Counted(t.waiters, Waiter(ParkHeartbeat, s));
  }

  lemma ParkLength(t: Table, e: Exec, startedAt: real, endedAt: real)
    ensures
      var (bound, timeout) := ParkBound(t, e, startedAt, endedAt);
      var r := e.request;
      var body := if r.startToClose.Some? then Some(Left(r.startToClose.value - Left(endedAt - startedAt))) else None;
      var budget := if r.scheduleToClose.Some? then Some(Left(r.scheduleToClose.value - (t.clock - e.scheduledAt))) else None;
      var tight := body.None? || (budget.Some? && budget.value < body.value);
      && (bound.Some? <==> body.Some? || budget.Some?)
      && (bound.Some? ==> bound == (if tight then budget else body))
      && (bound.Some? ==> timeout == if tight then ScheduleToClose else StartToClose)
  {
  }

  /** A backoff served is charged to virtual time and one more attempt is launched,
      under the deadline that is left: the tighter bound, labelled with its kind. */
  lemma BackoffOutcome(t: Table, i: nat, env: Envelope, t': Table)
    requires Good(t) && t.cancelled == [] && i < |t.waiters| && t.waiters[i].kind == Run
    requires t.waiters[i].seq_ in t.pending && t.pending[t.waiters[i].seq_].inBackoff
    requires Runs(t, [Delivers(i, env)], t')
    ensures
      var s := t.waiters[i].seq_;
      var e := t.pending[s];
      && Advances(t, t', t.clock + e.pendingWait) && Touches(t, t', s)
      && s in t'.pending && t'.pending[s] == e.(inBackoff := false, pendingWait := 0.0, attempt := e.attempt + 1)
      && Waiter(Run, s) in t'.waiters && LaunchedNow(t, t', s)
  {
    Delivered(t, i, env, t');
    var removed := t.(waiters := WithoutAt(t.waiters, i));
    LaunchedAlike(Resumed(removed, t.waiters[i].seq_), t.waiters[i].seq_, t');
    assert t'.waiters[|t'.waiters| - 1] == Waiter(Run, t.waiters[i].seq_);
  }

  /** One launch more, of the record as it is now. */
  ghost predicate LaunchedNow(t: Table, t': Table, s: nat) {
    && s in t'.pending && |t'.launches| == |t.launches| + 1 && t'.launches[..|t.launches|] == t.launches
    && var l, e := t'.launches[|t.launches|], t'.pending[s];
       var stc, budget := e.request.startToClose, e.request.scheduleToClose;
       var remaining := if budget.Some? then Some(Left(budget.value - (t'.clock - e.scheduledAt))) else None;
       var tight := stc.None? || (remaining.Some? && remaining.value < Left(stc.value));
       && l.seq_ == s && l.exec == e && l.at == t'.clock
       && (if stc.None? && remaining.None? then l.deadline.None?
           else if tight then l.deadline == remaining && l.bound == ScheduleToClose
           else l.deadline == Some(Left(stc.value)) && l.bound == StartToClose)
  }

  lemma LaunchedAlike(t: Table, s: nat, t': Table)
    requires s in t.pending && t' == LaunchAttempt(t, s)
    ensures LaunchedNow(t, t', s)
  {
  }

  /** A park's deadline charges the park to virtual time and times the attempt out as the
      kind of bound it was. */
  lemma DeadlineOutcome(t: Table, i: nat, env: Envelope, t': Table)
    requires Good(t) && t.cancelled == [] && i < |t.waiters| && t.waiters[i].kind == ParkDeadline
    requires Runs(t, [Delivers(i, env)], t')
    ensures
      var s := t.waiters[i].seq_;
      && s in t.pending && t.pending[s].attempt >= 1 && t.pending[s].parked
      && Advances(t, t', t.clock + t.pending[s].pendingWait) && Touches(t, t', s)
      && FailedInto(t', s, t.pending[s], Failure(TimeoutError(t.pending[s].parkTimeout), None, false, None))
      && (forall kind :: kind == ParkDeadline || kind == ParkHeartbeat ==> Waiter(kind, s) !in t'.waiters)
  {
    Delivered(t, i, env, t');
    WaiterIsAwake(t, t.waiters[i]);
    DeadlineDecided(t.(waiters := WithoutAt(t.waiters, i)), t.waiters[i].seq_, t');
  }

  lemma DeadlineDecided(t: Table, s: nat, t': Table)
    requires Awake(t, s) && t.pending[s].parked && t' == DeliverDeadline(t, s) && Good(t')
    ensures FailedInto(t', s, t.pending[s], Failure(TimeoutError(t.pending[s].parkTimeout), None, false, None))
    ensures t'.clock == Max(t.clock, t.clock + t.pending[s].pendingWait)
    ensures forall kind :: kind == ParkDeadline || kind == ParkHeartbeat ==> Waiter(kind, s) !in t'.waiters
  {
    var e := t.pending[s];
    var charged := Update(Advance(t, t.clock + e.pendingWait), s, e.(pendingWait := 0.0)).(waiters := RetireParked(t.waiters, s));
    TimeoutDecided(charged, s, e, e.(pendingWait := 0.0, parked := false), e.parkTimeout, t');
  }

  lemma TimeoutDecided(t: Table, s: nat, e: Exec, before: Exec, timeout: TimeoutType, t': Table)
    requires e.attempt >= 1 && s in t.futures && t.futures[s].Pending? && Good(t')
    requires before.(pendingWait := e.pendingWait) == e.(parked := false)
    requires t' == FailAttempt(t, s, before, TimeoutFailure(timeout))
    ensures FailedInto(t', s, e, Failure(TimeoutError(timeout), None, false, None)) && t'.clock == t.clock
    ensures forall kind :: kind == ParkDeadline || kind == ParkHeartbeat ==> Waiter(kind, s) !in t'.waiters
  {
    FailureDecided(t, s, before, TimeoutFailure(timeout), t');
    if s in t'.pending {
      NotParkedHasNoTimer(t', s);
    }
  }

  lemma NotParkedHasNoTimer(t: Table, s: nat)
    requires Good(t) && s in t.pending && !t.pending[s].parked
    ensures forall kind :: kind == ParkDeadline || kind == ParkHeartbeat ==> Waiter(kind, s) !in t.waiters
  {
    forall kind | kind == ParkDeadline || kind == ParkHeartbeat ensures Waiter(kind, s) !in t.waiters {
      if Waiter(kind, s) in t.waiters {
        PhaseWaiters(t, Waiter(kind, s));
      }
    }
  }

  /** The end of a heartbeat window opens the next one if a heartbeat came, and else
      times the attempt out at once. */
  lemma HeartbeatOutcome(t: Table, i: nat, env: Envelope, t': Table)
    requires Good(t) && t.cancelled == [] && i < |t.waiters| && t.waiters[i].kind == ParkHeartbeat
    requires Runs(t, [Delivers(i, env)], t')
    ensures
      var s := t.waiters[i].seq_;
      && s in t.pending && t.pending[s].attempt >= 1 && t.pending[s].parked && Touches(t, t', s) && t'.clock == t.clock
      && (t.pending[s].beat ==>
            && t'.pending == t.pending[s := t.pending[s].(beat := false)] && t'.futures == t.futures
            && Waiter(ParkHeartbeat, s) in t'.waiters)
      && (!t.pending[s].beat ==> FailedInto(t', s, t.pending[s], Failure(TimeoutError(Heartbeat), None, false, None)))
  {
    var s := t.waiters[i].seq_;
    Delivered(t, i, env, t');
    WaiterIsAwake(t, t.waiters[i]);
    if t.pending[s].beat {
      assert t'.waiters[|t'.waiters| - 1] == Waiter(ParkHeartbeat, s);
    } else {
      TimeoutDecided(t.(waiters := RetireParked(WithoutAt(t.waiters, i), s)), s, t.pending[s],
                     t.pending[s].(parked := false), Heartbeat, t');
    }
  }

  // ---------------------------------------------------------------------
  // Before the first attempt
  // ---------------------------------------------------------------------

  /** A started activity: scheduled under its id, the seq in decimal if it has none. */
  ghost predicate ScheduledAs(t: Table, t': Table, request: Request) {
    var s := t.next;
    && t'.next == s + 1 && t'.commands == t.commands + [s]
    && s in t'.pending && t'.pending[s].request == request && t'.pending[s].scheduledAt == t.clock
    && t'.pending[s].id == (if request.id != "" then request.id else Decimal.Text(s))
    && t'.pending[s].attempt == 1 && !t'.pending[s].cancelRequested
    && t'.pending == t.pending[s := t'.pending[s]] && t'.futures == t.futures[s := Pending]
    && t'.waiters == t.waiters && t'.launches == t.launches && t'.clock == t.clock && t'.cancelled == t.cancelled
  }

  /** A start is refused, leaving nothing but a spent seq, exactly if an open activity
      has the id or the policy is invalid. */
  lemma StartOutcome(t: Table, request: Request, t': Table)
    requires Good(t) && Runs(t, [Starts(request)], t')
    ensures
      var id := if request.id != "" then request.id else Decimal.Text(t.next);
      if request.policy.Valid() && forall r <- t.pending :: t.pending[r].id != id then ScheduledAs(t, t', request)
      else t' == t.(next := t.next + 1)
  {
    assert Runs(Start(t, request).0, [Starts(request)][1..], t');
  }

  /** The next command: an attempt launched here, or the activity enqueued elsewhere, or
      closed as failed without a retry state where the enqueue fails; nothing for an
      activity that is gone. */
  lemma DispatchOutcome(t: Table, enqueued: bool, t': Table)
    requires Good(t) && t.cancelled == [] && t.commands != [] && Runs(t, [Dispatches(enqueued)], t')
    ensures t'.commands == t.commands[1..] && t'.clock == t.clock
    ensures
      var s := t.commands[0];
      && (s !in t.pending ==> t' == t.(commands := t'.commands))
      && (s in t.pending && !t.pending[s].request.elsewhere ==>
            && t'.pending == t.pending && Waiter(Run, s) in t'.waiters && LaunchedNow(t, t', s))
      && (s in t.pending && t.pending[s].request.elsewhere && enqueued ==>
            && t'.pending == t.pending[s := t.pending[s].(queued := true)] && Waiter(Queue, s) in t'.waiters
            && t'.launches == t.launches && t'.futures == t.futures)
      && (s in t.pending && t.pending[s].request.elsewhere && !enqueued ==>
            ResolvedAs(t', s, Failed(None)) && t'.launches == t.launches)
  {
    var s := t.commands[0];
    NextIsGood(t, Dispatches(enqueued));
    assert Runs(Dispatch(t, enqueued), [Dispatches(enqueued)][1..], t');
    if s in t.pending {
      SweptIsAwake(t, s);
      assert !t.pending[s].inBackoff by {
        assert Record(t, s);
      }
      PerformOutcome(t.(commands := t.commands[1..]), s, enqueued, t');
    }
  }

  lemma PerformOutcome(t: Table, s: nat, enqueued: bool, t': Table)
    requires Awake(t, s) && !t.pending[s].inBackoff && t' == ActivityMachine.Perform(t, s, enqueued) && Good(t')
    ensures !t.pending[s].request.elsewhere ==>
        t'.pending == t.pending && Waiter(Run, s) in t'.waiters && LaunchedNow(t, t', s)
    ensures t.pending[s].request.elsewhere && enqueued ==>
        && t'.pending == t.pending[s := t.pending[s].(queued := true)] && Waiter(Queue, s) in t'.waiters
        && t'.launches == t.launches && t'.futures == t.futures
    ensures t.pending[s].request.elsewhere && !enqueued ==> ResolvedAs(t', s, Failed(None)) && t'.launches == t.launches
    ensures t'.commands == t.commands && t'.clock == t.clock
  {
    if !t.pending[s].request.elsewhere {
      LaunchedAlike(t, s, t');
      assert t'.waiters[|t'.waiters| - 1] == Waiter(Run, s);
    } else if enqueued {
      assert t'.waiters[|t'.waiters| - 1] == Waiter(Queue, s);
    } else {
      ClosedIsResolved(t', s, Failed(None));
    }
  }

  // ---------------------------------------------------------------------
  // Cancels
  // ---------------------------------------------------------------------

  /** A cancel that waits for its confirmation only marks the record, unless the attempt
      is parked; any other resolves the future at once and leaves the rest to the sweep. */
  lemma CancelOutcome(t: Table, s: nat, t': Table)
    requires Good(t) && Runs(t, [CancelsHandle(s)], t')
    ensures s !in t.pending ==> t' == t
    ensures s in t.pending && t.pending[s].request.cancellation == WaitCompleted && !t.pending[s].parked ==>
        t' == t.(pending := t.pending[s := t.pending[s].(cancelRequested := true)])
    ensures s in t.pending && !(t.pending[s].request.cancellation == WaitCompleted && !t.pending[s].parked) ==>
        && t'.pending == t.pending && t'.waiters == t.waiters && t'.commands == t.commands
        && s in t'.cancelled && t'.futures == t.futures[s := Cancelled]
        && (s in t.futures && t.futures[s].Pending? ==> t'.cancelled == t.cancelled + [s])
  {
    assert Runs(CancelHandle(t, s), [CancelsHandle(s)][1..], t');
    if s in t.pending {
      assert Record(t, s);
    }
  }

  /** The awaiting code is cancelled: the future at once, the activity by the sweep. */
  lemma CancelAwaitOutcome(t: Table, s: nat, t': Table)
    requires Good(t) && s in t.pending && Runs(t, [CancelsAwait(s)], t')
    ensures t'.pending == t.pending && s in t'.cancelled && t'.futures == t.futures[s := Cancelled]
    ensures s in t.futures && t.futures[s].Pending? ==> t'.cancelled == t.cancelled + [s]
  {
    assert Record(t, s);
    assert Runs(CancelFuture(t, s), [CancelsAwait(s)][1..], t');
  }

  // ---------------------------------------------------------------------
  // An activity on another worker's queue, from start to end
  // ---------------------------------------------------------------------

  /** The envelope the activity workflow returns for a run of its attempts. */
  ghost predicate Returns(run: A.Run, script: seq<A.Outcome>, env: Envelope) {
    match run.final
    case InFlight => false
    case Succeeded => env.result == Ok
    case GaveUp(state) =>
      && env.result.Err? && env.retryState == state
      && if run.attempts == [] then env.result.failure.cls == TimeoutError(ScheduleToStart)
         else |run.attempts| <= |script| && script[|run.attempts| - 1].Failed?
              && env.result.failure == script[|run.attempts| - 1].failure
  }

  /** The queued loop reports no retry state exactly for a cancelled attempt. */
  lemma {:induction false} NoStateMeansCancelled(
    job: A.Job, startedAt: real, elapsed: real, number: nat, script: seq<A.Outcome>)
    requires number >= 1
    ensures
      var run := A.QueuedRun(job, startedAt, elapsed, number, script);
      && run.attempts != []
      && (run.final.GaveUp? ==>
            && |run.attempts| <= |script| && script[|run.attempts| - 1].Failed?
            && (run.final.state.None? <==> script[|run.attempts| - 1].failure.cls == CancelledError))
    decreases |script|
  {
    if script != [] && script[0].Failed? {
      var spent := script[0].endedAt - startedAt;
      var (delay, _) := RetryDecision(job.policy, number, script[0].failure, Some(spent), job.scheduleToClose);
      if delay.Some? {
        NoStateMeansCancelled(job, startedAt, spent + delay.value, number + 1, script[1..]);
        var rest := A.QueuedRun(job, startedAt, spent + delay.value, number + 1, script[1..]);
        assert rest.final.GaveUp? ==> script[1..][|rest.attempts| - 1] == script[|rest.attempts|];
      }
    }
  }

  /** Start, enqueue, perhaps a cancel that waits for its confirmation, and the result. */
  ghost predicate Queues(t: Table, request: Request, cancel: bool, env: Envelope, events: seq<Event>, t': Table) {
    exists i ::
      && events == [Starts(request), Dispatches(true)] + (if cancel then [CancelsHandle(t.next)] else []) + [Delivers(i, env)]
      && i == |t.waiters| && Runs(t, events, t')
  }

  /** An activity of another task queue ends as its retry loop there ended: succeeded if
      and only if the run did, failed with the very state the run gave up with, and
      cancelled exactly if that was asked for and its last attempt was cancelled. */
  lemma {:induction false} QueuedRunDecides(
    t: Table, request: Request, cancel: bool, startedAt: real, script: seq<A.Outcome>, env: Envelope, events: seq<Event>,
    t': Table)
    requires Good(t) && t.cancelled == [] && t.commands == [] && request.elsewhere
    requires Start(t, request).1 && (cancel ==> request.cancellation == WaitCompleted)
    requires
      var run := A.QueuedRun(A.Job(request.policy, request.startToClose, request.scheduleToClose), startedAt, 0.0, 1, script);
      Returns(run, script, env)
    requires Queues(t, request, cancel, env, events, t')
    ensures
      var run := A.QueuedRun(A.Job(request.policy, request.startToClose, request.scheduleToClose), startedAt, 0.0, 1, script);
      && t.next !in t'.pending && t.next in t'.futures
      && (t'.futures[t.next] == Succeeded <==> run.final == A.Succeeded)
      && (t'.futures[t.next] == Cancelled <==> cancel && run.final == A.GaveUp(None))
      && (forall state :: t'.futures[t.next] == Failed(state) <==>
            run.final == A.GaveUp(state) && !(cancel && state == None))
  {
    var job := A.Job(request.policy, request.startToClose, request.scheduleToClose);
    NoStateMeansCancelled(job, startedAt, 0.0, 1, script);
    var u := QueuedReached(t, request, cancel, env, events, t');
    QueuedOutcome(u, |t.waiters|, env, t');
  }

  lemma {:induction false} QueuedReached(
    t: Table, request: Request, cancel: bool, env: Envelope, events: seq<Event>, t': Table) returns (u: Table)
    requires Good(t) && t.cancelled == [] && t.commands == [] && request.elsewhere
    requires Start(t, request).1 && (cancel ==> request.cancellation == WaitCompleted)
    requires Queues(t, request, cancel, env, events, t')
    ensures Good(u) && u.cancelled == [] && |t.waiters| < |u.waiters| && u.waiters[|t.waiters|] == Waiter(Queue, t.next)
    ensures t.next in u.pending && u.pending[t.next].cancelRequested == cancel
    ensures Runs(u, [Delivers(|t.waiters|, env)], t')
  {
    var last := [Delivers(|t.waiters|, env)];
    var rest := (if cancel then [CancelsHandle(t.next)] else []) + last;
    assert events == [Starts(request), Dispatches(true)] + rest;
    assert events[1..] == [Dispatches(true)] + rest && events[1..][1..] == rest;
    var t1 := Next(t, events[0]);
    NextIsGood(t, events[0]);
    assert t1.commands == [t.next] && t1.commands[1..] == [];
    assert Runs(t1, events[1..], t') && events[1..][0] == Dispatches(true);
    var t2 := Next(t1, Dispatches(true));
    NextIsGood(t1, Dispatches(true));
    assert Runs(t2, rest, t');
    u := t2;
    if cancel {
      assert rest[1..] == last;
      u := Next(t2, rest[0]);
      NextIsGood(t2, rest[0]);
    } else {
      assert rest == last;
    }
  }
}
