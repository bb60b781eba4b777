/** The policy's maximum number of attempts over every run of the activity table. */
module ActivityLimits {
  import opened Prelude
  import opened Retry
  import opened ActivityMachine
  import opened ActivityProofs

  /** An attempt made, or backed off for, is within the policy's maximum. */
  ghost predicate Capped(e: Exec) {
    && e.attempt >= 1
    && (e.request.policy.maximumAttempts >= 1 ==>
          e.attempt + (if e.inBackoff then 1 else 0) <= e.request.policy.maximumAttempts)
  }

  ghost predicate Limited(t: Table) {
    && (forall s <- t.pending :: Capped(t.pending[s]))
    && (forall l <- t.launches :: Capped(l.exec))
  }

  /** A retry leaves attempts and budget, and is refused for what the policy excludes. */
  lemma RetryStaysWithin(policy: Policy, attempt: nat, failure: Failure, elapsed: Option<real>, budget: Option<real>)
    requires attempt >= 1
    ensures
      var (delay, state) := RetryDecision(policy, attempt, failure, elapsed, budget);
      && (delay.Some? <==> state == InProgress)
      && (delay.Some? ==>
            && !failure.nonRetryable && failure.cls != TimeoutError(ScheduleToClose)
            && (failure.type_.Some? ==> failure.type_.value !in policy.nonRetryableTypes)
            && (policy.maximumAttempts != 0 ==> attempt < policy.maximumAttempts)
            && (elapsed.Some? && budget.Some? ==> elapsed.value + delay.value < budget.value))
  {
  }

  lemma FewerLimited(t: Table, t': Table, gone: set<nat>)
    requires Limited(t) && t'.pending == t.pending - gone && t'.launches == t.launches
    ensures Limited(t')
  {
  }

  lemma ChangedLimited(t: Table, t': Table, s: nat, e: Exec)
    requires Limited(t) && t'.pending == t.pending[s := e] && t'.launches == t.launches && Capped(e)
    ensures Limited(t')
  {
  }

  lemma FailLimited(t: Table, s: nat, e: Exec, failure: Failure)
    requires Limited(t) && Capped(e) && !e.inBackoff && s in t.futures && t.futures[s].Pending?
    ensures Limited(FailAttempt(t, s, e, failure))
  {
    var (delay, _) := Decision(t.clock, e, failure);
    if delay.Some? {
      ChangedLimited(t, FailAttempt(t, s, e, failure), s, e.(inBackoff := true, pendingWait := delay.value));
    } else {
      FewerLimited(t, FailAttempt(t, s, e, failure), {s});
    }
  }

  lemma LaunchLimited(t: Table, u: Table, s: nat, e: Exec)
    requires Limited(t) && u.launches == t.launches && Capped(e)
    requires s in u.pending && e == u.pending[s].(inBackoff := false) && u.pending[s := e] == t.pending[s := e]
    ensures Limited(LaunchAttempt(u, s))
  {
    ChangedLimited(t, LaunchAttempt(u, s).(launches := t.launches), s, e);
  }

  lemma TimedOutLimited(t: Table, s: nat, timeout: TimeoutType)
    requires Limited(t) && Awake(t, s) && !t.pending[s].inBackoff
    ensures Limited(ParkTimedOut(t, s, timeout))
  {
    if t.pending[s].parked {
      var quiet := t.(waiters := RetireParked(t.waiters, s));
      FailLimited(quiet, s, t.pending[s].(parked := false), TimeoutFailure(timeout));
    }
  }

  lemma RunLimited(t: Table, s: nat, env: Envelope)
    requires Limited(t) && Awake(t, s)
    ensures Limited(DeliverRun(t, s, env))
  {
    var e := t.pending[s];
    if e.inBackoff {
      var e' := e.(pendingWait := 0.0, attempt := e.attempt + 1);
      LaunchLimited(t, Resumed(t, s), s, e'.(inBackoff := false));
    } else {
      AttemptLimited(t, s, env);
    }
  }

  lemma AttemptLimited(t: Table, s: nat, env: Envelope)
    requires Limited(t) && Awake(t, s) && !t.pending[s].inBackoff
    ensures Limited(DeliverRun(t, s, env))
  {
    var e := t.pending[s];
    var later := Advance(t, env.endedAt);
    match env.result {
      case CompletesLater(startedAt) =>
        var (bound, timeout) := ParkBound(later, e, startedAt, env.endedAt);
        ChangedLimited(later, DeliverRun(t, s, env), s, ParkedExec(e, bound, timeout));
      case Ok => FewerLimited(later, DeliverRun(t, s, env), {s});
      case Err(failure) =>
        if e.cancelRequested && failure.cls.CancelledError? {
          FewerLimited(later, DeliverRun(t, s, env), {s});
        } else {
          FailLimited(later, s, e, failure);
        }
    }
  }

  lemma DeadlineLimited(t: Table, s: nat) returns (t': Table)
    requires Limited(t) && Awake(t, s) && !t.pending[s].inBackoff
    ensures t' == DeliverDeadline(t, s) && Limited(t')
  {
    var e := t.pending[s].(pendingWait := 0.0);
    var charged := Update(Advance(t, t.clock + t.pending[s].pendingWait), s, e);
    ChangedLimited(t, charged, s, e);
    t' := ParkTimedOut(charged, s, e.parkTimeout);
    assert Limited(t') by {
      TimedOutLimited(charged, s, e.parkTimeout);
    }
  }

  lemma HeartbeatLimited(t: Table, s: nat)
    requires Limited(t) && Awake(t, s) && !t.pending[s].inBackoff
    ensures Limited(DeliverHeartbeat(t, s))
  {
    if t.pending[s].parked && t.pending[s].beat {
      ChangedLimited(t, DeliverHeartbeat(t, s), s, t.pending[s].(beat := false));
    } else {
      TimedOutLimited(t, s, Heartbeat);
    }
  }

  lemma DeliverLimited(t: Table, i: nat, env: Envelope)
    requires Good(t) && Limited(t) && t.cancelled == [] && i < |t.waiters|
    ensures Possible(t, Delivers(i, env)) && Limited(Deliver(t, i, env))
  {
    var w := t.waiters[i];
    WaiterIsAwake(t, w);
    var removed := t.(waiters := WithoutAt(t.waiters, i));
    match w.kind {
      case Run => RunLimited(removed, w.seq_, env);
      case Queue => FewerLimited(removed, DeliverQueued(removed, w.seq_, env), {w.seq_});
      case ParkDeadline => var timedOut := DeadlineLimited(removed, w.seq_);
      case ParkHeartbeat => HeartbeatLimited(removed, w.seq_);
    }
  }

  lemma CompleteLimited(t: Table, s: nat, completion: Completion)
    requires Good(t) && Limited(t) && t.cancelled == [] && s in t.pending && t.pending[s].parked
    ensures Awake(t, s) && Limited(CompleteParked(t, s, completion))
  {
    assert Record(t, s);
    var quiet := t.(waiters := RetireParked(t.waiters, s));
    if completion.Fail? {
      FailLimited(quiet, s, t.pending[s].(parked := false), completion.failure);
    } else {
      FewerLimited(t, CompleteParked(t, s, completion), {s});
    }
  }

  lemma {:induction false} SweepLimited(t: Table)
    requires Limited(t)
    ensures Limited(Sweep(t))
    decreases |t.cancelled|
  {
    if t.cancelled != [] {
      FewerLimited(t, SweepOne(t), {t.cancelled[0]});
      SweepLimited(SweepOne(t));
    }
  }

  lemma DispatchLimited(t: Table, enqueued: bool)
    requires Limited(t) && Possible(t, Dispatches(enqueued))
    ensures Limited(Dispatch(t, enqueued))
  {
    var s := t.commands[0];
    var taken := t.(commands := t.commands[1..]);
    if s in t.pending {
      if !t.pending[s].request.elsewhere {
        LaunchLimited(taken, taken, s, taken.pending[s].(inBackoff := false));
      } else if enqueued {
        ChangedLimited(taken, Dispatch(t, enqueued), s, t.pending[s].(queued := true));
      } else {
        FewerLimited(taken, Dispatch(t, enqueued), {s});
      }
    }
  }

  lemma CodeLimited(t: Table, event: Event)
    requires Limited(t) && (event.Starts? || event.CancelsHandle? || event.CancelsAwait?)
    ensures Limited(Next(t, event))
  {
    var t' := Next(t, event);
    if event.Starts? && Start(t, event.request).1 {
      ChangedLimited(t, t', t.next, t'.pending[t.next]);
    } else if event.CancelsHandle? && t'.pending != t.pending {
      ChangedLimited(t, t', event.seq_, t.pending[event.seq_].(cancelRequested := true));
    }
  }

  lemma CompletesLimited(t: Table, id: string, completion: Completion, sentAt: real)
    requires Good(t) && Limited(t) && Possible(t, Completes(id, completion, sentAt))
    ensures Limited(Next(t, Completes(id, completion, sentAt)))
  {
    var later := Advance(t, sentAt);
    AdvanceGood(t, sentAt);
    var s := OpenUnder(t, id);
    if s.Some? {
      CompleteLimited(later, s.value, completion);
    }
    CompletesWhere(t, id, completion, sentAt, s);
  }

  lemma BeatsLimited(t: Table, id: string, sentAt: real)
    requires Good(t) && Limited(t) && Possible(t, Beats(id, sentAt))
    ensures Limited(Next(t, Beats(id, sentAt)))
  {
    var later := Advance(t, sentAt);
    var s := OpenUnder(t, id);
    if s.Some? {
      ChangedLimited(later, Beat(later, s.value), s.value, t.pending[s.value].(beat := true));
    }
    BeatsWhere(t, id, sentAt, s);
  }

  lemma NextLimited(t: Table, event: Event)
    requires Good(t) && Limited(t) && Possible(t, event)
    ensures Limited(Next(t, event))
  {
    match event
    case Starts(_) => CodeLimited(t, event);
    case CancelsHandle(_) => CodeLimited(t, event);
    case CancelsAwait(_) => CodeLimited(t, event);
    case Sweeps => SweepLimited(t);
    case Dispatches(enqueued) => DispatchLimited(t, enqueued);
    case Delivers(i, env) => DeliverLimited(t, i, env);
    case Completes(id, completion, sentAt) => CompletesLimited(t, id, completion, sentAt);
    case Beats(id, sentAt) => BeatsLimited(t, id, sentAt);
    case Passes(_) =>
  }

  lemma {:induction false} RunsStayLimited(t: Table, events: seq<Event>, t': Table)
    requires Good(t) && Limited(t) && Runs(t, events, t')
    ensures Limited(t')
    decreases |events|
  {
    if events != [] {
      NextIsGood(t, events[0]);
      NextLimited(t, events[0]);
      RunsStayLimited(Next(t, events[0]), events[1..], t');
    }
  }

  /** Whatever is delivered, completed, parked or timed out, and whatever delays
      failures ask for, no launch's attempt number exceeds its policy's maximum. */
  lemma AttemptsRespectMaximum(clock: real, events: seq<Event>, t: Table, l: Launch)
    requires Runs(Empty(clock), events, t) && l in t.launches
    ensures 1 <= l.exec.attempt
    ensures l.exec.request.policy.maximumAttempts >= 1 ==> l.exec.attempt <= l.exec.request.policy.maximumAttempts
  {
    RunsStayLimited(Empty(clock), events, t);
    assert Capped(l.exec);
  }
}
