/** The interpreter's activity bookkeeping, updated in place. */
module ActivityHosting {
  import opened Prelude
  import opened Retry
  import opened ActivityMachine
  import opened ActivityProofs
  import opened ActivityRounds

  class ActivityHost {
    var clock: real
    var next: nat
    var pending: map<nat, Exec>
    var futures: map<nat, Future>
    var commands: seq<nat>
    var cancelled: seq<nat>
    var waiters: seq<Waiter>
    ghost var launches: seq<Launch>

    ghost function View(): Table
      reads this
    {
      Table(clock, next, pending, futures, commands, cancelled, waiters, launches)
    }

    /** Between two steps of the loop: swept, and every activity in exactly one phase. */
    ghost predicate Settled()
      reads this
    {
      Good(View()) && cancelled == []
    }

    constructor (start: real)
      ensures View() == Empty(start) && Settled()
    {
      clock, next := start, 1;
      pending, futures, commands, cancelled, waiters, launches := map[], map[], [], [], [], [];
    }

    method StartActivity(request: Request) returns (accepted: bool)
      requires Good(View())
      modifies this
      ensures (View(), accepted) == Start(old(View()), request) && Good(View())
    {
      StartGood(View(), request);
      var s := next;
      next := next + 1;
      var id := ResolvedId(request, s);
      var used := IdInUse(id);
      accepted := !used && request.policy.Valid();
      if accepted {
        pending := pending[s := Exec(request, id, clock, 1, false, 0.0, false, false, StartToClose, false, false)];
        futures := futures[s := Pending];
        commands := commands + [s];
      }
    }

    method IdInUse(id: string) returns (used: bool)
      ensures used == InUse(View(), id)
    {
      used := exists r <- pending :: pending[r].id == id;
    }

    method CancelAwaiting(s: nat)
      requires Good(View())
      modifies this
      ensures View() == CancelFuture(old(View()), s) && Good(View())
    {
      CancelFutureGood(View(), s);
      if s in futures && futures[s].Pending? {
        futures := futures[s := Cancelled];
        if s in pending {
          cancelled := cancelled + [s];
        }
      }
    }

    method RequestCancel(s: nat)
      requires Good(View())
      modifies this
      ensures View() == CancelHandle(old(View()), s) && Good(View())
    {
      CancelHandleGood(View(), s);
      if s !in pending {
        return;
      }
      if pending[s].request.cancellation.WaitCompleted? && !pending[s].parked {
        pending := pending[s := pending[s].(cancelRequested := true)];
      } else {
        CancelAwaiting(s);
      }
    }

    method SweepCancellations()
      requires Good(View())
      modifies this
      ensures View() == Sweep(old(View())) && Settled()
    {
      ghost var before := View();
      while cancelled != []
        invariant Good(View()) && Sweep(View()) == Sweep(before)
        decreases |cancelled|
      {
        ghost var now := View();
        SweepOneGood(now);
        SweepNext();
        assert Sweep(now) == Sweep(SweepOne(now));
      }
    }

    method SweepNext()
      requires cancelled != []
      modifies this
      ensures View() == SweepOne(old(View()))
    {
      var s := cancelled[0];
      cancelled := cancelled[1..];
      if s in pending {
        pending := pending - {s};
        RetireWaiters(s);
      }
    }

    method RetireWaiters(s: nat)
      modifies this`waiters
      ensures waiters == RetireAll(old(waiters), s)
    {
      var keep: seq<Waiter> := [];
      for i := 0 to |waiters|
        invariant keep + RetireAll(waiters[i..], s) == RetireAll(waiters, s)
      {
        assert waiters[i..][1..] == waiters[i + 1..];
        if waiters[i].seq_ != s {
          keep := keep + [waiters[i]];
        }
      }
      waiters := keep;
    }

    method RetireParkedTimers(s: nat)
      modifies this`waiters
      ensures waiters == RetireParked(old(waiters), s)
    {
      var keep: seq<Waiter> := [];
      for i := 0 to |waiters|
        invariant keep + RetireParked(waiters[i..], s) == RetireParked(waiters, s)
      {
        assert waiters[i..][1..] == waiters[i + 1..];
        if !Parks(waiters[i], s) {
          keep := keep + [waiters[i]];
        }
      }
      waiters := keep;
    }

    method Close(s: nat, future: Future)
      requires s in futures && futures[s].Pending?
      modifies this
      ensures View() == Resolve(old(View()), s, future)
    {
      pending := pending - {s};
      futures := futures[s := future];
    }

    method Launch(s: nat)
      requires s in pending
      modifies this
      ensures View() == LaunchAttempt(old(View()), s)
    {
      var e := pending[s].(inBackoff := false);
      pending := pending[s := e];
      var remaining :=
        if e.request.scheduleToClose.Some? then Some(e.request.scheduleToClose.value - (clock - e.scheduledAt)) else None;
      var (deadline, bound) := EffectiveDeadline(e.request.startToClose, remaining);
      launches := launches + [ActivityMachine.Launch(s, e, clock, deadline, bound)];
      waiters := waiters + [Waiter(Run, s)];
    }

    method AdvanceTime(to: real)
      modifies this`clock
      ensures clock == Max(old(clock), to)
    {
      if to > clock {
        clock := to;
      }
    }

    /** Retry or give up; also the end of a parked attempt. */
    method FailActivity(s: nat, e: Exec, failure: Failure)
      requires e.attempt >= 1 && s in futures && futures[s].Pending?
      modifies this
      ensures View() == FailAttempt(old(View()), s, e, failure)
    {
      var elapsed := if e.request.scheduleToClose.Some? then Some(clock - e.scheduledAt) else None;
      var (delay, state) := RetryDecision(e.request.policy, e.attempt, failure, elapsed, e.request.scheduleToClose);
      if delay.Some? {
        pending := pending[s := e.(inBackoff := true, pendingWait := delay.value)];
        waiters := waiters + [Waiter(Run, s)];
      } else {
        Close(s, Failed(Some(state)));
      }
    }

    method ParkActivity(s: nat, startedAt: real, endedAt: real)
      requires s in pending
      modifies this
      ensures View() == Park(old(View()), s, old(pending)[s], startedAt, endedAt)
    {
      var e := pending[s];
      var left :=
        if e.request.startToClose.Some? then Some(e.request.startToClose.value - Max(endedAt - startedAt, 0.0)) else None;
      var budget :=
        if e.request.scheduleToClose.Some? then Some(e.request.scheduleToClose.value - (clock - e.scheduledAt)) else None;
      var (bound, timeout) := EffectiveDeadline(left, budget);
      assert (bound, timeout) == ParkBound(View(), e, startedAt, endedAt);
      ParkedList(View(), s, startedAt, endedAt);
      ParkUntil(s, bound, timeout);
    }

    method ParkUntil(s: nat, bound: Option<real>, timeout: TimeoutType)
      requires s in pending
      modifies this
      ensures
        var t, e := old(View()), old(pending)[s];
        View() == t.(pending := t.pending[s := ParkedExec(e, bound, timeout)],
                     waiters := ArmedList(t.waiters, s, bound.Some?, e.request.heartbeat.Some?))
    {
      var e := pending[s].(parked := true);
      if bound.Some? {
        e := e.(parkTimeout := timeout, pendingWait := Max(0.05, bound.value));
        waiters := waiters + [Waiter(ParkDeadline, s)];
      }
      if e.request.heartbeat.Some? {
        e := e.(beat := false);
        waiters := waiters + [Waiter(ParkHeartbeat, s)];
      }
      pending := pending[s := e];
    }

    method TimeOutParked(s: nat, timeout: TimeoutType)
      requires Awake(View(), s)
      modifies this
      ensures View() == ParkTimedOut(old(View()), s, timeout)
    {
      if !pending[s].parked {
        return;
      }
      RetireParkedTimers(s);
      FailActivity(s, pending[s].(parked := false), TimeoutFailure(timeout));
    }

    /** The next queued activity command. */
    method ProcessActivityCommand(enqueued: bool)
      requires Settled() && commands != []
      modifies this
      ensures View() == Dispatch(old(View()), enqueued) && Settled()
    {
      EveryDeliveryIsSafe(View(), Envelope(Ok, 0.0, None), enqueued, "", Complete, 0.0);
      DispatchGood(View(), enqueued);
      DispatchStaysSwept(View(), enqueued);
      var s := commands[0];
      commands := commands[1..];
      if s in pending {
        PerformCommand(s, enqueued);
      }
    }

    method PerformCommand(s: nat, enqueued: bool)
      requires s in pending && s in futures && futures[s].Pending?
      modifies this
      ensures View() == Perform(old(View()), s, enqueued)
    {
      if !pending[s].request.elsewhere {
        Launch(s);
      } else if enqueued {
        pending := pending[s := pending[s].(queued := true)];
        waiters := waiters + [Waiter(Queue, s)];
      } else {
        Close(s, Failed(None));
      }
    }

    method DeliverAttempt(s: nat, env: Envelope)
      requires Awake(View(), s)
      modifies this
      ensures View() == DeliverRun(old(View()), s, env)
    {
      var e := pending[s];
      if e.inBackoff {
        AdvanceTime(clock + e.pendingWait);
        pending := pending[s := e.(pendingWait := 0.0, attempt := e.attempt + 1)];
        Launch(s);
        return;
      }
      AdvanceTime(env.endedAt);
      match env.result {
        case CompletesLater(startedAt) =>
          ParkActivity(s, startedAt, env.endedAt);
        case Ok =>
          Close(s, Succeeded);
        case Err(failure) =>
          if e.cancelRequested && failure.cls.CancelledError? {
            Close(s, Cancelled);
          } else {
            FailActivity(s, e, failure);
          }
      }
    }

    method DeliverQueueResult(s: nat, env: Envelope)
      requires Awake(View(), s)
      modifies this
      ensures View() == DeliverQueued(old(View()), s, env)
    {
      AdvanceTime(env.endedAt);
      if !env.result.Err? {
        Close(s, Succeeded);
      } else if pending[s].cancelRequested && env.result.failure.cls.CancelledError? {
        Close(s, Cancelled);
      } else {
        Close(s, Failed(env.retryState));
      }
    }

    method DeliverParkDeadline(s: nat)
      requires Awake(View(), s)
      modifies this
      ensures View() == DeliverDeadline(old(View()), s)
    {
      var timeout := pending[s].parkTimeout;
      AdvanceTime(clock + pending[s].pendingWait);
      pending := pending[s := pending[s].(pendingWait := 0.0)];
      TimeOutParked(s, timeout);
    }

    method CheckHeartbeat(s: nat)
      requires Awake(View(), s)
      modifies this
      ensures View() == DeliverHeartbeat(old(View()), s)
    {
      if pending[s].parked {
        if !pending[s].beat {
          TimeOutParked(s, Heartbeat);
        } else {
          pending := pending[s := pending[s].(beat := false)];
          waiters := waiters + [Waiter(ParkHeartbeat, s)];
        }
      }
    }

    /** The i-th waiter is done. */
    method DeliverWaiter(i: nat, env: Envelope)
      requires Settled() && i < |waiters|
      modifies this
      ensures Deliverable(old(View()), old(waiters)[i])
      ensures View() == Deliver(old(View()), i, env)
      ensures Settled()
    {
      var w := waiters[i];
      WaiterIsAwake(View(), w);
      NextIsGood(View(), Delivers(i, env));
      DeliverStaysSwept(View(), i, env);
      waiters := waiters[..i] + waiters[i + 1..];
      WakeActivity(w, env);
    }

    method WakeActivity(w: Waiter, env: Envelope)
      requires Awake(View(), w.seq_)
      modifies this
      ensures View() == Wake(old(View()), w, env)
    {
      match w.kind {
        case Run => DeliverAttempt(w.seq_, env);
        case Queue => DeliverQueueResult(w.seq_, env);
        case ParkDeadline => DeliverParkDeadline(w.seq_);
        case ParkHeartbeat => CheckHeartbeat(w.seq_);
      }
    }

    /** A round: every done waiter in waiter-list order, the inbox waiter's messages
        among them.  It fails on a waiter that is no longer in the list. */
    method DeliverRound(items: seq<Item>) returns (ok: bool)
      requires Settled() && Done(View(), items)
      modifies this
      ensures ok <==> !Stumbles(old(View()), items)
      ensures Settled()
    {
      ghost var before := View();
      RoundFailsExactly(before, items);
      for k := 0 to |items|
        invariant Settled()
        invariant Smooth(View(), items[k..]) <==> Smooth(before, items)
      {
        ghost var now := View();
        assert items[k..][0] == items[k] && items[k..][1..] == items[k + 1..];
        var there := DeliverItem(items[k]);
        if !there {
          return false;
        }
        SmoothStep(now, items[k..], View());
      }
      return true;
    }

    method DeliverItem(item: Item) returns (there: bool)
      requires Settled()
      modifies this
      ensures there <==> Present(old(View()), item)
      ensures
        there ==>
          && Possible(old(View()), EventOf(old(View()), item))
          && View() == Next(old(View()), EventOf(old(View()), item))
      ensures Settled()
    {
      there := true;
      match item {
        case Wakes(w, env) =>
          if w in waiters {
            DeliverWaiter(PositionOf(waiters, w), env);
          } else {
            there := false;
          }
        case Reports(id, completion, sentAt) => ApplyActivityResult(id, completion, sentAt);
        case Refreshes(id, sentAt) => ApplyActivityHeartbeat(id, sentAt);
        case Elapses(to) =>
          AdvanceGood(View(), to);
          AdvanceTime(to);
      }
    }

    /** The parked activity with this id, if any. */
    method AsyncPendingById(id: string, ghost t: Table) returns (s: Option<nat>)
      requires t == View() && Good(t)
      ensures Only(t, id, s)
    {
      var matching := set r | r in pending && pending[r].id == id && pending[r].parked;
      if matching == {} {
        assert forall r :: Open(t, r, id) ==> r in matching;
        return None;
      }
      var r :| r in matching;
      return Some(r);
    }

    /** An external completion arrives; only a parked activity with the id takes it. */
    method ApplyActivityResult(id: string, completion: Completion, sentAt: real)
      requires Settled()
      modifies this
      ensures Possible(old(View()), Completes(id, completion, sentAt))
      ensures View() == Next(old(View()), Completes(id, completion, sentAt)) && Settled()
    {
      ghost var before := View();
      assert Possible(before, Completes(id, completion, sentAt)) by {
        EveryDeliveryIsSafe(before, Envelope(Ok, 0.0, None), true, id, completion, sentAt);
      }
      NextIsGood(before, Completes(id, completion, sentAt));
      CompletesStaysSwept(before, id, completion, sentAt);
      var s := AsyncPendingById(id, before);
      AdvanceTime(sentAt);
      assert View() == Advance(before, sentAt);
      if s.Some? {
        assert Awake(before, s.value);
        CompleteExternally(s.value, completion);
      }
      CompletesWhere(before, id, completion, sentAt, s);
    }

    /** A heartbeat arrives from outside; it renews the window of the parked activity. */
    method ApplyActivityHeartbeat(id: string, sentAt: real)
      requires Settled()
      modifies this
      ensures View() == Next(old(View()), Beats(id, sentAt)) && Settled()
    {
      ghost var before := View();
      NextIsGood(before, Beats(id, sentAt));
      BeatsStaysSwept(before, id, sentAt);
      var s := AsyncPendingById(id, before);
      AdvanceTime(sentAt);
      assert View() == Advance(before, sentAt);
      if s.Some? {
        HeartbeatSeen(s.value);
      }
      BeatsWhere(before, id, sentAt, s);
    }

    method HeartbeatSeen(s: nat)
      requires s in pending && pending[s].parked
      modifies this
      ensures View() == Beat(old(View()), s)
    {
      pending := pending[s := pending[s].(beat := true)];
    }

    method CompleteExternally(s: nat, completion: Completion)
      requires Awake(View(), s) && pending[s].parked
      modifies this
      ensures View() == CompleteParked(old(View()), s, completion)
    {
      RetireParkedTimers(s);
      match completion {
        case Complete => Close(s, Succeeded);
        case ReportCancelled => Close(s, Cancelled);
        case Fail(failure) => FailActivity(s, pending[s].(parked := false), failure);
      }
    }
  }
}
