/**
 The table, driven by one activity's outcomes and nothing else, is the local
 retry loop of module Attempts; so what is proved of that loop holds of it.
 */
module TableAttempts {
  import opened Prelude
  import opened Retry
  import opened ActivityMachine
  import opened ActivityProofs
  import A = Attempts

  function JobOf(e: Exec): A.Job {
    A.Job(e.request.policy, e.request.startToClose, e.request.scheduleToClose)
  }

  function EnvelopeOf(o: A.Outcome): Envelope {
    match o
    case Completed(endedAt) => Envelope(Ok, endedAt, None)
    case Failed(failure, endedAt) => Envelope(Err(failure), endedAt, None)
  }

  /** The attempt in flight, not asked to cancel. */
  ghost predicate Attempting(t: Table, s: nat) {
    && Good(t) && t.cancelled == [] && s in t.pending && PhaseOf(t, s) == InFlight
    && !t.pending[s].cancelRequested
  }

  ghost predicate Matches(l: Launch, s: nat, a: A.Attempt) {
    l.seq_ == s && l.exec.attempt == a.number && l.deadline == a.deadline && l.bound == a.bound
  }

  /** The launches since t repeat the loop's attempts after the first. */
  ghost predicate Repeats(t: Table, t': Table, s: nat, attempts: seq<A.Attempt>) {
    && |attempts| >= 1 && |t'.launches| == |t.launches| + |attempts| - 1
    && t'.launches[..|t.launches|] == t.launches
    && forall k :: 1 <= k < |attempts| ==> Matches(t'.launches[|t.launches| + k - 1], s, attempts[k])
  }

  ghost predicate Ends(t: Table, s: nat, final: A.Final) {
    match final
    case InFlight => s in t.pending && !t.pending[s].inBackoff
    case Succeeded => s !in t.pending && s in t.futures && t.futures[s] == Succeeded
    case GaveUp(state) => s !in t.pending && s in t.futures && t.futures[s] == Failed(state)
  }

  lemma WaiterOf(t: Table, s: nat) returns (i: nat)
    requires Good(t) && s in t.pending && (PhaseOf(t, s) == InFlight || PhaseOf(t, s) == BackingOff)
    ensures i < |t.waiters| && t.waiters[i] == Waiter(Run, s)
  {
    assert Record(t, s);
    Counted(t.waiters, Waiter(Run, s));
    i :| 0 <= i < |t.waiters| && t.waiters[i] == Waiter(Run, s);
  }

  lemma OneDelivery(t: Table, i: nat, env: Envelope)
    requires Possible(t, Delivers(i, env))
    ensures Runs(t, [Delivers(i, env)], Deliver(t, i, env))
  {
    assert [Delivers(i, env)][1..] == [];
    assert Runs(Deliver(t, i, env), [], Deliver(t, i, env));
  }

  /** Where an outcome leaves the record of an attempt in flight. */
  ghost predicate Outcomes(t: Table, s: nat, o: A.Outcome, t': Table)
    requires s in t.pending && t.pending[s].attempt >= 1
  {
    && t'.launches == t.launches && t'.clock == Max(t.clock, o.endedAt) && t'.commands == t.commands
    && if o.Completed? then s !in t'.pending && s in t'.futures && t'.futures[s] == Succeeded
       else
         var (delay, state) := Decision(t'.clock, t.pending[s], o.failure);
         if delay.None? then s !in t'.pending && s in t'.futures && t'.futures[s] == Failed(Some(state))
         else s in t'.pending && t'.pending[s] == t.pending[s].(inBackoff := true, pendingWait := delay.value)
  }

  lemma OutcomeRun(t: Table, s: nat, o: A.Outcome)
    requires Awake(t, s) && !t.pending[s].inBackoff && !t.pending[s].cancelRequested
    ensures Outcomes(t, s, o, DeliverRun(t, s, EnvelopeOf(o)))
  {
  }

  /** One outcome delivered to the attempt in flight. */
  lemma OutcomeDelivered(t: Table, s: nat, o: A.Outcome) returns (events: seq<Event>, t': Table)
    requires Attempting(t, s)
    ensures Runs(t, events, t')
    ensures Good(t') && t'.cancelled == []
    ensures t.pending[s].attempt >= 1 && Outcomes(t, s, o, t')
  {
    var i := WaiterOf(t, s);
    var env := EnvelopeOf(o);
    events := [Delivers(i, env)];
    SweptIsAwake(t, s);
    var removed := t.(waiters := WithoutAt(t.waiters, i));
    assert Outcomes(removed, s, o, DeliverRun(removed, s, env)) by {
      OutcomeRun(removed, s, o);
    }
    assert Good(Deliver(t, i, env)) by {
      var _ := DeliverGood(t, i, env);
    }
    DeliverStaysSwept(t, i, env);
    t' := Deliver(t, i, env);
    OneDelivery(t, i, env);
  }

  /** The end of a backoff launches the next attempt on the charged clock. */
  ghost predicate Resumes(t: Table, s: nat, t': Table)
    requires s in t.pending
  {
    && t'.clock == Max(t.clock, t.clock + t.pending[s].pendingWait) && t'.commands == t.commands
    && s in t'.pending
    && t'.pending[s] == t.pending[s].(inBackoff := false, pendingWait := 0.0, attempt := t.pending[s].attempt + 1)
    && t'.launches == t.launches + [LaunchOf(s, t'.pending[s], t'.clock)]
  }

  function LaunchOf(s: nat, e: Exec, clock: real): Launch {
    var (deadline, bound) := EffectiveDeadline(e.request.startToClose, Remaining(clock, e));
    Launch(s, e, clock, deadline, bound)
  }

  lemma BackoffRun(t: Table, s: nat, env: Envelope)
    requires Awake(t, s) && t.pending[s].inBackoff
    ensures Resumes(t, s, DeliverRun(t, s, env))
  {
  }

  lemma ResumesAlike(t: Table, u: Table, s: nat, t': Table)
    requires s in u.pending && Resumes(u, s, t')
    requires u.pending == t.pending && u.clock == t.clock && u.commands == t.commands && u.launches == t.launches
    ensures Resumes(t, s, t')
  {
  }

  lemma BackoffEnds(t: Table, s: nat) returns (events: seq<Event>, t': Table)
    requires Good(t) && t.cancelled == [] && s in t.pending && PhaseOf(t, s) == BackingOff
    ensures Runs(t, events, t')
    ensures Good(t') && t'.cancelled == [] && Resumes(t, s, t')
  {
    var i := WaiterOf(t, s);
    var env := Envelope(Ok, 0.0, None);
    events := [Delivers(i, env)];
    SweptIsAwake(t, s);
    var removed := t.(waiters := WithoutAt(t.waiters, i));
    t' := DeliverRun(removed, s, env);
    assert Resumes(t, s, t') by {
      BackoffRun(removed, s, env);
      ResumesAlike(t, removed, s, t');
    }
    assert t' == Deliver(t, i, env);
    assert Good(t') by {
      var _ := DeliverGood(t, i, env);
    }
    DeliverStaysSwept(t, i, env);
    OneDelivery(t, i, env);
  }

  lemma BackedOff(t: Table, s: nat, o: A.Outcome, t1: Table)
    requires Attempting(t, s) && t.pending[s].attempt >= 1 && o.Failed? && Outcomes(t, s, o, t1)
    requires Decision(Max(t.clock, o.endedAt), t.pending[s], o.failure).0.Some?
    ensures s in t1.pending && PhaseOf(t1, s) == BackingOff
  {
  }

  lemma RetriedBy(t: Table, s: nat, o: A.Outcome, t1: Table, t2: Table)
    requires Attempting(t, s) && t.pending[s].attempt >= 1 && o.Failed? && Outcomes(t, s, o, t1)
    requires Decision(Max(t.clock, o.endedAt), t.pending[s], o.failure).0.Some?
    requires s in t1.pending && Resumes(t1, s, t2)
    ensures Retried(t, s, o, t2)
  {
  }

  /** A failed attempt that is retried: two deliveries later the next one is in flight. */
  lemma RetryRound(t: Table, s: nat, o: A.Outcome) returns (events: seq<Event>, t2: Table)
    requires Attempting(t, s) && t.pending[s].attempt >= 1 && o.Failed?
    requires Decision(Max(t.clock, o.endedAt), t.pending[s], o.failure).0.Some?
    ensures Runs(t, events, t2) && Attempting(t2, s) && Retried(t, s, o, t2)
  {
    var ended, t1 := OutcomeDelivered(t, s, o);
    var resumed;
    BackedOff(t, s, o, t1);
    resumed, t2 := BackoffEnds(t1, s);
    RetriedBy(t, s, o, t1, t2);
    events := ended + resumed;
    RunsConcat(t, ended, t1, resumed, t2);
  }

  lemma {:induction false} RunsConcat(t: Table, a: seq<Event>, m: Table, b: seq<Event>, t': Table)
    requires Runs(t, a, m) && Runs(m, b, t')
    ensures Runs(t, a + b, t')
    decreases |a|
  {
    if a == [] {
      assert a + b == b;
    } else {
      assert (a + b)[1..] == a[1..] + b;
      RunsConcat(Next(t, a[0]), a[1..], m, b, t');
    }
  }

  /** The script ends here: no outcome, a result, or a failure not retried. */
  lemma LastRound(t: Table, s: nat, script: seq<A.Outcome>) returns (events: seq<Event>, t': Table)
    requires Attempting(t, s) && t.pending[s].attempt >= 1
    requires script == [] || script[0].Completed?
             || Decision(Max(t.clock, script[0].endedAt), t.pending[s], script[0].failure).0.None?
    ensures Runs(t, events, t') && t'.launches == t.launches
    ensures
      var run := LoopOf(t.pending[s], t.clock, script);
      |run.attempts| == 1 && Ends(t', s, run.final)
  {
    events, t' := [], t;
    LoopStops(t.pending[s], t.clock, script);
    if script != [] {
      events, t' := OutcomeDelivered(t, s, script[0]);
      LastOutcome(t, s, script[0], t');
    }
  }

  /** How the loop ends that makes no attempt after this outcome. */
  function FinalOf(e: Exec, clock: real, script: seq<A.Outcome>): A.Final
    requires e.attempt >= 1
  {
    if script == [] then A.InFlight
    else if script[0].Completed? then A.Succeeded
    else A.GaveUp(Some(Decision(Max(clock, script[0].endedAt), e, script[0].failure).1))
  }

  lemma LoopStops(e: Exec, clock: real, script: seq<A.Outcome>)
    requires e.attempt >= 1
    requires script == [] || script[0].Completed? || Decision(Max(clock, script[0].endedAt), e, script[0].failure).0.None?
    ensures |LoopOf(e, clock, script).attempts| == 1 && LoopOf(e, clock, script).final == FinalOf(e, clock, script)
  {
  }

  lemma LastOutcome(t: Table, s: nat, o: A.Outcome, t': Table)
    requires Attempting(t, s) && t.pending[s].attempt >= 1 && Outcomes(t, s, o, t')
    requires o.Completed? || Decision(Max(t.clock, o.endedAt), t.pending[s], o.failure).0.None?
    ensures t'.launches == t.launches && Ends(t', s, FinalOf(t.pending[s], t.clock, [o]))
  {
  }

  /** Where RetryRound leaves the table. */
  ghost predicate Retried(t: Table, s: nat, o: A.Outcome, t2: Table)
    requires s in t.pending && t.pending[s].attempt >= 1 && o.Failed?
  {
    var e := t.pending[s];
    var now := Max(t.clock, o.endedAt);
    var delay := Decision(now, e, o.failure).0;
    && delay.Some? && t2.clock == Max(now, now + delay.value)
    && s in t2.pending
    && t2.pending[s].attempt == e.attempt + 1 && t2.pending[s].request == e.request
    && t2.pending[s].scheduledAt == e.scheduledAt
    && t2.launches == t.launches + [LaunchOf(s, t2.pending[s], t2.clock)]
  }

  /** The table from here repeats the loop on this script. */
  ghost predicate Follows(t: Table, t': Table, s: nat, script: seq<A.Outcome>)
    requires s in t.pending && t.pending[s].attempt >= 1
  {
    var run := LoopOf(t.pending[s], t.clock, script);
    Repeats(t, t', s, run.attempts) && Ends(t', s, run.final)
  }

  lemma FollowsAfterRetry(t: Table, t2: Table, t': Table, s: nat, script: seq<A.Outcome>)
    requires s in t.pending && t.pending[s].attempt >= 1 && script != [] && script[0].Failed?
    requires Retried(t, s, script[0], t2) && Follows(t2, t', s, script[1..])
    ensures Follows(t, t', s, script)
  {
    var e, e' := t.pending[s], t2.pending[s];
    OneMoreRound(t, t2, t', s, e, e', script, LoopOf(e', t2.clock, script[1..]));
  }

  /** Driven by a script of outcomes, the table launches exactly the attempts of the
      local loop, with the same deadlines, and ends as it ends. */
  lemma {:induction false} TableRunsLocally(t: Table, s: nat, script: seq<A.Outcome>) returns (events: seq<Event>, t': Table)
    requires Attempting(t, s) && t.pending[s].attempt >= 1
    ensures Runs(t, events, t') && Follows(t, t', s, script)
    decreases |script|
  {
    if script == [] || script[0].Completed?
       || Decision(Max(t.clock, script[0].endedAt), t.pending[s], script[0].failure).0.None? {
      events, t' := LastRound(t, s, script);
    } else {
      var first, t2 := RetryRound(t, s, script[0]);
      var rest;
      rest, t' := TableRunsLocally(t2, s, script[1..]);
      events := first + rest;
      RunsConcat(t, first, t2, rest, t');
      FollowsAfterRetry(t, t2, t', s, script);
    }
  }

  function LoopOf(e: Exec, clock: real, script: seq<A.Outcome>): A.Run
    requires e.attempt >= 1
  {
    A.LocalRun(JobOf(e), e.scheduledAt, clock, e.attempt, script)
  }

  lemma OneMoreRound(t: Table, t2: Table, t': Table, s: nat, e: Exec, e': Exec, script: seq<A.Outcome>,
                     tail: A.Run)
    requires e.attempt >= 1 && script != [] && script[0].Failed?
    requires e'.request == e.request && e'.scheduledAt == e.scheduledAt && e'.attempt == e.attempt + 1
    requires
      var now := Max(t.clock, script[0].endedAt);
      var delay := Decision(now, e, script[0].failure).0;
      delay.Some? && t2.clock == Max(now, now + delay.value)
    requires t2.launches == t.launches + [LaunchOf(s, e', t2.clock)]
    requires tail == LoopOf(e', t2.clock, script[1..])
    requires Repeats(t2, t', s, tail.attempts) && Ends(t', s, tail.final)
    ensures Repeats(t, t', s, LoopOf(e, t.clock, script).attempts)
    ensures Ends(t', s, LoopOf(e, t.clock, script).final)
  {
    LocalUnrolls(e, e', t.clock, t2.clock, s, script);
    var run := LoopOf(e, t.clock, script);
    RepeatsMore(t, t2, t', s, run.attempts, tail.attempts);
  }

  /** One round of the local loop, on the clock the table keeps. */
  lemma LocalUnrolls(e: Exec, e': Exec, clock: real, clock': real, s: nat, script: seq<A.Outcome>)
    requires e.attempt >= 1 && script != [] && script[0].Failed?
    requires e'.request == e.request && e'.scheduledAt == e.scheduledAt && e'.attempt == e.attempt + 1
    requires
      var now := Max(clock, script[0].endedAt);
      var delay := Decision(now, e, script[0].failure).0;
      delay.Some? && clock' == Max(now, now + delay.value)
    ensures
      var run := LoopOf(e, clock, script);
      var tail := LoopOf(e', clock', script[1..]);
      && |run.attempts| >= 1 && run.attempts[1..] == tail.attempts && run.final == tail.final
      && |tail.attempts| >= 1 && Matches(LaunchOf(s, e', clock'), s, tail.attempts[0])
  {
  }

  lemma RepeatsMore(t: Table, t2: Table, t': Table, s: nat, attempts: seq<A.Attempt>, tail: seq<A.Attempt>)
    requires |attempts| >= 1 && attempts[1..] == tail && Repeats(t2, t', s, tail)
    requires |t2.launches| == |t.launches| + 1 && t2.launches[..|t.launches|] == t.launches
    requires Matches(t2.launches[|t.launches|], s, tail[0])
    ensures Repeats(t, t', s, attempts)
  {
    assert t'.launches[..|t.launches|] == t2.launches[..|t.launches|];
    assert t'.launches[|t.launches|] == t2.launches[|t.launches|];
    forall k | 1 <= k < |attempts| ensures Matches(t'.launches[|t.launches| + k - 1], s, attempts[k]) {
      assert attempts[k] == tail[k - 1];
      assert k > 1 ==> |t2.launches| + (k - 1) - 1 == |t.launches| + k - 1;
    }
  }
}
