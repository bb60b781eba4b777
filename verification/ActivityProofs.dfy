/**
 What every event keeps: each open activity is in exactly one phase with exactly
 that phase's waiters, and no future is resolved twice.
 */
module ActivityProofs {
  import opened Prelude
  import opened Retry
  import opened ActivityMachine

  datatype Phase = Scheduled | InFlight | BackingOff | Parked | Queued

  ghost function PhaseOf(t: Table, s: nat): Phase
    requires s in t.pending
  {
    var e := t.pending[s];
    if s in t.commands then Scheduled
    else if e.queued then Queued
    else if e.parked then Parked
    else if e.inBackoff then BackingOff
    else InFlight
  }

  /** An activity's waiters, by kind. */
  datatype Tally = Tally(run: nat, queue: nat, deadline: nat, heartbeat: nat)

  ghost function Count(waiters: seq<Waiter>, kind: WaiterKind, s: nat): nat {
    if waiters == [] then 0
    else Count(waiters[1..], kind, s) + if waiters[0] == Waiter(kind, s) then 1 else 0
  }

  ghost predicate Has(waiters: seq<Waiter>, s: nat, n: Tally) {
    && Count(waiters, Run, s) == n.run
    && Count(waiters, Queue, s) == n.queue
    && Count(waiters, ParkDeadline, s) == n.deadline
    && Count(waiters, ParkHeartbeat, s) == n.heartbeat
  }

  /** The waiters a phase has. */
  ghost function Expected(e: Exec, phase: Phase): Tally {
    match phase
    case Scheduled => Tally(0, 0, 0, 0)
    case InFlight => Tally(1, 0, 0, 0)
    case BackingOff => Tally(1, 0, 0, 0)
    case Queued => Tally(0, 1, 0, 0)
    case Parked =>
      Tally(0, 0, if e.request.startToClose.Some? || e.request.scheduleToClose.Some? then 1 else 0,
            if e.request.heartbeat.Some? then 1 else 0)
  }

  ghost predicate OnePhase(t: Table, s: nat)
    requires s in t.pending
  {
    var e := t.pending[s];
    && !(s in t.commands && e.queued) && !(s in t.commands && e.parked) && !(s in t.commands && e.inBackoff)
    && !(e.queued && e.parked) && !(e.queued && e.inBackoff) && !(e.parked && e.inBackoff)
  }

  ghost predicate Record(t: Table, s: nat)
    requires s in t.pending
  {
    && 1 <= s < t.next && t.pending[s].attempt >= 1
    && s in t.futures
    && (t.futures[s].Pending? || (t.futures[s].Cancelled? && s in t.cancelled))
    && OnePhase(t, s)
    && Has(t.waiters, s, Expected(t.pending[s], PhaseOf(t, s)))
  }

  ghost predicate Distinct(s: seq<nat>) {
    forall i, j :: 0 <= i < j < |s| ==> s[i] != s[j]
  }

  ghost predicate Good(t: Table) {
    && 1 <= t.next
    && (forall s <- t.pending :: Record(t, s))
    && (forall s <- t.futures :: s < t.next)
    && (forall s <- t.commands :: s < t.next)
    && (forall w <- t.waiters :: w.seq_ in t.pending)
    && (forall a, b :: a in t.pending && b in t.pending && a != b ==> t.pending[a].id != t.pending[b].id)
    && Distinct(t.commands)
  }

  // ---------------------------------------------------------------------
  // Counting waiters
  // ---------------------------------------------------------------------

  lemma {:induction false} CountConcat(a: seq<Waiter>, b: seq<Waiter>, kind: WaiterKind, s: nat)
    ensures Count(a + b, kind, s) == Count(a, kind, s) + Count(b, kind, s)
  {
    if a == [] {
      assert a + b == b;
    } else {
      assert (a + b)[1..] == a[1..] + b;
      CountConcat(a[1..], b, kind, s);
    }
  }

  lemma CountAppend(waiters: seq<Waiter>, w: Waiter)
    ensures forall kind, s :: Count(waiters + [w], kind, s) == Count(waiters, kind, s) + if w == Waiter(kind, s) then 1 else 0
  {
    forall kind, s ensures Count(waiters + [w], kind, s) == Count(waiters, kind, s) + if w == Waiter(kind, s) then 1 else 0 {
      CountConcat(waiters, [w], kind, s);
      assert [w][1..] == [];
    }
  }

  lemma CountWithoutAt(waiters: seq<Waiter>, i: nat)
    requires i < |waiters|
    ensures forall kind, s ::
              Count(WithoutAt(waiters, i), kind, s) == Count(waiters, kind, s) - if waiters[i] == Waiter(kind, s) then 1 else 0
  {
    forall kind, s
      ensures
        Count(WithoutAt(waiters, i), kind, s) == Count(waiters, kind, s) - if waiters[i] == Waiter(kind, s) then 1 else 0
    {
      CountConcat(waiters[..i], waiters[i + 1..], kind, s);
      CountConcat(waiters[..i], waiters[i..], kind, s);
      assert waiters == waiters[..i] + waiters[i..];
      assert waiters[i..][1..] == waiters[i + 1..];
    }
  }

  lemma {:induction false} CountRetireParked(waiters: seq<Waiter>, s: nat, kind: WaiterKind, r: nat)
    ensures Count(RetireParked(waiters, s), kind, r) == if Parks(Waiter(kind, r), s) then 0 else Count(waiters, kind, r)
  {
    if waiters != [] {
      CountRetireParked(waiters[1..], s, kind, r);
    }
  }

  lemma {:induction false} CountRetireAll(waiters: seq<Waiter>, s: nat, kind: WaiterKind, r: nat)
    ensures Count(RetireAll(waiters, s), kind, r) == if r == s then 0 else Count(waiters, kind, r)
  {
    if waiters != [] {
      CountRetireAll(waiters[1..], s, kind, r);
    }
  }

  lemma {:induction false} Counted(waiters: seq<Waiter>, w: Waiter)
    ensures w in waiters <==> Count(waiters, w.kind, w.seq_) > 0
  {
    if waiters != [] {
      Counted(waiters[1..], w);
    }
  }

  /** An activity without a record has no waiter. */
  lemma AbsentIsIdle(t: Table, s: nat)
    requires Good(t) && s !in t.pending
    ensures Idle(t, s)
  {
    Counted(t.waiters, Waiter(Run, s));
    Counted(t.waiters, Waiter(Queue, s));
    Counted(t.waiters, Waiter(ParkDeadline, s));
    Counted(t.waiters, Waiter(ParkHeartbeat, s));
  }

  /** Nothing but activity s is concerned by the step. */
  ghost predicate Touches(t: Table, t': Table, s: nat) {
    && t'.next == t.next
    && (forall r :: r != s ==> (r in t'.pending <==> r in t.pending))
    && (forall r :: r != s && r in t.pending ==> t'.pending[r] == t.pending[r])
    && (s in t'.pending ==> s in t.pending && t'.pending[s].id == t.pending[s].id)
    && (forall r :: r != s ==> (r in t'.futures <==> r in t.futures))
    && (forall r :: r != s && r in t.futures ==> t'.futures[r] == t.futures[r])
    && (s in t'.futures ==> s in t.futures)
    && (forall r :: r != s ==> (r in t'.commands <==> r in t.commands))
    && (forall r :: r != s && r in t.cancelled ==> r in t'.cancelled)
    && (forall r, kind :: r != s ==> Count(t'.waiters, kind, r) == Count(t.waiters, kind, r))
    && (t'.commands == t.commands || (t.commands != [] && t'.commands == t.commands[1..]))
  }

  /** A record is in order as long as nothing of its activity changes. */
  lemma RecordStays(t: Table, t': Table, r: nat)
    requires r in t.pending && Record(t, r) && r in t'.pending && t'.pending[r] == t.pending[r]
    requires t.next <= t'.next && r in t'.futures && t'.futures[r] == t.futures[r]
    requires (r in t'.commands <==> r in t.commands) && (r in t.cancelled ==> r in t'.cancelled)
    requires forall kind :: Count(t'.waiters, kind, r) == Count(t.waiters, kind, r)
    ensures Record(t', r)
  {
  }

  /** A step that touches one activity keeps the table good if it leaves that
      activity's record in order, or no record and no waiter. */
  lemma StillGood(t: Table, t': Table, s: nat)
    requires Good(t) && Touches(t, t', s)
    requires if s in t'.pending then Record(t', s) else Idle(t', s)
    ensures Good(t')
  {
    forall r | r in t'.pending ensures Record(t', r) {
      if r != s {
        assert Record(t, r);
        RecordStays(t, t', r);
      }
    }
    forall w <- t'.waiters ensures w.seq_ in t'.pending {
      WaiterHasRecord(t, t', s, w);
    }
    FewerCommands(t.commands, t'.commands);
    forall a, b | a in t'.pending && b in t'.pending && a != b ensures t'.pending[a].id != t'.pending[b].id {
      assert t'.pending[a].id == t.pending[a].id && t'.pending[b].id == t.pending[b].id;
    }
  }

  lemma FewerCommands(commands: seq<nat>, rest: seq<nat>)
    requires Distinct(commands) && (rest == commands || (commands != [] && rest == commands[1..]))
    ensures Distinct(rest) && forall s <- rest :: s in commands
  {
  }

  lemma WaiterHasRecord(t: Table, t': Table, s: nat, w: Waiter)
    requires Good(t) && Touches(t, t', s) && (s !in t'.pending ==> Idle(t', s)) && w in t'.waiters
    ensures w.seq_ in t'.pending
  {
    Counted(t'.waiters, w);
    Counted(t.waiters, w);
    assert w.kind.Run? || w.kind.Queue? || w.kind.ParkDeadline? || w.kind.ParkHeartbeat?;
  }

  // ---------------------------------------------------------------------
  // The pieces of a step, from a table in which the activity has no waiter
  // ---------------------------------------------------------------------

  ghost predicate Idle(t: Table, s: nat) {
    Has(t.waiters, s, Tally(0, 0, 0, 0))
  }

  ghost predicate Quiet(t: Table, s: nat) {
    Awake(t, s) && s !in t.commands && 1 <= s < t.next && Idle(t, s)
  }

  /** The step ends with the activity's record in order, or closed and without waiters. */
  ghost predicate Settles(t: Table, t': Table, s: nat) {
    Touches(t, t', s) && if s in t'.pending then Record(t', s) else Idle(t', s)
  }

  lemma SettlesAfter(t: Table, t': Table, t'': Table, s: nat)
    requires Touches(t, t', s) && Settles(t', t'', s) && t''.commands == t'.commands
    ensures Settles(t, t'', s)
  {
  }

  lemma ResolveSettles(t: Table, s: nat, future: Future)
    requires Quiet(t, s)
    ensures Settles(t, Resolve(t, s, future), s) && Resolve(t, s, future).commands == t.commands
  {
  }

  lemma LaunchSettles(t: Table, s: nat)
    requires Quiet(t, s) && !t.pending[s].queued && !t.pending[s].parked
    ensures Settles(t, LaunchAttempt(t, s), s) && LaunchAttempt(t, s).commands == t.commands
  {
    CountAppend(t.waiters, Waiter(Run, s));
  }

  /** An exec between attempts: not parked, queued or backing off. */
  ghost predicate Plain(e: Exec) {
    !e.parked && !e.queued && !e.inBackoff && e.attempt >= 1
  }

  lemma FailSettles(t: Table, s: nat, e: Exec, failure: Failure)
    requires Quiet(t, s) && Plain(e) && e.id == t.pending[s].id
    ensures Settles(t, FailAttempt(t, s, e, failure), s) && FailAttempt(t, s, e, failure).commands == t.commands
  {
    CountAppend(t.waiters, Waiter(Run, s));
    if Decision(t.clock, e, failure).0.None? {
      ResolveSettles(t, s, Failed(Some(Decision(t.clock, e, failure).1)));
    }
  }

  lemma ParkSettles(t: Table, s: nat, startedAt: real, endedAt: real)
    requires Quiet(t, s) && Plain(t.pending[s])
    ensures
      var t' := Park(t, s, t.pending[s], startedAt, endedAt);
      Settles(t, t', s) && t'.commands == t.commands
  {
    var e := t.pending[s];
    var t' := Park(t, s, e, startedAt, endedAt);
    var (bound, timeout) := ParkBound(t, e, startedAt, endedAt);
    ParkedList(t, s, startedAt, endedAt);
    ParkedCounts(t.waiters, s, bound.Some?, e.request.heartbeat.Some?);
    ParkedSettles(t, s, ParkedExec(e, bound, timeout), t');
  }

  /** The timers of a park. */
  predicate Arms(w: Waiter, s: nat, deadline: bool, heartbeat: bool) {
    (deadline && w == Waiter(ParkDeadline, s)) || (heartbeat && w == Waiter(ParkHeartbeat, s))
  }

  function ArmedList(waiters: seq<Waiter>, s: nat, deadline: bool, heartbeat: bool): seq<Waiter> {
    var timed := if deadline then waiters + [Waiter(ParkDeadline, s)] else waiters;
    if heartbeat then timed + [Waiter(ParkHeartbeat, s)] else timed
  }

  lemma ParkedList(t: Table, s: nat, startedAt: real, endedAt: real)
    requires s in t.pending
    ensures
      var e := t.pending[s];
      var (bound, timeout) := ParkBound(t, e, startedAt, endedAt);
      Park(t, s, e, startedAt, endedAt) ==
      t.(pending := t.pending[s := ParkedExec(e, bound, timeout)],
         waiters := ArmedList(t.waiters, s, bound.Some?, e.request.heartbeat.Some?))
  {
  }

  lemma ParkedCounts(waiters: seq<Waiter>, s: nat, deadline: bool, heartbeat: bool)
    ensures forall kind, r ::
              Count(ArmedList(waiters, s, deadline, heartbeat), kind, r) ==
              Count(waiters, kind, r) + if Arms(Waiter(kind, r), s, deadline, heartbeat) then 1 else 0
  {
    var timed := if deadline then waiters + [Waiter(ParkDeadline, s)] else waiters;
    CountAppend(waiters, Waiter(ParkDeadline, s));
    CountAppend(timed, Waiter(ParkHeartbeat, s));
  }

  lemma ParkedSettles(t: Table, s: nat, e: Exec, t': Table)
    requires Quiet(t, s) && e.request == t.pending[s].request && e.id == t.pending[s].id
    requires Plain(e.(parked := false)) && e.parked
    requires t' == t.(pending := t.pending[s := e], waiters := t'.waiters)
    requires
      var deadline := e.request.startToClose.Some? || e.request.scheduleToClose.Some?;
      forall kind, r ::
        Count(t'.waiters, kind, r) ==
        Count(t.waiters, kind, r) + if Arms(Waiter(kind, r), s, deadline, e.request.heartbeat.Some?) then 1 else 0
    ensures Settles(t, t', s)
  {
  }

  lemma ParkTimedOutSettles(t: Table, s: nat, timeout: TimeoutType)
    requires Awake(t, s) && s !in t.commands && 1 <= s < t.next && Plain(t.pending[s].(parked := false))
    requires t.pending[s].parked && Count(t.waiters, Run, s) == 0 && Count(t.waiters, Queue, s) == 0
    ensures
      var t' := ParkTimedOut(t, s, timeout);
      Settles(t, t', s) && t'.commands == t.commands
  {
    forall kind, r { CountRetireParked(t.waiters, s, kind, r); }
    var quiet := t.(waiters := RetireParked(t.waiters, s));
    FailSettles(quiet, s, t.pending[s].(parked := false), TimeoutFailure(timeout));
    SettlesAfter(t, quiet, ParkTimedOut(t, s, timeout), s);
  }

  // ---------------------------------------------------------------------
  // The steps
  // ---------------------------------------------------------------------

  lemma Removed(t: Table, i: nat) returns (t': Table)
    requires Good(t) && i < |t.waiters|
    ensures t' == t.(waiters := WithoutAt(t.waiters, i)) && Touches(t, t', t.waiters[i].seq_)
    ensures forall kind ::
              Count(t'.waiters, kind, t.waiters[i].seq_) ==
              Count(t.waiters, kind, t.waiters[i].seq_) - if kind == t.waiters[i].kind then 1 else 0
  {
    t' := t.(waiters := WithoutAt(t.waiters, i));
    CountWithoutAt(t.waiters, i);
  }

  /** A backoff's end, from the table without its waiter. */
  lemma BackoffSettles(t: Table, s: nat, env: Envelope) returns (t': Table)
    requires Quiet(t, s) && t.pending[s].inBackoff && !t.pending[s].queued && !t.pending[s].parked
    ensures t' == DeliverRun(t, s, env) && Settles(t, t', s) && t'.commands == t.commands
  {
    var resumed := Resumed(t, s);
    t' := LaunchAttempt(resumed, s);
    assert Settles(t, t', s) by {
      assert Touches(t, resumed, s);
      LaunchSettles(resumed, s);
      SettlesAfter(t, resumed, t', s);
    }
  }

  lemma RunDelivered(t: Table, i: nat, env: Envelope) returns (t': Table)
    requires Good(t) && t.cancelled == [] && i < |t.waiters| && t.waiters[i].kind.Run?
    ensures t' == Deliver(t, i, env) && Settles(t, t', t.waiters[i].seq_)
  {
    var s := t.waiters[i].seq_;
    assert t.waiters[i] in t.waiters && Record(t, s);
    Counted(t.waiters, t.waiters[i]);
    var removed := Removed(t, i);
    if t.pending[s].inBackoff {
      t' := BackoffSettles(removed, s, env);
    } else {
      t' := AttemptSettles(removed, s, env);
    }
    SettlesAfter(t, removed, t', s);
  }

  /** An attempt's end, from the table without its waiter. */
  lemma AttemptSettles(t: Table, s: nat, env: Envelope) returns (t': Table)
    requires Quiet(t, s) && Plain(t.pending[s])
    ensures t' == DeliverRun(t, s, env) && Settles(t, t', s) && t'.commands == t.commands
  {
    t' := DeliverRun(t, s, env);
    var later := Advance(t, env.endedAt);
    assert Touches(t, later, s);
    match env.result {
      case CompletesLater(startedAt) => ParkSettles(later, s, startedAt, env.endedAt);
      case Ok => ResolveSettles(later, s, Succeeded);
      case Err(failure) =>
        if t.pending[s].cancelRequested && failure.cls.CancelledError? {
          ResolveSettles(later, s, Cancelled);
        } else {
          FailSettles(later, s, t.pending[s], failure);
        }
    }
    SettlesAfter(t, later, t', s);
  }

  /** A queued result, from the table without its waiter. */
  lemma QueueSettles(t: Table, s: nat, env: Envelope)
    requires Quiet(t, s)
    ensures Settles(t, DeliverQueued(t, s, env), s) && DeliverQueued(t, s, env).commands == t.commands
  {
    var later := Advance(t, env.endedAt);
    var future :=
      if !env.result.Err? then Succeeded
      else if t.pending[s].cancelRequested && env.result.failure.cls.CancelledError? then Cancelled
      else Failed(env.retryState);
    assert DeliverQueued(t, s, env) == Resolve(later, s, future);
    ResolveSettles(later, s, future);
    SettlesAfter(t, later, Resolve(later, s, future), s);
  }

  lemma QueueDelivered(t: Table, i: nat, env: Envelope) returns (t': Table)
    requires Good(t) && t.cancelled == [] && i < |t.waiters| && t.waiters[i].kind.Queue?
    ensures t' == Deliver(t, i, env) && Settles(t, t', t.waiters[i].seq_)
  {
    var s := t.waiters[i].seq_;
    assert t.waiters[i] in t.waiters && Record(t, s);
    Counted(t.waiters, t.waiters[i]);
    var removed := Removed(t, i);
    t' := DeliverQueued(removed, s, env);
    QueueSettles(removed, s, env);
    SettlesAfter(t, removed, t', s);
  }

  /** A park's end, from the table without its waiter. */
  lemma DeadlineSettles(t: Table, s: nat) returns (t': Table)
    requires Awake(t, s) && s !in t.commands && 1 <= s < t.next && Plain(t.pending[s].(parked := false))
    requires t.pending[s].parked && Count(t.waiters, Run, s) == 0 && Count(t.waiters, Queue, s) == 0
    ensures t' == DeliverDeadline(t, s)
    ensures Settles(t, t', s) && t'.commands == t.commands
  {
    var e := t.pending[s];
    var charged := Update(Advance(t, t.clock + e.pendingWait), s, e.(pendingWait := 0.0));
    t' := ParkTimedOut(charged, s, e.parkTimeout);
    assert Touches(t, charged, s);
    assert Settles(charged, t', s) && t'.commands == charged.commands by {
      ParkTimedOutSettles(charged, s, e.parkTimeout);
    }
    SettlesAfter(t, charged, t', s);
  }

  lemma DeadlineDelivered(t: Table, i: nat, env: Envelope) returns (t': Table)
    requires Good(t) && t.cancelled == [] && i < |t.waiters| && t.waiters[i].kind.ParkDeadline?
    ensures t' == Deliver(t, i, env) && Settles(t, t', t.waiters[i].seq_)
  {
    var s := t.waiters[i].seq_;
    assert t.waiters[i] in t.waiters && Record(t, s);
    Counted(t.waiters, t.waiters[i]);
    var removed := Removed(t, i);
    t' := DeadlineSettles(removed, s);
    SettlesAfter(t, removed, t', s);
  }

  /** The end of a heartbeat window, from the table without its waiter. */
  lemma HeartbeatSettles(t: Table, s: nat) returns (t': Table)
    requires Awake(t, s) && s !in t.commands && 1 <= s < t.next && Plain(t.pending[s].(parked := false))
    requires t.pending[s].parked && Count(t.waiters, Run, s) == 0 && Count(t.waiters, Queue, s) == 0
    requires Count(t.waiters, ParkHeartbeat, s) == 0 && t.pending[s].request.heartbeat.Some?
    requires Count(t.waiters, ParkDeadline, s) == Expected(t.pending[s], Parked).deadline
    ensures t' == DeliverHeartbeat(t, s)
    ensures Settles(t, t', s) && t'.commands == t.commands
  {
    if t.pending[s].beat {
      CountAppend(t.waiters, Waiter(ParkHeartbeat, s));
      t' := Wait(Update(t, s, t.pending[s].(beat := false)), ParkHeartbeat, s);
    } else {
      t' := ParkTimedOut(t, s, Heartbeat);
      ParkTimedOutSettles(t, s, Heartbeat);
    }
  }

  lemma HeartbeatDelivered(t: Table, i: nat, env: Envelope) returns (t': Table)
    requires Good(t) && t.cancelled == [] && i < |t.waiters| && t.waiters[i].kind.ParkHeartbeat?
    ensures t' == Deliver(t, i, env) && Settles(t, t', t.waiters[i].seq_)
  {
    var s := t.waiters[i].seq_;
    assert t.waiters[i] in t.waiters && Record(t, s);
    Counted(t.waiters, t.waiters[i]);
    var removed := Removed(t, i);
    t' := HeartbeatSettles(removed, s);
    SettlesAfter(t, removed, t', s);
  }

  /** The delivery of any done waiter touches its own activity only and keeps the invariant. */
  lemma DeliverGood(t: Table, i: nat, env: Envelope) returns (t': Table)
    requires Good(t) && t.cancelled == [] && i < |t.waiters|
    ensures Possible(t, Delivers(i, env)) && t' == Deliver(t, i, env)
    ensures Good(t') && Touches(t, t', t.waiters[i].seq_)
  {
    var w := t.waiters[i];
    assert Deliverable(t, w) by {
      assert w in t.waiters && Record(t, w.seq_);
    }
    match w.kind {
      case Run => t' := RunDelivered(t, i, env);
      case Queue => t' := QueueDelivered(t, i, env);
      case ParkDeadline => t' := DeadlineDelivered(t, i, env);
      case ParkHeartbeat => t' := HeartbeatDelivered(t, i, env);
    }
    StillGood(t, t', w.seq_);
  }

  /** Taking the next command off the list. */
  lemma CommandTaken(t: Table) returns (taken: Table)
    requires Good(t) && t.commands != []
    ensures taken == t.(commands := t.commands[1..]) && Touches(t, taken, t.commands[0])
    ensures t.commands[0] !in taken.commands
  {
    taken := t.(commands := t.commands[1..]);
    assert t.commands == [t.commands[0]] + taken.commands;
  }

  lemma CommandSettles(taken: Table, s: nat, enqueued: bool, t: Table)
    requires Quiet(taken, s) && Plain(taken.pending[s])
    requires t.commands != [] && t.commands[0] == s && taken == t.(commands := t.commands[1..])
    ensures Settles(taken, Dispatch(t, enqueued), s) && Dispatch(t, enqueued).commands == taken.commands
  {
    if !taken.pending[s].request.elsewhere {
      LaunchSettles(taken, s);
    } else if enqueued {
      CountAppend(taken.waiters, Waiter(Queue, s));
    } else {
      ResolveSettles(taken, s, Failed(None));
    }
  }

  lemma DispatchGood(t: Table, enqueued: bool)
    requires Good(t) && Possible(t, Dispatches(enqueued))
    ensures Good(Dispatch(t, enqueued))
  {
    var s := t.commands[0];
    var taken := CommandTaken(t);
    if s in t.pending {
      assert Record(t, s);
      CommandSettles(taken, s, enqueued, t);
      SettlesAfter(t, taken, Dispatch(t, enqueued), s);
    } else {
      AbsentIsIdle(t, s);
    }
    StillGood(t, Dispatch(t, enqueued), s);
  }

  /** What a completion leaves of its own activity: closed with its outcome, or
      failed into a backoff; either way without park timers. */
  ghost predicate Completed(t: Table, t': Table, s: nat, completion: Completion)
    requires Awake(t, s)
  {
    && Count(t'.waiters, ParkDeadline, s) == 0 && Count(t'.waiters, ParkHeartbeat, s) == 0
    && s in t'.futures
    && match completion
       case Complete => s !in t'.pending && t'.futures[s] == Succeeded
       case ReportCancelled => s !in t'.pending && t'.futures[s] == Cancelled
       case Fail(failure) =>
         var (delay, state) := Decision(t.clock, t.pending[s], failure);
         if delay.None? then s !in t'.pending && t'.futures[s] == Failed(Some(state))
         else
           && s in t'.pending && t'.futures[s].Pending?
           && t'.pending[s] == t.pending[s].(parked := false, inBackoff := true, pendingWait := delay.value)
  }

  lemma CompletionSettles(t: Table, s: nat, completion: Completion) returns (t': Table)
    requires Good(t) && t.cancelled == [] && s in t.pending && t.pending[s].parked
    ensures Awake(t, s) && t' == CompleteParked(t, s, completion) && Settles(t, t', s)
  {
    assert Record(t, s);
    forall kind, r { CountRetireParked(t.waiters, s, kind, r); }
    var quiet := t.(waiters := RetireParked(t.waiters, s));
    t' := CompleteParked(t, s, completion);
    match completion {
      case Complete => ResolveSettles(quiet, s, Succeeded);
      case ReportCancelled => ResolveSettles(quiet, s, Cancelled);
      case Fail(failure) => FailSettles(quiet, s, t.pending[s].(parked := false), failure);
    }
    SettlesAfter(t, quiet, t', s);
  }

  lemma CompletionGood(t: Table, s: nat, completion: Completion)
    requires Good(t) && t.cancelled == [] && s in t.pending && t.pending[s].parked
    ensures Awake(t, s) && Good(CompleteParked(t, s, completion))
  {
    var t' := CompletionSettles(t, s, completion);
    StillGood(t, t', s);
  }

  /** An external completion touches no other activity, and closes its own or sends
      it into a backoff, in either case without its park timers. */
  lemma CompletionActsAlone(t: Table, s: nat, completion: Completion)
    requires Good(t) && t.cancelled == [] && s in t.pending && t.pending[s].parked
    ensures Awake(t, s)
    ensures Touches(t, CompleteParked(t, s, completion), s)
    ensures Completed(t, CompleteParked(t, s, completion), s, completion)
  {
    var t' := CompletionSettles(t, s, completion);
    CompletedWithout(t, s, completion);
  }

  lemma CompletedWithout(t: Table, s: nat, completion: Completion)
    requires Awake(t, s) && t.pending[s].parked
    ensures Completed(t, CompleteParked(t, s, completion), s, completion)
  {
    CountRetireParked(t.waiters, s, ParkDeadline, s);
    CountRetireParked(t.waiters, s, ParkHeartbeat, s);
    CountAppend(RetireParked(t.waiters, s), Waiter(Run, s));
  }

  lemma DistinctSnoc(commands: seq<nat>, s: nat)
    requires Distinct(commands) && s !in commands
    ensures Distinct(commands + [s])
  {
  }

  lemma StartGood(t: Table, request: Request)
    requires Good(t)
    ensures Good(Start(t, request).0)
  {
    var (t', started) := Start(t, request);
    var s := t.next;
    if started {
      assert forall r <- t.pending :: Record(t, r) && r < s;
      DistinctSnoc(t.commands, s);
    }
    forall r <- t'.pending ensures Record(t', r) {
      if r == s && started {
        NewRecord(t, request, t');
      } else {
        assert Record(t, r);
        RecordStays(t, t', r);
      }
    }
  }

  lemma NewRecord(t: Table, request: Request, t': Table)
    requires Good(t) && Start(t, request) == (t', true)
    ensures t.next in t'.pending && Record(t', t.next)
  {
    var s := t.next;
    AbsentIsIdle(t, s) by {
      assert forall r <- t.pending :: Record(t, r);
    }
  }

  lemma CancelFutureGood(t: Table, s: nat)
    requires Good(t)
    ensures Good(CancelFuture(t, s))
  {
    var t' := CancelFuture(t, s);
    forall r <- t'.pending ensures Record(t', r) {
      assert Record(t, r);
    }
  }

  lemma MarkGood(t: Table, s: nat)
    requires Good(t) && s in t.pending
    ensures Good(Update(t, s, t.pending[s].(cancelRequested := true)))
  {
    var t' := Update(t, s, t.pending[s].(cancelRequested := true));
    forall r <- t'.pending ensures Record(t', r) {
      assert Record(t, r);
      assert PhaseOf(t', r) == PhaseOf(t, r);
    }
  }

  lemma CancelHandleGood(t: Table, s: nat)
    requires Good(t)
    ensures Good(CancelHandle(t, s))
  {
    if s in t.pending {
      MarkGood(t, s);
      CancelFutureGood(t, s);
    }
  }

  lemma SweepOneGood(t: Table)
    requires Good(t) && t.cancelled != []
    ensures Good(SweepOne(t))
  {
    var s := t.cancelled[0];
    var t' := SweepOne(t);
    SweepOneDrops(t);
    assert t.cancelled == [s] + t'.cancelled;
    forall r <- t'.pending ensures Record(t', r) {
      assert Record(t, r);
      RecordStays(t, t', r);
    }
    forall w <- t'.waiters ensures w.seq_ in t'.pending {
      Counted(t'.waiters, w);
      Counted(t.waiters, w);
    }
  }

  lemma {:induction false} SweepGood(t: Table)
    requires Good(t)
    ensures Good(Sweep(t))
    decreases |t.cancelled|
  {
    if t.cancelled != [] {
      SweepOneGood(t);
      SweepGood(SweepOne(t));
    }
  }

  /** The cancelled activities are gone with all their waiters, everything else is as it was. */
  ghost predicate SweptAway(t: Table, t': Table) {
    && t'.pending == t.pending - (set s | s in t.cancelled)
    && t' == t.(pending := t'.pending, waiters := t'.waiters, cancelled := [])
    && forall kind, s :: Count(t'.waiters, kind, s) == if s in t.cancelled then 0 else Count(t.waiters, kind, s)
  }

  lemma SweepOneDrops(t: Table)
    requires Good(t) && t.cancelled != []
    ensures
      var s, t' := t.cancelled[0], SweepOne(t);
      && t'.pending == t.pending - {s}
      && t' == t.(pending := t'.pending, waiters := t'.waiters, cancelled := t.cancelled[1..])
      && forall kind, r :: Count(t'.waiters, kind, r) == if r == s then 0 else Count(t.waiters, kind, r)
  {
    var s := t.cancelled[0];
    if s in t.pending {
      forall kind, r { CountRetireAll(t.waiters, s, kind, r); }
    } else {
      AbsentIsIdle(t, s);
      assert t.pending - {s} == t.pending;
      forall kind: WaiterKind ensures Count(t.waiters, kind, s) == 0 {
        match kind {
          case Run =>
          case Queue =>
          case ParkDeadline =>
          case ParkHeartbeat =>
        }
      }
    }
  }

  /** The sweep drops exactly the cancelled activities, and their waiters. */
  lemma {:induction false} SweepDropsExactly(t: Table)
    requires Good(t)
    ensures SweptAway(t, Sweep(t))
    decreases |t.cancelled|
  {
    if t.cancelled != [] {
      var rest := SweepOne(t);
      SweepOneGood(t);
      SweepOneDrops(t);
      SweepDropsExactly(rest);
      SweptAfter(t, rest, Sweep(rest));
    }
  }

  lemma SweptAfter(t: Table, u: Table, t': Table)
    requires t.cancelled != [] && SweptAway(u, t')
    requires
      var s := t.cancelled[0];
      && u.pending == t.pending - {s}
      && u == t.(pending := u.pending, waiters := u.waiters, cancelled := t.cancelled[1..])
      && forall kind, r :: Count(u.waiters, kind, r) == if r == s then 0 else Count(t.waiters, kind, r)
    ensures SweptAway(t, t')
  {
    assert t.cancelled == [t.cancelled[0]] + t.cancelled[1..];
    assert (set s | s in t.cancelled) == {t.cancelled[0]} + set s | s in u.cancelled;
  }

  lemma AdvanceGood(t: Table, to: real)
    requires Good(t)
    ensures Good(Advance(t, to))
  {
    forall r <- t.pending ensures Record(Advance(t, to), r) {
      assert Record(t, r);
    }
  }

  lemma BeatGood(t: Table, s: nat)
    requires Good(t) && s in t.pending
    ensures Good(Beat(t, s))
  {
    var t' := Beat(t, s);
    forall r <- t'.pending ensures Record(t', r) {
      assert Record(t, r);
    }
  }

  /** After the sweep a waiter wakes an activity in the waiter's own phase. */
  lemma WaiterIsAwake(t: Table, w: Waiter)
    requires Good(t) && t.cancelled == [] && w in t.waiters
    ensures Awake(t, w.seq_) && 1 <= w.seq_ < t.next && w.seq_ !in t.commands
    ensures Parks(w, w.seq_) <==> t.pending[w.seq_].parked
    ensures t.pending[w.seq_].inBackoff ==> w.kind.Run?
  {
    PhaseWaiters(t, w);
    Counted(t.waiters, w);
  }

  // ---------------------------------------------------------------------
  // Messages: whom an activity id reaches
  // ---------------------------------------------------------------------

  /** The one parked activity with the id, if there is one. */
  ghost predicate Only(t: Table, id: string, s: Option<nat>) {
    if s.None? then !exists r :: Open(t, r, id)
    else Open(t, s.value, id) && forall r :: Open(t, r, id) ==> r == s.value
  }

  lemma OpenUnder(t: Table, id: string) returns (s: Option<nat>)
    requires Good(t)
    ensures Only(t, id, s)
  {
    s := None;
    if r :| Open(t, r, id) {
      s := Some(r);
    }
  }

  lemma CompletesWhere(t: Table, id: string, completion: Completion, sentAt: real, s: Option<nat>)
    requires Possible(t, Completes(id, completion, sentAt)) && Only(t, id, s)
    ensures s.Some? ==> Awake(Advance(t, sentAt), s.value)
    ensures Next(t, Completes(id, completion, sentAt)) ==
        if s.Some? then CompleteParked(Advance(t, sentAt), s.value, completion) else Advance(t, sentAt)
  {
  }

  lemma BeatsWhere(t: Table, id: string, sentAt: real, s: Option<nat>)
    requires Possible(t, Beats(id, sentAt)) && Only(t, id, s)
    ensures Next(t, Beats(id, sentAt)) ==
        if s.Some? then Beat(Advance(t, sentAt), s.value) else Advance(t, sentAt)
  {
  }

  lemma CompletesGood(t: Table, id: string, completion: Completion, sentAt: real)
    requires Good(t) && Possible(t, Completes(id, completion, sentAt))
    ensures Good(Next(t, Completes(id, completion, sentAt)))
  {
    var s := OpenUnder(t, id);
    AdvanceGood(t, sentAt);
    if s.Some? {
      CompletionGood(Advance(t, sentAt), s.value, completion);
    }
    CompletesWhere(t, id, completion, sentAt, s);
  }

  lemma BeatsGood(t: Table, id: string, sentAt: real)
    requires Good(t) && Possible(t, Beats(id, sentAt))
    ensures Good(Next(t, Beats(id, sentAt)))
  {
    var s := OpenUnder(t, id);
    AdvanceGood(t, sentAt);
    if s.Some? {
      BeatGood(Advance(t, sentAt), s.value);
    }
    BeatsWhere(t, id, sentAt, s);
  }

  // ---------------------------------------------------------------------
  // Every run
  // ---------------------------------------------------------------------

  /** After the sweep no open activity awaits a future that is already done: what
      the source's deliveries and completions rely on when they resolve one. */
  lemma SweptIsAwake(t: Table, s: nat)
    requires Good(t) && t.cancelled == [] && s in t.pending
    ensures Awake(t, s)
  {
    assert Record(t, s);
  }

  lemma NextIsGood(t: Table, event: Event)
    requires Good(t) && Possible(t, event)
    ensures Good(Next(t, event))
  {
    match event
    case Starts(request) => StartGood(t, request);
    case CancelsHandle(s) => CancelHandleGood(t, s);
    case CancelsAwait(s) => CancelFutureGood(t, s);
    case Sweeps => SweepGood(t);
    case Dispatches(enqueued) => DispatchGood(t, enqueued);
    case Delivers(i, env) => var _ := DeliverGood(t, i, env);
    case Completes(id, completion, sentAt) => CompletesGood(t, id, completion, sentAt);
    case Beats(id, sentAt) => BeatsGood(t, id, sentAt);
    case Passes(to) => AdvanceGood(t, to);
  }

  ghost predicate Runs(t: Table, events: seq<Event>, t': Table)
    decreases |events|
  {
    if events == [] then t == t' else Possible(t, events[0]) && Runs(Next(t, events[0]), events[1..], t')
  }

  /** In every run each open activity is in exactly one phase, with exactly that
      phase's waiters, under an id no other open activity has. */
  lemma {:induction false} RunsStayGood(t: Table, events: seq<Event>, t': Table)
    requires Good(t) && Runs(t, events, t')
    ensures Good(t')
    decreases |events|
  {
    if events != [] {
      NextIsGood(t, events[0]);
      RunsStayGood(Next(t, events[0]), events[1..], t');
    }
  }

  /** The interpreter may always deliver, dispatch and complete once it has swept:
      no result is ever set on a future already resolved. */
  lemma EveryDeliveryIsSafe(t: Table, env: Envelope, enqueued: bool, id: string, completion: Completion, sentAt: real)
    requires Good(t) && t.cancelled == []
    ensures forall i: nat :: i < |t.waiters| ==> Possible(t, Delivers(i, env))
    ensures t.commands != [] ==> Possible(t, Dispatches(enqueued))
    ensures Possible(t, Completes(id, completion, sentAt))
  {
    forall s | s in t.pending ensures Awake(t, s) {
      SweptIsAwake(t, s);
    }
  }

  // ---------------------------------------------------------------------
  // Several waiters done in one round
  // ---------------------------------------------------------------------

  lemma RetireParkedMember(waiters: seq<Waiter>, s: nat, v: Waiter)
    ensures v in RetireParked(waiters, s) <==> v in waiters && !Parks(v, s)
  {
    CountRetireParked(waiters, s, v.kind, v.seq_);
    Counted(waiters, v);
    Counted(RetireParked(waiters, s), v);
  }

  /** What a failed attempt does to the list besides its own new backoff. */
  lemma FailKeepsWaiters(t: Table, s: nat, e: Exec, failure: Failure, v: Waiter)
    requires e.attempt >= 1 && s in t.futures && t.futures[s].Pending? && v != Waiter(Run, s)
    ensures v in FailAttempt(t, s, e, failure).waiters <==> v in t.waiters
  {
  }

  lemma AtMostOne(t: Table, w: Waiter)
    requires Good(t) && w in t.waiters
    ensures Count(t.waiters, w.kind, w.seq_) <= 1
  {
    assert Record(t, w.seq_);
    assert w.kind.Run? || w.kind.Queue? || w.kind.ParkDeadline? || w.kind.ParkHeartbeat?;
  }

  lemma OthersRemain(t: Table, i: nat, j: nat)
    requires Good(t) && i < |t.waiters| && j < |t.waiters| && i != j
    ensures t.waiters[i] != t.waiters[j] && t.waiters[j] in WithoutAt(t.waiters, i)
  {
    var w, v := t.waiters[i], t.waiters[j];
    AtMostOne(t, w);
    CountWithoutAt(t.waiters, i);
    assert w == Waiter(w.kind, w.seq_);
    var k := if j < i then j else j - 1;
    assert WithoutAt(t.waiters, i)[k] == v;
    Counted(WithoutAt(t.waiters, i), v);
  }

  lemma RunWaiters(t: Table, s: nat, env: Envelope, v: Waiter)
    requires Awake(t, s) && v != Waiter(Run, s) && !Parks(v, s)
    ensures v in DeliverRun(t, s, env).waiters <==> v in t.waiters
  {
    var e := t.pending[s];
    if !e.inBackoff && env.result.Err? && !(e.cancelRequested && env.result.failure.cls.CancelledError?) {
      FailKeepsWaiters(Advance(t, env.endedAt), s, e, env.result.failure, v);
    }
  }

  lemma DeadlineWaiters(t: Table, s: nat, v: Waiter)
    requires Awake(t, s) && t.pending[s].parked && v != Waiter(Run, s)
    ensures v in DeliverDeadline(t, s).waiters <==> v in t.waiters && !Parks(v, s)
  {
    var e := t.pending[s].(pendingWait := 0.0);
    var charged := Update(Advance(t, t.clock + t.pending[s].pendingWait), s, e);
    TimedOutWaiters(charged, s, e.parkTimeout, v);
  }

  /** Which waiters a waiter of activity s shares the list with. */
  lemma PhaseWaiters(t: Table, v: Waiter)
    requires Good(t) && v in t.waiters
    ensures v.seq_ in t.pending && Record(t, v.seq_)
    ensures Parks(v, v.seq_) <==> t.pending[v.seq_].parked
    ensures !(v.seq_ in t.commands) && (v.kind.Queue? <==> t.pending[v.seq_].queued)
  {
    assert Record(t, v.seq_);
    Counted(t.waiters, v);
  }

  /** Of two done waiters of activities the second is still in the list after the
      first's delivery, exactly unless the first was a park timer of the same activity
      that timed it out.  Whole rounds, with the inbox's messages: RoundFailsExactly. */
  lemma SecondDoneWaiterRemains(t: Table, i: nat, j: nat, env: Envelope)
    requires Good(t) && t.cancelled == [] && i < |t.waiters| && j < |t.waiters| && i != j
    ensures Possible(t, Delivers(i, env))
    ensures
      var w, v := t.waiters[i], t.waiters[j];
      v in Deliver(t, i, env).waiters <==>
      !(Parks(v, w.seq_) && (w.kind.ParkDeadline? || (w.kind.ParkHeartbeat? && !t.pending[w.seq_].beat)))
  {
    var w, v := t.waiters[i], t.waiters[j];
    var s := w.seq_;
    PhaseWaiters(t, w);
    PhaseWaiters(t, v);
    OthersRemain(t, i, j);
    var removed := t.(waiters := WithoutAt(t.waiters, i));
    match w.kind {
      case Run =>
        assert v != Waiter(Run, s) && !Parks(v, s);
        RunWaiters(removed, s, env, v);
      case Queue =>
        assert !Parks(v, s);
      case ParkDeadline =>
        assert v != Waiter(Run, s);
        DeadlineWaiters(removed, s, v);
      case ParkHeartbeat =>
        assert v != Waiter(Run, s);
        if !t.pending[s].beat {
          TimedOutWaiters(removed, s, Heartbeat, v);
        }
    }
  }

  /** A start, its launch and a return that completes later leave an activity with
      both its park timers waiting. */
  lemma ParkingReached() returns (events: seq<Event>, t: Table)
    ensures Runs(Empty(0.0), events, t) && Good(t) && Parking(t)
  {
    var t0, t1 := Empty(0.0), Next(Empty(0.0), Starts(PARKING));
    var t2 := ParkingLaunched();
    ParkingParks(t2);
    t := Next(t2, Delivers(0, LATER));
    events := ThreeEvents(t0, Starts(PARKING), t1, Dispatches(true), t2, Delivers(0, LATER), t);
    RunsStayGood(t0, events, t);
  }

  lemma ParkingLaunched() returns (t: Table)
    ensures
      var started := Next(Empty(0.0), Starts(PARKING));
      Possible(started, Dispatches(true)) && t == Next(started, Dispatches(true))
    ensures t.waiters == [Waiter(Run, 1)] && t.cancelled == [] && Awake(t, 1) && t.clock == 0.0
    ensures t.pending[1] == Exec(PARKING, "a", 0.0, 1, false, 0.0, false, false, StartToClose, false, false)
  {
    t := Next(Next(Empty(0.0), Starts(PARKING)), Dispatches(true));
  }

  lemma ParkingParks(t: Table)
    requires t.waiters == [Waiter(Run, 1)] && t.cancelled == [] && Awake(t, 1) && t.clock == 0.0
    requires t.pending[1] == Exec(PARKING, "a", 0.0, 1, false, 0.0, false, false, StartToClose, false, false)
    ensures Possible(t, Delivers(0, LATER)) && Parking(Next(t, Delivers(0, LATER)))
  {
  }

  lemma ThreeEvents(t0: Table, a: Event, t1: Table, b: Event, t2: Table, c: Event, t3: Table) returns (events: seq<Event>)
    requires Possible(t0, a) && t1 == Next(t0, a) && Possible(t1, b) && t2 == Next(t1, b)
    requires Possible(t2, c) && t3 == Next(t2, c)
    ensures Runs(t0, events, t3)
  {
    events := [a, b, c];
    assert events[1..] == [b, c] && [b, c][1..] == [c];
    assert Runs(t3, [], t3) && Runs(t2, [c], t3) && Runs(t1, [b, c], t3);
  }

  const LATER := Envelope(CompletesLater(0.0), 0.0, None)
  const PARKING :=
    Request("a", Policy(1.0, 2.0, None, 0, {}), Some(10.0), None, Some(5.0), TryCancel, false)

  ghost predicate Parking(t: Table) {
    && t.cancelled == [] && t.waiters == [Waiter(ParkDeadline, 1), Waiter(ParkHeartbeat, 1)]
    && Awake(t, 1) && t.pending[1].parked && t.pending[1].id == "a"
  }

  lemma TimedOutWaiters(t: Table, s: nat, timeout: TimeoutType, v: Waiter)
    requires Awake(t, s) && t.pending[s].parked && v != Waiter(Run, s)
    ensures v in ParkTimedOut(t, s, timeout).waiters <==> v in t.waiters && !Parks(v, s)
  {
    var quiet := t.(waiters := RetireParked(t.waiters, s));
    FailKeepsWaiters(quiet, s, t.pending[s].(parked := false), TimeoutFailure(timeout), v);
    RetireParkedMember(t.waiters, s, v);
  }

  // ---------------------------------------------------------------------
  // Futures and the clock
  // ---------------------------------------------------------------------

  /** Resolved futures do not change and time does not go back. */
  ghost predicate Forward(t: Table, t': Table) {
    && (forall s <- t.futures :: s in t'.futures && (t.futures[s].Pending? || t'.futures[s] == t.futures[s]))
    && t.clock <= t'.clock
  }

  lemma FailForward(t: Table, s: nat, e: Exec, failure: Failure)
    requires e.attempt >= 1 && s in t.futures && t.futures[s].Pending?
    ensures Forward(t, FailAttempt(t, s, e, failure))
  {
  }

  lemma ParkTimedOutForward(t: Table, s: nat, timeout: TimeoutType)
    requires Awake(t, s)
    ensures Forward(t, ParkTimedOut(t, s, timeout))
  {
    if t.pending[s].parked {
      var quiet := t.(waiters := RetireParked(t.waiters, s));
      FailForward(quiet, s, t.pending[s].(parked := false), TimeoutFailure(timeout));
    }
  }

  lemma AttemptForward(t: Table, s: nat, env: Envelope)
    requires Awake(t, s) && !t.pending[s].inBackoff
    ensures Forward(t, DeliverRun(t, s, env))
  {
    if env.result.Err? {
      FailForward(Advance(t, env.endedAt), s, t.pending[s], env.result.failure);
    }
  }

  lemma DeadlineForward(t: Table, s: nat)
    requires Awake(t, s)
    ensures Forward(t, DeliverDeadline(t, s))
  {
    var e := t.pending[s];
    var charged := Update(Advance(t, t.clock + e.pendingWait), s, e.(pendingWait := 0.0));
    ParkTimedOutForward(charged, s, e.parkTimeout);
  }

  lemma DeliverForward(t: Table, i: nat, env: Envelope)
    requires i < |t.waiters| && Deliverable(t, t.waiters[i])
    ensures Forward(t, Deliver(t, i, env))
  {
    var s := t.waiters[i].seq_;
    var removed := t.(waiters := WithoutAt(t.waiters, i));
    if Awake(t, s) {
      match t.waiters[i].kind {
        case Run =>
          if !t.pending[s].inBackoff {
            AttemptForward(removed, s, env);
          }
        case Queue =>
        case ParkDeadline => DeadlineForward(removed, s);
        case ParkHeartbeat => ParkTimedOutForward(removed, s, Heartbeat);
      }
    }
  }

  lemma CompleteForward(t: Table, s: nat, completion: Completion)
    requires Awake(t, s)
    ensures Forward(t, CompleteParked(t, s, completion))
  {
    if completion.Fail? {
      var quiet := t.(waiters := RetireParked(t.waiters, s));
      FailForward(quiet, s, t.pending[s].(parked := false), completion.failure);
    }
  }

  lemma CompletesForward(t: Table, id: string, completion: Completion, sentAt: real)
    requires Good(t) && Possible(t, Completes(id, completion, sentAt))
    ensures Forward(t, Next(t, Completes(id, completion, sentAt)))
  {
    var s := OpenUnder(t, id);
    CompletesWhere(t, id, completion, sentAt, s);
    if s.Some? {
      CompleteForward(Advance(t, sentAt), s.value, completion);
    }
  }

  lemma BeatsForward(t: Table, id: string, sentAt: real)
    requires Good(t) && Possible(t, Beats(id, sentAt))
    ensures Forward(t, Next(t, Beats(id, sentAt)))
  {
    var s := OpenUnder(t, id);
    BeatsWhere(t, id, sentAt, s);
  }

  /** Deliveries cancel nothing the sweep would have to see. */
  lemma DeliverStaysSwept(t: Table, i: nat, env: Envelope)
    requires i < |t.waiters| && Deliverable(t, t.waiters[i])
    ensures Deliver(t, i, env).cancelled == t.cancelled
  {
  }

  /** Nor do dispatches and messages. */
  lemma DispatchStaysSwept(t: Table, enqueued: bool)
    requires Possible(t, Dispatches(enqueued))
    ensures Dispatch(t, enqueued).cancelled == t.cancelled
  {
  }

  lemma CompletesStaysSwept(t: Table, id: string, completion: Completion, sentAt: real)
    requires Good(t) && Possible(t, Completes(id, completion, sentAt))
    ensures Next(t, Completes(id, completion, sentAt)).cancelled == t.cancelled
  {
    var s := OpenUnder(t, id);
    CompletesWhere(t, id, completion, sentAt, s);
  }

  lemma BeatsStaysSwept(t: Table, id: string, sentAt: real)
    requires Good(t) && Possible(t, Beats(id, sentAt))
    ensures Next(t, Beats(id, sentAt)).cancelled == t.cancelled
  {
    var s := OpenUnder(t, id);
    BeatsWhere(t, id, sentAt, s);
  }

  lemma {:induction false} SweepForward(t: Table)
    ensures Forward(t, Sweep(t))
    decreases |t.cancelled|
  {
    if t.cancelled != [] {
      SweepForward(SweepOne(t));
    }
  }

  lemma NextForward(t: Table, event: Event)
    requires Good(t) && Possible(t, event)
    ensures Forward(t, Next(t, event))
  {
    match event
    case Starts(_) =>
    case CancelsHandle(_) =>
    case CancelsAwait(_) =>
    case Sweeps => SweepForward(t);
    case Dispatches(_) =>
    case Delivers(i, env) => DeliverForward(t, i, env);
    case Completes(id, completion, sentAt) => CompletesForward(t, id, completion, sentAt);
    case Beats(id, sentAt) => BeatsForward(t, id, sentAt);
    case Passes(_) =>
  }

  /** Every future is resolved at most once and virtual time never goes back. */
  lemma {:induction false} RunsGoForward(t: Table, events: seq<Event>, t': Table)
    requires Good(t) && Runs(t, events, t')
    ensures Forward(t, t')
    decreases |events|
  {
    if events != [] {
      NextIsGood(t, events[0]);
      NextForward(t, events[0]);
      RunsGoForward(Next(t, events[0]), events[1..], t');
    }
  }
}

/** The schedule-to-close budget over every run of the table. */
module ActivityBudget {
  import opened Prelude
  import opened Retry
  import opened ActivityMachine
  import opened ActivityProofs

  function Times(n: nat, d: real): real {
    if n == 0 then 0.0 else Times(n - 1, d) + d
  }

  /** With a budget, an attempt is launched only while the backoffs before it,
      each at least the initial interval, leave some of it. */
  ghost predicate Within(e: Exec, backoffs: nat) {
    e.request.scheduleToClose.Some? && e.request.scheduleToClose.value > 0.0 ==>
      Times(backoffs, e.request.policy.initialInterval) < e.request.scheduleToClose.value
  }

  /** The clock has been charged every backoff so far. */
  ghost predicate Charged(e: Exec, clock: real) {
    var p := e.request.policy;
    && p.Valid() && e.attempt >= 1 && e.scheduledAt <= clock
    && if p.maximumAttempts == 1 then e.attempt == 1 && !e.inBackoff
       else
         && Times(e.attempt - 1, p.initialInterval) <= clock - e.scheduledAt
         && Within(e, e.attempt - 1)
         && (e.inBackoff ==> p.initialInterval <= e.pendingWait && Within(e, e.attempt))
  }

  ghost predicate LaunchedInTime(l: Launch) {
    var budget := l.exec.request.scheduleToClose;
    && l.exec.attempt >= 1
    && (budget.Some? ==> l.deadline.Some? && l.deadline.value <= Max(0.0, budget.value - (l.at - l.exec.scheduledAt)))
    && (l.exec.request.policy.maximumAttempts != 1 ==> Within(l.exec, l.exec.attempt - 1))
    && (l.exec.request.policy.maximumAttempts == 1 ==> l.exec.attempt == 1)
  }

  ghost predicate InBudget(t: Table) {
    && (forall s <- t.pending :: Charged(t.pending[s], t.clock))
    && (forall l <- t.launches :: LaunchedInTime(l))
  }

  ghost predicate Plain(failure: Failure) {
    failure.nextRetryDelay.None?
  }

  /** No failure overrides the policy's backoff. */
  ghost predicate NoOverride(event: Event) {
    match event
    case Delivers(_, env) => env.result.Err? ==> Plain(env.result.failure)
    case Completes(_, completion, _) => completion.Fail? ==> Plain(completion.failure)
    case _ => true
  }

  /** The same records, or one fewer, at the same time or later. */
  lemma FewerInBudget(t: Table, t': Table, gone: set<nat>)
    requires InBudget(t) && t'.pending == t.pending - gone && t'.launches == t.launches && t.clock <= t'.clock
    ensures InBudget(t')
  {
  }

  lemma LaterInBudget(t: Table, t': Table)
    requires InBudget(t) && t'.pending == t.pending && t'.launches == t.launches && t.clock <= t'.clock
    ensures InBudget(t')
  {
  }

  /** One record changed or added. */
  lemma ChangedInBudget(t: Table, t': Table, s: nat, e: Exec)
    requires InBudget(t) && t'.pending == t.pending[s := e] && t'.launches == t.launches && t.clock <= t'.clock
    requires Charged(e, t'.clock)
    ensures InBudget(t')
  {
  }

  lemma FailInBudget(t: Table, s: nat, e: Exec, failure: Failure)
    requires InBudget(t) && Charged(e, t.clock) && Plain(failure) && !e.inBackoff
    requires s in t.futures && t.futures[s].Pending?
    ensures InBudget(FailAttempt(t, s, e, failure))
  {
    var (delay, _) := Decision(t.clock, e, failure);
    var p := e.request.policy;
    if delay.Some? {
      BackoffAtLeastInitial(p, e.attempt, failure);
      assert Times(e.attempt, p.initialInterval) == Times(e.attempt - 1, p.initialInterval) + p.initialInterval;
      ChangedInBudget(t, FailAttempt(t, s, e, failure), s, e.(inBackoff := true, pendingWait := delay.value));
    } else {
      FewerInBudget(t, FailAttempt(t, s, e, failure), {s});
    }
  }

  /** An attempt launched from u, which differs from a good table in its record at most. */
  lemma LaunchInBudget(t: Table, u: Table, s: nat, e: Exec)
    requires InBudget(t) && t.clock <= u.clock && u.launches == t.launches
    requires s in u.pending && e == u.pending[s].(inBackoff := false) && u.pending[s := e] == t.pending[s := e]
    requires Charged(e, u.clock)
    ensures InBudget(LaunchAttempt(u, s))
  {
    DeadlineIsTightest(e.request.startToClose, Remaining(u.clock, e));
    ChangedInBudget(t, LaunchAttempt(u, s).(launches := t.launches), s, e);
  }

  lemma TimedOutInBudget(t: Table, s: nat, timeout: TimeoutType)
    requires InBudget(t) && Awake(t, s) && !t.pending[s].inBackoff
    ensures InBudget(ParkTimedOut(t, s, timeout))
  {
    if t.pending[s].parked {
      var quiet := t.(waiters := RetireParked(t.waiters, s));
      FailInBudget(quiet, s, t.pending[s].(parked := false), TimeoutFailure(timeout));
    }
  }

  /** A backoff served is charged, and counts as one more. */
  lemma BackoffCharged(e: Exec, clock: real)
    requires Charged(e, clock) && e.inBackoff
    ensures Charged(e.(inBackoff := false, pendingWait := 0.0, attempt := e.attempt + 1), Max(clock, clock + e.pendingWait))
  {
    var d := e.request.policy.initialInterval;
    assert Times(e.attempt, d) == Times(e.attempt - 1, d) + d;
  }

  lemma BackoffInBudget(t: Table, s: nat, env: Envelope)
    requires InBudget(t) && Awake(t, s) && t.pending[s].inBackoff
    ensures InBudget(DeliverRun(t, s, env))
  {
    var e := t.pending[s];
    var e' := e.(inBackoff := false, pendingWait := 0.0, attempt := e.attempt + 1);
    BackoffCharged(e, t.clock);
    assert InBudget(LaunchAttempt(Resumed(t, s), s)) by {
      LaunchInBudget(t, Resumed(t, s), s, e');
    }
  }

  lemma ParkInBudget(t: Table, s: nat, startedAt: real, endedAt: real)
    requires InBudget(t) && s in t.pending && !t.pending[s].inBackoff
    ensures InBudget(Park(t, s, t.pending[s], startedAt, endedAt))
  {
    var e := t.pending[s];
    var (bound, timeout) := ParkBound(t, e, startedAt, endedAt);
    ChangedInBudget(t, Park(t, s, e, startedAt, endedAt), s, ParkedExec(e, bound, timeout));
  }

  lemma AttemptInBudget(t: Table, s: nat, env: Envelope)
    requires InBudget(t) && Awake(t, s) && !t.pending[s].inBackoff && (env.result.Err? ==> Plain(env.result.failure))
    ensures InBudget(DeliverRun(t, s, env))
  {
    var e := t.pending[s];
    var later := Advance(t, env.endedAt);
    LaterInBudget(t, later);
    match env.result {
      case CompletesLater(startedAt) => ParkInBudget(later, s, startedAt, env.endedAt);
      case Ok => FewerInBudget(later, Resolve(later, s, Succeeded), {s});
      case Err(failure) =>
        if e.cancelRequested && failure.cls.CancelledError? {
          FewerInBudget(later, Resolve(later, s, Cancelled), {s});
        } else {
          FailInBudget(later, s, e, failure);
        }
    }
  }

  lemma DeadlineInBudget(t: Table, s: nat) returns (t': Table)
    requires InBudget(t) && Awake(t, s) && !t.pending[s].inBackoff
    ensures t' == DeliverDeadline(t, s) && InBudget(t')
  {
    var charged := ParkCharged(t, s);
    t' := ParkTimedOut(charged, s, t.pending[s].parkTimeout);
    assert InBudget(t') by {
      TimedOutInBudget(charged, s, t.pending[s].parkTimeout);
    }
  }

  /** A park's time is charged when its deadline fires. */
  lemma ParkCharged(t: Table, s: nat) returns (charged: Table)
    requires InBudget(t) && Awake(t, s) && !t.pending[s].inBackoff
    ensures charged == Update(Advance(t, t.clock + t.pending[s].pendingWait), s, t.pending[s].(pendingWait := 0.0))
    ensures InBudget(charged)
  {
    var e := t.pending[s].(pendingWait := 0.0);
    charged := Update(Advance(t, t.clock + t.pending[s].pendingWait), s, e);
    ChangedInBudget(t, charged, s, e);
  }

  lemma HeartbeatInBudget(t: Table, s: nat)
    requires InBudget(t) && Awake(t, s) && !t.pending[s].inBackoff
    ensures InBudget(DeliverHeartbeat(t, s))
  {
    if t.pending[s].parked && t.pending[s].beat {
      ChangedInBudget(t, DeliverHeartbeat(t, s), s, t.pending[s].(beat := false));
    } else {
      TimedOutInBudget(t, s, Heartbeat);
    }
  }

  lemma RunInBudget(t: Table, s: nat, env: Envelope)
    requires InBudget(t) && Awake(t, s) && (env.result.Err? ==> Plain(env.result.failure))
    ensures InBudget(DeliverRun(t, s, env))
  {
    if t.pending[s].inBackoff {
      BackoffInBudget(t, s, env);
    } else {
      AttemptInBudget(t, s, env);
    }
  }

  lemma QueueInBudget(t: Table, s: nat, env: Envelope)
    requires InBudget(t) && Awake(t, s)
    ensures InBudget(DeliverQueued(t, s, env))
  {
    FewerInBudget(t, DeliverQueued(t, s, env), {s});
  }

  lemma DeliverInBudget(t: Table, i: nat, env: Envelope)
    requires Good(t) && InBudget(t) && t.cancelled == [] && i < |t.waiters|
    requires env.result.Err? ==> Plain(env.result.failure)
    ensures Possible(t, Delivers(i, env)) && InBudget(Deliver(t, i, env))
  {
    var w := t.waiters[i];
    WaiterIsAwake(t, w);
    var removed := t.(waiters := WithoutAt(t.waiters, i));
    LaterInBudget(t, removed);
    match w.kind {
      case Run => RunInBudget(removed, w.seq_, env);
      case Queue => QueueInBudget(removed, w.seq_, env);
      case ParkDeadline => var timedOut := DeadlineInBudget(removed, w.seq_);
      case ParkHeartbeat => HeartbeatInBudget(removed, w.seq_);
    }
  }

  lemma CompleteInBudget(t: Table, s: nat, completion: Completion)
    requires Good(t) && InBudget(t) && t.cancelled == [] && s in t.pending && t.pending[s].parked
    requires completion.Fail? ==> Plain(completion.failure)
    ensures Awake(t, s) && InBudget(CompleteParked(t, s, completion))
  {
    assert Record(t, s);
    var quiet := t.(waiters := RetireParked(t.waiters, s));
    if completion.Fail? {
      FailInBudget(quiet, s, t.pending[s].(parked := false), completion.failure);
    } else {
      FewerInBudget(t, CompleteParked(t, s, completion), {s});
    }
  }

  lemma {:induction false} SweepInBudget(t: Table)
    requires InBudget(t)
    ensures InBudget(Sweep(t))
    decreases |t.cancelled|
  {
    if t.cancelled != [] {
      var s := t.cancelled[0];
      assert t.pending - {s} == if s in t.pending then t.pending - {s} else t.pending;
      FewerInBudget(t, SweepOne(t), {s});
      SweepInBudget(SweepOne(t));
    }
  }

  lemma DispatchInBudget(t: Table, enqueued: bool)
    requires InBudget(t) && Possible(t, Dispatches(enqueued))
    ensures InBudget(Dispatch(t, enqueued))
  {
    var s := t.commands[0];
    var taken := t.(commands := t.commands[1..]);
    LaterInBudget(t, taken);
    if s in t.pending {
      if !t.pending[s].request.elsewhere {
        LaunchInBudget(taken, taken, s, taken.pending[s].(inBackoff := false));
      } else if enqueued {
        ChangedInBudget(taken, Dispatch(t, enqueued), s, t.pending[s].(queued := true));
      } else {
        FewerInBudget(taken, Dispatch(t, enqueued), {s});
      }
    }
  }

  lemma CodeInBudget(t: Table, event: Event)
    requires InBudget(t) && (event.Starts? || event.CancelsHandle? || event.CancelsAwait?)
    ensures InBudget(Next(t, event))
  {
    var t' := Next(t, event);
    match event
    case Starts(request) =>
      if Start(t, request).1 {
        ChangedInBudget(t, t', t.next, t'.pending[t.next]);
      } else {
        LaterInBudget(t, t');
      }
    case CancelsAwait(_) => LaterInBudget(t, t');
    case CancelsHandle(s) =>
      if t'.pending == t.pending {
        LaterInBudget(t, t');
      } else {
        ChangedInBudget(t, t', s, t.pending[s].(cancelRequested := true));
      }
  }

  lemma CompletesInBudget(t: Table, id: string, completion: Completion, sentAt: real)
    requires Good(t) && InBudget(t) && Possible(t, Completes(id, completion, sentAt))
    requires NoOverride(Completes(id, completion, sentAt))
    ensures InBudget(Next(t, Completes(id, completion, sentAt)))
  {
    var later := Advance(t, sentAt);
    AdvanceGood(t, sentAt);
    LaterInBudget(t, later);
    var s := OpenUnder(t, id);
    if s.Some? {
      CompleteInBudget(later, s.value, completion);
    }
    CompletesWhere(t, id, completion, sentAt, s);
  }

  lemma BeatsInBudget(t: Table, id: string, sentAt: real)
    requires Good(t) && InBudget(t) && Possible(t, Beats(id, sentAt))
    ensures InBudget(Next(t, Beats(id, sentAt)))
  {
    var later := Advance(t, sentAt);
    LaterInBudget(t, later);
    var s := OpenUnder(t, id);
    if s.Some? {
      ChangedInBudget(later, Beat(later, s.value), s.value, t.pending[s.value].(beat := true));
    }
    BeatsWhere(t, id, sentAt, s);
  }

  lemma NextInBudget(t: Table, event: Event)
    requires Good(t) && InBudget(t) && Possible(t, event) && NoOverride(event)
    ensures InBudget(Next(t, event))
  {
    match event
    case Starts(_) => CodeInBudget(t, event);
    case CancelsHandle(_) => CodeInBudget(t, event);
    case CancelsAwait(_) => CodeInBudget(t, event);
    case Sweeps => SweepInBudget(t);
    case Dispatches(enqueued) => DispatchInBudget(t, enqueued);
    case Delivers(i, env) => DeliverInBudget(t, i, env);
    case Completes(id, completion, sentAt) => CompletesInBudget(t, id, completion, sentAt);
    case Beats(id, sentAt) => BeatsInBudget(t, id, sentAt);
    case Passes(to) => LaterInBudget(t, Advance(t, to));
  }

  lemma {:induction false} RunsStayInBudget(t: Table, events: seq<Event>, t': Table)
    requires Good(t) && InBudget(t) && Runs(t, events, t') && forall e <- events :: NoOverride(e)
    ensures InBudget(t')
    decreases |events|
  {
    if events != [] {
      assert events[0] in events && forall e <- events[1..] :: e in events;
      NextIsGood(t, events[0]);
      NextInBudget(t, events[0]);
      RunsStayInBudget(Next(t, events[0]), events[1..], t');
    }
  }

  function Ceiling(x: real): int {
    if x.Floor as real == x then x.Floor else x.Floor + 1
  }

  lemma {:induction false} TimesBelow(n: nat, d: real, budget: real)
    requires d > 0.0 && Times(n, d) < budget
    ensures n + 1 <= Ceiling(budget / d)
  {
    TimesIsProduct(n, d);
    var quotient := budget / d;
    assert quotient * d == budget;
    assert n as real < quotient;
  }

  lemma {:induction false} TimesIsProduct(n: nat, d: real)
    ensures Times(n, d) == n as real * d
  {
    if n > 0 {
      TimesIsProduct(n - 1, d);
      assert n as real * d == (n - 1) as real * d + d;
    }
  }

  /** With budget B and initial interval d, no run launches an attempt numbered above
      ceil(B/d), whatever clock values its attempts report, and every attempt's
      deadline is at most what is left of the budget, clamped at zero. */
  lemma AttemptsAreBounded(clock: real, events: seq<Event>, t: Table, l: Launch, budget: real)
    requires Runs(Empty(clock), events, t) && (forall e <- events :: NoOverride(e)) && l in t.launches
    requires l.exec.request.scheduleToClose == Some(budget) && budget > 0.0
    requires l.exec.request.policy.initialInterval > 0.0
    ensures 1 <= l.exec.attempt <= Ceiling(budget / l.exec.request.policy.initialInterval)
    ensures l.deadline.Some? && l.deadline.value <= Max(0.0, budget - (l.at - l.exec.scheduledAt))
  {
    var d := l.exec.request.policy.initialInterval;
    RunsStayInBudget(Empty(clock), events, t);
    assert LaunchedInTime(l);
    if l.exec.request.policy.maximumAttempts == 1 {
      assert Times(0, d) == 0.0;
    }
    TimesBelow(l.exec.attempt - 1, d, budget);
  }
}
