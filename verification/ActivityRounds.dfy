/**
 A whole round of deliveries: the waiters that were done together, the inbox among
 them, in waiter-list order.  The loop removes each from the list before it delivers
 it, whatever the deliveries before it did.
 */
module ActivityRounds {
  import opened Prelude
  import opened Retry
  import opened ActivityMachine
  import opened ActivityProofs

  /** What is delivered: an activity's waiter, one message the inbox waiter received,
      or another waiter's event, which to activities is the passing of time. */
  datatype Item =
    | Wakes(waiter: Waiter, env: Envelope)
    | Reports(id: string, completion: Completion, sentAt: real)
    | Refreshes(id: string, sentAt: real)
    | Elapses(to: real)

  function PositionOf(waiters: seq<Waiter>, w: Waiter): (i: nat)
    requires w in waiters
    ensures i < |waiters| && waiters[i] == w
  {
    if waiters[0] == w then 0 else PositionOf(waiters[1..], w) + 1
  }

  ghost predicate Present(t: Table, item: Item) {
    item.Wakes? ==> item.waiter in t.waiters
  }

  function EventOf(t: Table, item: Item): Event
    requires Present(t, item)
  {
    match item
    case Wakes(w, env) => Delivers(PositionOf(t.waiters, w), env)
    case Reports(id, completion, sentAt) => Completes(id, completion, sentAt)
    case Refreshes(id, sentAt) => Beats(id, sentAt)
    case Elapses(to) => Passes(to)
  }

  /** Every done waiter is still in the list when its turn comes. */
  ghost predicate Smooth(t: Table, items: seq<Item>)
    decreases |items|
  {
    items == [] ||
    (Present(t, items[0]) && Possible(t, EventOf(t, items[0])) && Smooth(Next(t, EventOf(t, items[0])), items[1..]))
  }

  /** The done waiters are distinct waiters of the list. */
  ghost predicate Done(t: Table, items: seq<Item>) {
    && (forall k :: 0 <= k < |items| ==> Present(t, items[k]))
    && Separate(items)
  }

  ghost predicate Separate(items: seq<Item>) {
    forall j, k :: 0 <= j < k < |items| && items[j].Wakes? && items[k].Wakes? ==> items[j].waiter != items[k].waiter
  }

  /** A heartbeat has arrived for s when the round comes to item j. */
  ghost predicate Renewed(t: Table, items: seq<Item>, j: nat, s: nat)
    requires j <= |items| && s in t.pending
  {
    t.pending[s].beat || exists i :: 0 <= i < j && items[i].Refreshes? && items[i].id == t.pending[s].id
  }

  /** Item j ends the park of activity s: its deadline, its heartbeat window if no
      heartbeat arrived, or an external completion under its id. */
  ghost predicate EndsPark(t: Table, items: seq<Item>, j: nat, s: nat)
    requires j < |items| && s in t.pending
  {
    match items[j]
    case Wakes(w, _) => w == Waiter(ParkDeadline, s) || (w == Waiter(ParkHeartbeat, s) && !Renewed(t, items, j, s))
    case Reports(id, _, _) => id == t.pending[s].id
    case Refreshes(_, _) => false
    case Elapses(_) => false
  }

  /** Item k is a park timer of an activity whose park item j ends. */
  ghost predicate Takes(t: Table, items: seq<Item>, j: nat, k: nat)
    requires j < k < |items|
  {
    && items[k].Wakes? && Parks(items[k].waiter, items[k].waiter.seq_)
    && items[k].waiter.seq_ in t.pending && EndsPark(t, items, j, items[k].waiter.seq_)
  }

  // ---------------------------------------------------------------------
  // What one item does to the waiters of the others
  // ---------------------------------------------------------------------

  /** An external completion removes the park timers of the activity it completes
      and no other waiter. */
  lemma CompletionRemoves(t: Table, id: string, completion: Completion, sentAt: real, v: Waiter)
    requires Good(t) && t.cancelled == [] && v in t.waiters
    ensures Possible(t, Completes(id, completion, sentAt))
    ensures v in Next(t, Completes(id, completion, sentAt)).waiters <==> !(Open(t, v.seq_, id) && Parks(v, v.seq_))
  {
    forall s | Open(t, s, id) ensures Awake(t, s) {
      SweptIsAwake(t, s);
    }
    PhaseWaiters(t, v);
    var s := OpenUnder(t, id);
    CompletesWhere(t, id, completion, sentAt, s);
    if s.Some? {
      CompletedRemoves(Advance(t, sentAt), s.value, completion, v);
    }
  }

  lemma CompletedRemoves(t: Table, s: nat, completion: Completion, v: Waiter)
    requires Awake(t, s) && t.pending[s].parked && v != Waiter(Run, s)
    ensures v in CompleteParked(t, s, completion).waiters <==> v in t.waiters && !Parks(v, s)
  {
    RetireParkedMember(t.waiters, s, v);
    if completion.Fail? {
      var quiet := t.(waiters := RetireParked(t.waiters, s));
      FailKeepsWaiters(quiet, s, t.pending[s].(parked := false), completion.failure, v);
    }
  }

  /** The state an item leaves, good and swept again. */
  lemma Played(t: Table, item: Item) returns (t': Table)
    requires Good(t) && t.cancelled == [] && Present(t, item)
    ensures Possible(t, EventOf(t, item)) && t' == Next(t, EventOf(t, item))
    ensures Good(t') && t'.cancelled == []
  {
    var event := EventOf(t, item);
    assert Possible(t, event) by {
      forall s | s in t.pending ensures Awake(t, s) {
        SweptIsAwake(t, s);
      }
    }
    NextIsGood(t, event);
    t' := Next(t, event);
    StaysSwept(t, item);
  }

  lemma StaysSwept(t: Table, item: Item)
    requires Good(t) && t.cancelled == [] && Present(t, item) && Possible(t, EventOf(t, item))
    ensures Next(t, EventOf(t, item)).cancelled == []
  {
    match item
    case Wakes(w, env) => DeliverStaysSwept(t, PositionOf(t.waiters, w), env);
    case Reports(id, completion, sentAt) => CompletesStaysSwept(t, id, completion, sentAt);
    case Refreshes(id, sentAt) => BeatsStaysSwept(t, id, sentAt);
    case Elapses(_) =>
  }

  /** Which items concern activity s at all. */
  ghost predicate Concerns(t: Table, item: Item, s: nat)
    requires s in t.pending
  {
    match item
    case Wakes(w, _) => w.seq_ == s
    case Reports(id, _, _) => id == t.pending[s].id && t.pending[s].parked
    case Refreshes(id, _) => id == t.pending[s].id && t.pending[s].parked
    case Elapses(_) => false
  }

  /** An item that does not concern an activity leaves its record and its waiters. */
  lemma OthersUntouched(t: Table, item: Item, t': Table, s: nat)
    requires Good(t) && t.cancelled == [] && Present(t, item) && s in t.pending && !Concerns(t, item, s)
    requires Possible(t, EventOf(t, item)) && t' == Next(t, EventOf(t, item))
    ensures s in t'.pending && t'.pending[s] == t.pending[s]
    ensures forall kind :: Count(t'.waiters, kind, s) == Count(t.waiters, kind, s)
  {
    match item
    case Wakes(w, env) =>
      var after := DeliverGood(t, PositionOf(t.waiters, w), env);
    case Reports(id, completion, sentAt) => OthersUnreported(t, id, completion, sentAt, s);
    case Refreshes(id, sentAt) =>
      var r := OpenUnder(t, id);
      BeatsWhere(t, id, sentAt, r);
    case Elapses(_) =>
  }

  lemma OthersUnreported(t: Table, id: string, completion: Completion, sentAt: real, s: nat)
    requires Good(t) && t.cancelled == [] && s in t.pending && !Open(t, s, id)
    requires Possible(t, Completes(id, completion, sentAt))
    ensures
      var t' := Next(t, Completes(id, completion, sentAt));
      && s in t'.pending && t'.pending[s] == t.pending[s]
      && forall kind :: Count(t'.waiters, kind, s) == Count(t.waiters, kind, s)
  {
    var r := OpenUnder(t, id);
    CompletesWhere(t, id, completion, sentAt, r);
    AdvanceGood(t, sentAt);
    if r.Some? {
      CompletionActsAlone(Advance(t, sentAt), r.value, completion);
    }
  }

  lemma CountsMean(t: Table, t': Table, s: nat, v: Waiter)
    requires v.seq_ == s && Count(t'.waiters, v.kind, s) == Count(t.waiters, v.kind, s)
    ensures v in t'.waiters <==> v in t.waiters
  {
    Counted(t.waiters, v);
    Counted(t'.waiters, v);
  }

  // ---------------------------------------------------------------------
  // A taken waiter never comes back in the round
  // ---------------------------------------------------------------------

  ghost predicate NoParkTimer(t: Table, s: nat) {
    Waiter(ParkDeadline, s) !in t.waiters && Waiter(ParkHeartbeat, s) !in t.waiters
  }

  ghost predicate NoAttempt(items: seq<Item>, s: nat) {
    forall k :: 0 <= k < |items| && items[k].Wakes? ==> items[k].waiter != Waiter(Run, s)
  }

  /** Without the end of an attempt an activity without park timers gets none. */
  lemma NoTimerAppears(t: Table, item: Item, t': Table, s: nat)
    requires Good(t) && t.cancelled == [] && Present(t, item) && NoParkTimer(t, s)
    requires item.Wakes? ==> item.waiter != Waiter(Run, s)
    requires Possible(t, EventOf(t, item)) && t' == Next(t, EventOf(t, item))
    ensures NoParkTimer(t', s)
  {
    forall v | v == Waiter(ParkDeadline, s) || v == Waiter(ParkHeartbeat, s) ensures v !in t'.waiters {
      if s !in t.pending {
        NoRecordNoTimer(t, item, t', s, v);
      } else if !Concerns(t, item, s) {
        OthersUntouched(t, item, t', s);
        CountsMean(t, t', s, v);
      } else {
        OwnEventNoTimer(t, item, t', s, v);
      }
    }
  }

  lemma NoRecordNoTimer(t: Table, item: Item, t': Table, s: nat, v: Waiter)
    requires Good(t) && t.cancelled == [] && Present(t, item) && s !in t.pending && v.seq_ == s
    requires Possible(t, EventOf(t, item)) && t' == Next(t, EventOf(t, item))
    ensures v !in t'.waiters
  {
    var after := Played(t, item);
    assert s !in t'.pending by {
      NoRecordAppears(t, item, t', s);
    }
    if v in t'.waiters {
      PhaseWaiters(t', v);
    }
  }

  lemma NoRecordAppears(t: Table, item: Item, t': Table, s: nat)
    requires Good(t) && t.cancelled == [] && Present(t, item) && s !in t.pending
    requires Possible(t, EventOf(t, item)) && t' == Next(t, EventOf(t, item))
    ensures s !in t'.pending
  {
    match item
    case Wakes(w, env) => var after := DeliverGood(t, PositionOf(t.waiters, w), env);
    case Reports(id, completion, sentAt) =>
      var r := OpenUnder(t, id);
      CompletesWhere(t, id, completion, sentAt, r);
      AdvanceGood(t, sentAt);
      if r.Some? {
        CompletionActsAlone(Advance(t, sentAt), r.value, completion);
      }
    case _ =>
  }

  lemma OwnEventNoTimer(t: Table, item: Item, t': Table, s: nat, v: Waiter)
    requires Good(t) && t.cancelled == [] && Present(t, item) && NoParkTimer(t, s)
    requires s in t.pending && Concerns(t, item, s) && v.seq_ == s && Parks(v, s)
    requires item.Wakes? ==> item.waiter != Waiter(Run, s)
    requires Possible(t, EventOf(t, item)) && t' == Next(t, EventOf(t, item))
    ensures v !in t'.waiters
  {
    match item
    case Wakes(w, env) =>
      assert w.kind == Queue;
      assert Record(t, s);
      SweptIsAwake(t, s);
      QueueLeavesNoTimer(t, PositionOf(t.waiters, w), env, v);
    case Reports(id, completion, sentAt) =>
      CompletesWhere(t, id, completion, sentAt, Some(s));
      CompletedRemoves(Advance(t, sentAt), s, completion, v);
    case Refreshes(id, sentAt) => BeatsWhere(t, id, sentAt, Some(s));
  }

  lemma QueueLeavesNoTimer(t: Table, i: nat, env: Envelope, v: Waiter)
    requires i < |t.waiters| && t.waiters[i].kind.Queue? && Awake(t, t.waiters[i].seq_) && v !in t.waiters
    ensures v !in Deliver(t, i, env).waiters
  {
  }

  /** The round goes on from the state its first item leaves. */
  lemma SmoothStep(t: Table, items: seq<Item>, t': Table)
    requires items != [] && Present(t, items[0])
    requires Possible(t, EventOf(t, items[0])) && t' == Next(t, EventOf(t, items[0]))
    ensures Smooth(t, items) <==> Smooth(t', items[1..])
  {
  }

  /** So the round stumbles over a park timer that is gone. */
  lemma {:induction false} GoneStaysGone(t: Table, items: seq<Item>, s: nat, k: nat)
    requires Good(t) && t.cancelled == [] && NoParkTimer(t, s) && NoAttempt(items, s)
    requires k < |items| && items[k].Wakes? && Parks(items[k].waiter, s)
    ensures !Smooth(t, items)
    decreases |items|
  {
    if Present(t, items[0]) {
      assert k > 0;
      var t' := Played(t, items[0]);
      assert NoParkTimer(t', s) by {
        NoTimerAppears(t, items[0], t', s);
      }
      assert !Smooth(t', items[1..]) by {
        assert items[1..][k - 1] == items[k] && NoAttempt(items[1..], s);
        GoneStaysGone(t', items[1..], s, k - 1);
      }
      SmoothStep(t, items, t');
    }
  }

  // ---------------------------------------------------------------------
  // The first item
  // ---------------------------------------------------------------------

  lemma ParkedTimers(t: Table, v: Waiter)
    requires Good(t) && t.cancelled == [] && v in t.waiters && Parks(v, v.seq_)
    ensures Awake(t, v.seq_) && t.pending[v.seq_].parked && Waiter(Run, v.seq_) !in t.waiters
    ensures Waiter(Queue, v.seq_) !in t.waiters
  {
    PhaseWaiters(t, v);
    SweptIsAwake(t, v.seq_);
    if Waiter(Run, v.seq_) in t.waiters {
      PhaseWaiters(t, Waiter(Run, v.seq_));
    }
    if Waiter(Queue, v.seq_) in t.waiters {
      PhaseWaiters(t, Waiter(Queue, v.seq_));
    }
  }

  /** What the first item takes is gone from the list. */
  lemma TakenIsGone(t: Table, items: seq<Item>, k: nat, t': Table)
    requires Good(t) && t.cancelled == [] && Done(t, items) && 0 < k < |items| && Takes(t, items, 0, k)
    requires Possible(t, EventOf(t, items[0])) && t' == Next(t, EventOf(t, items[0]))
    ensures NoParkTimer(t', items[k].waiter.seq_) && NoAttempt(items[1..], items[k].waiter.seq_)
  {
    var s := items[k].waiter.seq_;
    assert Present(t, items[k]);
    ParkedTimers(t, items[k].waiter);
    forall n | 0 <= n < |items[1..]| && items[1..][n].Wakes? ensures items[1..][n].waiter != Waiter(Run, s) {
      assert Present(t, items[n + 1]);
    }
    forall v | v == Waiter(ParkDeadline, s) || v == Waiter(ParkHeartbeat, s) ensures v !in t'.waiters {
      match items[0] {
        case Wakes(w, env) => ParkEndRemoves(t, PositionOf(t.waiters, w), env, s, v);
        case Reports(id, completion, sentAt) =>
          CompletesWhere(t, id, completion, sentAt, Some(s));
          CompletedRemoves(Advance(t, sentAt), s, completion, v);
      }
    }
  }

  lemma ParkEndRemoves(t: Table, i: nat, env: Envelope, s: nat, v: Waiter)
    requires i < |t.waiters| && Awake(t, s) && t.pending[s].parked && Parks(v, s)
    requires t.waiters[i] == Waiter(ParkDeadline, s) || (t.waiters[i] == Waiter(ParkHeartbeat, s) && !t.pending[s].beat)
    ensures v !in Deliver(t, i, env).waiters
  {
    var removed := t.(waiters := WithoutAt(t.waiters, i));
    if t.waiters[i].kind.ParkDeadline? {
      DeadlineWaiters(removed, s, v);
    } else {
      TimedOutWaiters(removed, s, Heartbeat, v);
    }
  }

  /** The item does not take waiter v out of the list. */
  ghost predicate Spares(t: Table, item: Item, v: Waiter) {
    match item
    case Wakes(w, _) =>
      w != v && w.seq_ in t.pending &&
      !(Parks(v, w.seq_) && (w.kind.ParkDeadline? || (w.kind.ParkHeartbeat? && !t.pending[w.seq_].beat)))
    case Reports(id, _, _) => !(Open(t, v.seq_, id) && Parks(v, v.seq_))
    case Refreshes(_, _) => true
    case Elapses(_) => true
  }

  lemma FirstSpares(t: Table, items: seq<Item>, k: nat)
    requires Good(t) && t.cancelled == [] && Done(t, items)
    requires 0 < k < |items| && items[k].Wakes? && !Takes(t, items, 0, k)
    ensures Spares(t, items[0], items[k].waiter)
  {
    assert Present(t, items[k]) && Present(t, items[0]);
    if items[0].Wakes? {
      PhaseWaiters(t, items[0].waiter);
    }
  }

  lemma SparedRemains(t: Table, item: Item, v: Waiter, t': Table)
    requires Good(t) && t.cancelled == [] && Present(t, item) && v in t.waiters && Spares(t, item, v)
    requires Possible(t, EventOf(t, item)) && t' == Next(t, EventOf(t, item))
    ensures v in t'.waiters
  {
    match item {
      case Wakes(w, env) => OtherWaiterRemains(t, w, v, env);
      case Reports(id, completion, sentAt) => CompletionRemoves(t, id, completion, sentAt, v);
      case Refreshes(id, sentAt) => RefreshKeepsWaiters(t, id, sentAt);
      case Elapses(_) =>
    }
  }

  /** Another done waiter is still there unless the first item takes it. */
  lemma RestRemains(t: Table, items: seq<Item>, t': Table)
    requires Good(t) && t.cancelled == [] && items != [] && Done(t, items)
    requires forall k :: 0 < k < |items| ==> !Takes(t, items, 0, k)
    requires Possible(t, EventOf(t, items[0])) && t' == Next(t, EventOf(t, items[0]))
    ensures forall k :: 0 < k < |items| ==> Present(t', items[k])
  {
    forall k | 0 < k < |items| && items[k].Wakes? ensures items[k].waiter in t'.waiters {
      assert Present(t, items[k]);
      FirstSpares(t, items, k);
      SparedRemains(t, items[0], items[k].waiter, t');
    }
  }

  lemma RefreshKeepsWaiters(t: Table, id: string, sentAt: real)
    requires Good(t) && Possible(t, Beats(id, sentAt))
    ensures Next(t, Beats(id, sentAt)).waiters == t.waiters
  {
    var s := OpenUnder(t, id);
    BeatsWhere(t, id, sentAt, s);
  }

  lemma OtherWaiterRemains(t: Table, w: Waiter, v: Waiter, env: Envelope)
    requires Good(t) && t.cancelled == [] && w in t.waiters && v in t.waiters && w != v
    requires !(Parks(v, w.seq_) && (w.kind.ParkDeadline? || (w.kind.ParkHeartbeat? && !t.pending[w.seq_].beat)))
    ensures Possible(t, Delivers(PositionOf(t.waiters, w), env))
    ensures v in Next(t, Delivers(PositionOf(t.waiters, w), env)).waiters
  {
    SecondDoneWaiterRemains(t, PositionOf(t.waiters, w), PositionOf(t.waiters, v), env);
  }

  /** A parked activity whose park the item does not end keeps its id, and is renewed
      by a heartbeat only, its own heartbeat window apart, which re-arms it. */
  lemma ParkGoesOn(t: Table, item: Item, s: nat, t': Table)
    requires Good(t) && t.cancelled == [] && Present(t, item)
    requires s in t.pending && t.pending[s].parked && s in t'.pending
    requires item.Wakes? ==> item.waiter != Waiter(ParkDeadline, s)
    requires item.Reports? ==> item.id != t.pending[s].id
    requires Possible(t, EventOf(t, item)) && t' == Next(t, EventOf(t, item))
    ensures t'.pending[s].id == t.pending[s].id
    ensures !(item.Wakes? && item.waiter == Waiter(ParkHeartbeat, s)) ==>
        (t'.pending[s].beat <==> t.pending[s].beat || (item.Refreshes? && item.id == t.pending[s].id))
  {
    if !Concerns(t, item, s) {
      OthersUntouched(t, item, t', s);
    } else if item.Wakes? {
      WindowGoesOn(t, item.waiter, item.env, s);
    } else {
      RefreshGoesOn(t, item.id, item.sentAt, s);
    }
  }

  lemma WindowGoesOn(t: Table, w: Waiter, env: Envelope, s: nat)
    requires Good(t) && t.cancelled == [] && w in t.waiters && w.seq_ == s && s in t.pending && t.pending[s].parked
    requires w != Waiter(ParkDeadline, s)
    ensures w == Waiter(ParkHeartbeat, s) && Possible(t, Delivers(PositionOf(t.waiters, w), env))
    ensures
      var t' := Deliver(t, PositionOf(t.waiters, w), env);
      s in t'.pending ==> t'.pending[s].id == t.pending[s].id
  {
    PhaseWaiters(t, w);
    var after := DeliverGood(t, PositionOf(t.waiters, w), env);
  }

  lemma RefreshGoesOn(t: Table, id: string, sentAt: real, s: nat)
    requires Good(t) && Open(t, s, id) && Possible(t, Beats(id, sentAt))
    ensures Next(t, Beats(id, sentAt)).pending == t.pending[s := t.pending[s].(beat := true)]
  {
    BeatsWhere(t, id, sentAt, Some(s));
  }

  /** What the later items take from one another, seen after the first item. */
  lemma TakesAfterFirst(t: Table, items: seq<Item>, t': Table, j: nat, k: nat)
    requires Good(t) && t.cancelled == [] && Done(t, items) && j < k && k + 1 < |items|
    requires Good(t') && t'.cancelled == [] && Done(t', items[1..])
    requires Possible(t, EventOf(t, items[0])) && t' == Next(t, EventOf(t, items[0]))
    requires !Takes(t, items, 0, k + 1)
    ensures Takes(t', items[1..], j, k) <==> Takes(t, items, j + 1, k + 1)
  {
    var rest := items[1..];
    assert rest[j] == items[j + 1] && rest[k] == items[k + 1];
    if rest[k].Wakes? && Parks(rest[k].waiter, rest[k].waiter.seq_) {
      var s := rest[k].waiter.seq_;
      assert Present(t, items[k + 1]) && Present(t', rest[k]) && Present(t, items[0]);
      ParkedTimers(t, rest[k].waiter);
      ParkedTimers(t', rest[k].waiter);
      ParkGoesOn(t, items[0], s, t');
      if items[j + 1].Wakes? && items[j + 1].waiter == Waiter(ParkHeartbeat, s) {
        RenewedAfterFirst(t, items, t', j, s);
      }
    }
  }

  lemma RenewedAfterFirst(t: Table, items: seq<Item>, t': Table, j: nat, s: nat)
    requires j + 1 <= |items| && items != [] && s in t.pending && s in t'.pending
    requires t'.pending[s].id == t.pending[s].id
    requires t'.pending[s].beat <==> t.pending[s].beat || (items[0].Refreshes? && items[0].id == t.pending[s].id)
    ensures Renewed(t', items[1..], j, s) <==> Renewed(t, items, j + 1, s)
  {
    var rest := items[1..];
    assert forall i :: 0 <= i < j ==> rest[i] == items[i + 1];
    if i :| 0 <= i < j + 1 && items[i].Refreshes? && items[i].id == t.pending[s].id {
      if i > 0 {
        assert rest[i - 1].Refreshes? && rest[i - 1].id == t'.pending[s].id;
      }
    }
    if i :| 0 <= i < j && rest[i].Refreshes? && rest[i].id == t'.pending[s].id {
      assert items[i + 1].Refreshes?;
    }
  }

  // ---------------------------------------------------------------------
  // The round
  // ---------------------------------------------------------------------

  /** Some item's park timer is taken by an earlier item. */
  ghost predicate Stumbles(t: Table, items: seq<Item>) {
    exists j, k :: 0 <= j < k < |items| && Takes(t, items, j, k)
  }

  /** A round finds a done waiter missing, and fails, if and only if the waiter is a
      park timer and an earlier item of the round ended the park of its activity: the
      other park timer timed it out, or the inbox brought its external completion. */
  lemma {:induction false} RoundFailsExactly(t: Table, items: seq<Item>)
    requires Good(t) && t.cancelled == [] && Done(t, items)
    ensures Smooth(t, items) <==> !Stumbles(t, items)
    decreases |items|
  {
    if items != [] {
      assert Present(t, items[0]);
      var t' := Played(t, items[0]);
      if k :| 0 < k < |items| && Takes(t, items, 0, k) {
        FirstTakes(t, items, k, t');
      } else {
        FirstPasses(t, items, t');
        RoundFailsExactly(t', items[1..]);
      }
    }
  }

  lemma FirstTakes(t: Table, items: seq<Item>, k: nat, t': Table)
    requires Good(t) && t.cancelled == [] && Done(t, items) && 0 < k < |items| && Takes(t, items, 0, k)
    requires Possible(t, EventOf(t, items[0])) && t' == Next(t, EventOf(t, items[0]))
    requires Good(t') && t'.cancelled == []
    ensures !Smooth(t, items) && Stumbles(t, items)
  {
    TakenIsGone(t, items, k, t');
    assert items[1..][k - 1] == items[k];
    GoneStaysGone(t', items[1..], items[k].waiter.seq_, k - 1);
  }

  lemma FirstPasses(t: Table, items: seq<Item>, t': Table)
    requires Good(t) && t.cancelled == [] && items != [] && Done(t, items)
    requires forall k :: 0 < k < |items| ==> !Takes(t, items, 0, k)
    requires Possible(t, EventOf(t, items[0])) && t' == Next(t, EventOf(t, items[0]))
    requires Good(t') && t'.cancelled == []
    ensures Done(t', items[1..])
    ensures Stumbles(t', items[1..]) <==> Stumbles(t, items)
  {
    RestRemains(t, items, t');
    RestIsDone(t, items, t');
    forall j, k | 0 <= j < k && k + 1 < |items|
      ensures Takes(t', items[1..], j, k) <==> Takes(t, items, j + 1, k + 1)
    {
      TakesAfterFirst(t, items, t', j, k);
    }
    StumblesAfterFirst(t, items, t');
  }

  lemma StumblesAfterFirst(t: Table, items: seq<Item>, t': Table)
    requires items != [] && forall k :: 0 < k < |items| ==> !Takes(t, items, 0, k)
    requires forall j, k :: 0 <= j < k && k + 1 < |items| ==> (Takes(t', items[1..], j, k) <==> Takes(t, items, j + 1, k + 1))
    ensures Stumbles(t', items[1..]) <==> Stumbles(t, items)
  {
    if Stumbles(t', items[1..]) {
      var j, k :| 0 <= j < k < |items[1..]| && Takes(t', items[1..], j, k);
      assert Takes(t, items, j + 1, k + 1);
    }
    if Stumbles(t, items) {
      var j, k :| 0 <= j < k < |items| && Takes(t, items, j, k);
      assert Takes(t', items[1..], j - 1, k - 1);
    }
  }

  lemma RestIsDone(t: Table, items: seq<Item>, t': Table)
    requires items != [] && Done(t, items) && forall k :: 0 < k < |items| ==> Present(t', items[k])
    ensures Done(t', items[1..])
  {
    SeparateRest(items);
  }

  lemma SeparateRest(items: seq<Item>)
    requires items != [] && Separate(items)
    ensures Separate(items[1..])
  {
  }

  // ---------------------------------------------------------------------
  // Rounds that fail
  // ---------------------------------------------------------------------

  /** Reachable: the message that completes a parked activity and the activity's own
      park timer in one round, the inbox waiter first as it stands in the list. */
  lemma CompletionMeetsTimer()
    ensures exists events, t ::
        var items := [Reports("a", Complete, 0.0), Wakes(Waiter(ParkDeadline, 1), LATER)];
        Runs(Empty(0.0), events, t) && Good(t) && t.cancelled == [] && Done(t, items) && !Smooth(t, items)
  {
    var events, t := ParkingReached();
    var items := [Reports("a", Complete, 0.0), Wakes(Waiter(ParkDeadline, 1), LATER)];
    assert Waiter(ParkDeadline, 1) == t.waiters[0];
    assert Done(t, items);
    assert Takes(t, items, 0, 1);
    RoundFailsExactly(t, items);
  }

  /** Reachable: both park timers of an activity in one round. */
  lemma TimersMeet()
    ensures exists events, t ::
        var items := [Wakes(Waiter(ParkDeadline, 1), LATER), Wakes(Waiter(ParkHeartbeat, 1), LATER)];
        Runs(Empty(0.0), events, t) && Good(t) && t.cancelled == [] && Done(t, items) && !Smooth(t, items)
  {
    var events, t := ParkingReached();
    var items := [Wakes(Waiter(ParkDeadline, 1), LATER), Wakes(Waiter(ParkHeartbeat, 1), LATER)];
    assert Waiter(ParkDeadline, 1) == t.waiters[0] && Waiter(ParkHeartbeat, 1) == t.waiters[1];
    assert Done(t, items);
    assert Takes(t, items, 0, 1);
    RoundFailsExactly(t, items);
  }
}
