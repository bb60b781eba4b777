/** In which order, how often and when a replay delivers what its races recorded. */
module DeliveryOrder {
  import opened Prelude
  import opened CheckpointLog
  import opened Interpreter
  import opened RecoveryProofs

  ghost predicate Rising(ids: seq<nat>) {
    forall i, j :: 0 <= i < j < |ids| ==> ids[i] < ids[j]
  }

  function Ids(waiters: seq<Waiter>): (ids: seq<nat>)
    ensures |ids| == |waiters| && forall i :: 0 <= i < |ids| ==> ids[i] == waiters[i].id
  {
    if waiters == [] then [] else [waiters[0].id] + Ids(waiters[1..])
  }

  /** Marks the step of a replay a proof looks at. */
  predicate Looked(n: nat) {
    true
  }

  /** The states of a replay, for as long as it goes. */
  ghost predicate Traces(at: nat -> Option<Proc>, program: Program, log: Log) {
    forall n: nat {:trigger Looked(n)} :: Looked(n) && at(n + 1).Some? ==>
      at(n).Some? && Ready(at(n).value, log) && at(n + 1) == Some(Tick(program, at(n).value, log))
  }

  ghost function Trace(program: Program, log: Log): (at: nat -> Option<Proc>)
    ensures Traces(at, program, log)
  {
    (n: nat) => Replay(program, log, n)
  }

  lemma {:induction false} GoesThrough(at: nat -> Option<Proc>, program: Program, log: Log, n: nat, m: nat)
    requires Traces(at, program, log) && n <= m && at(m).Some?
    ensures at(n).Some? && (n < m ==> Ready(at(n).value, log))
    decreases m
  {
    if n < m {
      assert Looked(m - 1) && at((m - 1) + 1).Some?;
      GoesThrough(at, program, log, n, m - 1);
    }
  }

  // ---------------------------------------------------------------------
  // A round
  // ---------------------------------------------------------------------

  /** The replay stands at a race at step n. */
  ghost predicate RaceAt(program: Program, log: Log, n: nat) {
    Replay(program, log, n).Some? && Replay(program, log, n).value.phase == Racing
  }

  /** Within the round that delivers `ids` after `before`, or past it and not yet at the next race. */
  ghost predicate InRound(q: Proc, before: seq<nat>, ids: seq<nat>) {
    match q.phase
    case Broken => true
    case Delivering => q.delivered + Ids(q.batch) == before + ids
    case _ => q.delivered == before + ids
  }

  /** A step within a round, or after it, stays there. */
  lemma {:induction false} StaysInRound(program: Program, p: Proc, log: Log, before: seq<nat>, ids: seq<nat>)
    requires Ready(p, log) && p.phase != Racing && InRound(p, before, ids)
    requires Tick(program, p, log).phase != Diverged
    ensures InRound(Tick(program, p, log), before, ids)
  {
    if p.todo != [] {
      ObeyDeliversNothing(program, p.(todo := p.todo[1..]), p.todo[0], log);
    } else if p.phase.Delivering? && p.batch != [] {
      DeliveryStaysInRound(program, p, log, before, ids);
    } else {
      assert p.phase.Delivering? ==> p.delivered + [] == p.delivered;
      PhaseDeliversNothing(program, p, log);
    }
  }

  lemma DeliveryStaysInRound(program: Program, p: Proc, log: Log, before: seq<nat>, ids: seq<nat>)
    requires Ready(p, log) && p.todo == [] && p.phase.Delivering? && p.batch != [] && InRound(p, before, ids)
    requires Tick(program, p, log).phase != Diverged
    ensures InRound(Tick(program, p, log), before, ids)
  {
    var w, rest := p.batch[0], p.batch[1..];
    DeliversOne(program, p.(batch := rest), w, log);
    Moved(p.delivered, w.id, Ids(rest));
  }

  lemma DeliversOne(program: Program, p: Proc, w: Waiter, log: Log)
    requires w.id in log && p.phase.Delivering?
    ensures
      var q := Deliver(program, p, w, log);
      q.phase == Broken || q.phase == Diverged ||
      (q.phase == Delivering && q.delivered == p.delivered + [w.id] && q.batch == p.batch)
  {
  }

  lemma Moved(a: seq<nat>, id: nat, rest: seq<nat>)
    ensures a + [id] + rest == a + ([id] + rest)
  {
  }

  lemma PhaseDeliversNothing(program: Program, p: Proc, log: Log)
    requires Ready(p, log) && p.todo == [] && p.phase != Racing && !(p.phase.Delivering? && p.batch != [])
    ensures
      var q := Tick(program, p, log);
      q.delivered == p.delivered && !q.phase.Broken? && !q.phase.Diverged? && !q.phase.Delivering?
  {
  }

  lemma ObeyDeliversNothing(program: Program, p: Proc, c: Command, log: Log)
    requires c.Await? ==> p.cursor in log
    ensures
      var q := Obey(program, p, c, log);
      q.delivered == p.delivered && q.batch == p.batch && (q.phase == p.phase || q.phase == Diverged)
  {
  }

  /** Over every replay: from one recorded race up to the next, unless the process
      breaks, what is delivered is each operation the record names, once, in the order
      in which the operations were launched. */
  lemma RoundDeliversNamed(program: Program, w: World, n: nat, m: nat) returns (ids: seq<nat>)
    requires Reachable(program, w) && n < m && Replay(program, w.log, m).Some? && RaceAt(program, w.log, n)
    requires Replay(program, w.log, n).value.todo == []
    requires forall j :: n < j < m ==> !RaceAt(program, w.log, j)
    ensures
      var p := Replay(program, w.log, n).value;
      && p.cursor in w.log && w.log[p.cursor].Race? && Rising(ids)
      && (forall id :: id in ids <==> exists i :: 0 <= i < |p.waiters| && i in w.log[p.cursor].done && p.waiters[i].id == id)
    ensures
      var p, q := Replay(program, w.log, n).value, Replay(program, w.log, m).value;
      if q.phase == Broken then true
      else if q.phase == Delivering then q.delivered <= p.delivered + ids
      else q.delivered == p.delivered + ids
  {
    var at := Trace(program, w.log);
    var p := at(n).value;
    GoesThrough(at, program, w.log, n, m);
    RacesNameRecordedOutcomes(program, w, n);
    ReplayIsSound(program, w, n);
    ids := NamedInOrder(p, w.log);
    forall j | n < j <= m ensures at(j).Some? && at(j).value.phase != Diverged {
      GoesThrough(at, program, w.log, j, m);
      ReplayStaysOnPath(program, w, j);
    }
    assert forall j :: n < j < m ==> !RaceAt(program, w.log, j) && at(j).value.phase != Racing;
    RoundGoesOn(at, program, w.log, n, m, ids);
  }

  lemma ReplayStaysOnPath(program: Program, w: World, n: nat)
    requires Reachable(program, w) && Replay(program, w.log, n).Some?
    ensures Replay(program, w.log, n).value.phase != Diverged
  {
    ReplayIsReachable(program, w, n);
    RecoveryNeverDiverges(program, At(w.log, Replay(program, w.log, n).value));
  }

  /** The ids of the waiters that a valid race names ascend. */
  lemma NamedInOrder(p: Proc, log: Log) returns (ids: seq<nat>)
    requires p.cursor in log && ValidRace(p.waiters, log[p.cursor], log) && Increasing(p.waiters)
    ensures ids == Ids(Pick(p.waiters, log[p.cursor].done)) && Rising(ids)
    ensures forall id :: id in ids <==> exists i :: 0 <= i < |p.waiters| && i in log[p.cursor].done && p.waiters[i].id == id
  {
    var done := log[p.cursor].done;
    var batch := Pick(p.waiters, done);
    ids := Ids(batch);
    PickAscends(p.waiters, done);
    PickNames(p.waiters, done);
    forall id ensures id in ids <==> exists i :: 0 <= i < |p.waiters| && i in done && p.waiters[i].id == id {
      NamedIds(p.waiters, done, batch, id);
    }
  }

  lemma NamedIds(waiters: seq<Waiter>, done: set<nat>, batch: seq<Waiter>, id: nat)
    requires forall x :: x in batch <==> exists i :: 0 <= i < |waiters| && i in done && x == waiters[i]
    ensures id in Ids(batch) <==> exists i :: 0 <= i < |waiters| && i in done && waiters[i].id == id
  {
    if id in Ids(batch) {
      var k :| 0 <= k < |Ids(batch)| && Ids(batch)[k] == id;
      assert batch[k] in batch;
    }
    if i :| 0 <= i < |waiters| && i in done && waiters[i].id == id {
      assert waiters[i] in batch;
      var k :| 0 <= k < |batch| && batch[k] == waiters[i];
      assert Ids(batch)[k] == id;
    }
  }

  lemma {:induction false} RoundGoesOn(at: nat -> Option<Proc>, program: Program, log: Log, n: nat, m: nat, ids: seq<nat>)
    requires Traces(at, program, log) && n < m && at(m).Some? && at(n).Some?
    requires forall j :: n < j <= m ==> at(j).Some? && at(j).value.phase != Diverged
    requires forall j :: n < j < m ==> at(j).value.phase != Racing
    requires
      var p := at(n).value;
      && p.phase == Racing && p.todo == [] && p.cursor in log && ValidRace(p.waiters, log[p.cursor], log)
      && ids == Ids(Pick(p.waiters, log[p.cursor].done))
    ensures InRound(at(m).value, at(n).value.delivered, ids)
    decreases m
  {
    var k := m - 1;
    assert Looked(k) && at(k + 1).Some?;
    if k > n {
      RoundGoesOn(at, program, log, n, k, ids);
      StaysInRound(program, at(k).value, log, at(n).value.delivered, ids);
    } else {
      RoundBegins(program, at(n).value, log);
    }
  }

  lemma RoundBegins(program: Program, p: Proc, log: Log)
    requires p.phase == Racing && p.todo == [] && p.cursor in log && ValidRace(p.waiters, log[p.cursor], log)
    ensures Ready(p, log) && InRound(Tick(program, p, log), p.delivered, Ids(Pick(p.waiters, log[p.cursor].done)))
  {
  }

  lemma ReplayIsSound(program: Program, w: World, n: nat)
    requires Reachable(program, w) && Replay(program, w.log, n).Some?
    ensures Increasing(Replay(program, w.log, n).value.waiters)
  {
    var p := Replay(program, w.log, n).value;
    ReplayIsReachable(program, w, n);
    InterruptionsAreInvisible(program, At(w.log, p));
    var before, mid, after, front :| OnPath(program, At(w.log, p), before, mid, after, front);
    InitialIsSound(program);
    UninterruptedIsSound(program, Initial(program), before, At(mid, p));
  }

  // ---------------------------------------------------------------------
  // Once each
  // ---------------------------------------------------------------------

  /** Waiters have claimed distinct ids, and what was delivered waits no more. */
  ghost predicate Orderly(p: Proc) {
    && Increasing(p.waiters)
    && (forall x <- p.waiters :: x.id < p.cursor && x.id !in p.delivered)
    && (forall id <- p.delivered :: id < p.cursor)
    && (forall i, j :: 0 <= i < j < |p.delivered| ==> p.delivered[i] != p.delivered[j])
  }

  lemma {:induction false} WithoutRemoves(waiters: seq<Waiter>, w: Waiter)
    requires Increasing(waiters)
    ensures forall x :: x in Without(waiters, w) <==> x in waiters && x != w
  {
    if waiters != [] {
      FirstIsLeast(waiters);
      WithoutRemoves(waiters[1..], w);
    }
  }

  lemma OrderlyClaim(p: Proc, q: Proc, x: Waiter)
    requires Orderly(p) && x.id == p.cursor
    requires q.waiters == p.waiters + [x] && q.cursor == p.cursor + 1 && q.delivered == p.delivered
    ensures Orderly(q)
  {
    assert forall y <- q.waiters :: y in p.waiters || y == x;
  }

  lemma OrderlyFewer(p: Proc, q: Proc)
    requires Orderly(p) && q.cursor >= p.cursor && q.delivered == p.delivered
    requires Increasing(q.waiters) && forall x <- q.waiters :: x in p.waiters
    ensures Orderly(q)
  {
  }

  lemma {:induction false} OrderlyObey(program: Program, p: Proc, c: Command, log: Log)
    requires Orderly(p) && (c.Await? ==> p.cursor in log)
    ensures Orderly(Obey(program, p, c, log))
  {
    var q := Obey(program, p, c, log);
    match c
    case StartTimer(timer, due) =>
      if q.cursor == p.cursor {
        OrderlyFewer(p, q);
      } else {
        OrderlyClaim(p, q, q.waiters[|p.waiters|]);
      }
    case Launch(kind, s, op) => OrderlyClaim(p, q, Waiter(p.cursor, kind, s, op));
    case Retire(kind, s) =>
      RetiredKeeps(p.waiters, kind, s);
      OrderlyFewer(p, q);
    case Detach(kind, s) =>
      RetiredKeeps(p.waiters, kind, s);
      OrderlyFewer(p, q);
    case Await(op) => OrderlyFewer(p, q);
  }

  lemma {:induction false} OrderlyDeliver(program: Program, p: Proc, w: Waiter, log: Log)
    requires Orderly(p) && w.id in log
    ensures Orderly(Deliver(program, p, w, log))
  {
    WithoutKeeps(p.waiters, w);
    WithoutRemoves(p.waiters, w);
    if w in p.waiters {
      forall x | x in Without(p.waiters, w) ensures x.id != w.id {
        var i :| 0 <= i < |p.waiters| && p.waiters[i] == w;
        var j :| 0 <= j < |p.waiters| && p.waiters[j] == x;
        assert i < j || j < i;
      }
    }
  }

  lemma {:induction false} OrderlyTick(program: Program, p: Proc, log: Log)
    requires Orderly(p) && Ready(p, log)
    ensures Orderly(Tick(program, p, log))
  {
    if p.todo != [] {
      OrderlyObey(program, p.(todo := p.todo[1..]), p.todo[0], log);
    } else if p.phase.Delivering? && p.batch != [] {
      OrderlyDeliver(program, p.(batch := p.batch[1..]), p.batch[0], log);
    } else if p.phase.Flushing? && !program.finished(p.user) {
      OrderlyFewer(p, p.(phase := Racing));
      OrderlyInbox(p.(phase := Racing));
    } else {
      OrderlyFewer(p, Tick(program, p, log));
    }
  }

  lemma OrderlyInbox(p: Proc)
    requires Orderly(p)
    ensures Orderly(ArmInbox(p))
  {
    if !(exists w <- p.waiters :: w.kind == Inbox) {
      OrderlyClaim(p, ArmInbox(p), Waiter(p.cursor, Inbox, 0, Recv));
    }
  }

  /** Over every log: no operation is delivered twice, and a delivered one no longer waits. */
  lemma DeliveredOnce(program: Program, log: Log, n: nat)
    requires Replay(program, log, n).Some?
    ensures
      var p := Replay(program, log, n).value;
      && (forall i, j :: 0 <= i < j < |p.delivered| ==> p.delivered[i] != p.delivered[j])
      && (forall x <- p.waiters :: x.id !in p.delivered)
  {
    assert Replay(program, log, 0) == Some(Fresh(program));
    StaysOrderly(Trace(program, log), program, log, n);
  }

  lemma {:induction false} StaysOrderly(at: nat -> Option<Proc>, program: Program, log: Log, n: nat)
    requires Traces(at, program, log) && at(0) == Some(Fresh(program)) && at(n).Some?
    ensures Orderly(at(n).value)
  {
    if n > 0 {
      var k := n - 1;
      assert Looked(k) && at(k + 1).Some?;
      StaysOrderly(at, program, log, k);
      OrderlyTick(program, at(k).value, log);
    }
  }

  // ---------------------------------------------------------------------
  // When
  // ---------------------------------------------------------------------

  /** Over every log: once the start time is read the clock never goes back. */
  lemma ClockNeverGoesBack(program: Program, log: Log, n: nat, m: nat)
    requires n <= m && Replay(program, log, m).Some?
    requires Replay(program, log, n).Some? && Replay(program, log, n).value.phase != Booting
    ensures
      var p, q := Replay(program, log, n).value, Replay(program, log, m).value;
      q.phase != Booting && p.clock <= q.clock
  {
    ClockGoesOn(Trace(program, log), program, log, n, m);
  }

  lemma {:induction false} ClockGoesOn(at: nat -> Option<Proc>, program: Program, log: Log, n: nat, m: nat)
    requires Traces(at, program, log) && n <= m && at(m).Some? && at(n).Some? && at(n).value.phase != Booting
    ensures at(m).value.phase != Booting && at(n).value.clock <= at(m).value.clock
    decreases m
  {
    if n < m {
      var k := m - 1;
      assert Looked(k) && at(k + 1).Some?;
      ClockGoesOn(at, program, log, n, k);
      TickKeepsTime(program, at(k).value, log);
    }
  }

  lemma TickKeepsTime(program: Program, p: Proc, log: Log)
    requires Ready(p, log) && p.phase != Booting
    ensures Tick(program, p, log).phase != Booting && p.clock <= Tick(program, p, log).clock
  {
  }
}
