/**
 The interpreter's main loop as straight-line code, and the step machine that refines
 it: a turn of workflow code, its commands with whatever they await, another turn
 while there is progress, the outbox, then the close or a race and one delivery after
 the other down the waiter list.
 */
module LoopReference {
  import opened Prelude
  import opened CheckpointLog
  import opened Interpreter
  import opened RecoveryProofs

  /** The interpreter's fields between two statements of the loop. */
  datatype Frame = Frame(
    user: User, clock: real, waiters: seq<Waiter>, cursor: nat, detached: seq<Waiter>, progressed: bool, delivered: seq<nat>)

  /** Code runs on, ends the loop, or comes to a missing record (or the end of its fuel). */
  datatype Way = Goes(frame: Frame) | Ends(frame: Frame, phase: Phase) | Waits

  function Launching(f: Frame, kind: Kind, s: nat, op: Op): Frame {
    f.(waiters := f.waiters + [Waiter(f.cursor, kind, s, op)], cursor := f.cursor + 1)
  }

  /** One command. What an awaited operation queues in turn is performed on the spot. */
  function Performed(program: Program, f: Frame, c: Command, log: Log, fuel: nat): Way
    decreases fuel, 0
  {
    match c
    case StartTimer(timer, due) =>
      var delay := due - f.clock;
      if !program.live(f.user, timer) then Goes(f)
      else if delay > 0.0 then Goes(Launching(f, Timer, timer, Sleep(delay)))
      else Goes(f.(user := program.fire(f.user, timer), progressed := true))
    case Launch(kind, s, op) => Goes(Launching(f, kind, s, op))
    case Retire(kind, s) => Goes(f.(waiters := Retired(f.waiters, kind, s)))
    case Detach(kind, s) =>
      Goes(f.(waiters := Retired(f.waiters, kind, s), detached := f.detached + Leaving(f.waiters, kind, s)))
    case Await(op) =>
      if f.cursor !in log || fuel == 0 then Waits
      else if !Matches(log[f.cursor], op) then Ends(f, Diverged)
      else
        var value := log[f.cursor].value;
        Commands(program, Answering(program, f, op, value), program.resume(f.user, op, value, f.clock).commands, log, fuel - 1)
  }

  /** An awaited outcome claims its id; progress made stays made. */
  function Answering(program: Program, f: Frame, op: Op, value: Value): Frame {
    var r := program.resume(f.user, op, value, f.clock);
    f.(user := r.user, cursor := f.cursor + 1, progressed := f.progressed || r.progressed)
  }

  predicate Matches(e: Entry, op: Op) {
    e.Outcome? && e.op == op
  }

  function Commands(program: Program, f: Frame, commands: seq<Command>, log: Log, fuel: nat): Way
    decreases fuel, |commands|
  {
    if commands == [] then Goes(f)
    else
      var first := Performed(program, f, commands[0], log, fuel);
      if first.Goes? then Commands(program, first.frame, commands[1..], log, fuel) else first
  }

  /** The done waiters of the list as it was, from the i-th on. */
  function Deliveries(program: Program, f: Frame, list: seq<Waiter>, done: set<nat>, i: nat, log: Log, fuel: nat): Way
    requires i <= |list|
    decreases |list| - i
  {
    if i == |list| then Goes(f)
    else if i !in done then Deliveries(program, f, list, done, i + 1, log, fuel)
    else
      var w := list[i];
      if w.id !in log then Waits
      else if w !in f.waiters then Ends(f, Broken)
      else if !Matches(log[w.id], w.op) then Ends(f, Diverged)
      else
        var after := Commands(program, Delivered(program, f, w, log[w.id].value),
                              Woken(program, f, w, log[w.id].value).commands, log, fuel);
        if after.Goes? then Deliveries(program, after.frame, list, done, i + 1, log, fuel) else after
  }

  /** A delivery never takes the clock back, and the code runs at the new time. */
  function Arrival(program: Program, f: Frame, w: Waiter, value: Value): real {
    var to := program.stamp(f.user, w, value, f.clock);
    if to > f.clock then to else f.clock
  }

  function Woken(program: Program, f: Frame, w: Waiter, value: Value): Reaction {
    program.event(f.user, w, value, Arrival(program, f, w, value))
  }

  function Delivered(program: Program, f: Frame, w: Waiter, value: Value): Frame {
    f.(user := Woken(program, f, w, value).user, clock := Arrival(program, f, w, value),
       waiters := Without(f.waiters, w), delivered := f.delivered + [w.id])
  }

  /** The inbox is waited for in every race. */
  function WithInbox(f: Frame): Frame {
    if exists w <- f.waiters :: w.kind.Inbox? then f else Launching(f, Inbox, 0, Recv)
  }

  function Racing(program: Program, f: Frame, log: Log, fuel: nat): Way {
    if f.cursor !in log then Waits
    else if !ValidRace(f.waiters, log[f.cursor], log) then Ends(f, Diverged)
    else Deliveries(program, f.(cursor := f.cursor + 1), f.waiters, log[f.cursor].done, 0, log, fuel)
  }

  /** Close effects while the waiters still run, and after their teardown. */
  function Closing(program: Program, f: Frame, log: Log, fuel: nat): Way {
    var closed := Commands(program, f, program.closing(f.user), log, fuel);
    if !closed.Goes? then closed
    else
      var torn := closed.frame.(waiters := []);
      var left := Commands(program, torn, program.farewell(torn.user), log, fuel);
      if left.Goes? then Ends(left.frame, Closed) else left
  }

  /** One pass of the loop's body: it goes on at the loop's head, or ends. */
  function Pass(program: Program, f: Frame, log: Log, fuel: nat): Way {
    var r := program.turn(f.user, f.clock);
    var turned := Commands(program, f.(user := r.user, progressed := r.progressed), r.commands, log, fuel);
    if !turned.Goes? || turned.frame.progressed then turned else Settling(program, turned.frame, log, fuel)
  }

  /** The outbox: every reply is awaited, one after the other. */
  function Replies(program: Program, f: Frame, ops: seq<Op>, log: Log, fuel: nat): Way
    decreases |ops|
  {
    if ops == [] then Goes(f)
    else
      var first := Performed(program, f, Await(ops[0]), log, fuel);
      if first.Goes? then Replies(program, first.frame, ops[1..], log, fuel) else first
  }

  /** Without progress: the outbox, then the close or a race. */
  function Settling(program: Program, f: Frame, log: Log, fuel: nat): Way {
    var flushed := Replies(program, f.(user := program.sent(f.user)), program.replies(f.user), log, fuel);
    if !flushed.Goes? then flushed
    else if program.finished(flushed.frame.user) then Closing(program, flushed.frame, log, fuel)
    else Racing(program, WithInbox(flushed.frame), log, fuel)
  }

  /** From the start: the first record, then so many passes. */
  function Loop(program: Program, log: Log, passes: nat, fuel: nat): Way
    decreases passes
  {
    if passes == 0 then
      if program.base !in log then Waits
      else
        var e := log[program.base];
        var start := Frame(program.blank, 0.0, [], program.base, [], false, []);
        if !Matches(e, Init) then Ends(start, Diverged)
        else Goes(start.(user := program.boot(e.value), clock := program.startTime(e.value), cursor := program.base + 1))
    else
      var before := Loop(program, log, passes - 1, fuel);
      if before.Goes? then Pass(program, before.frame, log, fuel) else before
  }

  // ---------------------------------------------------------------------
  // The step machine does what the straight-line code does
  // ---------------------------------------------------------------------

  function Standing(phase: Phase, f: Frame, todo: seq<Command>, batch: seq<Waiter>): Proc {
    Proc(phase, f.user, f.clock, f.waiters, f.cursor, todo, batch, f.detached, f.progressed, f.delivered)
  }

  function FrameOf(p: Proc): Frame {
    Frame(p.user, p.clock, p.waiters, p.cursor, p.detached, p.progressed, p.delivered)
  }

  /** Marks the states whose next step a proof looks at. */
  predicate Seen(p: Proc) {
    true
  }

  /** One step of the machine over the log, or nothing where it is not ready for one. */
  ghost predicate Moves(next: Proc -> Option<Proc>, program: Program, log: Log) {
    forall p {:trigger Seen(p)} :: Seen(p) ==> next(p) == if Ready(p, log) then Some(Tick(program, p, log)) else None
  }

  function Walk<T>(next: T -> Option<T>, x: T, n: nat): Option<T> {
    if n == 0 then Some(x)
    else
      var y := Walk(next, x, n - 1);
      if y.Some? then next(y.value) else None
  }

  lemma {:induction false} WalksAdd<T>(next: T -> Option<T>, x: T, a: nat, y: T, b: nat)
    requires Walk(next, x, a) == Some(y)
    ensures Walk(next, x, a + b) == Walk(next, y, b)
  {
    if b > 0 {
      WalksAdd(next, x, a, y, b - 1);
    }
  }

  /** After n steps from p the machine stands where the code has gone to, with these
      commands and deliveries still ahead, or has ended as it ended. */
  ghost predicate Reaches(
    next: Proc -> Option<Proc>, p: Proc, n: nat, way: Way, phase: Phase, rest: seq<Command>, batch: seq<Waiter>)
  {
    match way
    case Goes(f) => Walk(next, p, n) == Some(Standing(phase, f, rest, batch))
    case Ends(f, end) =>
      var q := Walk(next, p, n);
      q.Some? && q.value.phase == end && FrameOf(q.value) == f
    case Waits => true
  }

  lemma AfterSome(next: Proc -> Option<Proc>, p: Proc, m: nat, q: Proc, n: nat, way: Way,
                  phase: Phase, rest: seq<Command>, batch: seq<Waiter>)
    requires Walk(next, p, m) == Some(q) && Reaches(next, q, n, way, phase, rest, batch)
    ensures Reaches(next, p, m + n, way, phase, rest, batch)
  {
    WalksAdd(next, p, m, q, n);
  }

  lemma WalkOne(next: Proc -> Option<Proc>, program: Program, p: Proc, log: Log, q: Proc)
    requires Moves(next, program, log) && Ready(p, log) && q == Tick(program, p, log)
    ensures Walk(next, p, 1) == Some(q)
  {
    assert Seen(p);
    assert Walk(next, p, 0) == Some(p);
  }

  /** One step, then what is reached from there. */
  lemma AfterStep(next: Proc -> Option<Proc>, p: Proc, q: Proc, m: nat, way: Way,
                  phase: Phase, rest: seq<Command>, batch: seq<Waiter>)
    requires Walk(next, p, 1) == Some(q) && Reaches(next, q, m, way, phase, rest, batch)
    ensures Reaches(next, p, 1 + m, way, phase, rest, batch)
  {
    AfterSome(next, p, 1, q, m, way, phase, rest, batch);
  }

  ghost predicate Busy(phase: Phase) {
    !phase.Booting? && !phase.Closed? && !phase.Broken? && !phase.Diverged?
  }

  lemma {:induction false} PerformedReaches(
    next: Proc -> Option<Proc>, program: Program, phase: Phase, f: Frame, c: Command, rest: seq<Command>, batch: seq<Waiter>, log: Log, fuel: nat)
    returns (n: nat)
    requires Moves(next, program, log)
    requires Busy(phase)
    ensures Reaches(next, Standing(phase, f, [c] + rest, batch), n, Performed(program, f, c, log, fuel),
                    phase, rest, batch)
    decreases fuel, 0, 1
  {
    n := 1;
    if !c.Await? {
      SimpleReaches(next, program, phase, f, c, rest, batch, log, fuel);
    } else if f.cursor in log && fuel > 0 {
      n := AwaitedReaches(next, program, phase, f, c.op, rest, batch, log, fuel);
    }
  }

  lemma SimpleReaches(
    next: Proc -> Option<Proc>, program: Program, phase: Phase, f: Frame, c: Command, rest: seq<Command>, batch: seq<Waiter>, log: Log, fuel: nat)
    requires Moves(next, program, log)
    requires Busy(phase) && !c.Await?
    ensures Reaches(next, Standing(phase, f, [c] + rest, batch), 1, Performed(program, f, c, log, fuel),
                    phase, rest, batch)
  {
    var p := Standing(phase, f, [c] + rest, batch);
    assert p.todo[0] == c && p.todo[1..] == rest;
    WalkOne(next, program, p, log, Tick(program, p, log));
  }

  lemma AwaitStep(next: Proc -> Option<Proc>, program: Program, phase: Phase, f: Frame, op: Op, rest: seq<Command>,
                  batch: seq<Waiter>, log: Log)
    requires Moves(next, program, log) && Busy(phase) && f.cursor in log
    ensures Walk(next, Standing(phase, f, [Await(op)] + rest, batch), 1) == Some(
        if !Matches(log[f.cursor], op) then Standing(Diverged, f, rest, batch)
        else
          var r := program.resume(f.user, op, log[f.cursor].value, f.clock);
          Standing(phase, Answering(program, f, op, log[f.cursor].value), r.commands + rest, batch))
  {
    var p := Standing(phase, f, [Await(op)] + rest, batch);
    assert p.todo[0] == Await(op) && p.todo[1..] == rest;
    WalkOne(next, program, p, log, Tick(program, p, log));
  }

  lemma {:induction false} AwaitedReaches(
    next: Proc -> Option<Proc>, program: Program, phase: Phase, f: Frame, op: Op, rest: seq<Command>, batch: seq<Waiter>,
    log: Log, fuel: nat)
    returns (n: nat)
    requires Moves(next, program, log)
    requires Busy(phase) && f.cursor in log && fuel > 0
    ensures Reaches(next, Standing(phase, f, [Await(op)] + rest, batch), n,
                    Performed(program, f, Await(op), log, fuel), phase, rest, batch)
    decreases fuel, 0, 0
  {
    n := 1;
    AwaitStep(next, program, phase, f, op, rest, batch, log);
    if Matches(log[f.cursor], op) {
      var r := program.resume(f.user, op, log[f.cursor].value, f.clock);
      var g := Answering(program, f, op, log[f.cursor].value);
      var m := CommandsReach(next, program, phase, g, r.commands, rest, batch, log, fuel - 1);
      AfterStep(next, Standing(phase, f, [Await(op)] + rest, batch), Standing(phase, g, r.commands + rest, batch), m,
                Commands(program, g, r.commands, log, fuel - 1), phase, rest, batch);
      n := 1 + m;
    }
  }

  lemma {:induction false} CommandsReach(
    next: Proc -> Option<Proc>, program: Program, phase: Phase, f: Frame, commands: seq<Command>, rest: seq<Command>, batch: seq<Waiter>, log: Log,
    fuel: nat)
    returns (n: nat)
    requires Moves(next, program, log)
    requires Busy(phase)
    ensures Reaches(next, Standing(phase, f, commands + rest, batch), n, Commands(program, f, commands, log, fuel),
                    phase, rest, batch)
    decreases fuel, |commands|, 2
  {
    n := 0;
    if commands == [] {
      assert commands + rest == rest;
    } else {
      var first := Performed(program, f, commands[0], log, fuel);
      var ahead := commands[1..] + rest;
      assert commands + rest == [commands[0]] + ahead;
      n := PerformedReaches(next, program, phase, f, commands[0], ahead, batch, log, fuel);
      if first.Goes? {
        var m := CommandsReach(next, program, phase, first.frame, commands[1..], rest, batch, log, fuel);
        AfterSome(next, Standing(phase, f, commands + rest, batch), n, Standing(phase, first.frame, ahead, batch), m,
                  Commands(program, first.frame, commands[1..], log, fuel), phase, rest, batch);
        n := n + m;
      }
    }
  }

  /** The done waiters of the list from the i-th on, in list order. */
  function From(list: seq<Waiter>, done: set<nat>, i: nat): seq<Waiter>
    requires i <= |list|
    decreases |list| - i
  {
    if i == |list| then []
    else if i in done then [list[i]] + From(list, done, i + 1)
    else From(list, done, i + 1)
  }

  lemma {:induction false} PickIsFrom(list: seq<Waiter>, done: set<nat>, i: nat)
    requires i <= |list|
    ensures Pick(list, done) == Pick(list[..i], done) + From(list, done, i)
    decreases |list| - i
  {
    if i == |list| {
      assert list[..i] == list;
    } else {
      PickIsFrom(list, done, i + 1);
      assert list[..i + 1][..i] == list[..i];
    }
  }

  lemma DeliverStep(next: Proc -> Option<Proc>, program: Program, f: Frame, w: Waiter, batch: seq<Waiter>, log: Log)
    requires Moves(next, program, log) && w.id in log
    ensures Walk(next, Standing(Delivering, f, [], [w] + batch), 1) == Some(
        if w !in f.waiters then Standing(Broken, f, [], batch)
        else if !Matches(log[w.id], w.op) then Standing(Diverged, f, [], batch)
        else Standing(Delivering, Delivered(program, f, w, log[w.id].value),
                      Woken(program, f, w, log[w.id].value).commands, batch))
  {
    var p := Standing(Delivering, f, [], [w] + batch);
    assert p.batch[0] == w && p.batch[1..] == batch;
    WalkOne(next, program, p, log, Tick(program, p, log));
  }

  lemma {:induction false} DeliveriesReach(
    next: Proc -> Option<Proc>, program: Program, f: Frame, list: seq<Waiter>, done: set<nat>, i: nat, log: Log, fuel: nat)
    returns (n: nat)
    requires Moves(next, program, log)
    requires i <= |list|
    ensures Reaches(next, Standing(Delivering, f, [], From(list, done, i)), n,
                    Deliveries(program, f, list, done, i, log, fuel), Delivering, [], [])
    decreases |list| - i, 1
  {
    n := 0;
    if i < |list| {
      if i !in done {
        n := DeliveriesReach(next, program, f, list, done, i + 1, log, fuel);
      } else if list[i].id in log {
        n := DeliveredReaches(next, program, f, list, done, i, log, fuel);
      }
    }
  }

  lemma {:induction false} DeliveredReaches(
    next: Proc -> Option<Proc>, program: Program, f: Frame, list: seq<Waiter>, done: set<nat>, i: nat, log: Log, fuel: nat)
    returns (n: nat)
    requires Moves(next, program, log)
    requires i < |list| && i in done && list[i].id in log
    ensures Reaches(next, Standing(Delivering, f, [], From(list, done, i)), n,
                    Deliveries(program, f, list, done, i, log, fuel), Delivering, [], [])
    decreases |list| - i, 0
  {
    var w, batch := list[i], From(list, done, i + 1);
    n := 1;
    DeliverStep(next, program, f, w, batch, log);
    if w in f.waiters && Matches(log[w.id], w.op) {
      var g, commands := Delivered(program, f, w, log[w.id].value), Woken(program, f, w, log[w.id].value).commands;
      var after := Commands(program, g, commands, log, fuel);
      n := WokenReaches(next, program, Standing(Delivering, f, [], [w] + batch), g, commands, batch, log, fuel);
      if after.Goes? {
        var k := DeliveriesReach(next, program, after.frame, list, done, i + 1, log, fuel);
        AfterSome(next, Standing(Delivering, f, [], [w] + batch), n, Standing(Delivering, after.frame, [], batch), k,
                  Deliveries(program, after.frame, list, done, i + 1, log, fuel), Delivering, [], []);
        n := n + k;
      }
    }
  }

  lemma {:induction false} WokenReaches(
    next: Proc -> Option<Proc>, program: Program, p: Proc, g: Frame, commands: seq<Command>, batch: seq<Waiter>, log: Log,
    fuel: nat)
    returns (n: nat)
    requires Moves(next, program, log) && Walk(next, p, 1) == Some(Standing(Delivering, g, commands, batch))
    ensures Reaches(next, p, n, Commands(program, g, commands, log, fuel), Delivering, [], batch)
  {
    assert commands + [] == commands;
    var m := CommandsReach(next, program, Delivering, g, commands, [], batch, log, fuel);
    AfterStep(next, p, Standing(Delivering, g, commands, batch), m, Commands(program, g, commands, log, fuel),
              Delivering, [], batch);
    n := 1 + m;
  }

  lemma RaceStep(next: Proc -> Option<Proc>, program: Program, f: Frame, log: Log)
    requires Moves(next, program, log)
    requires f.cursor in log
    ensures Walk(next, Standing(Phase.Racing, f, [], []), 1) == Some(
        if ValidRace(f.waiters, log[f.cursor], log) then
          Standing(Delivering, f.(cursor := f.cursor + 1), [], Pick(f.waiters, log[f.cursor].done))
        else Standing(Diverged, f, [], []))
  {
    WalkOne(next, program, Standing(Phase.Racing, f, [], []), log, Tick(program, Standing(Phase.Racing, f, [], []), log));
  }

  lemma {:induction false} RacingReaches(next: Proc -> Option<Proc>, program: Program, f: Frame, log: Log, fuel: nat) returns (n: nat)
    requires Moves(next, program, log)
    ensures Reaches(next, Standing(Phase.Racing, f, [], []), n, Racing(program, f, log, fuel), Delivering, [], [])
  {
    n := 1;
    if f.cursor in log {
      RaceStep(next, program, f, log);
      if ValidRace(f.waiters, log[f.cursor], log) {
        n := RaceReaches(next, program, f, log, fuel);
      }
    }
  }

  lemma {:induction false} RaceReaches(next: Proc -> Option<Proc>, program: Program, f: Frame, log: Log, fuel: nat) returns (n: nat)
    requires Moves(next, program, log)
    requires f.cursor in log && ValidRace(f.waiters, log[f.cursor], log)
    ensures Reaches(next, Standing(Phase.Racing, f, [], []), n, Racing(program, f, log, fuel), Delivering, [], [])
  {
    var done, g := log[f.cursor].done, f.(cursor := f.cursor + 1);
    var batch := From(f.waiters, done, 0);
    assert Pick(f.waiters, done) == batch by {
      PickIsFrom(f.waiters, done, 0);
      assert f.waiters[..0] == [] && Pick([], done) + batch == batch;
    }
    RaceStep(next, program, f, log);
    var m := DeliveriesReach(next, program, g, f.waiters, done, 0, log, fuel);
    AfterStep(next, Standing(Phase.Racing, f, [], []), Standing(Delivering, g, [], batch), m,
              Racing(program, f, log, fuel), Delivering, [], []);
    n := 1 + m;
  }

  /** A phase without commands of its own left hands on to the next, with its commands. */
  lemma {:induction false} Enters(
    next: Proc -> Option<Proc>, program: Program, p: Proc, phase: Phase, f: Frame, commands: seq<Command>, log: Log, fuel: nat) returns (n: nat)
    requires Moves(next, program, log)
    requires Ready(p, log) && Tick(program, p, log) == Standing(phase, f, commands, []) && Busy(phase)
    ensures Reaches(next, p, n, Commands(program, f, commands, log, fuel), phase, [], [])
  {
    WalkOne(next, program, p, log, Tick(program, p, log));
    assert commands + [] == commands;
    var m := CommandsReach(next, program, phase, f, commands, [], [], log, fuel);
    AfterSome(next, p, 1, Standing(phase, f, commands, []), m, Commands(program, f, commands, log, fuel), phase, [], []);
    n := 1 + m;
  }

  lemma {:induction false} ClosingReaches(next: Proc -> Option<Proc>, program: Program, f: Frame, log: Log, fuel: nat) returns (n: nat)
    requires Moves(next, program, log)
    requires program.finished(f.user)
    ensures Reaches(next, Standing(Flushing, f, [], []), n, Closing(program, f, log, fuel), Flushing, [], [])
  {
    var p := Standing(Flushing, f, [], []);
    var closed := Commands(program, f, program.closing(f.user), log, fuel);
    n := Enters(next, program, p, Phase.Closing, f, program.closing(f.user), log, fuel);
    if closed.Goes? {
      var m := TearingDown(next, program, closed.frame, log, fuel);
      AfterSome(next, p, n, Standing(Phase.Closing, closed.frame, [], []), m,
                Closing(program, f, log, fuel), Flushing, [], []);
      n := n + m;
    }
  }

  lemma Closes(next: Proc -> Option<Proc>, program: Program, f: Frame, log: Log)
    requires Moves(next, program, log)
    ensures Reaches(next, Standing(TornDown, f, [], []), 1, Ends(f, Closed), Flushing, [], [])
  {
    WalkOne(next, program, Standing(TornDown, f, [], []), log, Tick(program, Standing(TornDown, f, [], []), log));
  }

  /** What is left once the closing effects are done. */
  lemma {:induction false} TearingDown(next: Proc -> Option<Proc>, program: Program, f: Frame, log: Log, fuel: nat) returns (n: nat)
    requires Moves(next, program, log)
    ensures
      var torn := f.(waiters := []);
      var left := Commands(program, torn, program.farewell(torn.user), log, fuel);
      Reaches(next, Standing(Phase.Closing, f, [], []), n, if left.Goes? then Ends(left.frame, Closed) else left,
              Flushing, [], [])
  {
    var torn := f.(waiters := []);
    var left := Commands(program, torn, program.farewell(torn.user), log, fuel);
    var p := Standing(Phase.Closing, f, [], []);
    n := Enters(next, program, p, TornDown, torn, program.farewell(torn.user), log, fuel);
    if left.Goes? {
      var q := Standing(TornDown, left.frame, [], []);
      Closes(next, program, left.frame, log);
      AfterSome(next, p, n, q, 1, Ends(left.frame, Closed), Flushing, [], []);
      n := n + 1;
    }
  }

  /** From the flushed outbox on: the close, or the inbox, the race and its deliveries. */
  lemma {:induction false} FlushedReaches(next: Proc -> Option<Proc>, program: Program, f: Frame, log: Log, fuel: nat) returns (n: nat)
    requires Moves(next, program, log)
    ensures
      var way := if program.finished(f.user) then Closing(program, f, log, fuel)
                 else Racing(program, WithInbox(f), log, fuel);
      Reaches(next, Standing(Flushing, f, [], []), n, way, Turning, [], [])
  {
    if program.finished(f.user) {
      n := ClosingReaches(next, program, f, log, fuel);
      ClosingEnds(program, f, log, fuel);
    } else {
      var p, q := Standing(Flushing, f, [], []), Standing(Phase.Racing, WithInbox(f), [], []);
      var way := Racing(program, WithInbox(f), log, fuel);
      WalkOne(next, program, p, log, Tick(program, p, log));
      assert Tick(program, p, log) == q;
      var m := RacingReaches(next, program, WithInbox(f), log, fuel);
      m := RoundReaches(next, program, q, log, m, way);
      AfterSome(next, p, 1, q, m, way, Turning, [], []);
      n := 1 + m;
    }
  }

  lemma ClosingEnds(program: Program, f: Frame, log: Log, fuel: nat)
    ensures !Closing(program, f, log, fuel).Goes?
  {
  }

  /** After the last delivery of a round the code has its turn. */
  lemma {:induction false} RoundReaches(next: Proc -> Option<Proc>, program: Program, q: Proc, log: Log, n: nat, way: Way)
    returns (m: nat)
    requires Moves(next, program, log)
    requires Reaches(next, q, n, way, Delivering, [], [])
    ensures Reaches(next, q, m, way, Turning, [], [])
  {
    m := n;
    if way.Goes? {
      RoundStep(next, program, way.frame, log);
      AfterSome(next, q, n, Standing(Delivering, way.frame, [], []), 1, way, Turning, [], []);
      m := n + 1;
    }
  }

  lemma RoundStep(next: Proc -> Option<Proc>, program: Program, f: Frame, log: Log)
    requires Moves(next, program, log)
    ensures Walk(next, Standing(Delivering, f, [], []), 1) == Some(Standing(Turning, f, [], []))
  {
    var p := Standing(Delivering, f, [], []);
    WalkOne(next, program, p, log, Tick(program, p, log));
  }

  lemma IssuedStep(next: Proc -> Option<Proc>, program: Program, f: Frame, log: Log)
    requires Moves(next, program, log)
    ensures Walk(next, Standing(Issuing, f, [], []), 1) ==
        Some(Standing(if f.progressed then Turning else Settled, f, [], []))
  {
    WalkOne(next, program, Standing(Issuing, f, [], []), log, Tick(program, Standing(Issuing, f, [], []), log));
  }

  /** The commands of a turn are done: another turn if there was progress. */
  lemma {:induction false} IssuedReaches(next: Proc -> Option<Proc>, program: Program, f: Frame, log: Log, fuel: nat) returns (n: nat)
    requires Moves(next, program, log)
    ensures Reaches(next, Standing(Issuing, f, [], []), n,
                    if f.progressed then Goes(f) else Settling(program, f, log, fuel), Turning, [], [])
  {
    n := 1;
    IssuedStep(next, program, f, log);
    if !f.progressed {
      var m := SettledReaches(next, program, f, log, fuel);
      AfterStep(next, Standing(Issuing, f, [], []), Standing(Settled, f, [], []), m,
                Settling(program, f, log, fuel), Turning, [], []);
      n := 1 + m;
    }
  }

  /** One pass of the loop's body, from one turn of the code to the next or to the end. */
  lemma {:induction false} PassReaches(next: Proc -> Option<Proc>, program: Program, f: Frame, log: Log, fuel: nat) returns (n: nat)
    requires Moves(next, program, log)
    ensures Reaches(next, Standing(Turning, f, [], []), n, Pass(program, f, log, fuel), Turning, [], [])
  {
    var r := program.turn(f.user, f.clock);
    var begun := f.(user := r.user, progressed := r.progressed);
    var turned := Commands(program, begun, r.commands, log, fuel);
    var p := Standing(Turning, f, [], []);
    n := Enters(next, program, p, Issuing, begun, r.commands, log, fuel);
    if turned.Goes? {
      var m := IssuedReaches(next, program, turned.frame, log, fuel);
      AfterSome(next, p, n, Standing(Issuing, turned.frame, [], []), m,
                Pass(program, f, log, fuel), Turning, [], []);
      n := n + m;
    }
  }

  lemma {:induction false} RepliesAreCommands(program: Program, f: Frame, ops: seq<Op>, log: Log, fuel: nat)
    ensures Replies(program, f, ops, log, fuel) == Commands(program, f, AwaitAll(ops), log, fuel)
    decreases |ops|
  {
    if ops != [] {
      var first := Performed(program, f, Await(ops[0]), log, fuel);
      assert AwaitAll(ops)[0] == Await(ops[0]) && AwaitAll(ops)[1..] == AwaitAll(ops[1..]);
      if first.Goes? {
        RepliesAreCommands(program, first.frame, ops[1..], log, fuel);
      }
    }
  }

  lemma {:induction false} SettledReaches(next: Proc -> Option<Proc>, program: Program, g: Frame, log: Log, fuel: nat) returns (n: nat)
    requires Moves(next, program, log)
    ensures Reaches(next, Standing(Settled, g, [], []), n, Settling(program, g, log, fuel), Turning, [], [])
  {
    var p := Standing(Settled, g, [], []);
    var sent := g.(user := program.sent(g.user));
    var flushed := Replies(program, sent, program.replies(g.user), log, fuel);
    RepliesAreCommands(program, sent, program.replies(g.user), log, fuel);
    n := Enters(next, program, p, Flushing, sent, AwaitAll(program.replies(g.user)), log, fuel);
    if flushed.Goes? {
      var m := FlushedReaches(next, program, flushed.frame, log, fuel);
      AfterSome(next, p, n, Standing(Flushing, flushed.frame, [], []), m,
                Settling(program, g, log, fuel), Turning, [], []);
      n := n + m;
    }
  }

  /** However many passes: where the loop has come to, the machine stands after some number of steps. */
  lemma {:induction false} LoopReached(next: Proc -> Option<Proc>, program: Program, log: Log, passes: nat, fuel: nat) returns (n: nat)
    requires Moves(next, program, log)
    ensures Reaches(next, Fresh(program), n, Loop(program, log, passes, fuel), Turning, [], [])
    decreases passes
  {
    if passes == 0 {
      n := BootReaches(next, program, log, fuel);
    } else {
      n := LoopReached(next, program, log, passes - 1, fuel);
      var before := Loop(program, log, passes - 1, fuel);
      if before.Goes? {
        var m := PassReaches(next, program, before.frame, log, fuel);
        AfterSome(next, Fresh(program), n, Standing(Turning, before.frame, [], []), m,
                  Pass(program, before.frame, log, fuel), Turning, [], []);
        n := n + m;
      }
    }
  }

  lemma BootStep(next: Proc -> Option<Proc>, program: Program, log: Log, fuel: nat)
    requires Moves(next, program, log)
    requires program.base in log
    ensures
      var first := Walk(next, Fresh(program), 1);
      match Loop(program, log, 0, fuel)
      case Goes(f) => first == Some(Standing(Booting, f, [], []))
      case Ends(f, phase) => first.Some? && first.value.phase == phase && FrameOf(first.value) == f
      case Waits => false
  {
    WalkOne(next, program, Fresh(program), log, Tick(program, Fresh(program), log));
    assert Fresh(program).todo[1..] == [];
  }

  lemma BootedStep(next: Proc -> Option<Proc>, program: Program, f: Frame, log: Log)
    requires Moves(next, program, log)
    ensures Walk(next, Standing(Booting, f, [], []), 1) == Some(Standing(Turning, f, [], []))
  {
    WalkOne(next, program, Standing(Booting, f, [], []), log, Tick(program, Standing(Booting, f, [], []), log));
  }

  lemma {:induction false} BootReaches(next: Proc -> Option<Proc>, program: Program, log: Log, fuel: nat) returns (n: nat)
    requires Moves(next, program, log)
    ensures Reaches(next, Fresh(program), n, Loop(program, log, 0, fuel), Turning, [], [])
  {
    var way := Loop(program, log, 0, fuel);
    n := 1;
    if program.base !in log {
      assert way.Waits?;
    } else {
      BootStep(next, program, log, fuel);
      if way.Goes? {
        BootedStep(next, program, way.frame, log);
        AfterStep(next, Fresh(program), Standing(Booting, way.frame, [], []), 1, way, Turning, [], []);
        n := 2;
      }
    }
  }

  lemma {:induction false} WalkIsSteps(next: Proc -> Option<Proc>, program: Program, log: Log, p: Proc, n: nat)
    requires Moves(next, program, log)
    ensures Walk(next, p, n) == Steps(program, p, log, n)
  {
    if n > 0 {
      WalkIsSteps(next, program, log, p, n - 1);
      var before := Walk(next, p, n - 1);
      assert before.Some? ==> Seen(before.value);
    }
  }

  /** Over every log, however many passes: where the straight-line loop has come to at
      its head, or how it has ended, the replay of that log stands after some number of steps. */
  lemma MachineRunsTheLoop(program: Program, log: Log, passes: nat, fuel: nat) returns (n: nat)
    ensures
      var there := Replay(program, log, n);
      match Loop(program, log, passes, fuel)
      case Goes(f) => there == Some(Standing(Turning, f, [], []))
      case Ends(f, end) => there.Some? && there.value.phase == end && FrameOf(there.value) == f
      case Waits => true
  {
    var next := (p: Proc) => if Ready(p, log) then Some(Tick(program, p, log)) else None;
    assert Moves(next, program, log);
    n := LoopReached(next, program, log, passes, fuel);
    WalkIsSteps(next, program, log, Fresh(program), n);
  }
}
