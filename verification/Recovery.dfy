/**
 The checkpoint log of one execution and the interpreter's main loop over it.

 A workflow is replayed from checkpoints: the interpreter re-runs the same
 logical sequence and every checkpointed operation finds its recorded outcome
 under the function id it claims.  The log is a map from function ids to
 outcomes, the process is what a crash loses.
 */
module CheckpointLog {
  type StepName(==, !new)
  type Value(==, !new)

  /** A checkpointed operation; DBOS compares it with the recorded one on replay. */
  datatype Op = Init | Sleep(seconds: real) | Recv | Step(name: StepName)

  /** What one function id records: an operation's outcome, or the done set of a race. */
  datatype Entry = Outcome(op: Op, value: Value) | Race(done: set<nat>)

  type Log = map<nat, Entry>

  /** No recorded entry is missing or changed. */
  ghost predicate Extends(small: Log, big: Log) {
    forall i :: i in small ==> i in big && big[i] == small[i]
  }
}

module Interpreter {
  import opened Prelude
  import opened CheckpointLog

  /** Everything the virtual loop holds: the workflow object, its coroutines and
      the bookkeeping of activities, children, timers and handlers. */
  type User(!new)

  datatype Kind = Inbox | Timer | Activity | QueuedActivity | ParkDeadline | ParkHeartbeat | Child

  /** A racing operation: the function id it claimed and whom to wake. */
  datatype Waiter = Waiter(id: nat, kind: Kind, seq_: nat, op: Op)

  datatype Command =
    | StartTimer(timer: nat, due: real)             // a virtual-loop timer
    | Launch(kind: Kind, seq_: nat, op: Op)         // joins the race
    | Await(op: Op)                                 // awaited in place
    | Retire(kind: Kind, seq_: nat)                 // its waiters are cancelled
    | Detach(kind: Kind, seq_: nat)                 // its waiters leave the race but go on

  datatype Reaction = Reaction(user: User, commands: seq<Command>, progressed: bool)

  /** One version of the workflow code: deterministic functions only. */
  datatype Program = Program(
    base: nat,                                      // the cursor the task loop starts and rewinds to
    blank: User,
    boot: Value -> User,                            // start time and seed become the first state
    startTime: Value -> real,
    turn: (User, real) -> Reaction,                 // drain, sweep cancellations, flush handler signals
    live: (User, nat) -> bool,                      // is the timer still pending?
    fire: (User, nat) -> User,                      // a timer already due
    resume: (User, Op, Value, real) -> Reaction,    // the outcome of an operation awaited in place
    stamp: (User, Waiter, Value, real) -> real,     // the time a delivery advances the clock to
    event: (User, Waiter, Value, real) -> Reaction, // the outcome of a raced operation
    replies: User -> seq<Op>,                       // the outbox
    sent: User -> User,                             // ... emptied
    finished: User -> bool,                         // an outcome is set
    closing: User -> seq<Command>,                  // close effects while the waiters still run
    farewell: User -> seq<Command>)                 // close effects after their teardown

  datatype Phase =
    | Booting | Turning | Issuing | Settled | Flushing | Racing | Delivering | Closing | TornDown
    | Closed
    | Broken      // a done waiter was no longer in the list
    | Diverged    // the log holds something else than the operation replayed

  datatype Proc = Proc(
    phase: Phase,
    user: User,
    clock: real,
    waiters: seq<Waiter>,
    cursor: nat,
    todo: seq<Command>,
    batch: seq<Waiter>,
    detached: seq<Waiter>,                          // abandoned, still to record their outcomes
    progressed: bool,
    delivered: seq<nat>)

  function Fresh(program: Program): Proc {
    Proc(Booting, program.blank, 0.0, [], program.base, [Await(Init)], [], [], false, [])
  }

  predicate Halted(p: Proc) {
    p.phase == Closed || p.phase == Broken || p.phase == Diverged
  }

  /** The function id whose record the process cannot go on without. */
  function Need(p: Proc): Option<nat> {
    if p.todo != [] then
      if p.todo[0].Await? then Some(p.cursor) else None
    else if p.phase == Racing then Some(p.cursor)
    else if p.phase == Delivering && p.batch != [] then Some(p.batch[0].id)
    else None
  }

  predicate Ready(p: Proc, log: Log) {
    !Halted(p) && (Need(p).Some? ==> Need(p).value in log)
  }

  /** Removes one waiter, the first that equals w. */
  function Without(waiters: seq<Waiter>, w: Waiter): seq<Waiter> {
    if waiters == [] then []
    else if waiters[0] == w then waiters[1..]
    else [waiters[0]] + Without(waiters[1..], w)
  }

  function Retired(waiters: seq<Waiter>, kind: Kind, seq_: nat): seq<Waiter> {
    if waiters == [] then []
    else if waiters[0].kind == kind && waiters[0].seq_ == seq_ then Retired(waiters[1..], kind, seq_)
    else [waiters[0]] + Retired(waiters[1..], kind, seq_)
  }

  function Leaving(waiters: seq<Waiter>, kind: Kind, seq_: nat): seq<Waiter> {
    if waiters == [] then []
    else if waiters[0].kind == kind && waiters[0].seq_ == seq_ then [waiters[0]] + Leaving(waiters[1..], kind, seq_)
    else Leaving(waiters[1..], kind, seq_)
  }

  /** The waiters a race names, in waiter-list order. */
  function Pick(waiters: seq<Waiter>, done: set<nat>): seq<Waiter> {
    if waiters == [] then []
    else
      var last := |waiters| - 1;
      Pick(waiters[..last], done) + (if last in done then [waiters[last]] else [])
  }

  predicate Answered(w: Waiter, log: Log) {
    w.id in log && log[w.id].Outcome? && log[w.id].op == w.op
  }

  /** A race record is usable when it names at least one waiter and only waiters
      whose own outcomes are recorded. */
  predicate ValidRace(waiters: seq<Waiter>, e: Entry, log: Log) {
    && e.Race?
    && e.done != {}
    && forall i <- e.done :: i < |waiters| && Answered(waiters[i], log)
  }

  function AwaitAll(ops: seq<Op>): seq<Command> {
    seq(|ops|, i requires 0 <= i < |ops| => Await(ops[i]))
  }

  /** A timer still pending fires at once if it is due, else it is launched. */
  function TimerStarted(program: Program, p: Proc, timer: nat, due: real): Proc {
    if !program.live(p.user, timer) then p
    else if due - p.clock <= 0.0 then
      p.(user := program.fire(p.user, timer), progressed := true)
    else
      p.(waiters := p.waiters + [Waiter(p.cursor, Timer, timer, Sleep(due - p.clock))], cursor := p.cursor + 1)
  }

  function Obey(program: Program, p: Proc, c: Command, log: Log): Proc
    requires c.Await? ==> p.cursor in log
  {
    match c
    case StartTimer(timer, due) => TimerStarted(program, p, timer, due)
    case Launch(kind, s, op) =>
      p.(waiters := p.waiters + [Waiter(p.cursor, kind, s, op)], cursor := p.cursor + 1)
    case Retire(kind, s) =>
      p.(waiters := Retired(p.waiters, kind, s))
    case Detach(kind, s) =>
      p.(waiters := Retired(p.waiters, kind, s), detached := p.detached + Leaving(p.waiters, kind, s))
    case Await(op) => Resumed(program, p, op, log[p.cursor])
  }

  /** The record an awaited operation finds under its id. */
  function Resumed(program: Program, p: Proc, op: Op, e: Entry): Proc {
    if !e.Outcome? || e.op != op then p.(phase := Diverged)
    else if p.phase == Booting then
      p.(cursor := p.cursor + 1, user := program.boot(e.value), clock := program.startTime(e.value))
    else
      var r := program.resume(p.user, op, e.value, p.clock);
      p.(cursor := p.cursor + 1, user := r.user, todo := r.commands + p.todo,
         progressed := p.progressed || r.progressed)
  }

  function Deliver(program: Program, p: Proc, w: Waiter, log: Log): Proc
    requires w.id in log
  {
    if w !in p.waiters then p.(phase := Broken)
    else if !Answered(w, log) then p.(phase := Diverged)
    else
      var value := log[w.id].value;
      var clock := Max(p.clock, program.stamp(p.user, w, value, p.clock));
      var r := program.event(p.user, w, value, clock);
      p.(user := r.user, clock := clock, waiters := Without(p.waiters, w), todo := r.commands,
         delivered := p.delivered + [w.id])
  }

  function ArmInbox(p: Proc): Proc {
    if exists w <- p.waiters :: w.kind == Inbox then p
    else p.(waiters := p.waiters + [Waiter(p.cursor, Inbox, 0, Recv)], cursor := p.cursor + 1)
  }

  /** One step of the loop, consulting the log only where it awaits a record. */
  function Tick(program: Program, p: Proc, log: Log): Proc
    requires Ready(p, log)
  {
    if p.todo != [] then
      Obey(program, p.(todo := p.todo[1..]), p.todo[0], log)
    else
      match p.phase
      case Booting => p.(phase := Turning)
      case Turning =>
        var r := program.turn(p.user, p.clock);
        p.(phase := Issuing, user := r.user, todo := r.commands, progressed := r.progressed)
      case Issuing => p.(phase := if p.progressed then Turning else Settled)
      case Settled =>
        p.(phase := Flushing, user := program.sent(p.user), todo := AwaitAll(program.replies(p.user)))
      case Flushing =>
        if program.finished(p.user) then p.(phase := Closing, todo := program.closing(p.user))
        else ArmInbox(p.(phase := Racing))
      case Racing =>
        var e := log[p.cursor];
        if !ValidRace(p.waiters, e, log) then p.(phase := Diverged)
        else p.(phase := Delivering, cursor := p.cursor + 1, batch := Pick(p.waiters, e.done))
      case Delivering =>
        if p.batch == [] then p.(phase := Turning)
        else Deliver(program, p.(batch := p.batch[1..]), p.batch[0], log)
      case Closing => p.(phase := TornDown, waiters := [], todo := program.farewell(p.user))
      case TornDown => p.(phase := Closed)
      case Closed => p
      case Broken => p
      case Diverged => p
  }

  /** n steps over a fixed log, unless a record is missing on the way. */
  ghost function Steps(program: Program, p: Proc, log: Log, n: nat): Option<Proc> {
    if n == 0 then Some(p)
    else
      var q := Steps(program, p, log, n - 1);
      if q.Some? && Ready(q.value, log) then Some(Tick(program, q.value, log)) else None
  }
}

/** The interpreter object: the loop's state as fields updated in place. */
module InterpreterLoop {
  import opened Prelude
  import opened CheckpointLog
  import opened Interpreter

  class Execution {
    const program: Program
    var phase: Phase
    var user: User
    var clock: real
    var waiters: seq<Waiter>
    var cursor: nat
    var todo: seq<Command>
    var batch: seq<Waiter>
    var detached: seq<Waiter>
    var progressed: bool
    var delivered: seq<nat>

    ghost function View(): Proc
      reads this
    {
      Proc(phase, user, clock, waiters, cursor, todo, batch, detached, progressed, delivered)
    }

    constructor (program: Program)
      ensures this.program == program && View() == Fresh(program)
    {
      this.program := program;
      phase, user, clock := Booting, program.blank, 0.0;
      waiters, cursor, todo := [], program.base, [Await(Init)];
      batch, detached, progressed, delivered := [], [], false, [];
    }

    /** Whether the loop can move over this log without a new record. */
    method CanMove(log: Log) returns (can: bool)
      ensures can == Ready(View(), log)
    {
      if phase == Closed || phase == Broken || phase == Diverged {
        can := false;
      } else if todo != [] {
        can := !todo[0].Await? || cursor in log;
      } else if phase == Racing {
        can := cursor in log;
      } else {
        can := !(phase == Delivering && batch != []) || batch[0].id in log;
      }
    }

    method LaunchWaiter(kind: Kind, s: nat, op: Op)
      modifies this`waiters, this`cursor
      ensures waiters == old(waiters) + [Waiter(old(cursor), kind, s, op)] && cursor == old(cursor) + 1
    {
      waiters := waiters + [Waiter(cursor, kind, s, op)];
      cursor := cursor + 1;
    }

    method RetireWaiters(kind: Kind, s: nat)
      modifies this`waiters
      ensures waiters == Retired(old(waiters), kind, s)
    {
      var keep: seq<Waiter> := [];
      for i := 0 to |waiters|
        invariant keep + Retired(waiters[i..], kind, s) == Retired(waiters, kind, s)
      {
        assert waiters[i..][1..] == waiters[i + 1..];
        if !(waiters[i].kind == kind && waiters[i].seq_ == s) {
          keep := keep + [waiters[i]];
        }
      }
      waiters := keep;
    }

    /** Abandoned operations leave the waiter list and are kept alive apart. */
    method DetachWaiters(kind: Kind, s: nat)
      modifies this`waiters, this`detached
      ensures waiters == Retired(old(waiters), kind, s)
      ensures detached == old(detached) + Leaving(old(waiters), kind, s)
    {
      for i := 0 to |waiters|
        invariant waiters == old(waiters)
        invariant detached + Leaving(waiters[i..], kind, s) == old(detached) + Leaving(waiters, kind, s)
      {
        assert waiters[i..][1..] == waiters[i + 1..];
        if waiters[i].kind == kind && waiters[i].seq_ == s {
          detached := detached + [waiters[i]];
        }
      }
      RetireWaiters(kind, s);
    }

    method LaunchTimer(timer: nat, due: real)
      modifies this`user, this`progressed, this`waiters, this`cursor
      ensures View() == TimerStarted(program, old(View()), timer, due)
    {
      if program.live(user, timer) {
        var delay := due - clock;
        if delay <= 0.0 {
          user := program.fire(user, timer);
          progressed := true;
        } else {
          LaunchWaiter(Timer, timer, Sleep(delay));
        }
      }
    }

    /** Turns the next queued command into a waiter, a fired timer or an awaited operation. */
    method ProcessCommand(log: Log)
      requires todo != [] && Ready(View(), log)
      modifies this
      ensures View() == Obey(program, old(View()).(todo := old(todo)[1..]), old(todo)[0], log)
    {
      var command := todo[0];
      todo := todo[1..];
      match command {
        case StartTimer(timer, due) =>
          LaunchTimer(timer, due);
        case Launch(kind, s, op) =>
          LaunchWaiter(kind, s, op);
        case Retire(kind, s) =>
          RetireWaiters(kind, s);
        case Detach(kind, s) =>
          DetachWaiters(kind, s);
        case Await(op) =>
          ResumeWith(op, log[cursor]);
      }
    }

    method ResumeWith(op: Op, entry: Entry)
      modifies this
      ensures View() == Resumed(program, old(View()), op, entry)
    {
      if !entry.Outcome? || entry.op != op {
        phase := Diverged;
        return;
      }
      cursor := cursor + 1;
      if phase == Booting {
        user := program.boot(entry.value);
        clock := program.startTime(entry.value);
      } else {
        var r := program.resume(user, op, entry.value, clock);
        user := r.user;
        todo := r.commands + todo;
        progressed := progressed || r.progressed;
      }
    }

    method RemoveWaiter(w: Waiter)
      modifies this`waiters
      ensures waiters == Without(old(waiters), w)
    {
      var i := 0;
      while i < |waiters| && waiters[i] != w
        invariant 0 <= i <= |waiters|
        invariant waiters[..i] + Without(waiters[i..], w) == Without(waiters, w)
      {
        assert waiters[i..][1..] == waiters[i + 1..];
        i := i + 1;
      }
      assert i < |waiters| ==> waiters[i..][1..] == waiters[i + 1..];
      if i < |waiters| {
        waiters := waiters[..i] + waiters[i + 1..];
      }
    }

    /** Delivers the next waiter of the race, in waiter-list order. */
    method DeliverNext(log: Log)
      requires phase == Delivering && todo == [] && batch != [] && batch[0].id in log
      modifies this
      ensures View() == Deliver(program, old(View()).(batch := old(batch)[1..]), old(batch)[0], log)
    {
      var w := batch[0];
      batch := batch[1..];
      if w !in waiters {
        phase := Broken;
      } else {
        var entry := log[w.id];
        if !entry.Outcome? || entry.op != w.op {
          phase := Diverged;
        } else {
          Wake(w, entry.value);
        }
      }
    }

    /** The outcome advances the clock, forward only, and resumes the code. */
    method Wake(w: Waiter, value: Value)
      modifies this`clock, this`waiters, this`user, this`todo, this`delivered
      ensures clock == Max(old(clock), program.stamp(old(user), w, value, old(clock)))
      ensures waiters == Without(old(waiters), w) && delivered == old(delivered) + [w.id]
      ensures
        var r := program.event(old(user), w, value, clock);
        user == r.user && todo == r.commands
    {
      var to := program.stamp(user, w, value, clock);
      if to > clock {
        clock := to;
      }
      RemoveWaiter(w);
      var r := program.event(user, w, value, clock);
      user, todo := r.user, r.commands;
      delivered := delivered + [w.id];
    }

    /** The race: its record names the done waiters by their place in the list. */
    method AwaitRace(log: Log)
      requires phase == Racing && todo == [] && cursor in log
      modifies this
      ensures View() == Tick(program, old(View()), log)
    {
      var entry := log[cursor];
      if !ValidRace(waiters, entry, log) {
        phase := Diverged;
      } else {
        cursor := cursor + 1;
        batch := Pick(waiters, entry.done);
        phase := Delivering;
      }
    }

    method EnsureInboxWaiter()
      modifies this`waiters, this`cursor
      ensures View() == ArmInbox(old(View()))
    {
      for i := 0 to |waiters|
        invariant forall j :: 0 <= j < i ==> waiters[j].kind != Inbox
      {
        if waiters[i].kind == Inbox {
          return;
        }
      }
      LaunchWaiter(Inbox, 0, Recv);
    }

    /** The loop's turn, check point, outbox and close, between two queues of commands. */
    method EnterPhase(log: Log)
      requires todo == [] && Ready(View(), log) && phase != Racing && !(phase == Delivering && batch != [])
      modifies this
      ensures View() == Tick(program, old(View()), log)
    {
      match phase {
        case Booting =>
          phase := Turning;
        case Turning =>
          var r := program.turn(user, clock);
          user, todo, progressed := r.user, r.commands, r.progressed;
          phase := Issuing;
        case Issuing =>
          if progressed {
            phase := Turning;
          } else {
            phase := Settled;
          }
        case Settled =>
          var ops := program.replies(user);
          user := program.sent(user);
          todo := AwaitAll(ops);
          phase := Flushing;
        case Flushing =>
          if program.finished(user) {
            todo := program.closing(user);
            phase := Closing;
          } else {
            EnsureInboxWaiter();
            phase := Racing;
          }
        case Delivering =>
          phase := Turning;
        case Closing =>
          waiters := [];
          todo := program.farewell(user);
          phase := TornDown;
        case TornDown =>
          phase := Closed;
      }
    }

    method MakeStep(log: Log)
      requires Ready(View(), log)
      modifies this
      ensures View() == Tick(program, old(View()), log)
    {
      if todo != [] {
        ProcessCommand(log);
      } else if phase == Racing {
        AwaitRace(log);
      } else if phase == Delivering && batch != [] {
        DeliverNext(log);
      } else {
        EnterPhase(log);
      }
    }

    /** Runs the loop over a log until a record is missing, the run is over or the
        step budget is spent: exactly a position of the replay of that log. */
    method Execute(log: Log, budget: nat) returns (steps: nat)
      modifies this
      ensures Steps(program, old(View()), log, steps) == Some(View())
      ensures steps == budget || !Ready(View(), log)
    {
      steps := 0;
      var can := CanMove(log);
      while can && steps < budget
        invariant can == Ready(View(), log)
        invariant Steps(program, old(View()), log, steps) == Some(View())
        invariant steps <= budget
      {
        MakeStep(log);
        steps := steps + 1;
        can := CanMove(log);
      }
    }
  }
}
