/**
 Crashes, recoveries and workflow-task rewinds are invisible: whatever they
 interrupt, the log stays one that a single uninterrupted execution could have
 written, and the process is always at a position of the replay of that log.
 */
module RecoveryProofs {
  import opened Prelude
  import opened CheckpointLog
  import opened Interpreter

  /** The durable log, the process running over it, and what failed attempts at the
      workflow task have abandoned but the operating-system process still runs. */
  datatype World = World(log: Log, proc: Proc, stray: seq<Waiter>)

  function At(log: Log, proc: Proc): World {
    World(log, proc, [])
  }

  datatype Action =
    | Work                              // the process takes a step
    | Complete(index: nat, value: Value) // a raced operation finishes and is recorded
    | Finish(index: nat, value: Value)   // so does an abandoned one
    | Straggle(index: nat, value: Value) // ... even one of an earlier attempt
    | Answer(value: Value)              // an operation awaited in place is recorded
    | Decide(done: set<nat>)            // a race is recorded
    | Crash                             // the process dies and is recovered
    | TaskFailure                       // the workflow task fails and the cursor is rewound

  ghost function Initial(program: Program): World {
    At(map[], Fresh(program))
  }

  ghost predicate Enabled(w: World, a: Action) {
    match a
    case Work => Ready(w.proc, w.log)
    case Complete(k, _) => k < |w.proc.waiters| && w.proc.waiters[k].id !in w.log
    case Finish(k, _) => k < |w.proc.detached| && w.proc.detached[k].id !in w.log
    case Straggle(k, _) => k < |w.stray| && w.stray[k].id !in w.log
    case Answer(_) =>
      && !Halted(w.proc) && w.proc.todo != [] && w.proc.todo[0].Await?
      && w.proc.cursor !in w.log
    case Decide(done) =>
      && w.proc.phase == Racing && w.proc.todo == []
      && w.proc.cursor !in w.log
      && done != {}
      && forall i <- done :: i < |w.proc.waiters| && w.proc.waiters[i].id in w.log
    case Crash => true
    case TaskFailure => w.proc.phase == Settled
  }

  ghost function Next(program: Program, w: World, a: Action): World
    requires Enabled(w, a)
  {
    match a
    case Work => w.(proc := Tick(program, w.proc, w.log))
    case Complete(k, v) => Recorded(w, w.proc.waiters[k], v)
    case Finish(k, v) => Recorded(w, w.proc.detached[k], v)
    case Straggle(k, v) => Recorded(w, w.stray[k], v)
    case Answer(v) => w.(log := w.log[w.proc.cursor := Outcome(w.proc.todo[0].op, v)])
    case Decide(done) => w.(log := w.log[w.proc.cursor := Race(done)])
    case Crash => At(w.log, Fresh(program))
    case TaskFailure => World(w.log, Fresh(program), w.stray + w.proc.detached)
  }

  ghost function Recorded(w: World, x: Waiter, v: Value): World {
    w.(log := w.log[x.id := Outcome(x.op, v)])
  }

  ghost predicate Executes(program: Program, w: World, actions: seq<Action>, w': World)
    decreases |actions|
  {
    if actions == [] then w == w'
    else Enabled(w, actions[0]) && Executes(program, Next(program, w, actions[0]), actions[1..], w')
  }

  /** Neither an interruption nor what one left behind. */
  ghost predicate Plain(a: Action) {
    a != Crash && a != TaskFailure && !a.Straggle?
  }

  ghost predicate Uninterrupted(actions: seq<Action>) {
    forall a <- actions :: Plain(a)
  }

  ghost predicate Reachable(program: Program, w: World) {
    exists actions :: Executes(program, Initial(program), actions, w)
  }

  lemma {:induction false} ExecutesConcat(program: Program, w: World, a: seq<Action>, m: World, b: seq<Action>, w': World)
    requires Executes(program, w, a, m) && Executes(program, m, b, w')
    ensures Executes(program, w, a + b, w')
    decreases |a|
  {
    if a == [] {
      assert a + b == b;
    } else {
      var rest := a[1..] + b;
      assert (a + b)[0] == a[0] && (a + b)[1..] == rest;
      ExecutesConcat(program, Next(program, w, a[0]), a[1..], m, b, w');
    }
  }

  lemma {:induction false} ExecutesSplit(program: Program, w: World, a: seq<Action>, b: seq<Action>, w': World)
    returns (m: World)
    requires Executes(program, w, a + b, w')
    ensures Executes(program, w, a, m) && Executes(program, m, b, w')
    decreases |a|
  {
    if a == [] {
      assert a + b == b;
      m := w;
    } else {
      assert (a + b)[1..] == a[1..] + b;
      m := ExecutesSplit(program, Next(program, w, a[0]), a[1..], b, w');
    }
  }

  // ---------------------------------------------------------------------
  // The log only grows
  // ---------------------------------------------------------------------

  /** No crash, rewind or step ever changes or loses a recorded entry. */
  lemma {:induction false} LogOnlyGrows(program: Program, w: World, actions: seq<Action>, w': World)
    requires Executes(program, w, actions, w')
    ensures Extends(w.log, w'.log)
    decreases |actions|
  {
    if actions != [] {
      LogOnlyGrows(program, Next(program, w, actions[0]), actions[1..], w');
    }
  }

  /** A step that did not diverge reads only records that later logs repeat. */
  lemma TickReadsRecorded(program: Program, p: Proc, log: Log, later: Log)
    requires Ready(p, log) && Extends(log, later)
    requires Tick(program, p, log).phase != Diverged
    ensures Ready(p, later) && Tick(program, p, later) == Tick(program, p, log)
  {
  }

  // ---------------------------------------------------------------------
  // What an uninterrupted execution keeps
  // ---------------------------------------------------------------------

  ghost predicate Anticipated(p: Proc, log: Log)
    requires p.cursor in log
  {
    if p.todo != [] then
      p.todo[0].Await? && log[p.cursor].Outcome? && log[p.cursor].op == p.todo[0].op
    else p.phase == Racing && ValidRace(p.waiters, log[p.cursor], log)
  }

  /** Waiters hold increasing claimed ids; nothing is recorded beyond the
      cursor, and at the cursor only what the process is about to read. */
  ghost predicate Sound(w: World) {
    var p := w.proc;
    && Increasing(p.waiters)
    && (forall x <- p.waiters :: x.id < p.cursor && (x.id in w.log ==> Answered(x, w.log)))
    && (forall x <- p.batch :: Answered(x, w.log))
    && Apart(p.waiters, p.detached, p.cursor)
    && (forall i <- w.log :: i <= p.cursor)
    && (p.cursor in w.log ==> Anticipated(p, w.log))
    && p.phase != Diverged
  }

  /** Abandoned operations have claimed ids of their own. */
  ghost predicate Apart(waiters: seq<Waiter>, detached: seq<Waiter>, cursor: nat) {
    forall x <- detached :: x.id < cursor && forall y <- waiters :: y.id != x.id
  }

  ghost predicate Increasing(waiters: seq<Waiter>) {
    forall i, j :: 0 <= i < j < |waiters| ==> waiters[i].id < waiters[j].id
  }

  lemma {:induction false} WithoutKeeps(waiters: seq<Waiter>, w: Waiter)
    ensures forall x <- Without(waiters, w) :: x in waiters
    ensures Increasing(waiters) ==> Increasing(Without(waiters, w))
  {
    if waiters != [] && waiters[0] != w {
      WithoutKeeps(waiters[1..], w);
      assert forall x <- Without(waiters[1..], w) :: x in waiters[1..];
      IncreasingCons(waiters, Without(waiters[1..], w));
    }
  }

  lemma {:induction false} RetiredKeeps(waiters: seq<Waiter>, kind: Kind, s: nat)
    ensures forall x <- Retired(waiters, kind, s) :: x in waiters
    ensures Increasing(waiters) ==> Increasing(Retired(waiters, kind, s))
  {
    if waiters != [] {
      RetiredKeeps(waiters[1..], kind, s);
      assert forall x <- Retired(waiters[1..], kind, s) :: x in waiters[1..];
      IncreasingCons(waiters, Retired(waiters[1..], kind, s));
    }
  }

  lemma FirstIsLeast(waiters: seq<Waiter>)
    requires waiters != [] && Increasing(waiters)
    ensures Increasing(waiters[1..]) && forall y <- waiters[1..] :: waiters[0].id < y.id
  {
    var rest := waiters[1..];
    IncreasingCons(waiters, rest);
    forall y | y in rest ensures waiters[0].id < y.id {
      var j :| 0 <= j < |rest| && rest[j] == y;
      assert waiters[j + 1] == y;
    }
  }

  /** What leaves the list shares no id with what stays. */
  lemma {:induction false} LeavingApart(waiters: seq<Waiter>, kind: Kind, s: nat)
    requires Increasing(waiters)
    ensures forall x <- Leaving(waiters, kind, s) :: x in waiters
    ensures forall x, y :: x in Leaving(waiters, kind, s) && y in Retired(waiters, kind, s) ==> x.id != y.id
  {
    if waiters != [] {
      var rest := waiters[1..];
      FirstIsLeast(waiters);
      LeavingApart(rest, kind, s);
      RetiredKeeps(rest, kind, s);
      assert forall y <- Leaving(rest, kind, s) + Retired(rest, kind, s) :: waiters[0].id < y.id;
    }
  }

  /** A retirement takes exactly the waiters of its kind and seq. */
  lemma {:induction false} RetireSplits(waiters: seq<Waiter>, kind: Kind, s: nat)
    ensures forall x :: x in Retired(waiters, kind, s) <==> x in waiters && !(x.kind == kind && x.seq_ == s)
    ensures forall x :: x in Leaving(waiters, kind, s) <==> x in waiters && x.kind == kind && x.seq_ == s
  {
    if waiters != [] {
      RetireSplits(waiters[1..], kind, s);
    }
  }

  lemma SoundDetach(w: World, p: Proc, kind: Kind, s: nat)
    requires Sound(At(w.log, p)) && p.cursor !in w.log
    ensures Sound(At(w.log, p.(waiters := Retired(p.waiters, kind, s),
                                  detached := p.detached + Leaving(p.waiters, kind, s))))
  {
    RetiredKeeps(p.waiters, kind, s);
    LeavingApart(p.waiters, kind, s);
  }

  lemma IncreasingCons(waiters: seq<Waiter>, rest: seq<Waiter>)
    requires waiters != [] && forall x <- rest :: x in waiters[1..]
    ensures Increasing(waiters) && Increasing(rest) ==> Increasing([waiters[0]] + rest)
    ensures Increasing(waiters) ==> Increasing(waiters[1..])
  {
    var all := [waiters[0]] + rest;
    if Increasing(waiters) && Increasing(rest) {
      forall i, j | 0 <= i < j < |all| ensures all[i].id < all[j].id {
        assert all[j] == rest[j - 1] && rest[j - 1] in waiters[1..];
        if i > 0 {
          assert all[i] == rest[i - 1];
        }
      }
    }
  }

  /** The race's waiters are the named ones... */
  lemma {:induction false} PickNames(waiters: seq<Waiter>, done: set<nat>)
    ensures forall x :: x in Pick(waiters, done) <==> exists i :: 0 <= i < |waiters| && i in done && x == waiters[i]
  {
    if waiters != [] {
      var last := |waiters| - 1;
      PickNames(waiters[..last], done);
      forall x
        ensures x in Pick(waiters, done) <==> exists i :: 0 <= i < |waiters| && i in done && x == waiters[i]
      {
        if x in Pick(waiters[..last], done) {
          var i :| 0 <= i < last && i in done && x == waiters[..last][i];
          assert x == waiters[i];
        } else if i :| 0 <= i < |waiters| && i in done && x == waiters[i] {
          assert i < last ==> waiters[..last][i] == x;
        }
      }
    }
  }

  /** ...in the order of their ids. */
  lemma {:induction false} PickAscends(waiters: seq<Waiter>, done: set<nat>)
    requires Increasing(waiters)
    ensures Increasing(Pick(waiters, done))
  {
    if waiters != [] {
      var last := |waiters| - 1;
      var front := Pick(waiters[..last], done);
      PickAscends(waiters[..last], done);
      PickNames(waiters[..last], done);
      forall x | x in front ensures x.id < waiters[last].id {
        var i :| 0 <= i < last && i in done && x == waiters[..last][i];
      }
      assert forall i :: 0 <= i < |front| ==> front[i] in front;
    }
  }

  /** Claiming the next id for a racing operation. */
  lemma SoundClaim(w: World, p: Proc, x: Waiter)
    requires Sound(At(w.log, p)) && p.cursor !in w.log && x.id == p.cursor
    ensures Sound(At(w.log, p.(waiters := p.waiters + [x], cursor := p.cursor + 1)))
  {
    var all := p.waiters + [x];
    assert forall y <- all :: y in p.waiters || y == x;
  }

  /** The list stays, and at most the record the process was about to read is passed. */
  lemma SoundMoved(w: World, p: Proc)
    requires Sound(w) && p.phase != Diverged
    requires p.waiters == w.proc.waiters && p.batch == w.proc.batch && p.detached == w.proc.detached
    requires p.cursor == w.proc.cursor + 1 || (p.cursor == w.proc.cursor && p.cursor !in w.log)
    ensures Sound(At(w.log, p))
  {
  }

  lemma SoundAwait(program: Program, w: World)
    requires Sound(w) && Ready(w.proc, w.log) && w.proc.todo != [] && w.proc.todo[0].Await?
    ensures Sound(At(w.log, Tick(program, w.proc, w.log)))
  {
    SoundMoved(w, Obey(program, w.proc.(todo := w.proc.todo[1..]), w.proc.todo[0], w.log));
  }

  lemma SoundTimer(program: Program, w: World)
    requires Sound(w) && Ready(w.proc, w.log) && w.proc.todo != [] && w.proc.todo[0].StartTimer?
    ensures Sound(At(w.log, Tick(program, w.proc, w.log)))
  {
    var p, c := w.proc.(todo := w.proc.todo[1..]), w.proc.todo[0];
    SoundMoved(w, p);
    SoundClaim(w, p, Waiter(p.cursor, Timer, c.timer, Sleep(c.due - p.clock)));
    if program.live(p.user, c.timer) && c.due - p.clock <= 0.0 {
      SoundMoved(w, Obey(program, p, c, w.log));
    }
  }

  /** Fewer waiters, in the same order. */
  lemma SoundRetire(w: World, p: Proc, kind: Kind, s: nat)
    requires Sound(At(w.log, p)) && p.cursor !in w.log
    ensures Sound(At(w.log, p.(waiters := Retired(p.waiters, kind, s))))
  {
    RetiredKeeps(p.waiters, kind, s);
  }

  lemma SoundObey(program: Program, w: World)
    requires Sound(w) && Ready(w.proc, w.log) && w.proc.todo != []
    ensures Sound(At(w.log, Tick(program, w.proc, w.log)))
  {
    var c := w.proc.todo[0];
    var p := w.proc.(todo := w.proc.todo[1..]);
    if c.Await? {
      SoundAwait(program, w);
    } else if c.StartTimer? {
      SoundTimer(program, w);
    } else {
      SoundMoved(w, p);
      match c {
        case Retire(kind, s) => SoundRetire(w, p, kind, s);
        case Detach(kind, s) => SoundDetach(w, p, kind, s);
        case Launch(kind, s, op) => SoundClaim(w, p, Waiter(p.cursor, kind, s, op));
      }
    }
  }

  lemma SoundDeliver(program: Program, w: World)
    requires Sound(w) && Ready(w.proc, w.log) && w.proc.todo == []
    requires w.proc.phase == Delivering && w.proc.batch != []
    ensures Sound(At(w.log, Tick(program, w.proc, w.log)))
  {
    WithoutKeeps(w.proc.waiters, w.proc.batch[0]);
    assert Increasing(w.proc.waiters);
  }

  lemma SoundRace(program: Program, w: World)
    requires Sound(w) && Ready(w.proc, w.log) && w.proc.todo == [] && w.proc.phase == Racing
    ensures Sound(At(w.log, Tick(program, w.proc, w.log)))
  {
    PickNames(w.proc.waiters, w.log[w.proc.cursor].done);
  }

  lemma SoundInbox(w: World, p: Proc)
    requires Sound(At(w.log, p)) && p.cursor !in w.log
    ensures Sound(At(w.log, ArmInbox(p)))
  {
    SoundClaim(w, p, Waiter(p.cursor, Inbox, 0, Recv));
  }

  lemma SoundPhase(program: Program, w: World)
    requires Sound(w) && Ready(w.proc, w.log) && w.proc.todo == []
    requires w.proc.phase != Racing && !(w.proc.phase == Delivering && w.proc.batch != [])
    ensures Sound(At(w.log, Tick(program, w.proc, w.log)))
  {
    var p := w.proc;
    assert p.cursor !in w.log;
    if p.phase == Flushing && !program.finished(p.user) {
      SoundMoved(w, p.(phase := Racing));
      SoundInbox(w, p.(phase := Racing));
    } else if p.phase == Closing {
      SoundEmptied(w, Tick(program, p, w.log));
    } else {
      SoundMoved(w, Tick(program, p, w.log));
    }
  }

  lemma SoundEmptied(w: World, p: Proc)
    requires Sound(w) && p.phase != Diverged && p.waiters == []
    requires p.batch == w.proc.batch && p.detached == w.proc.detached
    requires p.cursor == w.proc.cursor && p.cursor !in w.log
    ensures Sound(At(w.log, p))
  {
  }

  lemma SoundWork(program: Program, w: World)
    requires Sound(w) && Ready(w.proc, w.log)
    ensures Sound(At(w.log, Tick(program, w.proc, w.log)))
  {
    var p := w.proc;
    if p.todo != [] {
      SoundObey(program, w);
    } else if p.phase == Delivering && p.batch != [] {
      SoundDeliver(program, w);
    } else if p.phase == Racing {
      SoundRace(program, w);
    } else {
      SoundPhase(program, w);
    }
  }

  /** An operation in flight records its outcome under the id it claimed. */
  lemma SoundOutcome(w: World, x: Waiter, v: Value)
    requires Sound(w) && (x in w.proc.waiters || x in w.proc.detached) && x.id !in w.log
    ensures Sound(Recorded(w, x, v))
  {
    assert x in w.proc.waiters ==> forall y <- w.proc.waiters :: y.id == x.id ==> y == x;
  }

  lemma SoundAnswer(w: World, e: Entry)
    requires Sound(w) && w.proc.cursor !in w.log
    requires Anticipated(w.proc, w.log[w.proc.cursor := e])
    ensures Sound(w.(log := w.log[w.proc.cursor := e]))
  {
  }

  lemma SoundRecord(program: Program, w: World, a: Action)
    requires Sound(w) && a != Work && Plain(a) && Enabled(w, a)
    ensures Sound(Next(program, w, a))
  {
    match a
    case Complete(k, v) => SoundOutcome(w, w.proc.waiters[k], v);
    case Finish(k, v) => SoundOutcome(w, w.proc.detached[k], v);
    case Answer(v) => SoundAnswer(w, Outcome(w.proc.todo[0].op, v));
    case Decide(done) =>
      assert forall i <- done :: Answered(w.proc.waiters[i], w.log);
      SoundAnswer(w, Race(done));
  }

  lemma {:induction false} UninterruptedIsSound(program: Program, w: World, actions: seq<Action>, w': World)
    requires Sound(w) && Uninterrupted(actions) && Executes(program, w, actions, w')
    ensures Sound(w')
    decreases |actions|
  {
    if actions != [] {
      var a := actions[0];
      assert a in actions && forall x <- actions[1..] :: x in actions;
      if a == Work {
        SoundWork(program, w);
      } else {
        SoundRecord(program, w, a);
      }
      UninterruptedIsSound(program, Next(program, w, a), actions[1..], w');
    }
  }

  // ---------------------------------------------------------------------
  // A recovering process runs behind the frontier of the log
  // ---------------------------------------------------------------------

  /** An entry recorded early stays out of the way of everything recorded later. */
  lemma {:induction false} RecordedEarlier(program: Program, w: World, actions: seq<Action>, w': World, id: nat, e: Entry)
    requires Sound(w) && Uninterrupted(actions) && Executes(program, w, actions, w')
    requires id !in w'.log
    ensures Executes(program, w.(log := w.log[id := e]), actions, w'.(log := w'.log[id := e]))
    decreases |actions|
  {
    if actions != [] {
      var a := actions[0];
      assert a in actions && forall x <- actions[1..] :: x in actions;
      var n := Next(program, w, a);
      LogOnlyGrows(program, n, actions[1..], w');
      StepRecordedEarlier(program, w, a, id, e);
      RecordedEarlier(program, n, actions[1..], w', id, e);
    }
  }

  lemma StepRecordedEarlier(program: Program, w: World, a: Action, id: nat, e: Entry)
    requires Sound(w) && Plain(a) && Enabled(w, a)
    requires id !in w.log && id !in Next(program, w, a).log
    ensures
      var n, early := Next(program, w, a), w.(log := w.log[id := e]);
      && Sound(n) && Enabled(early, a)
      && Next(program, early, a) == n.(log := n.log[id := e])
  {
    if a == Work {
      SoundWork(program, w);
      WorkReadsRecorded(program, w, w.log[id := e]);
    } else {
      SoundRecord(program, w, a);
      RecordsCommute(program, w, a, id, e);
    }
  }

  lemma WorkReadsRecorded(program: Program, w: World, later: Log)
    requires Ready(w.proc, w.log) && Extends(w.log, later)
    requires Tick(program, w.proc, w.log).phase != Diverged
    ensures Enabled(At(later, w.proc), Work)
    ensures Next(program, At(later, w.proc), Work) == At(later, Tick(program, w.proc, w.log))
  {
    TickReadsRecorded(program, w.proc, w.log, later);
  }

  lemma RecordsCommute(program: Program, w: World, a: Action, id: nat, e: Entry)
    requires a != Work && Plain(a) && Enabled(w, a)
    requires id !in w.log && id !in Next(program, w, a).log
    ensures
      var n, early := Next(program, w, a), w.(log := w.log[id := e]);
      && Enabled(early, a) && Next(program, early, a) == n.(log := n.log[id := e])
  {
  }

  /** The process stands somewhere on an uninterrupted execution that produces
      exactly this log: `before` leads to it, `after` to the log's frontier, where
      whatever earlier attempts abandoned is still running too. */
  ghost predicate OnPath(program: Program, w: World, before: seq<Action>, mid: Log, after: seq<Action>, front: Proc) {
    && Uninterrupted(before) && Executes(program, Initial(program), before, At(mid, w.proc))
    && Uninterrupted(after) && Executes(program, At(mid, w.proc), after, At(w.log, front))
    && forall x <- w.stray :: x in front.detached
  }

  ghost predicate Explained(program: Program, w: World) {
    exists before, mid, after, front :: OnPath(program, w, before, mid, after, front)
  }

  lemma {:induction false} RecordingKeepsProc(program: Program, w: World, actions: seq<Action>, w': World)
    requires Uninterrupted(actions) && Work !in actions && Executes(program, w, actions, w')
    ensures w'.proc == w.proc && w'.stray == w.stray
    decreases |actions|
  {
    if actions != [] {
      assert actions[0] in actions && forall x <- actions[1..] :: x in actions;
      RecordingKeepsProc(program, Next(program, w, actions[0]), actions[1..], w');
    }
  }

  lemma {:induction false} FirstWork(actions: seq<Action>) returns (k: nat)
    requires Work in actions
    ensures k < |actions| && actions[k] == Work && Work !in actions[..k]
  {
    if actions[0] == Work {
      k := 0;
    } else {
      var j := FirstWork(actions[1..]);
      k := j + 1;
      assert actions[..k] == [actions[0]] + actions[1..][..j];
    }
  }

  lemma ExecutesOne(program: Program, w: World, a: Action)
    requires Enabled(w, a)
    ensures Executes(program, w, [a], Next(program, w, a))
  {
    assert Executes(program, Next(program, w, a), [a][1..], Next(program, w, a));
  }

  lemma InitialIsSound(program: Program)
    ensures Sound(Initial(program))
  {
  }

  lemma UninterruptedSlice(actions: seq<Action>, from: nat, to: nat)
    requires Uninterrupted(actions) && from <= to <= |actions|
    ensures Uninterrupted(actions[from..to])
  {
    forall x <- actions[from..to] ensures Plain(x) {
      assert x in actions;
    }
  }

  /** Splits what lies ahead of a process at its next step: until then only
      records are written and the process does not move. */
  lemma NextStep(program: Program, w: World, before: seq<Action>, mid: Log, after: seq<Action>, front: Proc)
    returns (k: nat, at: World)
    requires OnPath(program, w, before, mid, after, front) && Work in after
    ensures k < |after| && after[k] == Work && at == At(at.log, w.proc)
    ensures Uninterrupted(after[..k]) && Uninterrupted(after[k + 1..])
    ensures Executes(program, Initial(program), before + after[..k], at)
    ensures Enabled(at, Work) && Executes(program, Next(program, at, Work), after[k + 1..], At(w.log, front))
    ensures Extends(at.log, w.log)
  {
    var here := At(mid, w.proc);
    k := FirstWork(after);
    assert after == after[..k] + after[k..];
    at := ExecutesSplit(program, here, after[..k], after[k..], At(w.log, front));
    UninterruptedSlice(after, 0, k);
    UninterruptedSlice(after, k + 1, |after|);
    assert after[k + 1..|after|] == after[k + 1..];
    RecordingKeepsProc(program, here, after[..k], at);
    ExecutesConcat(program, Initial(program), before, here, after[..k], at);
    assert after[k..][1..] == after[k + 1..];
    LogOnlyGrows(program, at, after[k..], At(w.log, front));
  }

  lemma AtFrontier(program: Program, w: World, before: seq<Action>, mid: Log, after: seq<Action>, front: Proc, a: Action)
    requires OnPath(program, w, before, mid, after, front) && Work !in after
    requires Enabled(w, a) && Plain(a)
    ensures Explained(program, Next(program, w, a))
  {
    var here, w' := At(w.log, w.proc), Next(program, w, a);
    RecordingKeepsProc(program, At(mid, w.proc), after, At(w.log, front));
    ExecutesConcat(program, Initial(program), before, At(mid, w.proc), after, here);
    ExecutesOne(program, here, a);
    StepAlike(program, w, a);
    ExecutesConcat(program, Initial(program), before + after, here, [a], At(w'.log, w'.proc));
    assert Executes(program, At(w'.log, w'.proc), [], At(w'.log, w'.proc));
    assert OnPath(program, w', before + after + [a], w'.log, [], w'.proc);
  }

  /** A plain action does not look at what earlier attempts left behind, and
      abandons no operation's outcome. */
  lemma StepAlike(program: Program, w: World, a: Action)
    requires Plain(a) && Enabled(w, a)
    ensures
      var here, w' := At(w.log, w.proc), Next(program, w, a);
      && Enabled(here, a) && Next(program, here, a) == At(w'.log, w'.proc)
      && w'.stray == w.stray && forall x <- w.proc.detached :: x in w'.proc.detached
  {
    if a == Work {
      TickKeepsDetached(program, w.proc, w.log);
    }
  }

  lemma TickKeepsDetached(program: Program, p: Proc, log: Log)
    requires Ready(p, log)
    ensures forall x <- p.detached :: x in Tick(program, p, log).detached
  {
  }

  lemma {:induction false} DetachedStays(program: Program, w: World, actions: seq<Action>, w': World)
    requires Uninterrupted(actions) && Executes(program, w, actions, w')
    ensures forall x <- w.proc.detached :: x in w'.proc.detached
    decreases |actions|
  {
    if actions != [] {
      assert actions[0] in actions && forall x <- actions[1..] :: x in actions;
      StepAlike(program, w, actions[0]);
      DetachedStays(program, Next(program, w, actions[0]), actions[1..], w');
    }
  }

  lemma BehindFrontier(program: Program, w: World, before: seq<Action>, mid: Log, after: seq<Action>, front: Proc)
    requires OnPath(program, w, before, mid, after, front) && Work in after && Enabled(w, Work)
    ensures Explained(program, Next(program, w, Work))
  {
    var k, at := NextStep(program, w, before, mid, after, front);
    InitialIsSound(program);
    UninterruptedIsSound(program, Initial(program), before + after[..k], at);
    SoundWork(program, at);
    TickReadsRecorded(program, w.proc, at.log, w.log);
    var step := Next(program, at, Work);
    ExecutesOne(program, at, Work);
    ExecutesConcat(program, Initial(program), before + after[..k], at, [Work], step);
    assert OnPath(program, Next(program, w, Work), before + after[..k] + [Work], step.log, after[k + 1..], front);
  }

  /** A step of a process that is behind repeats the step already taken there;
      at the frontier it extends the execution. */
  lemma ExplainedWork(program: Program, w: World)
    requires Explained(program, w) && Enabled(w, Work)
    ensures Explained(program, Next(program, w, Work))
  {
    var before, mid, after, front :| OnPath(program, w, before, mid, after, front);
    if Work in after {
      BehindFrontier(program, w, before, mid, after, front);
    } else {
      AtFrontier(program, w, before, mid, after, front, Work);
    }
  }

  /** A raced or abandoned operation, relaunched by a recovery, may finish at any point: the
      execution in which it finished that early is as good as the one before. */
  lemma ExplainedComplete(program: Program, w: World, a: Action)
    requires Explained(program, w) && (a.Complete? || a.Finish?) && Enabled(w, a)
    ensures Explained(program, Next(program, w, a))
  {
    var before, mid, after, front :| OnPath(program, w, before, mid, after, front);
    var x := if a.Complete? then w.proc.waiters[a.index] else w.proc.detached[a.index];
    var e := Outcome(x.op, a.value);
    var here := At(mid, w.proc);
    InitialIsSound(program);
    UninterruptedIsSound(program, Initial(program), before, here);
    LogOnlyGrows(program, here, after, At(w.log, front));
    RecordedEarlier(program, here, after, At(w.log, front), x.id, e);
    OutcomeOnPath(program, w, before, mid, after, front, a, x);
  }

  lemma OutcomeOnPath(program: Program, w: World, before: seq<Action>, mid: Log, after: seq<Action>, front: Proc,
                      a: Action, x: Waiter)
    requires OnPath(program, w, before, mid, after, front) && Enabled(At(mid, w.proc), a)
    requires a.Complete? || a.Finish?
    requires Enabled(w, a) && x == if a.Complete? then w.proc.waiters[a.index] else w.proc.detached[a.index]
    requires Executes(program, Recorded(At(mid, w.proc), x, a.value), after, Recorded(At(w.log, front), x, a.value))
    ensures OnPath(program, Next(program, w, a), before + [a], mid[x.id := Outcome(x.op, a.value)], after, front)
  {
    var here := At(mid, w.proc);
    ExecutesOne(program, here, a);
    ExecutesConcat(program, Initial(program), before, here, [a], Recorded(here, x, a.value));
  }

  /** What an earlier attempt abandoned may finish while the new attempt is still
      behind: at the frontier, where the earlier one stood, it is running as well. */
  lemma ExplainedStraggle(program: Program, w: World, a: Action)
    requires Explained(program, w) && a.Straggle? && Enabled(w, a)
    ensures Explained(program, Next(program, w, a))
  {
    var before, mid, after, front :| OnPath(program, w, before, mid, after, front);
    var x, there := w.stray[a.index], At(w.log, front);
    assert x in w.stray && x in front.detached;
    var i :| 0 <= i < |front.detached| && front.detached[i] == x;
    var finish := Finish(i, a.value);
    ExecutesOne(program, there, finish);
    ExecutesConcat(program, At(mid, w.proc), after, there, [finish], Next(program, there, finish));
    assert OnPath(program, Next(program, w, a), before, mid, after + [finish], front);
  }

  /** Where a record is missing that the process awaits, it is at the frontier. */
  lemma ExplainedRecord(program: Program, w: World, a: Action)
    requires Explained(program, w) && (a.Answer? || a.Decide?) && Enabled(w, a)
    ensures Explained(program, Next(program, w, a))
  {
    var before, mid, after, front :| OnPath(program, w, before, mid, after, front);
    if Work in after {
      var k, at := NextStep(program, w, before, mid, after, front);
      assert false;
    }
    AtFrontier(program, w, before, mid, after, front, a);
  }

  /** A crash, like a workflow-task rewind, moves the process back to the start. */
  lemma ExplainedRestart(program: Program, w: World, a: Action)
    requires Explained(program, w) && (a.Crash? || a.TaskFailure?) && Enabled(w, a)
    ensures Explained(program, Next(program, w, a))
  {
    var before, mid, after, front :| OnPath(program, w, before, mid, after, front);
    DetachedStays(program, At(mid, w.proc), after, At(w.log, front));
    ExecutesConcat(program, Initial(program), before, At(mid, w.proc), after, At(w.log, front));
    assert OnPath(program, Next(program, w, a), [], map[], before + after, front);
  }

  lemma {:induction false} ExplainedAlways(program: Program, w: World, actions: seq<Action>, w': World)
    requires Explained(program, w) && Executes(program, w, actions, w')
    ensures Explained(program, w')
    decreases |actions|
  {
    if actions != [] {
      var a := actions[0];
      match a {
        case Work => ExplainedWork(program, w);
        case Complete(_, _) => ExplainedComplete(program, w, a);
        case Finish(_, _) => ExplainedComplete(program, w, a);
        case Straggle(_, _) => ExplainedStraggle(program, w, a);
        case Answer(_) => ExplainedRecord(program, w, a);
        case Decide(_) => ExplainedRecord(program, w, a);
        case Crash => ExplainedRestart(program, w, a);
        case TaskFailure => ExplainedRestart(program, w, a);
      }
      ExplainedAlways(program, Next(program, w, a), actions[1..], w');
    }
  }

  // ---------------------------------------------------------------------
  // The theorems
  // ---------------------------------------------------------------------

  /** Any interleaving of crashes, recoveries and rewinds leaves a log that one
      uninterrupted execution produces, passing through the live process. */
  lemma InterruptionsAreInvisible(program: Program, w: World)
    requires Reachable(program, w)
    ensures exists before, mid, after, front :: OnPath(program, w, before, mid, after, front)
  {
    var actions :| Executes(program, Initial(program), actions, w);
    assert OnPath(program, Initial(program), [], map[], [], Fresh(program));
    ExplainedAlways(program, Initial(program), actions, w);
  }

  /** Recovery never finds another operation, or an unusable race, under an id. */
  lemma RecoveryNeverDiverges(program: Program, w: World)
    requires Reachable(program, w)
    ensures w.proc.phase != Diverged
  {
    InterruptionsAreInvisible(program, w);
    var before, mid, after, front :| OnPath(program, w, before, mid, after, front);
    InitialIsSound(program);
    UninterruptedIsSound(program, Initial(program), before, At(mid, w.proc));
  }

  /** The process after n steps of a recovery over a log, unless a record is missing. */
  ghost function Replay(program: Program, log: Log, n: nat): Option<Proc> {
    Steps(program, Fresh(program), log, n)
  }

  lemma {:induction false} ReplayIsReachable(program: Program, w: World, n: nat)
    requires Reachable(program, w) && Replay(program, w.log, n).Some?
    ensures Reachable(program, At(w.log, Replay(program, w.log, n).value))
  {
    var from: World, a: Action;
    if n == 0 {
      from, a := w, Crash;
    } else {
      ReplayIsReachable(program, w, n - 1);
      from, a := At(w.log, Replay(program, w.log, n - 1).value), Work;
    }
    var actions :| Executes(program, Initial(program), actions, from);
    ExecutesOne(program, from, a);
    ExecutesConcat(program, Initial(program), actions, from, [a], Next(program, from, a));
    assert Executes(program, Initial(program), actions + [a], At(w.log, Replay(program, w.log, n).value));
  }

  /** However the log grows afterwards, every recovery passes through the same
      state, clock, cursor, waiters and deliveries at every step replayed so far. */
  lemma {:induction false} RecoveriesAgree(program: Program, w: World, actions: seq<Action>, later: World, n: nat)
    requires Reachable(program, w) && Executes(program, w, actions, later)
    requires Replay(program, w.log, n).Some?
    ensures Replay(program, later.log, n) == Replay(program, w.log, n)
  {
    if n > 0 {
      RecoveriesAgree(program, w, actions, later, n - 1);
      LogOnlyGrows(program, w, actions, later);
      ReplayIsReachable(program, w, n);
      RecoveryNeverDiverges(program, At(w.log, Replay(program, w.log, n).value));
      TickReadsRecorded(program, Replay(program, w.log, n - 1).value, w.log, later.log);
    }
  }

  /** At every recorded race of a replay the record names some of the waiters
      there, each with its own outcome recorded. */
  lemma RacesNameRecordedOutcomes(program: Program, w: World, n: nat)
    requires Reachable(program, w)
    requires Replay(program, w.log, n).Some?
    requires
      var p := Replay(program, w.log, n).value;
      p.phase == Racing && p.todo == [] && p.cursor in w.log
    ensures
      var p := Replay(program, w.log, n).value;
      ValidRace(p.waiters, w.log[p.cursor], w.log)
  {
    var p := Replay(program, w.log, n).value;
    assert Replay(program, w.log, n + 1) == Some(Tick(program, p, w.log));
    ReplayIsReachable(program, w, n + 1);
    RecoveryNeverDiverges(program, At(w.log, Tick(program, p, w.log)));
    if !ValidRace(p.waiters, w.log[p.cursor], w.log) {
      UnusableRaceDiverges(program, p, w.log);
    }
  }

  lemma UnusableRaceDiverges(program: Program, p: Proc, log: Log)
    requires p.phase == Racing && p.todo == [] && p.cursor in log && !ValidRace(p.waiters, log[p.cursor], log)
    ensures Tick(program, p, log).phase == Diverged
  {
  }

  /** One more action: a step is one more step of the replay, a record moves nothing. */
  lemma NextIsReplay(program: Program, m: World, a: Action, j: nat) returns (n: nat)
    requires Reachable(program, m) && Enabled(m, a) && Plain(a)
    requires Replay(program, m.log, j) == Some(m.proc)
    ensures Replay(program, Next(program, m, a).log, n) == Some(Next(program, m, a).proc)
  {
    var w := Next(program, m, a);
    if a == Work {
      n := j + 1;
      assert Replay(program, m.log, n) == Some(Tick(program, m.proc, m.log));
    } else {
      n := j;
      ExecutesOne(program, m, a);
      RecoveriesAgree(program, m, [a], w, j);
    }
  }

  lemma {:induction false} UninterruptedIsReplay(program: Program, actions: seq<Action>, w: World) returns (n: nat)
    requires Uninterrupted(actions) && Executes(program, Initial(program), actions, w)
    ensures Replay(program, w.log, n) == Some(w.proc)
    decreases |actions|
  {
    if actions == [] {
      n := 0;
    } else {
      var k := |actions| - 1;
      assert actions == actions[..k] + actions[k..];
      var m := ExecutesSplit(program, Initial(program), actions[..k], actions[k..], w);
      assert actions[k] in actions && forall x <- actions[..k] :: x in actions;
      assert actions[k..] == [actions[k]] && actions[k..][1..] == [];
      var j := UninterruptedIsReplay(program, actions[..k], m);
      assert Reachable(program, m);
      n := NextIsReplay(program, m, actions[k], j);
    }
  }

  /** The live process is always a position of the replay of its own log. */
  lemma ProcessIsReplay(program: Program, w: World)
    requires Reachable(program, w)
    ensures exists n :: Replay(program, w.log, n) == Some(w.proc)
  {
    InterruptionsAreInvisible(program, w);
    var before, mid, after, front :| OnPath(program, w, before, mid, after, front);
    var n := UninterruptedIsReplay(program, before, At(mid, w.proc));
    assert Reachable(program, At(mid, w.proc));
    RecoveriesAgree(program, At(mid, w.proc), after, At(w.log, front), n);
  }
}
