/**
 patched(): how a workflow's patch ids are answered over the executions of one
 timeline, and what makes the answers stand.
 */
module Patches {
  import opened Prelude

  /** A call of patched(), and how many ids the execution has claimed when it is made. */
  datatype Call = Call(id: string, position: nat)

  /** Workflow code, as far as patches go: which call it makes next, given the answers
      so far.  Another answer may lead to other calls at other positions; an id may be
      asked again. */
  type Code = seq<bool> -> Option<Call>

  /** What is durable: the highest recorded id, and the recorded markers. */
  datatype Log = Log(highest: nat, markers: set<string>)

  /** A queued command and how many answers had been given when it was queued. */
  datatype Command = Work(after: nat) | Marker(id: string, after: nat)

  /** One execution: the horizon and the markers are read once, at its start. */
  datatype Execution = Execution(
    horizon: nat,
    known: set<string>,
    answers: seq<bool>,
    issued: seq<nat>,             // for each id claimed, the answers its command was queued after
    todo: seq<Command>,
    draining: bool)               // workflow code runs; else its commands are performed

  /** Ids up to `stray` may be those of operations that outlived a workflow-task rewind. */
  datatype Timeline = Timeline(log: Log, run: Execution, stray: nat)

  function Fresh(log: Log): Execution {
    Execution(log.highest, log.markers, [], [], [], false)
  }

  /** The first answer for an id. */
  predicate Answer(c: Call, horizon: nat, known: set<string>) {
    !(c.position < horizon) || c.id in known
  }

  /** The answers given, by id. */
  function Memo(code: Code, answers: seq<bool>): map<string, bool>
    decreases |answers|
  {
    if answers == [] then map[]
    else
      var front := answers[..|answers| - 1];
      var memo := Memo(code, front);
      if code(front).None? then memo else memo[code(front).value.id := answers[|answers| - 1]]
  }

  /** The answer to the next call: memoized, or by the horizon rule. */
  predicate Rule(code: Code, horizon: nat, known: set<string>, answers: seq<bool>)
    requires code(answers).Some?
  {
    var c, memo := code(answers).value, Memo(code, answers);
    if c.id in memo then memo[c.id] else Answer(c, horizon, known)
  }

  datatype Step =
    | Drain                       // workflow code runs
    | Asks                        // ...and calls patched()
    | Queue                       // ...or queues some other command
    | Issue                       // the drain ends
    | Perform(ids: nat)           // the next command; a marker is awaited inline and claims one id
    | Await(ids: nat)             // the loop's own operations
    | Complete(id: nat)
    | Crash
    | Rewind                      // workflow-task failure: the process lives on

  /** Claiming so many ids does not pass the code's next call. */
  ghost predicate Room(code: Code, e: Execution, ids: nat) {
    code(e.answers).Some? ==> |e.issued| + ids <= code(e.answers).value.position
  }

  ghost predicate Possible(code: Code, t: Timeline, step: Step) {
    var e := t.run;
    match step
    case Drain => !e.draining && e.todo == []
    case Asks => e.draining && code(e.answers).Some? && code(e.answers).value.position == |e.issued|
    case Queue => e.draining
    case Issue => e.draining
    case Perform(ids) => !e.draining && e.todo != [] && Room(code, e, if e.todo[0].Marker? then 1 else ids)
    case Await(ids) => !e.draining && e.todo == [] && Room(code, e, ids)
    case Complete(id) => 1 <= id <= |e.issued| || 1 <= id <= t.stray
    case Crash => true
    case Rewind => true
  }

  function Higher(log: Log, id: nat): Log {
    if id > log.highest then log.(highest := id) else log
  }

  function Claimed(e: Execution, ids: nat, after: nat): Execution {
    e.(issued := e.issued + seq(ids, _ => after))
  }

  /** The call is answered; a first true answer queues the marker. */
  function Asked(code: Code, e: Execution): Execution
    requires code(e.answers).Some?
  {
    var id, answer := code(e.answers).value.id, Rule(code, e.horizon, e.known, e.answers);
    e.(answers := e.answers + [answer],
       todo := if answer && id !in Memo(code, e.answers) then e.todo + [Marker(id, |e.answers|)] else e.todo)
  }

  /** The next command: a marker is durable when the loop goes on. */
  function Performed(t: Timeline, ids: nat): Timeline
    requires t.run.todo != []
  {
    var log, e, rest := t.log, t.run, t.run.todo[1..];
    match e.todo[0]
    case Work(after) => t.(run := Claimed(e.(todo := rest), ids, after))
    case Marker(id, after) =>
      t.(log := Higher(log, |e.issued| + 1).(markers := log.markers + {id}), run := Claimed(e.(todo := rest), 1, after))
  }

  ghost function Next(code: Code, t: Timeline, step: Step): Timeline
    requires Possible(code, t, step)
  {
    var log, e := t.log, t.run;
    match step
    case Drain => t.(run := e.(draining := true))
    case Asks => t.(run := Asked(code, e))
    case Queue => t.(run := e.(todo := e.todo + [Work(|e.answers|)]))
    case Issue => t.(run := e.(draining := false))
    case Perform(ids) => Performed(t, ids)
    case Await(ids) => t.(run := Claimed(e, ids, |e.answers|))
    case Complete(id) => t.(log := Higher(log, id))
    case Crash => Timeline(log, Fresh(log), 0)
    case Rewind => Timeline(log, Fresh(log), if t.stray < |e.issued| then |e.issued| else t.stray)
  }

  ghost predicate Runs(code: Code, t: Timeline, steps: seq<Step>, t': Timeline)
    decreases |steps|
  {
    if steps == [] then t == t'
    else Possible(code, t, steps[0]) && Runs(code, Next(code, t, steps[0]), steps[1..], t')
  }

  ghost predicate Interrupts(step: Step) {
    step.Crash? || step.Rewind?
  }

  // ---------------------------------------------------------------------
  // An execution's answers follow from its horizon and its markers
  // ---------------------------------------------------------------------

  ghost predicate Follows(code: Code, horizon: nat, known: set<string>, answers: seq<bool>)
    decreases |answers|
  {
    answers == [] ||
    (var front := answers[..|answers| - 1];
     && Follows(code, horizon, known, front) && code(front).Some?
     && answers[|answers| - 1] == Rule(code, horizon, known, front))
  }

  lemma {:induction false} FollowsMore(code: Code, horizon: nat, known: set<string>, answers: seq<bool>, b: bool)
    requires Follows(code, horizon, known, answers) && code(answers).Some? && b == Rule(code, horizon, known, answers)
    ensures Follows(code, horizon, known, answers + [b])
  {
    assert (answers + [b])[..|answers|] == answers;
  }

  lemma {:induction false} FollowsPrefix(code: Code, horizon: nat, known: set<string>, answers: seq<bool>, n: nat)
    requires Follows(code, horizon, known, answers) && n <= |answers|
    ensures Follows(code, horizon, known, answers[..n])
    decreases |answers|
  {
    if n == |answers| {
      assert answers[..n] == answers;
    } else {
      var front := answers[..|answers| - 1];
      FollowsPrefix(code, horizon, known, front, n);
      assert front[..n] == answers[..n];
    }
  }

  /** The k-th answer is the rule's. */
  lemma {:induction false} FollowsAt(code: Code, horizon: nat, known: set<string>, answers: seq<bool>, k: nat)
    requires Follows(code, horizon, known, answers) && k < |answers|
    ensures Follows(code, horizon, known, answers[..k]) && code(answers[..k]).Some?
    ensures answers[k] == Rule(code, horizon, known, answers[..k])
  {
    FollowsPrefix(code, horizon, known, answers, k + 1);
    assert answers[..k + 1][..k] == answers[..k];
  }

  lemma {:induction false} FollowAlike(code: Code, horizon: nat, known: set<string>, a: seq<bool>, b: seq<bool>)
    requires Follows(code, horizon, known, a) && Follows(code, horizon, known, b) && |a| <= |b|
    ensures a == b[..|a|]
    decreases |a|
  {
    if a != [] {
      var n := |a| - 1;
      FollowAlike(code, horizon, known, a[..n], b);
      FollowsAt(code, horizon, known, b, n);
      assert a == a[..n] + [a[n]] && b[..n + 1] == b[..n] + [b[n]];
    }
  }

  /** An answer given stays for the execution. */
  lemma {:induction false} MemoStays(code: Code, horizon: nat, known: set<string>, answers: seq<bool>, n: nat)
    requires Follows(code, horizon, known, answers) && n <= |answers|
    ensures forall id <- Memo(code, answers[..n]) ::
              id in Memo(code, answers) && Memo(code, answers)[id] == Memo(code, answers[..n])[id]
    decreases |answers|
  {
    if n == |answers| {
      assert answers[..n] == answers;
    } else {
      var front := answers[..|answers| - 1];
      assert front[..n] == answers[..n];
      MemoStays(code, horizon, known, front, n);
    }
  }

  lemma {:induction false} MemoAt(code: Code, horizon: nat, known: set<string>, answers: seq<bool>, k: nat)
    requires Follows(code, horizon, known, answers) && k < |answers|
    ensures code(answers[..k]).Some?
    ensures code(answers[..k]).value.id in Memo(code, answers)
    ensures Memo(code, answers)[code(answers[..k]).value.id] == answers[k]
  {
    FollowsAt(code, horizon, known, answers, k);
    assert answers[..k + 1][..k] == answers[..k];
    MemoStays(code, horizon, known, answers, k + 1);
  }

  /** An id answered was asked at some call, the first for it. */
  lemma {:induction false} FirstAsked(code: Code, answers: seq<bool>, id: string) returns (k: nat)
    requires id in Memo(code, answers)
    ensures k < |answers| && code(answers[..k]).Some? && code(answers[..k]).value.id == id
    ensures id !in Memo(code, answers[..k])
    decreases |answers|
  {
    var n := |answers| - 1;
    var front := answers[..n];
    if id in Memo(code, front) {
      k := FirstAsked(code, front, id);
      assert front[..k] == answers[..k];
    } else {
      k := n;
    }
  }

  // ---------------------------------------------------------------------
  // The invariant
  // ---------------------------------------------------------------------

  /** The calls stand at ascending positions up to a bound. */
  ghost predicate Ascends(code: Code, answers: seq<bool>, bound: nat)
    decreases |answers|
  {
    answers == [] ||
    (var front := answers[..|answers| - 1];
     code(front).Some? && code(front).value.position <= bound && Ascends(code, front, code(front).value.position))
  }

  lemma {:induction false} AscendsAt(code: Code, answers: seq<bool>, bound: nat, k: nat)
    requires Ascends(code, answers, bound) && k < |answers|
    ensures code(answers[..k]).Some? && code(answers[..k]).value.position <= bound
    ensures Ascends(code, answers[..k], code(answers[..k]).value.position)
    decreases |answers|
  {
    var front := answers[..|answers| - 1];
    if k < |front| {
      AscendsAt(code, front, code(front).value.position, k);
      assert front[..k] == answers[..k];
    }
  }

  lemma {:induction false} AscendsMore(code: Code, answers: seq<bool>, bound: nat, b: bool)
    requires Ascends(code, answers, bound) && code(answers).Some? && code(answers).value.position == bound
    ensures Ascends(code, answers + [b], bound)
  {
    assert (answers + [b])[..|answers|] == answers;
  }

  lemma AscendsFurther(code: Code, answers: seq<bool>, bound: nat, more: nat)
    requires Ascends(code, answers, bound) && bound <= more
    ensures Ascends(code, answers, more)
  {
  }

  /** Answered true. */
  predicate Affirmed(code: Code, answers: seq<bool>, id: string) {
    id in Memo(code, answers) && Memo(code, answers)[id]
  }

  /** Every id answered true has its marker recorded. */
  ghost predicate Marked(code: Code, answers: seq<bool>, markers: set<string>) {
    forall id :: Affirmed(code, answers, id) ==> id in markers
  }

  predicate Queued(todo: seq<Command>, id: string) {
    exists c <- todo :: c.Marker? && c.id == id
  }

  /** ...or its marker is among the first n commands. */
  ghost predicate Covered(code: Code, answers: seq<bool>, markers: set<string>, todo: seq<Command>) {
    forall id :: Affirmed(code, answers, id) ==> id in markers || Queued(todo, id)
  }

  /** A recorded marker was known at the start or answers a call of this execution. */
  ghost predicate Accounted(code: Code, e: Execution, markers: set<string>) {
    forall id <- markers :: id in e.known || Affirmed(code, e.answers, id)
  }

  /** Markers stand before the commands queued after their calls. */
  ghost predicate InOrder(code: Code, e: Execution, markers: set<string>) {
    && (forall i :: 0 <= i < |e.todo| ==>
          && e.todo[i].after <= |e.answers|
          && Covered(code, e.answers[..e.todo[i].after], markers, e.todo[..i])
          && (e.todo[i].Marker? ==> Affirmed(code, e.answers, e.todo[i].id)))
    && Covered(code, e.answers, markers, e.todo)
  }

  ghost predicate Claims(code: Code, e: Execution, markers: set<string>) {
    forall n <- e.issued :: n <= |e.answers| && Marked(code, e.answers[..n], markers)
  }

  ghost predicate Good(code: Code, t: Timeline) {
    var log, e := t.log, t.run;
    && e.horizon <= log.highest && e.known <= log.markers
    && Follows(code, e.horizon, e.known, e.answers)
    && Ascends(code, e.answers, |e.issued|)
    && Accounted(code, e, log.markers)
    && InOrder(code, e, log.markers)
    && Claims(code, e, log.markers)
  }

  lemma MemoMore(code: Code, answers: seq<bool>, b: bool)
    requires code(answers).Some?
    ensures Memo(code, answers + [b]) == Memo(code, answers)[code(answers).value.id := b]
  {
    assert (answers + [b])[..|answers|] == answers;
  }

  /** What has been affirmed after one more call. */
  lemma AffirmedMore(code: Code, horizon: nat, known: set<string>, answers: seq<bool>, b: bool)
    requires code(answers).Some? && b == Rule(code, horizon, known, answers)
    ensures forall id :: Affirmed(code, answers + [b], id) <==>
        Affirmed(code, answers, id) || (b && id == code(answers).value.id)
  {
    MemoMore(code, answers, b);
  }

  lemma PrefixesStay(answers: seq<bool>, b: bool)
    ensures forall n :: 0 <= n <= |answers| ==> (answers + [b])[..n] == answers[..n]
  {
  }

  lemma {:induction false} AsksGood(code: Code, t: Timeline)
    requires Good(code, t) && Possible(code, t, Asks)
    ensures Good(code, Next(code, t, Asks))
  {
    var e, markers := t.run, t.log.markers;
    var b := Rule(code, e.horizon, e.known, e.answers);
    FollowsMore(code, e.horizon, e.known, e.answers, b);
    AscendsMore(code, e.answers, |e.issued|, b);
    AffirmedMore(code, e.horizon, e.known, e.answers, b);
    PrefixesStay(e.answers, b);
    AsksInOrder(code, e, markers);
  }

  lemma {:induction false} AsksInOrder(code: Code, e: Execution, markers: set<string>)
    requires InOrder(code, e, markers) && code(e.answers).Some?
    ensures InOrder(code, Asked(code, e), markers)
  {
    var id, b := code(e.answers).value.id, Rule(code, e.horizon, e.known, e.answers);
    var e' := Asked(code, e);
    AffirmedMore(code, e.horizon, e.known, e.answers, b);
    PrefixesStay(e.answers, b);
    forall i | 0 <= i < |e'.todo|
      ensures e'.todo[i].after <= |e'.answers| && Covered(code, e'.answers[..e'.todo[i].after], markers, e'.todo[..i])
      ensures e'.todo[i].Marker? ==> Affirmed(code, e'.answers, e'.todo[i].id)
    {
      if i < |e.todo| {
        assert e'.todo[i] == e.todo[i] && e'.todo[..i] == e.todo[..i];
      } else {
        assert e'.todo[..i] == e.todo && e.answers[..|e.answers|] == e.answers;
      }
    }
    QueuedMore(e.todo, e'.todo);
    if b && id !in Memo(code, e.answers) {
      assert e'.todo[|e.todo|] == Marker(id, |e.answers|);
    }
  }

  lemma QueuedMore(todo: seq<Command>, more: seq<Command>)
    requires todo <= more
    ensures forall id :: Queued(todo, id) ==> Queued(more, id)
  {
    assert forall c <- todo :: c in more;
  }

  lemma {:induction false} QueueGood(code: Code, t: Timeline)
    requires Good(code, t)
    ensures Good(code, t.(run := t.run.(todo := t.run.todo + [Work(|t.run.answers|)])))
  {
    var e := t.run;
    var e' := e.(todo := e.todo + [Work(|e.answers|)]);
    forall i | 0 <= i < |e'.todo|
      ensures e'.todo[i].after <= |e'.answers|
      ensures Covered(code, e'.answers[..e'.todo[i].after], t.log.markers, e'.todo[..i])
      ensures e'.todo[i].Marker? ==> Affirmed(code, e'.answers, e'.todo[i].id)
    {
      if i < |e.todo| {
        assert e'.todo[i] == e.todo[i] && e'.todo[..i] == e.todo[..i];
      } else {
        assert e'.todo[..i] == e.todo && e.answers[..|e.answers|] == e.answers;
      }
    }
    QueuedMore(e.todo, e'.todo);
  }

  /** Claiming ids for commands queued after answers whose markers are recorded. */
  lemma {:induction false} ClaimedGood(code: Code, t: Timeline, ids: nat, after: nat)
    requires Good(code, t) && after <= |t.run.answers| && Marked(code, t.run.answers[..after], t.log.markers)
    ensures Good(code, t.(run := Claimed(t.run, ids, after)))
  {
    AscendsFurther(code, t.run.answers, |t.run.issued|, |t.run.issued| + ids);
  }

  /** The first command is performed: what is left is covered by the markers and by what is left. */
  lemma {:induction false} RestCovered(code: Code, answers: seq<bool>, markers: set<string>, todo: seq<Command>)
    requires todo != [] && Covered(code, answers, markers, todo)
    ensures Covered(code, answers, if todo[0].Marker? then markers + {todo[0].id} else markers, todo[1..])
  {
    assert todo == [todo[0]] + todo[1..];
  }

  lemma {:induction false} RestInOrder(code: Code, e: Execution, markers: set<string>)
    requires e.todo != [] && InOrder(code, e, markers)
    ensures InOrder(code, e.(todo := e.todo[1..]), if e.todo[0].Marker? then markers + {e.todo[0].id} else markers)
  {
    var rest := e.todo[1..];
    var markers' := if e.todo[0].Marker? then markers + {e.todo[0].id} else markers;
    RestCovered(code, e.answers, markers, e.todo);
    forall i | 0 <= i < |rest|
      ensures rest[i].after <= |e.answers| && Covered(code, e.answers[..rest[i].after], markers', rest[..i])
      ensures rest[i].Marker? ==> Affirmed(code, e.answers, rest[i].id)
    {
      assert rest[i] == e.todo[i + 1] && e.todo[..i + 1][1..] == rest[..i];
      RestCovered(code, e.answers[..rest[i].after], markers, e.todo[..i + 1]);
    }
  }

  lemma {:induction false} PerformGood(code: Code, t: Timeline, ids: nat)
    requires Good(code, t) && t.run.todo != []
    ensures Good(code, Performed(t, ids))
  {
    var e, command := t.run, t.run.todo[0];
    assert e.todo[..0] == [] && Covered(code, e.answers[..command.after], t.log.markers, []);
    assert Marked(code, e.answers[..command.after], t.log.markers);
    RestInOrder(code, e, t.log.markers);
    var rest := t.(run := e.(todo := e.todo[1..]));
    match command {
      case Work(after) => ClaimedGood(code, rest, ids, after);
      case Marker(id, after) =>
        var marked := rest.(log := Higher(t.log, |e.issued| + 1).(markers := t.log.markers + {id}));
        assert Affirmed(code, e.answers, id);
        ClaimedGood(code, marked, 1, after);
    }
  }

  lemma {:induction false} FreshIsGood(code: Code, log: Log, stray: nat)
    ensures Good(code, Timeline(log, Fresh(log), stray))
  {
  }

  lemma {:induction false} AwaitGood(code: Code, t: Timeline, ids: nat)
    requires Good(code, t) && t.run.todo == []
    ensures Good(code, t.(run := Claimed(t.run, ids, |t.run.answers|)))
  {
    assert t.run.answers[..|t.run.answers|] == t.run.answers;
    ClaimedGood(code, t, ids, |t.run.answers|);
  }

  lemma {:induction false} NextIsGood(code: Code, t: Timeline, step: Step)
    requires Good(code, t) && Possible(code, t, step)
    ensures Good(code, Next(code, t, step))
  {
    match step
    case Asks => AsksGood(code, t);
    case Queue => QueueGood(code, t);
    case Perform(ids) => PerformGood(code, t, ids);
    case Await(ids) => AwaitGood(code, t, ids);
    case Crash => FreshIsGood(code, t.log, 0);
    case Rewind => FreshIsGood(code, t.log, Next(code, t, step).stray);
    case _ =>
  }

  /** Over every run of executions, crashes and rewinds the answers follow from the
      horizon and the markers, every recorded marker is accounted for, and a marker
      stands before whatever was queued after its call. */
  lemma {:induction false} RunsStayGood(code: Code, t: Timeline, steps: seq<Step>, t': Timeline)
    requires Good(code, t) && Runs(code, t, steps, t')
    ensures Good(code, t')
    decreases |steps|
  {
    if steps != [] {
      NextIsGood(code, t, steps[0]);
      RunsStayGood(code, Next(code, t, steps[0]), steps[1..], t');
    }
  }

  const EMPTY := Log(0, {})
  const NEW := Timeline(EMPTY, Fresh(EMPTY), 0)

  /** What a rewind leaves behind may still be recorded; what a crash leaves is lost. */
  lemma StraysOutliveRewinds(code: Code, t: Timeline, id: nat)
    requires Possible(code, t, Complete(id))
    ensures Possible(code, Next(code, t, Rewind), Complete(id))
    ensures !Possible(code, Next(code, t, Crash), Complete(id))
  {
  }

  /** The first execution of a timeline: recorded ids have been claimed, one each, and a
      marker still to be written is neither written yet nor queued twice. */
  ghost predicate WritesOnce(code: Code, t: Timeline) {
    var log, e := t.log, t.run;
    && log.highest <= |e.issued| && e.known == {} && t.stray == 0
    && (forall i :: 0 <= i < |e.todo| && e.todo[i].Marker? ==> e.todo[i].id !in log.markers)
    && (forall i, j :: 0 <= i < j < |e.todo| && e.todo[i].Marker? && e.todo[j].Marker? ==> e.todo[i].id != e.todo[j].id)
    && (forall i :: 0 <= i < |e.todo| && e.todo[i].Marker? ==> e.todo[i].id in Memo(code, e.answers))
    && (forall id <- log.markers :: id in Memo(code, e.answers))
  }

  lemma {:induction false} StepWritesOnce(code: Code, t: Timeline, step: Step)
    requires WritesOnce(code, t) && Possible(code, t, step) && !Interrupts(step)
    ensures WritesOnce(code, Next(code, t, step))
    ensures step.Perform? && t.run.todo[0].Marker? ==>
        var t' := Next(code, t, step);
        && t'.log == Log(|t.run.issued| + 1, t.log.markers + {t.run.todo[0].id})
        && |t'.run.issued| == |t.run.issued| + 1 && t'.run.todo == t.run.todo[1..]
  {
    var e := t.run;
    match step
    case Asks => MemoMore(code, e.answers, Rule(code, e.horizon, e.known, e.answers));
    case _ =>
  }

  /** Over every uninterrupted first execution each marker is written once, under an id
      of its own, and nothing is recorded that was not claimed. */
  lemma {:induction false} MarkersAreWrittenOnce(code: Code, t: Timeline, steps: seq<Step>, t': Timeline)
    requires WritesOnce(code, t) && Runs(code, t, steps, t') && Uninterrupted(steps)
    ensures WritesOnce(code, t')
    decreases |steps|
  {
    if steps != [] {
      assert steps[0] in steps && forall step <- steps[1..] :: step in steps;
      StepWritesOnce(code, t, steps[0]);
      MarkersAreWrittenOnce(code, Next(code, t, steps[0]), steps[1..], t');
    }
  }

  /** In every reachable state an id is claimed for an operation only once every
      marker is durable that the answers before it call for. */
  lemma TrueAnswersAreMarked(code: Code, steps: seq<Step>, t: Timeline)
    requires Runs(code, NEW, steps, t)
    ensures forall n <- t.run.issued :: n <= |t.run.answers| && Marked(code, t.run.answers[..n], t.log.markers)
  {
    FreshIsGood(code, EMPTY, 0);
    RunsStayGood(code, NEW, steps, t);
  }

  // ---------------------------------------------------------------------
  // The next execution
  // ---------------------------------------------------------------------

  /** The k-th answer was true, something beyond its call is recorded and its marker is not. */
  ghost predicate Exposed(code: Code, log: Log, answers: seq<bool>, k: nat)
    requires k < |answers|
  {
    && answers[k] && code(answers[..k]).Some?
    && code(answers[..k]).value.position < log.highest && code(answers[..k]).value.id !in log.markers
  }

  /** An execution reading this log repeats answers of which none is exposed... */
  lemma {:induction false} UnexposedRepeat(code: Code, t: Timeline, n: nat)
    requires Good(code, t) && n <= |t.run.answers|
    requires forall k :: 0 <= k < n ==> !Exposed(code, t.log, t.run.answers, k)
    ensures Follows(code, t.log.highest, t.log.markers, t.run.answers[..n])
    decreases n
  {
    if n > 0 {
      var answers, k := t.run.answers, n - 1;
      UnexposedRepeat(code, t, k);
      OneRepeats(code, t, k);
      assert answers[..n] == answers[..k] + [answers[k]];
      FollowsMore(code, t.log.highest, t.log.markers, answers[..k], answers[k]);
    }
  }

  lemma {:induction false} OneRepeats(code: Code, t: Timeline, k: nat)
    requires Good(code, t) && k < |t.run.answers| && !Exposed(code, t.log, t.run.answers, k)
    ensures code(t.run.answers[..k]).Some?
    ensures t.run.answers[k] == Rule(code, t.log.highest, t.log.markers, t.run.answers[..k])
  {
    var e := t.run;
    FollowsAt(code, e.horizon, e.known, e.answers, k);
    MemoAt(code, e.horizon, e.known, e.answers, k);
  }

  /** ...and does not repeat an exposed one. */
  lemma {:induction false} ExposedFlips(code: Code, t: Timeline, n: nat, k: nat)
    requires Good(code, t) && k < n <= |t.run.answers| && Exposed(code, t.log, t.run.answers, k)
    ensures !Follows(code, t.log.highest, t.log.markers, t.run.answers[..n])
  {
    var e := t.run;
    var id := code(e.answers[..k]).value.id;
    MemoAt(code, e.horizon, e.known, e.answers, k);
    var j := FirstAsked(code, e.answers, id);
    FirstIsFirst(code, e.answers, id, j, k);
    MemoAt(code, e.horizon, e.known, e.answers, j);
    PositionsAscend(code, e.answers, |e.issued|, j, k);
    assert e.answers[..n][..j] == e.answers[..j];
    if Follows(code, t.log.highest, t.log.markers, e.answers[..n]) {
      FollowsAt(code, t.log.highest, t.log.markers, e.answers[..n], j);
    }
  }

  lemma {:induction false} FirstIsFirst(code: Code, answers: seq<bool>, id: string, j: nat, k: nat)
    requires j < |answers| && k < |answers| && id !in Memo(code, answers[..j])
    requires code(answers[..k]).Some? && code(answers[..k]).value.id == id
    ensures j <= k
  {
    if k < j {
      assert answers[..j][..k] == answers[..k];
      MemoHas(code, answers[..j], k);
    }
  }

  lemma {:induction false} MemoHas(code: Code, answers: seq<bool>, k: nat)
    requires k < |answers| && code(answers[..k]).Some?
    ensures code(answers[..k]).value.id in Memo(code, answers)
    decreases |answers|
  {
    var front := answers[..|answers| - 1];
    if k < |front| {
      assert front[..k] == answers[..k];
      MemoHas(code, front, k);
    }
  }

  lemma {:induction false} PositionsAscend(code: Code, answers: seq<bool>, bound: nat, j: nat, k: nat)
    requires Ascends(code, answers, bound) && j <= k < |answers|
    ensures code(answers[..j]).Some? && code(answers[..k]).Some?
    ensures code(answers[..j]).value.position <= code(answers[..k]).value.position
  {
    AscendsAt(code, answers, bound, k);
    if j < k {
      AscendsAt(code, answers[..k], code(answers[..k]).value.position, j);
      assert answers[..k][..j] == answers[..j];
    }
  }

  ghost predicate Uninterrupted(steps: seq<Step>) {
    forall step <- steps :: !Interrupts(step)
  }

  lemma {:induction false} ReadOnceAtTheStart(code: Code, t: Timeline, steps: seq<Step>, t': Timeline)
    requires Runs(code, t, steps, t') && Uninterrupted(steps)
    ensures t'.run.horizon == t.run.horizon && t'.run.known == t.run.known
    decreases |steps|
  {
    if steps != [] {
      assert steps[0] in steps && forall step <- steps[1..] :: step in steps;
      ReadOnceAtTheStart(code, Next(code, t, steps[0]), steps[1..], t');
    }
  }

  /** What the next execution answers, it answers by the log as the interruption left it. */
  lemma {:induction false} NextFollowsLog(code: Code, t: Timeline, interruption: Step, steps: seq<Step>, t': Timeline)
    requires Good(code, t) && Interrupts(interruption)
    requires Runs(code, Next(code, t, interruption), steps, t') && Uninterrupted(steps)
    ensures Good(code, t') && Follows(code, t.log.highest, t.log.markers, t'.run.answers)
  {
    NextIsGood(code, t, interruption);
    RunsStayGood(code, Next(code, t, interruption), steps, t');
    ReadOnceAtTheStart(code, Next(code, t, interruption), steps, t');
  }

  /** The next execution repeats the first n answers if and only if none of them was
      true with an id beyond its call recorded and its marker not. */
  lemma {:induction false} AnswersSurviveExactly(
    code: Code, before: seq<Step>, t: Timeline, interruption: Step, steps: seq<Step>, t': Timeline, n: nat)
    requires Runs(code, NEW, before, t) && Interrupts(interruption)
    requires Runs(code, Next(code, t, interruption), steps, t') && Uninterrupted(steps)
    requires n <= |t.run.answers| && n <= |t'.run.answers|
    ensures t'.run.answers[..n] == t.run.answers[..n] <==>
            forall k :: 0 <= k < n ==> !Exposed(code, t.log, t.run.answers, k)
  {
    FreshIsGood(code, EMPTY, 0);
    RunsStayGood(code, NEW, before, t);
    NextFollowsLog(code, t, interruption, steps, t');
    FollowsPrefix(code, t.log.highest, t.log.markers, t'.run.answers, n);
    if k :| 0 <= k < n && Exposed(code, t.log, t.run.answers, k) {
      ExposedFlips(code, t, n, k);
    } else {
      UnexposedRepeat(code, t, n);
      FollowAlike(code, t.log.highest, t.log.markers, t.run.answers[..n], t'.run.answers[..n]);
    }
  }

  /** Where the next execution first answers otherwise, it answers false instead of true. */
  lemma {:induction false} AnswersFlipDown(
    code: Code, before: seq<Step>, t: Timeline, interruption: Step, steps: seq<Step>, t': Timeline, k: nat)
    requires Runs(code, NEW, before, t) && Interrupts(interruption)
    requires Runs(code, Next(code, t, interruption), steps, t') && Uninterrupted(steps)
    requires k < |t.run.answers| && k < |t'.run.answers|
    requires t.run.answers[..k] == t'.run.answers[..k] && t.run.answers[k] != t'.run.answers[k]
    ensures t.run.answers[k] && Exposed(code, t.log, t.run.answers, k)
  {
    FreshIsGood(code, EMPTY, 0);
    RunsStayGood(code, NEW, before, t);
    NextFollowsLog(code, t, interruption, steps, t');
    FollowsAt(code, t.log.highest, t.log.markers, t'.run.answers, k);
    if !Exposed(code, t.log, t.run.answers, k) {
      OneRepeats(code, t, k);
    }
  }

  // ---------------------------------------------------------------------
  // Every later execution
  // ---------------------------------------------------------------------

  /** An execution that read this log would give these answers, and has their markers. */
  ghost predicate Firm(code: Code, log: Log, a: seq<bool>) {
    Follows(code, log.highest, log.markers, a) && Marked(code, a, log.markers)
  }

  /** ...and the current execution gives them too. */
  ghost predicate Settled(code: Code, t: Timeline, a: seq<bool>) {
    Good(code, t) && Firm(code, t.log, a) && Follows(code, t.run.horizon, t.run.known, a)
  }

  /** Whatever has been answered in both is answered alike. */
  predicate Agree(a: seq<bool>, b: seq<bool>) {
    a <= b || b <= a
  }

  lemma {:induction false} SettledAgrees(code: Code, t: Timeline, a: seq<bool>)
    requires Settled(code, t, a)
    ensures Agree(a, t.run.answers)
  {
    var e := t.run;
    if |a| <= |e.answers| {
      FollowAlike(code, e.horizon, e.known, a, e.answers);
    } else {
      FollowAlike(code, e.horizon, e.known, e.answers, a);
    }
  }

  /** No marker is written for an id the settled answers deny. */
  lemma {:induction false} AffirmedNotDenied(code: Code, t: Timeline, a: seq<bool>, id: string)
    requires Settled(code, t, a) && Affirmed(code, t.run.answers, id) && id in Memo(code, a)
    ensures Memo(code, a)[id]
  {
    var e := t.run;
    SettledAgrees(code, t, a);
    if a <= e.answers {
      MemoStays(code, e.horizon, e.known, e.answers, |a|);
      assert e.answers[..|a|] == a;
    } else {
      MemoStays(code, e.horizon, e.known, a, |e.answers|);
      assert a[..|e.answers|] == e.answers;
    }
  }

  /** Firm answers stay firm while the log grows without a marker they deny. */
  lemma {:induction false} FirmGrows(code: Code, log: Log, log': Log, a: seq<bool>, n: nat)
    requires Firm(code, log, a) && n <= |a| && log.highest <= log'.highest && log.markers <= log'.markers
    requires forall id <- Memo(code, a) :: !Memo(code, a)[id] ==> id !in log'.markers
    ensures Follows(code, log'.highest, log'.markers, a[..n])
    decreases n
  {
    if n > 0 {
      var k := n - 1;
      FirmGrows(code, log, log', a, k);
      FollowsAt(code, log.highest, log.markers, a, k);
      MemoAt(code, log.highest, log.markers, a, k);
      assert a[..n] == a[..k] + [a[k]];
      FollowsMore(code, log'.highest, log'.markers, a[..k], a[k]);
    }
  }

  /** Denied ids have no marker. */
  lemma {:induction false} DeniedUnmarked(code: Code, log: Log, a: seq<bool>, id: string)
    requires Firm(code, log, a) && id in Memo(code, a) && !Memo(code, a)[id]
    ensures id !in log.markers
  {
    var k := FirstAsked(code, a, id);
    FollowsAt(code, log.highest, log.markers, a, k);
    MemoAt(code, log.highest, log.markers, a, k);
  }

  lemma {:induction false} LogGrows(code: Code, t: Timeline, step: Step)
    requires Good(code, t) && Possible(code, t, step)
    ensures
      var log := Next(code, t, step).log;
      && t.log.highest <= log.highest && t.log.markers <= log.markers
      && (forall id <- log.markers :: id in t.log.markers || Affirmed(code, t.run.answers, id))
  {
    if step.Perform? {
      assert t.run.todo[0].Marker? ==> Affirmed(code, t.run.answers, t.run.todo[0].id);
    }
  }

  lemma {:induction false} StepSettled(code: Code, t: Timeline, step: Step, a: seq<bool>)
    requires Settled(code, t, a) && Possible(code, t, step)
    ensures Settled(code, Next(code, t, step), a)
  {
    var t' := Next(code, t, step);
    NextIsGood(code, t, step);
    LogGrows(code, t, step);
    forall id | id in Memo(code, a) && !Memo(code, a)[id] ensures id !in t'.log.markers {
      DeniedUnmarked(code, t.log, a, id);
      if Affirmed(code, t.run.answers, id) {
        AffirmedNotDenied(code, t, a, id);
      }
    }
    FirmGrows(code, t.log, t'.log, a, |a|);
    assert a[..|a|] == a;
  }

  /** Settled answers are settled for good, whatever executes, crashes or is rewound. */
  lemma {:induction false} SettledForGood(code: Code, t: Timeline, steps: seq<Step>, t': Timeline, a: seq<bool>)
    requires Settled(code, t, a) && Runs(code, t, steps, t')
    ensures Settled(code, t', a) && Agree(a, t'.run.answers)
    decreases |steps|
  {
    if steps == [] {
      SettledAgrees(code, t, a);
    } else {
      StepSettled(code, t, steps[0], a);
      SettledForGood(code, Next(code, t, steps[0]), steps[1..], t', a);
    }
  }

  /** Answers are settled as soon as their markers are durable. */
  lemma {:induction false} MarkedIsSettled(code: Code, t: Timeline, n: nat)
    requires Good(code, t) && n <= |t.run.answers| && Marked(code, t.run.answers[..n], t.log.markers)
    ensures Settled(code, t, t.run.answers[..n])
  {
    var e := t.run;
    FollowsPrefix(code, e.horizon, e.known, e.answers, n);
    forall k | 0 <= k < n ensures !Exposed(code, t.log, e.answers, k) {
      MemoAt(code, e.horizon, e.known, e.answers[..n], k);
      assert e.answers[..n][..k] == e.answers[..k];
    }
    UnexposedRepeat(code, t, n);
  }

  /** The answers before any claimed operation stand: every later execution gives them,
      as far as it answers at all, whether the operation is durable or not. */
  lemma {:induction false} ClaimsPinAnswers(code: Code, before: seq<Step>, t: Timeline, n: nat, steps: seq<Step>, t': Timeline)
    requires Runs(code, NEW, before, t) && n in t.run.issued && Runs(code, t, steps, t')
    ensures n <= |t.run.answers| && Agree(t.run.answers[..n], t'.run.answers)
  {
    FreshIsGood(code, EMPTY, 0);
    RunsStayGood(code, NEW, before, t);
    MarkedIsSettled(code, t, n);
    SettledForGood(code, t, steps, t', t.run.answers[..n]);
  }

  /** The first n calls stood below the horizon of their execution. */
  ghost predicate Replayed(code: Code, e: Execution, n: nat)
    requires n <= |e.answers|
  {
    forall k :: 0 <= k < n ==> code(e.answers[..k]).Some? && code(e.answers[..k]).value.position < e.horizon
  }

  /** Once an execution has made its first n calls below its horizon, every later
      execution repeats those answers. */
  lemma {:induction false} RecoveriesAgree(code: Code, before: seq<Step>, t: Timeline, n: nat, steps: seq<Step>, t': Timeline)
    requires Runs(code, NEW, before, t) && n <= |t.run.answers| && Replayed(code, t.run, n)
    requires Runs(code, t, steps, t')
    ensures Agree(t.run.answers[..n], t'.run.answers)
  {
    FreshIsGood(code, EMPTY, 0);
    RunsStayGood(code, NEW, before, t);
    forall id | Affirmed(code, t.run.answers[..n], id) ensures id in t.log.markers {
      ReplayedIsMarked(code, t, n, id);
    }
    MarkedIsSettled(code, t, n);
    SettledForGood(code, t, steps, t', t.run.answers[..n]);
  }

  lemma {:induction false} ReplayedIsMarked(code: Code, t: Timeline, n: nat, id: string)
    requires Good(code, t) && n <= |t.run.answers| && Replayed(code, t.run, n) && Affirmed(code, t.run.answers[..n], id)
    ensures id in t.log.markers
  {
    var e := t.run;
    FollowsPrefix(code, e.horizon, e.known, e.answers, n);
    var k := FirstAsked(code, e.answers[..n], id);
    assert e.answers[..n][..k] == e.answers[..k];
    FollowsAt(code, e.horizon, e.known, e.answers[..n], k);
    MemoAt(code, e.horizon, e.known, e.answers[..n], k);
  }

  /** One id: once an id beyond the code's first call is recorded, every execution that
      begins from then on answers it by whether its marker is recorded. */
  lemma {:induction false} FirstAnswerStands(
    code: Code, before: seq<Step>, t: Timeline, interruption: Step, steps: seq<Step>, t': Timeline)
    requires Runs(code, NEW, before, t) && code([]).Some? && code([]).value.position < t.log.highest
    requires Interrupts(interruption) && Runs(code, Next(code, t, interruption), steps, t')
    ensures t'.run.answers != [] ==> t'.run.answers[0] == (code([]).value.id in t.log.markers)
  {
    var c := code([]).value;
    FirstIsSettled(code, t.log, Next(code, t, interruption).stray);
    SettledForGood(code, Next(code, t, interruption), steps, t', [c.id in t.log.markers]);
  }

  lemma {:induction false} FirstIsSettled(code: Code, log: Log, stray: nat)
    requires code([]).Some? && code([]).value.position < log.highest
    ensures Settled(code, Timeline(log, Fresh(log), stray), [code([]).value.id in log.markers])
  {
    var b := code([]).value.id in log.markers;
    assert [] + [b] == [b] && Memo(code, []) == map[];
    FreshIsGood(code, log, stray);
    FollowsMore(code, log.highest, log.markers, [], b);
    MemoMore(code, [], b);
  }

  // ---------------------------------------------------------------------
  // Runs in which answers change
  // ---------------------------------------------------------------------

  /** One more step of a run. */
  lemma {:induction false} Then(code: Code, start: Timeline, steps: seq<Step>, t: Timeline, step: Step)
    returns (more: seq<Step>, t': Timeline)
    requires Runs(code, start, steps, t) && Possible(code, t, step)
    ensures more == steps + [step] && t' == Next(code, t, step) && Runs(code, start, more, t')
    decreases |steps|
  {
    more, t' := steps + [step], Next(code, t, step);
    if steps == [] {
      assert more == [step] && more[1..] == [];
    } else {
      var rest, _ := Then(code, Next(code, start, steps[0]), steps[1..], t, step);
      assert more[1..] == rest;
    }
  }

  /** The code starts an activity and asks for a.  On the new path it asks for b in the
      same turn; on the old path only after a timer, having started a second activity. */
  function Branching(): Code {
    (answers: seq<bool>) =>
      if answers == [] then Some(Call("a", 1))
      else if answers == [true] then Some(Call("b", 1))
      else if answers == [false] then Some(Call("b", 5))
      else None
  }

  /** An execution of this code up to its first answer. */
  lemma {:induction false} AskFirst(log: Log) returns (steps: seq<Step>, t: Timeline)
    requires log.markers == {}
    ensures Runs(Branching(), Timeline(log, Fresh(log), 0), steps, t) && Uninterrupted(steps)
    ensures
      var b := 1 >= log.highest;
      t == Timeline(log, Execution(log.highest, {}, [b], [0], [Work(0)] + if b then [Marker("a", 0)] else [], true), 0)
  {
    var code, start := Branching(), Timeline(log, Fresh(log), 0);
    steps, t := [], start;
    steps, t := Then(code, start, steps, t, Await(1));
    assert t.run.issued == [0];
    steps, t := Then(code, start, steps, t, Drain);
    steps, t := Then(code, start, steps, t, Queue);
    assert t.run.todo == [Work(0)];
    steps, t := Then(code, start, steps, t, Asks);
    assert t.run.answers == [1 >= log.highest];
  }

  /** On the new path: both answers true, and the activity queued before them recorded. */
  lemma {:induction false} FirstExecution() returns (steps: seq<Step>, t: Timeline)
    ensures Runs(Branching(), NEW, steps, t) && Uninterrupted(steps)
    ensures t.run.answers == [true, true] && t.log == Log(2, {}) && t.stray == 0
  {
    var code := Branching();
    steps, t := AskFirst(EMPTY);
    assert t.run.answers == [true] && Memo(code, [true]) == map["a" := true] by {
      MemoMore(code, [], true);
      assert [] + [true] == [true];
    }
    steps, t := Then(code, NEW, steps, t, Asks);
    assert t.run.answers == [true, true];
    steps, t := Then(code, NEW, steps, t, Issue);
    steps, t := Then(code, NEW, steps, t, Perform(1));
    steps, t := Then(code, NEW, steps, t, Complete(2));
  }

  /** On the old path: the activity, the timer, and a race won by the timer. */
  lemma {:induction false} OldPath(log: Log) returns (steps: seq<Step>, t: Timeline)
    requires log.markers == {} && log.highest >= 2
    ensures Runs(Branching(), Timeline(log, Fresh(log), 0), steps, t) && Uninterrupted(steps)
    ensures t == Timeline(log, Execution(log.highest, {}, [false], [0, 0, 1, 1, 1], [], false), 0)
  {
    var code, start := Branching(), Timeline(log, Fresh(log), 0);
    steps, t := AskFirst(log);
    steps, t := Then(code, start, steps, t, Queue);
    assert t.run.todo == [Work(0), Work(1)];
    steps, t := Then(code, start, steps, t, Issue);
    steps, t := Then(code, start, steps, t, Perform(1));
    assert t.run.issued == [0, 0] && t.run.todo == [Work(1)];
    steps, t := Then(code, start, steps, t, Perform(1));
    assert t.run.issued == [0, 0, 1];
    steps, t := Then(code, start, steps, t, Await(2));
    assert t.run.issued == [0, 0, 1, 1, 1];
  }

  /** ...then the second activity, and b asked at 5. */
  lemma {:induction false} AskSecond(log: Log) returns (steps: seq<Step>, t: Timeline)
    requires log.markers == {} && log.highest >= 2
    ensures Runs(Branching(), Timeline(log, Fresh(log), 0), steps, t) && Uninterrupted(steps)
    ensures t.run.answers == [false, 5 >= log.highest] && |t.run.issued| == 5 && t.run.draining
    ensures t.run.todo != [] && t.run.todo[0].Work? && t.log == log && t.stray == 0
  {
    var code, start := Branching(), Timeline(log, Fresh(log), 0);
    steps, t := OldPath(log);
    assert Memo(code, [false]) == map["a" := false] by {
      MemoMore(code, [], false);
      assert [] + [false] == [false];
    }
    steps, t := Then(code, start, steps, t, Drain);
    steps, t := Then(code, start, steps, t, Queue);
    steps, t := Then(code, start, steps, t, Asks);
    assert t.run.answers == [false, 5 >= log.highest];
  }

  /** Reachable: a flipped answer moves the next call, and takes its agreement along.
      Two crashes, each after the first activity of a turn and before the turn's markers,
      turn the answers [true, true] into [false, true], b being asked at 5 instead of 1,
      and these into [false, false]. */
  lemma {:induction false} FlipMovesCall() returns (
      first: seq<Step>, t1: Timeline, second: seq<Step>, t2: Timeline, third: seq<Step>, t3: Timeline)
    ensures Runs(Branching(), NEW, first, t1) && t1.run.answers == [true, true] && t1.log.highest > 1
    ensures Runs(Branching(), Next(Branching(), t1, Crash), second, t2) && t2.run.answers == [false, true]
    ensures Runs(Branching(), Next(Branching(), t2, Crash), third, t3) && t3.run.answers == [false, false]
    ensures Uninterrupted(first) && Uninterrupted(second) && Uninterrupted(third)
  {
    var code := Branching();
    first, t1 := FirstExecution();
    second, t2 := AskSecond(t1.log);
    var start := Next(code, t1, Crash);
    second, t2 := Then(code, start, second, t2, Issue);
    second, t2 := Then(code, start, second, t2, Perform(1));
    second, t2 := Then(code, start, second, t2, Complete(6));
    third, t3 := AskSecond(t2.log);
  }

  /** So one id's answer may change from true to false. */
  lemma {:induction false} AnswerMayFlip()
    ensures exists before, t, after, t' ::
        && Runs(Branching(), NEW, before, t) && t.run.answers != [] && t.run.answers[0]
        && Runs(Branching(), Next(Branching(), t, Crash), after, t') && Uninterrupted(after)
        && t'.run.answers != [] && !t'.run.answers[0]
  {
    var before, t, after, t', _, _ := FlipMovesCall();
    assert t'.run.answers == [false, true];
  }

  /** The patch state of one execution of the interpreter. */
  class PatchBook {
    const horizon: nat
    const recorded: set<string>
    var claimed: nat
    var readOnly: bool
    var memoized: map<string, bool>
    var queued: seq<string>       // markers among the commands, in order

    /** A marker is queued once for each id answered true, and for no other. */
    ghost predicate Valid()
      reads this
    {
      && (forall id :: id in queued <==> id in memoized && memoized[id])
      && (forall i, j :: 0 <= i < j < |queued| ==> queued[i] != queued[j])
    }

    constructor (horizon: nat, recorded: set<string>)
      ensures Valid() && this.horizon == horizon && this.recorded == recorded && claimed == 0 && memoized == map[]
    {
      this.horizon, this.recorded := horizon, recorded;
      claimed, readOnly, memoized, queued := 0, false, map[], [];
    }

    /** None where commands are not allowed. The first answer for an id is the rule
        of the timeline model and stays for the execution; it claims no id. */
    method Patched(id: string) returns (use: Option<bool>)
      requires Valid()
      modifies this`memoized, this`queued
      ensures Valid()
      ensures readOnly ==> use == None && memoized == old(memoized) && queued == old(queued)
      ensures !readOnly ==> use.Some? && memoized == old(memoized)[id := use.value]
      ensures !readOnly && id in old(memoized) ==> use == Some(old(memoized)[id]) && queued == old(queued)
      ensures !readOnly && id !in old(memoized) ==>
          && use == Some(Answer(Call(id, claimed), horizon, recorded))
          && queued == old(queued) + if use.value then [id] else []
    {
      if readOnly {
        return None;
      }
      if id in memoized {
        return Some(memoized[id]);
      }
      var answer := !(claimed < horizon) || id in recorded;
      memoized := memoized[id := answer];
      if answer {
        queued := queued + [id];
      }
      return Some(answer);
    }
  }
}
