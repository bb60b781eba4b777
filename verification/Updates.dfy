/**
 Updates of one execution: deduplication, the two replies each update gets, and
 what a closing run does with the handlers it abandons.
 */
module Updates {
  import opened Prelude

  /** The event a reply is written to. */
  datatype Key = Acceptance(id: string) | Result(id: string)

  /** Abandoned is the failure a closing run writes for an unfinished handler. */
  datatype Status = Accepted | Rejected | Completed | Failed | Abandoned

  datatype Reply = Reply(key: Key, status: Status)

  datatype Outcome = Closing | ContinueAsNew | TaskFailure

  /** What handler resolution and the validator say of an update. */
  datatype Verdict = NotFound | Refused | Welcome

  datatype Handler = ForSignal | ForUpdate(id: string)

  /** A handler returns, raises a failure exception, or raises what ends the run. */
  datatype Ending = Returns | Raises | EndsRun(outcome: Outcome)

  datatype Phase = Open | Closed | Discarded

  datatype Desk = Desk(
    seen: set<string>,
    outbox: seq<Reply>,
    posted: seq<Reply>,
    inflight: seq<Handler>,       // in spawn order
    outcome: Option<Outcome>,
    phase: Phase,
    started: set<string>,         // updates whose handler was spawned
    ended: map<string, Ending>)   // how those that ended did

  const FRESH := Desk({}, [], [], [], None, Open, {}, map[])

  /** The first outcome wins. */
  function SetOutcome(d: Desk, outcome: Outcome): Desk {
    if d.outcome.None? then d.(outcome := Some(outcome)) else d
  }

  function Deliver(d: Desk, id: string, verdict: Verdict): Desk {
    if id in d.seen then d
    else if verdict.Welcome? then
      d.(seen := d.seen + {id}, outbox := d.outbox + [Reply(Acceptance(id), Accepted)],
         inflight := d.inflight + [ForUpdate(id)], started := d.started + {id})
    else
      d.(seen := d.seen + {id},
         outbox := d.outbox + [Reply(Acceptance(id), Rejected), Reply(Result(id), Rejected)])
  }

  function Without(handlers: seq<Handler>, k: nat): seq<Handler>
    requires k < |handlers|
  {
    handlers[..k] + handlers[k + 1..]
  }

  function Finish(d: Desk, k: nat, ending: Ending): Desk
    requires k < |d.inflight|
  {
    var handler := d.inflight[k];
    var d := d.(inflight := Without(d.inflight, k),
                ended := if handler.ForUpdate? then d.ended[handler.id := ending] else d.ended);
    match ending
    case EndsRun(outcome) => SetOutcome(d, outcome)
    case _ =>
      if handler.ForSignal? then d
      else d.(outbox := d.outbox + [Reply(Result(handler.id), if ending.Returns? then Completed else Failed)])
  }

  function Abandons(handlers: seq<Handler>): seq<Reply> {
    if handlers == [] then []
    else (if handlers[0].ForUpdate? then [Reply(Result(handlers[0].id), Abandoned)] else []) + Abandons(handlers[1..])
  }

  function Flush(d: Desk): Desk {
    d.(outbox := [], posted := d.posted + d.outbox)
  }

  /** The loop flushes before it breaks; the teardown then answers for the abandoned. */
  function Close(d: Desk): Desk {
    var d := Flush(d);
    d.(posted := d.posted + Abandons(d.inflight), phase := Closed)
  }

  datatype Step =
    | Arrives(id: string, verdict: Verdict)
    | SpawnsSignal
    | Finishes(k: nat, ending: Ending)
    | Ends(outcome: Outcome)
    | Flushes
    | Closes
    | Discards                    // a failed task: uncommitted replies are dropped

  ghost predicate Possible(d: Desk, step: Step) {
    && d.phase.Open?
    && match step
       case Arrives(_, _) => d.outcome.None?
       case SpawnsSignal => true        // a flush may follow the drain that set the outcome
       case Finishes(k, ending) =>
         // a failing signal handler ends the run
         k < |d.inflight| && (ending.Raises? ==> d.inflight[k].ForUpdate?)
       case Ends(_) => true
       case Flushes => d.outcome != Some(TaskFailure)
       case Closes => d.outcome.Some? && d.outcome.value != TaskFailure
       case Discards => d.outcome == Some(TaskFailure)
  }

  function Next(d: Desk, step: Step): Desk
    requires Possible(d, step)
  {
    match step
    case Arrives(id, verdict) => Deliver(d, id, verdict)
    case SpawnsSignal => d.(inflight := d.inflight + [ForSignal])
    case Finishes(k, ending) => Finish(d, k, ending)
    case Ends(outcome) => SetOutcome(d, outcome)
    case Flushes => Flush(d)
    case Closes => Close(d)
    case Discards => d.(outbox := [], phase := Discarded)
  }

  // ---------------------------------------------------------------------
  // What the replies add up to
  // ---------------------------------------------------------------------

  function Count(replies: seq<Reply>, key: Key): nat {
    if replies == [] then 0 else (if replies[0].key == key then 1 else 0) + Count(replies[1..], key)
  }

  ghost function Written(d: Desk): seq<Reply> {
    d.posted + d.outbox
  }

  ghost predicate Awaited(d: Desk, id: string) {
    d.phase.Open? && ForUpdate(id) in d.inflight
  }

  /** The handler ended the run instead of replying. */
  ghost predicate Mute(d: Desk, id: string) {
    id in d.ended && d.ended[id].EndsRun?
  }

  ghost predicate Ended(d: Desk, id: string, ending: Ending) {
    id in d.ended && d.ended[id] == ending
  }

  /** One acceptance reply per seen update; one result reply unless its handler
      still runs or ended the run; a handler exactly for the accepted ones. */
  ghost predicate Told(d: Desk, id: string) {
    && Count(Written(d), Acceptance(id)) == (if id in d.seen then 1 else 0)
    && Count(Written(d), Result(id)) == (if id in d.seen && !Awaited(d, id) && !Mute(d, id) then 1 else 0)
    && (Reply(Acceptance(id), Accepted) in Written(d) <==> id in d.started)
    && (Reply(Acceptance(id), Rejected) in Written(d) <==> id in d.seen - d.started)
    && (Reply(Result(id), Rejected) in Written(d) <==> id in d.seen - d.started)
    && (id in d.started ==> id in d.seen)
    && (id in d.ended ==> id in d.started && ForUpdate(id) !in d.inflight)
    && (ForUpdate(id) in d.inflight ==> id in d.started)
    && Reports(d, id)
  }

  /** The result says how the handler ended, or that the run abandoned it. */
  ghost predicate Reports(d: Desk, id: string) {
    && (Reply(Result(id), Completed) in Written(d) <==> Ended(d, id, Returns))
    && (Reply(Result(id), Failed) in Written(d) <==> Ended(d, id, Raises))
    && (Reply(Result(id), Abandoned) in Written(d) <==> d.phase.Closed? && ForUpdate(id) in d.inflight)
  }

  ghost predicate Single(handlers: seq<Handler>) {
    forall i, j :: 0 <= i < j < |handlers| && handlers[i].ForUpdate? ==> handlers[i] != handlers[j]
  }

  ghost predicate Preceded(replies: seq<Reply>, j: nat)
    requires j < |replies|
  {
    exists i :: 0 <= i < j && replies[i].key == Acceptance(replies[j].key.id)
  }

  /** No result is written before the acceptance of its update. */
  ghost predicate Heralded(replies: seq<Reply>) {
    forall j :: 0 <= j < |replies| && replies[j].key.Result? ==> Preceded(replies, j)
  }

  ghost predicate Tallied(d: Desk) {
    && Heralded(Written(d)) && Single(d.inflight)
    && (d.outcome.None? ==> forall id <- d.ended :: !d.ended[id].EndsRun?)
    && (!d.phase.Open? ==> d.outbox == [] && d.outcome.Some?)
    && if d.phase.Discarded? then forall key :: Count(d.posted, key) <= 1 else forall id :: Told(d, id)
  }

  lemma {:induction false} CountConcat(a: seq<Reply>, b: seq<Reply>, key: Key)
    ensures Count(a + b, key) == Count(a, key) + Count(b, key)
  {
    if a == [] {
      assert a + b == b;
    } else {
      assert (a + b)[1..] == a[1..] + b;
      CountConcat(a[1..], b, key);
    }
  }

  lemma {:induction false} CountFinds(replies: seq<Reply>, key: Key)
    ensures Count(replies, key) > 0 <==> exists i :: 0 <= i < |replies| && replies[i].key == key
  {
    if replies != [] {
      CountFinds(replies[1..], key);
      if Count(replies[1..], key) > 0 {
        var i :| 0 <= i < |replies[1..]| && replies[1..][i].key == key;
        assert replies[i + 1].key == key;
      } else if i :| 0 <= i < |replies| && replies[i].key == key {
        assert i > 0 ==> replies[1..][i - 1].key == key;
      }
    }
  }

  /** A reply may follow once its acceptance is written. */
  lemma {:induction false} HeraldedAfter(replies: seq<Reply>, r: Reply)
    requires Heralded(replies)
    requires r.key.Result? ==> Count(replies, Acceptance(r.key.id)) > 0
    ensures Heralded(replies + [r])
  {
    var longer := replies + [r];
    forall j | 0 <= j < |longer| && longer[j].key.Result? ensures Preceded(longer, j) {
      if j < |replies| {
        assert Preceded(replies, j);
        var i :| 0 <= i < j && replies[i].key == Acceptance(replies[j].key.id);
        assert longer[i].key == Acceptance(longer[j].key.id);
      } else {
        CountFinds(replies, Acceptance(r.key.id));
        var i :| 0 <= i < |replies| && replies[i].key == Acceptance(r.key.id);
        assert longer[i].key == Acceptance(longer[j].key.id);
      }
    }
  }

  lemma {:induction false} HeraldedUpTo(replies: seq<Reply>, n: nat)
    requires n <= |replies| && Heralded(replies)
    ensures Heralded(replies[..n])
  {
    forall j | 0 <= j < n && replies[..n][j].key.Result? ensures Preceded(replies[..n], j) {
      assert Preceded(replies, j);
      var i :| 0 <= i < j && replies[i].key == Acceptance(replies[j].key.id);
      assert replies[..n][i].key == Acceptance(replies[..n][j].key.id);
    }
  }

  /** Writing one reply counts for its key alone. */
  lemma {:induction false} Writes(d: Desk, r: Reply, d': Desk)
    requires d'.posted == d.posted && d'.outbox == d.outbox + [r]
    ensures Written(d') == Written(d) + [r]
    ensures forall key :: Count(Written(d'), key) == Count(Written(d), key) + if key == r.key then 1 else 0
  {
    assert Written(d') == Written(d) + [r];
    forall key ensures Count(Written(d'), key) == Count(Written(d), key) + if key == r.key then 1 else 0 {
      CountConcat(Written(d), [r], key);
      assert Count([r], key) == if key == r.key then 1 else 0;
    }
  }

  /** What concerns other updates only leaves this one as it was. */
  lemma {:induction false} StillTold(d: Desk, d': Desk, extra: seq<Reply>, id: string)
    requires Told(d, id) && Written(d') == Written(d) + extra && forall r <- extra :: r.key.id != id
    requires d'.phase == d.phase
    requires id in d'.seen <==> id in d.seen
    requires id in d'.started <==> id in d.started
    requires ForUpdate(id) in d'.inflight <==> ForUpdate(id) in d.inflight
    requires id in d'.ended <==> id in d.ended
    requires id in d.ended ==> d'.ended[id] == d.ended[id]
    ensures Told(d', id)
  {
    CountElsewhere(extra, id);
    CountConcat(Written(d), extra, Acceptance(id));
    CountConcat(Written(d), extra, Result(id));
  }

  lemma {:induction false} CountElsewhere(extra: seq<Reply>, id: string)
    requires forall r <- extra :: r.key.id != id
    ensures Count(extra, Acceptance(id)) == 0 && Count(extra, Result(id)) == 0
  {
    if extra != [] {
      CountElsewhere(extra[1..], id);
    }
  }

  lemma {:induction false} AcceptsTallied(d: Desk, id: string) returns (d': Desk)
    requires Tallied(d) && d.phase.Open? && id !in d.seen
    ensures d' == Deliver(d, id, Welcome) && Tallied(d')
  {
    d' := Deliver(d, id, Welcome);
    var r := Reply(Acceptance(id), Accepted);
    Writes(d, r, d');
    HeraldedAfter(Written(d), r);
    assert Told(d, id);
    assert Told(d', id);
    forall other | other != id ensures Told(d', other) {
      assert Told(d, other);
      StillTold(d, d', [r], other);
    }
  }

  /** Writing the two replies of a rejected update. */
  lemma {:induction false} WritesRejection(d: Desk, id: string, d': Desk)
    requires Heralded(Written(d)) && d'.posted == d.posted
    requires d'.outbox == d.outbox + [Reply(Acceptance(id), Rejected), Reply(Result(id), Rejected)]
    ensures Written(d') == Written(d) + [Reply(Acceptance(id), Rejected), Reply(Result(id), Rejected)]
    ensures Heralded(Written(d'))
    ensures Count(Written(d'), Acceptance(id)) == Count(Written(d), Acceptance(id)) + 1
    ensures Count(Written(d'), Result(id)) == Count(Written(d), Result(id)) + 1
  {
    var no, never := Reply(Acceptance(id), Rejected), Reply(Result(id), Rejected);
    var between := d.(outbox := d.outbox + [no]);
    Writes(d, no, between);
    HeraldedAfter(Written(d), no);
    assert d'.outbox == between.outbox + [never];
    Writes(between, never, d');
    HeraldedAfter(Written(between), never);
    assert Written(d) + [no] + [never] == Written(d) + [no, never];
  }

  lemma {:induction false} RejectsTallied(d: Desk, id: string, verdict: Verdict) returns (d': Desk)
    requires Tallied(d) && d.phase.Open? && id !in d.seen && !verdict.Welcome?
    ensures d' == Deliver(d, id, verdict) && Tallied(d')
  {
    d' := Deliver(d, id, verdict);
    WritesRejection(d, id, d');
    assert Told(d, id);
    assert Told(d', id);
    forall other | other != id ensures Told(d', other) {
      assert Told(d, other);
      StillTold(d, d', [Reply(Acceptance(id), Rejected), Reply(Result(id), Rejected)], other);
    }
  }

  lemma {:induction false} WithoutOne(handlers: seq<Handler>, k: nat)
    requires k < |handlers| && Single(handlers)
    ensures Single(Without(handlers, k))
    ensures forall id ::
      ForUpdate(id) in Without(handlers, k) <==> ForUpdate(id) in handlers && handlers[k] != ForUpdate(id)
  {
    var rest := Without(handlers, k);
    forall id
      ensures ForUpdate(id) in rest <==> ForUpdate(id) in handlers && handlers[k] != ForUpdate(id)
    {
      if ForUpdate(id) in handlers && handlers[k] != ForUpdate(id) {
        var i :| 0 <= i < |handlers| && handlers[i] == ForUpdate(id);
        assert rest[if i < k then i else i - 1] == ForUpdate(id);
      }
      if ForUpdate(id) in rest {
        var i :| 0 <= i < |rest| && rest[i] == ForUpdate(id);
        assert handlers[if i < k then i else i + 1] == ForUpdate(id);
      }
    }
  }

  /** A handler that returns or fails is answered. */
  lemma {:induction false} RepliesTallied(d: Desk, k: nat, ending: Ending) returns (d': Desk)
    requires Tallied(d) && Possible(d, Finishes(k, ending)) && d.inflight[k].ForUpdate? && !ending.EndsRun?
    ensures d' == Finish(d, k, ending) && Tallied(d')
  {
    d' := Finish(d, k, ending);
    WithoutOne(d.inflight, k);
    var id := d.inflight[k].id;
    var r := Reply(Result(id), if ending.Returns? then Completed else Failed);
    assert Told(d, id) && Awaited(d, id);
    Writes(d, r, d');
    HeraldedAfter(Written(d), r);
    AnswerTold(d, d', id, ending, r);
    OthersStillTold(d, d', r);
  }

  lemma AnswerTold(d: Desk, d': Desk, id: string, ending: Ending, r: Reply)
    requires Told(d, id) && Awaited(d, id) && !ending.EndsRun?
    requires r == Reply(Result(id), if ending.Returns? then Completed else Failed) && Written(d') == Written(d) + [r]
    requires forall key :: Count(Written(d'), key) == Count(Written(d), key) + if key == r.key then 1 else 0
    requires d'.seen == d.seen && d'.phase == d.phase && d'.started == d.started
    requires ForUpdate(id) !in d'.inflight && Ended(d', id, ending)
    ensures Told(d', id)
  {
  }

  lemma OthersStillTold(d: Desk, d': Desk, r: Reply)
    requires Tallied(d) && !d.phase.Discarded? && Written(d') == Written(d) + [r]
    requires d'.seen == d.seen && d'.phase == d.phase && d'.started == d.started
    requires forall id :: id != r.key.id ==> (ForUpdate(id) in d'.inflight <==> ForUpdate(id) in d.inflight)
    requires forall id :: id != r.key.id ==> (id in d'.ended <==> id in d.ended)
    requires forall id :: id != r.key.id && id in d.ended ==> d'.ended[id] == d.ended[id]
    ensures forall id :: id != r.key.id ==> Told(d', id)
  {
    forall id | id != r.key.id ensures Told(d', id) {
      assert Told(d, id);
      StillTold(d, d', [r], id);
    }
  }

  /** A handler that ends the run, or a signal handler, is not. */
  lemma {:induction false} EndsTallied(d: Desk, k: nat, ending: Ending) returns (d': Desk)
    requires Tallied(d) && Possible(d, Finishes(k, ending)) && (d.inflight[k].ForSignal? || ending.EndsRun?)
    ensures d' == Finish(d, k, ending) && Tallied(d')
  {
    d' := Finish(d, k, ending);
    WithoutOne(d.inflight, k);
    var handler := d.inflight[k];
    assert Written(d') == Written(d) == Written(d) + [];
    forall id ensures Told(d', id) {
      assert Told(d, id);
      if handler != ForUpdate(id) {
        StillTold(d, d', [], id);
      }
    }
  }

  lemma {:induction false} FinishTallied(d: Desk, k: nat, ending: Ending)
    requires Tallied(d) && Possible(d, Finishes(k, ending))
    ensures Tallied(Finish(d, k, ending))
  {
    if d.inflight[k].ForUpdate? && !ending.EndsRun? {
      var _ := RepliesTallied(d, k, ending);
    } else {
      var _ := EndsTallied(d, k, ending);
    }
  }

  lemma {:induction false} AbandonsCount(handlers: seq<Handler>)
    requires Single(handlers)
    ensures forall id :: Count(Abandons(handlers), Result(id)) == if ForUpdate(id) in handlers then 1 else 0
    ensures forall id :: Count(Abandons(handlers), Acceptance(id)) == 0
    ensures forall r <- Abandons(handlers) :: r.status == Abandoned && r.key.Result? && ForUpdate(r.key.id) in handlers
    ensures forall id :: ForUpdate(id) in handlers ==> Reply(Result(id), Abandoned) in Abandons(handlers)
  {
    if handlers != [] {
      var rest := handlers[1..];
      assert Single(rest);
      AbandonsCount(rest);
      assert handlers == [handlers[0]] + rest;
      var first := Abandons(handlers)[..|Abandons(handlers)| - |Abandons(rest)|];
      assert Abandons(handlers) == first + Abandons(rest);
      forall key {
        CountConcat(first, Abandons(rest), key);
      }
    }
  }

  /** Replies for running handlers, whose updates were all accepted. */
  lemma {:induction false} HeraldedAfterAll(replies: seq<Reply>, more: seq<Reply>)
    requires Heralded(replies)
    requires forall r <- more :: r.key.Result? && Count(replies, Acceptance(r.key.id)) > 0
    ensures Heralded(replies + more)
    decreases |more|
  {
    if more == [] {
      assert replies + more == replies;
    } else {
      HeraldedAfter(replies, more[0]);
      forall r | r in more[1..] ensures Count(replies + [more[0]], Acceptance(r.key.id)) > 0 {
        CountConcat(replies, [more[0]], Acceptance(r.key.id));
      }
      HeraldedAfterAll(replies + [more[0]], more[1..]);
      assert replies + more == (replies + [more[0]]) + more[1..];
    }
  }

  lemma {:induction false} CloseTallied(d: Desk) returns (d': Desk)
    requires Tallied(d) && Possible(d, Closes)
    ensures d' == Close(d) && Tallied(d')
  {
    d' := Close(d);
    var late := Abandons(d.inflight);
    AbandonsCount(d.inflight);
    forall r | r in late ensures Count(Written(d), Acceptance(r.key.id)) > 0 {
      assert Told(d, r.key.id) && Awaited(d, r.key.id);
    }
    HeraldedAfterAll(Written(d), late);
    assert Written(d') == Written(d) + late;
    forall id ensures Told(d', id) {
      assert Told(d, id);
      CountConcat(Written(d), late, Result(id));
      CountConcat(Written(d), late, Acceptance(id));
    }
  }

  lemma {:induction false} DiscardTallied(d: Desk)
    requires Tallied(d) && Possible(d, Discards)
    ensures Tallied(Next(d, Discards))
  {
    HeraldedUpTo(Written(d), |d.posted|);
    assert Written(d)[..|d.posted|] == d.posted == Written(Next(d, Discards));
    forall key ensures Count(d.posted, key) <= 1 {
      assert Told(d, key.id);
      CountConcat(d.posted, d.outbox, key);
    }
  }

  lemma {:induction false} NextTallied(d: Desk, step: Step)
    requires Tallied(d) && Possible(d, step)
    ensures Tallied(Next(d, step))
  {
    match step
    case Arrives(id, verdict) =>
      if id !in d.seen && verdict.Welcome? {
        var _ := AcceptsTallied(d, id);
      } else if id !in d.seen {
        var _ := RejectsTallied(d, id, verdict);
      }
    case SpawnsSignal | Ends(_) | Flushes =>
      var d' := Next(d, step);
      assert Written(d') == Written(d);
      forall id ensures Told(d', id) {
        assert Told(d, id);
        assert Awaited(d', id) == Awaited(d, id);
      }
    case Finishes(k, ending) => FinishTallied(d, k, ending);
    case Closes => var _ := CloseTallied(d);
    case Discards => DiscardTallied(d);
  }

  ghost predicate Runs(d: Desk, steps: seq<Step>, d': Desk)
    decreases |steps|
  {
    if steps == [] then d == d' else Possible(d, steps[0]) && Runs(Next(d, steps[0]), steps[1..], d')
  }

  lemma {:induction false} RunsStayTallied(d: Desk, steps: seq<Step>, d': Desk)
    requires Tallied(d) && Runs(d, steps, d')
    ensures Tallied(d')
    decreases |steps|
  {
    if steps != [] {
      NextTallied(d, steps[0]);
      RunsStayTallied(Next(d, steps[0]), steps[1..], d');
    }
  }

  lemma {:induction false} FreshTallied()
    ensures Tallied(FRESH)
  {
    assert forall id :: Told(FRESH, id);
  }

  // ---------------------------------------------------------------------
  // What the steps alone decide
  // ---------------------------------------------------------------------

  /** The verdict an update met when it first arrived. */
  function FirstVerdict(steps: seq<Step>, id: string): Option<Verdict> {
    if steps == [] then None
    else if steps[0].Arrives? && steps[0].id == id then Some(steps[0].verdict)
    else FirstVerdict(steps[1..], id)
  }

  ghost predicate Turned(verdict: Option<Verdict>) {
    verdict == Some(Refused) || verdict == Some(NotFound)
  }

  lemma {:induction false} VerdictStays(d: Desk, steps: seq<Step>, d': Desk, id: string)
    requires Runs(d, steps, d') && (id in d.started ==> id in d.seen)
    ensures id in d.seen ==> id in d'.seen && (id in d'.started <==> id in d.started)
    ensures id !in d.seen ==>
        && (id in d'.seen <==> FirstVerdict(steps, id).Some?)
        && (id in d'.started <==> FirstVerdict(steps, id) == Some(Welcome))
        && (id in d'.seen - d'.started <==> Turned(FirstVerdict(steps, id)))
    decreases |steps|
  {
    if steps != [] {
      VerdictStays(Next(d, steps[0]), steps[1..], d', id);
    }
  }

  /** Over every run an update's handler is started if and only if the first verdict on
      it welcomes it; one that is refused or has no handler is seen and not started. */
  lemma {:induction false} VerdictsDecide(steps: seq<Step>, d: Desk, id: string)
    requires Runs(FRESH, steps, d)
    ensures id in d.seen <==> FirstVerdict(steps, id).Some?
    ensures id in d.started <==> FirstVerdict(steps, id) == Some(Welcome)
    ensures id in d.seen - d.started <==> FirstVerdict(steps, id) == Some(Refused) || FirstVerdict(steps, id) == Some(NotFound)
  {
    VerdictStays(FRESH, steps, d, id);
  }

  /** The outcome a step asks for, if any. */
  function Asked(step: Step): Option<Outcome> {
    if step.Ends? then Some(step.outcome)
    else if step.Finishes? && step.ending.EndsRun? then Some(step.ending.outcome)
    else None
  }

  function FirstAsked(steps: seq<Step>): Option<Outcome> {
    if steps == [] then None else if Asked(steps[0]).Some? then Asked(steps[0]) else FirstAsked(steps[1..])
  }

  /** Over every run the first outcome asked for stays. */
  lemma {:induction false} FirstOutcomeStays(d: Desk, steps: seq<Step>, d': Desk)
    requires Runs(d, steps, d')
    ensures d'.outcome == if d.outcome.Some? then d.outcome else FirstAsked(steps)
    decreases |steps|
  {
    if steps != [] {
      FirstOutcomeStays(Next(d, steps[0]), steps[1..], d');
    }
  }

  /** The handlers still running after these steps, in the order they were spawned. */
  function Running(steps: seq<Step>): seq<Handler>
    decreases |steps|
  {
    if steps == [] then []
    else
      var before, last := steps[..|steps| - 1], steps[|steps| - 1];
      match last
      case SpawnsSignal => Running(before) + [ForSignal]
      case Arrives(id, verdict) =>
        if verdict.Welcome? && FirstVerdict(before, id).None? then Running(before) + [ForUpdate(id)] else Running(before)
      case Finishes(k, _) =>
        var running := Running(before);
        if k < |running| then running[..k] + running[k + 1..] else running
      case _ => Running(before)
  }

  lemma {:induction false} RunsSnoc(d: Desk, steps: seq<Step>, step: Step, d': Desk) returns (m: Desk)
    requires Runs(d, steps + [step], d')
    ensures Runs(d, steps, m) && Possible(m, step) && d' == Next(m, step)
    decreases |steps|
  {
    if steps == [] {
      m := d;
      assert (steps + [step])[1..] == [];
    } else {
      assert (steps + [step])[1..] == steps[1..] + [step];
      m := RunsSnoc(Next(d, steps[0]), steps[1..], step, d');
    }
  }

  /** Over every run exactly the handlers spawned and not finished are running, in spawn order. */
  lemma {:induction false} RunsInSpawnOrder(steps: seq<Step>, d: Desk)
    requires Runs(FRESH, steps, d)
    ensures d.inflight == Running(steps)
    decreases |steps|
  {
    if steps != [] {
      var before, last := steps[..|steps| - 1], steps[|steps| - 1];
      assert steps == before + [last];
      var m := RunsSnoc(FRESH, before, last, d);
      RunsInSpawnOrder(before, m);
      if last.Arrives? {
        VerdictsDecide(before, m, last.id);
      }
    }
  }

  /** The last step of these that finished the handler of this update finished it so. */
  ghost predicate Finished(steps: seq<Step>, id: string, ending: Ending)
    decreases |steps|
  {
    steps != [] &&
    var before, last := steps[..|steps| - 1], steps[|steps| - 1];
    if last.Finishes? && last.k < |Running(before)| && Running(before)[last.k] == ForUpdate(id) then last.ending == ending
    else Finished(before, id, ending)
  }

  /** Over every run how an update's handler ended is how a step finished it. */
  lemma {:induction false} EndedAsFinished(steps: seq<Step>, d: Desk, id: string, ending: Ending)
    requires Runs(FRESH, steps, d)
    ensures Ended(d, id, ending) <==> Finished(steps, id, ending)
    decreases |steps|
  {
    if steps != [] {
      var before, last := steps[..|steps| - 1], steps[|steps| - 1];
      assert steps == before + [last];
      var m := RunsSnoc(FRESH, before, last, d);
      RunsInSpawnOrder(before, m);
      EndedAsFinished(before, m, id, ending);
    }
  }

  /** The handlers abandoned at a close are answered in the order they were spawned. */
  lemma {:induction false} AbandonsInOrder(handlers: seq<Handler>, i: nat, j: nat) returns (a: nat, b: nat)
    requires i < j < |Abandons(handlers)|
    ensures a < b < |handlers|
    ensures handlers[a].ForUpdate? && Abandons(handlers)[i] == Reply(Result(handlers[a].id), Abandoned)
    ensures handlers[b].ForUpdate? && Abandons(handlers)[j] == Reply(Result(handlers[b].id), Abandoned)
  {
    var rest := handlers[1..];
    if handlers[0].ForSignal? {
      a, b := AbandonsInOrder(rest, i, j);
      a, b := a + 1, b + 1;
    } else if i > 0 {
      a, b := AbandonsInOrder(rest, i - 1, j - 1);
      a, b := a + 1, b + 1;
    } else {
      b := AbandonAt(rest, j - 1);
      a, b := 0, b + 1;
    }
  }

  lemma {:induction false} AbandonAt(handlers: seq<Handler>, j: nat) returns (b: nat)
    requires j < |Abandons(handlers)|
    ensures b < |handlers| && handlers[b].ForUpdate? && Abandons(handlers)[j] == Reply(Result(handlers[b].id), Abandoned)
  {
    if handlers[0].ForSignal? {
      b := AbandonAt(handlers[1..], j);
      b := b + 1;
    } else if j > 0 {
      b := AbandonAt(handlers[1..], j - 1);
      b := b + 1;
    } else {
      b := 0;
    }
  }

  /** Once a run has closed, whatever arrived and however often: every seen update
      has one acceptance reply; a rejected one also has one result and no handler;
      an accepted one has one result exactly when its handler did not end the run. */
  lemma {:induction false} ClosedRunsHaveAnswered(steps: seq<Step>, d: Desk, id: string)
    requires Runs(FRESH, steps, d) && d.phase.Closed?
    ensures Count(d.posted, Acceptance(id)) == if id in d.seen then 1 else 0
    ensures Count(d.posted, Result(id)) == if id in d.seen && !Mute(d, id) then 1 else 0
    ensures Reply(Acceptance(id), Accepted) in d.posted <==> FirstVerdict(steps, id) == Some(Welcome)
    ensures Reply(Acceptance(id), Rejected) in d.posted <==> Turned(FirstVerdict(steps, id))
    ensures Reply(Result(id), Rejected) in d.posted <==> Turned(FirstVerdict(steps, id))
    ensures Reply(Acceptance(id), Accepted) in d.posted <==> id in d.started
    ensures Reply(Result(id), Completed) in d.posted <==> Finished(steps, id, Returns)
    ensures Reply(Result(id), Failed) in d.posted <==> Finished(steps, id, Raises)
    ensures Reply(Result(id), Abandoned) in d.posted <==> ForUpdate(id) in Running(steps)
    ensures d.outcome.Some? && d.outcome == FirstAsked(steps)
    ensures Heralded(d.posted)
  {
    VerdictsDecide(steps, d, id);
    RunsInSpawnOrder(steps, d);
    EndedAsFinished(steps, d, id, Returns);
    EndedAsFinished(steps, d, id, Raises);
    FirstOutcomeStays(FRESH, steps, d);
    FreshTallied();
    RunsStayTallied(FRESH, steps, d);
    assert Told(d, id) && Written(d) == d.posted;
  }

  /** At every point, closed or not, no event key has been written twice, and a
      handler goes unanswered only by ending the run. */
  lemma {:induction false} NoReplyTwice(steps: seq<Step>, d: Desk, key: Key)
    requires Runs(FRESH, steps, d)
    ensures Count(d.posted, key) <= 1
    ensures d.outcome.None? ==> (key.id in d.started && ForUpdate(key.id) !in d.inflight
                                 ==> Count(Written(d), Result(key.id)) == 1)
  {
    FreshTallied();
    RunsStayTallied(FRESH, steps, d);
    if !d.phase.Discarded? {
      assert Told(d, key.id);
      CountConcat(d.posted, d.outbox, key);
    }
  }

  /** The first deliveries only. */
  function FirstDeliveries(seen: set<string>, steps: seq<Step>): seq<Step>
    decreases |steps|
  {
    if steps == [] then []
    else if !steps[0].Arrives? then [steps[0]] + FirstDeliveries(seen, steps[1..])
    else if steps[0].id in seen then FirstDeliveries(seen, steps[1..])
    else [steps[0]] + FirstDeliveries(seen + {steps[0].id}, steps[1..])
  }

  /** Redelivered updates leave no trace at all. */
  lemma {:induction false} DuplicatesLeaveNoTrace(d: Desk, steps: seq<Step>, d': Desk)
    requires Runs(d, steps, d')
    ensures Runs(d, FirstDeliveries(d.seen, steps), d')
    decreases |steps|
  {
    if steps != [] {
      var next := Next(d, steps[0]);
      DuplicatesLeaveNoTrace(next, steps[1..], d');
      var rest := FirstDeliveries(next.seen, steps[1..]);
      if steps[0].Arrives? && steps[0].id in d.seen {
        assert next == d;
      } else {
        assert ([steps[0]] + rest)[1..] == rest;
        assert FirstDeliveries(d.seen, steps) == [steps[0]] + rest;
      }
    }
  }
}

/** The interpreter's update state, updated in place. */
module UpdateDelivery {
  import opened Prelude
  import opened Updates

  class UpdateDesk {
    var seen: set<string>
    var outbox: seq<Reply>
    var posted: seq<Reply>
    var inflight: seq<Handler>
    var outcome: Option<Outcome>
    var phase: Phase
    ghost var started: set<string>
    ghost var ended: map<string, Ending>

    ghost function View(): Desk
      reads this
    {
      Desk(seen, outbox, posted, inflight, outcome, phase, started, ended)
    }

    constructor ()
      ensures View() == FRESH && Tallied(View())
    {
      seen, outbox, posted, inflight, outcome, phase := {}, [], [], [], None, Open;
      started, ended := {}, map[];
      new;
      FreshTallied();
    }

    method PutReply(key: Key, status: Status)
      modifies this`outbox
      ensures outbox == old(outbox) + [Reply(key, status)]
    {
      outbox := outbox + [Reply(key, status)];
    }

    method ApplyUpdate(id: string, verdict: Verdict)
      requires Tallied(View()) && Possible(View(), Arrives(id, verdict))
      modifies this
      ensures View() == Deliver(old(View()), id, verdict) && Tallied(View())
    {
      NextTallied(View(), Arrives(id, verdict));
      if id in seen {
        return;
      }
      seen := seen + {id};
      if !verdict.Welcome? {
        PutReply(Acceptance(id), Rejected);
        PutReply(Result(id), Rejected);
        assert old(outbox) + [Reply(Acceptance(id), Rejected), Reply(Result(id), Rejected)]
            == old(outbox) + [Reply(Acceptance(id), Rejected)] + [Reply(Result(id), Rejected)];
        return;
      }
      PutReply(Acceptance(id), Accepted);
      inflight := inflight + [ForUpdate(id)];
      started := started + {id};
    }

    method RecordOutcome(o: Outcome)
      modifies this`outcome
      ensures View() == SetOutcome(old(View()), o)
    {
      if outcome.None? {
        outcome := Some(o);
      }
    }

    method FinishHandler(k: nat, ending: Ending)
      requires Tallied(View()) && Possible(View(), Finishes(k, ending))
      modifies this
      ensures View() == Finish(old(View()), k, ending) && Tallied(View())
    {
      NextTallied(View(), Finishes(k, ending));
      var handler := inflight[k];
      inflight := inflight[..k] + inflight[k + 1..];
      if handler.ForUpdate? {
        ended := ended[handler.id := ending];
      }
      match ending {
        case EndsRun(o) =>
          RecordOutcome(o);
        case _ =>
          if handler.ForUpdate? {
            PutReply(Result(handler.id), if ending.Returns? then Completed else Failed);
          }
      }
    }

    method FlushOutbox()
      modifies this`outbox, this`posted
      ensures View() == Flush(old(View()))
    {
      var replies := outbox;
      outbox := [];
      for i := 0 to |replies|
        invariant outbox == []
        invariant posted == old(posted) + replies[..i]
      {
        posted := posted + [replies[i]];
      }
      assert replies[..|replies|] == replies;
    }

    method FailAbandonedUpdates()
      modifies this`posted
      ensures posted == old(posted) + Abandons(inflight)
    {
      for i := 0 to |inflight|
        invariant posted + Abandons(inflight[i..]) == old(posted) + Abandons(inflight)
      {
        assert inflight[i..][1..] == inflight[i + 1..];
        if inflight[i].ForUpdate? {
          posted := posted + [Reply(Result(inflight[i].id), Abandoned)];
        }
      }
    }

    /** The end of the loop and the teardown, or the retreat of a failed task. */
    method CloseRun()
      requires Tallied(View()) && phase.Open? && outcome.Some?
      modifies this
      ensures Tallied(View())
      ensures View() == if old(outcome) == Some(TaskFailure) then old(View()).(outbox := [], phase := Discarded)
                        else Close(old(View()))
    {
      if outcome.value.TaskFailure? {
        NextTallied(View(), Discards);
        outbox, phase := [], Discarded;
      } else {
        NextTallied(View(), Closes);
        FlushOutbox();
        FailAbandonedUpdates();
        phase := Closed;
      }
    }
  }
}
