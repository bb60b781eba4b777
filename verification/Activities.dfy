/**
 The interpreter's activities: one record per open activity, the futures workflow
 code awaits, and the waiters that will wake the machine.  Every change is a
 function of the table; the ActivityHost class below performs it in place.
 */
module ActivityMachine {
  import opened Prelude
  import opened Retry
  import Decimal

  datatype Cancellation = TryCancel | WaitCompleted | Abandon

  datatype Future = Pending | Succeeded | Failed(state: Option<RetryState>) | Cancelled

  /** What a start asks for; `elsewhere` when its task queue is another worker's. */
  datatype Request = Request(
    id: string,
    policy: Policy,
    startToClose: Option<real>,
    scheduleToClose: Option<real>,
    heartbeat: Option<real>,
    cancellation: Cancellation,
    elsewhere: bool)

  datatype Exec = Exec(
    request: Request,
    id: string,
    scheduledAt: real,
    attempt: nat,
    inBackoff: bool,
    pendingWait: real,
    cancelRequested: bool,
    parked: bool,
    parkTimeout: TimeoutType,
    beat: bool,
    queued: bool)

  /** `Run` covers an attempt and a backoff alike: the record's flag tells them apart. */
  datatype WaiterKind = Run | ParkDeadline | ParkHeartbeat | Queue
  datatype Waiter = Waiter(kind: WaiterKind, seq_: nat)

  datatype Result = Ok | Err(failure: Failure) | CompletesLater(startedAt: real)
  datatype Envelope = Envelope(result: Result, endedAt: real, retryState: Option<RetryState>)

  /** An attempt as it was launched. */
  datatype Launch = Launch(seq_: nat, exec: Exec, at: real, deadline: Option<real>, bound: TimeoutType)

  datatype Table = Table(
    clock: real,
    next: nat,
    pending: map<nat, Exec>,
    futures: map<nat, Future>,
    commands: seq<nat>,
    cancelled: seq<nat>,
    waiters: seq<Waiter>,
    launches: seq<Launch>)

  function Empty(clock: real): Table {
    Table(clock, 1, map[], map[], [], [], [], [])
  }

  // ---------------------------------------------------------------------
  // Pieces of a step
  // ---------------------------------------------------------------------

  function Remaining(clock: real, e: Exec): Option<real> {
    if e.request.scheduleToClose.Some? then Some(e.request.scheduleToClose.value - (clock - e.scheduledAt)) else None
  }

  function Update(t: Table, s: nat, e: Exec): Table {
    t.(pending := t.pending[s := e])
  }

  function Advance(t: Table, to: real): Table {
    t.(clock := Max(t.clock, to))
  }

  function Wait(t: Table, kind: WaiterKind, s: nat): Table {
    t.(waiters := t.waiters + [Waiter(kind, s)])
  }

  function WithoutAt(waiters: seq<Waiter>, i: nat): seq<Waiter>
    requires i < |waiters|
  {
    waiters[..i] + waiters[i + 1..]
  }

  function Drop(t: Table, s: nat): Table {
    t.(pending := t.pending - {s})
  }

  /** The awaiting code is resolved: the record goes, the future is done. */
  function Resolve(t: Table, s: nat, future: Future): Table
    requires s in t.futures && t.futures[s].Pending?
  {
    t.(pending := t.pending - {s}, futures := t.futures[s := future])
  }

  function LaunchAttempt(t: Table, s: nat): Table
    requires s in t.pending
  {
    var e := t.pending[s].(inBackoff := false);
    var (deadline, bound) := EffectiveDeadline(e.request.startToClose, Remaining(t.clock, e));
    Wait(Update(t, s, e), Run, s).(launches := t.launches + [Launch(s, e, t.clock, deadline, bound)])
  }

  function Decision(clock: real, e: Exec, failure: Failure): (Option<real>, RetryState)
    requires e.attempt >= 1
  {
    var elapsed := if e.request.scheduleToClose.Some? then Some(clock - e.scheduledAt) else None;
    RetryDecision(e.request.policy, e.attempt, failure, elapsed, e.request.scheduleToClose)
  }

  /** A failed attempt backs off or resolves with the retry state. */
  function FailAttempt(t: Table, s: nat, e: Exec, failure: Failure): Table
    requires e.attempt >= 1 && s in t.futures && t.futures[s].Pending?
  {
    var (delay, state) := Decision(t.clock, e, failure);
    if delay.Some? then Wait(Update(t, s, e.(inBackoff := true, pendingWait := delay.value)), Run, s)
    else Resolve(t, s, Failed(Some(state)))
  }

  predicate Parks(w: Waiter, s: nat) {
    w.seq_ == s && (w.kind.ParkDeadline? || w.kind.ParkHeartbeat?)
  }

  function RetireParked(waiters: seq<Waiter>, s: nat): seq<Waiter> {
    if waiters == [] then []
    else if Parks(waiters[0], s) then RetireParked(waiters[1..], s)
    else [waiters[0]] + RetireParked(waiters[1..], s)
  }

  function RetireAll(waiters: seq<Waiter>, s: nat): seq<Waiter> {
    if waiters == [] then []
    else if waiters[0].seq_ == s then RetireAll(waiters[1..], s)
    else [waiters[0]] + RetireAll(waiters[1..], s)
  }

  function TimeoutFailure(timeout: TimeoutType): Failure {
    Failure(TimeoutError(timeout), None, false, None)
  }

  /** What is left of the bounds when an attempt that completes later has returned. */
  function ParkBound(t: Table, e: Exec, startedAt: real, endedAt: real): (Option<real>, TimeoutType) {
    EffectiveDeadline(
      if e.request.startToClose.Some? then Some(e.request.startToClose.value - Max(endedAt - startedAt, 0.0)) else None,
      Remaining(t.clock, e))
  }

  function ParkedExec(e: Exec, bound: Option<real>, timeout: TimeoutType): Exec {
    e.(parked := true,
       parkTimeout := if bound.Some? then timeout else e.parkTimeout,
       pendingWait := if bound.Some? then Max(0.05, bound.value) else e.pendingWait,
       beat := if e.request.heartbeat.Some? then false else e.beat)
  }

  /** The attempt parks for at least 0.05 s, with a heartbeat window if it has one. */
  function Park(t: Table, s: nat, e: Exec, startedAt: real, endedAt: real): Table {
    var (bound, timeout) := ParkBound(t, e, startedAt, endedAt);
    var parked := Update(t, s, ParkedExec(e, bound, timeout));
    var timed := if bound.Some? then Wait(parked, ParkDeadline, s) else parked;
    if e.request.heartbeat.Some? then Wait(timed, ParkHeartbeat, s) else timed
  }

  function ParkTimedOut(t: Table, s: nat, timeout: TimeoutType): Table
    requires s in t.pending && t.pending[s].attempt >= 1 && s in t.futures && t.futures[s].Pending?
  {
    if !t.pending[s].parked then t
    else
      FailAttempt(t.(waiters := RetireParked(t.waiters, s)), s, t.pending[s].(parked := false), TimeoutFailure(timeout))
  }

  // ---------------------------------------------------------------------
  // The steps
  // ---------------------------------------------------------------------

  function ResolvedId(request: Request, s: nat): string {
    if request.id == "" then Decimal.Text(s) else request.id
  }

  predicate InUse(t: Table, id: string) {
    exists s <- t.pending :: t.pending[s].id == id
  }

  /** A start is refused while its id is open or if its policy is invalid. */
  function Start(t: Table, request: Request): (Table, bool) {
    var s := t.next;
    var id := ResolvedId(request, s);
    if InUse(t, id) || !request.policy.Valid() then (t.(next := s + 1), false)
    else
      var e := Exec(request, id, t.clock, 1, false, 0.0, false, false, StartToClose, false, false);
      (t.(next := s + 1, pending := t.pending[s := e], futures := t.futures[s := Pending],
          commands := t.commands + [s]), true)
  }

  /** Workflow code cancels the awaiting future; the sweep is told. */
  function CancelFuture(t: Table, s: nat): Table {
    if s in t.futures && t.futures[s].Pending? then
      t.(futures := t.futures[s := Cancelled],
         cancelled := if s in t.pending then t.cancelled + [s] else t.cancelled)
    else t
  }

  /** handle.cancel(): waiting for the confirmation keeps the activity open. */
  function CancelHandle(t: Table, s: nat): Table {
    if s !in t.pending then t
    else if t.pending[s].request.cancellation.WaitCompleted? && !t.pending[s].parked then
      Update(t, s, t.pending[s].(cancelRequested := true))
    else CancelFuture(t, s)
  }

  function SweepOne(t: Table): Table
    requires t.cancelled != []
  {
    var s := t.cancelled[0];
    var t := t.(cancelled := t.cancelled[1..]);
    if s !in t.pending then t
    else Drop(t, s).(waiters := RetireAll(t.waiters, s))
  }

  function Sweep(t: Table): (r: Table)
    ensures r.cancelled == []
    decreases |t.cancelled|
  {
    if t.cancelled == [] then t else Sweep(SweepOne(t))
  }

  /** The next queued activity command: a local attempt, or an enqueue that may fail. */
  function Dispatch(t: Table, enqueued: bool): Table
    requires t.commands != []
    requires t.commands[0] in t.pending ==> t.commands[0] in t.futures && t.futures[t.commands[0]].Pending?
  {
    var s := t.commands[0];
    var t := t.(commands := t.commands[1..]);
    if s !in t.pending then t else Perform(t, s, enqueued)
  }

  function Perform(t: Table, s: nat, enqueued: bool): Table
    requires s in t.pending && s in t.futures && t.futures[s].Pending?
  {
    if !t.pending[s].request.elsewhere then LaunchAttempt(t, s)
    else if enqueued then Wait(Update(t, s, t.pending[s].(queued := true)), Queue, s)
    else Resolve(t, s, Failed(None))
  }

  predicate Awake(t: Table, s: nat) {
    s in t.pending && t.pending[s].attempt >= 1 && s in t.futures && t.futures[s].Pending?
  }

  /** A backoff served is charged to virtual time. */
  function Resumed(t: Table, s: nat): Table
    requires s in t.pending
  {
    var e := t.pending[s];
    Update(Advance(t, t.clock + e.pendingWait), s, e.(pendingWait := 0.0, attempt := e.attempt + 1))
  }

  function DeliverRun(t: Table, s: nat, env: Envelope): Table
    requires Awake(t, s)
  {
    var e := t.pending[s];
    if e.inBackoff then LaunchAttempt(Resumed(t, s), s)
    else
      var t := Advance(t, env.endedAt);
      match env.result
      case CompletesLater(startedAt) => Park(t, s, e, startedAt, env.endedAt)
      case Ok => Resolve(t, s, Succeeded)
      case Err(failure) =>
        if e.cancelRequested && failure.cls.CancelledError? then Resolve(t, s, Cancelled)
        else FailAttempt(t, s, e, failure)
  }

  function DeliverQueued(t: Table, s: nat, env: Envelope): Table
    requires Awake(t, s)
  {
    var e := t.pending[s];
    var t := Advance(t, env.endedAt);
    match env.result
    case Err(failure) =>
      if e.cancelRequested && failure.cls.CancelledError? then Resolve(t, s, Cancelled)
      else Resolve(t, s, Failed(env.retryState))
    case Ok => Resolve(t, s, Succeeded)
    case CompletesLater(_) => Resolve(t, s, Succeeded)
  }

  function DeliverDeadline(t: Table, s: nat): Table
    requires Awake(t, s)
  {
    var e := t.pending[s];
    ParkTimedOut(Update(Advance(t, t.clock + e.pendingWait), s, e.(pendingWait := 0.0)), s, e.parkTimeout)
  }

  function DeliverHeartbeat(t: Table, s: nat): Table
    requires Awake(t, s)
  {
    var e := t.pending[s];
    if !e.parked then t
    else if !e.beat then ParkTimedOut(t, s, Heartbeat)
    else Wait(Update(t, s, e.(beat := false)), ParkHeartbeat, s)
  }

  /** A delivery finds its record gone, or awake, or (attempts and queued results
      only) with its future cancelled since. */
  predicate Deliverable(t: Table, w: Waiter) {
    w.seq_ in t.pending ==>
      Awake(t, w.seq_) || (w.seq_ in t.futures && t.futures[w.seq_].Cancelled? && (w.kind.Run? || w.kind.Queue?))
  }

  /** The i-th waiter is done: it leaves the list and wakes its activity. */
  function Deliver(t: Table, i: nat, env: Envelope): Table
    requires i < |t.waiters| && Deliverable(t, t.waiters[i])
  {
    var w := t.waiters[i];
    var s := w.seq_;
    var t := t.(waiters := WithoutAt(t.waiters, i));
    if s !in t.pending then t
    else if t.futures[s].Cancelled? then Drop(t, s)
    else Wake(t, w, env)
  }

  function Wake(t: Table, w: Waiter, env: Envelope): Table
    requires Awake(t, w.seq_)
  {
    match w.kind
    case Run => DeliverRun(t, w.seq_, env)
    case Queue => DeliverQueued(t, w.seq_, env)
    case ParkDeadline => DeliverDeadline(t, w.seq_)
    case ParkHeartbeat => DeliverHeartbeat(t, w.seq_)
  }

  datatype Completion = Complete | Fail(failure: Failure) | ReportCancelled

  /** External completion of a parked activity. */
  function CompleteParked(t: Table, s: nat, completion: Completion): Table
    requires Awake(t, s)
  {
    if !t.pending[s].parked then t
    else
      var t := t.(waiters := RetireParked(t.waiters, s));
      match completion
      case Complete => Resolve(t, s, Succeeded)
      case ReportCancelled => Resolve(t, s, Cancelled)
      case Fail(failure) => FailAttempt(t, s, t.pending[s].(parked := false), failure)
  }

  function Beat(t: Table, s: nat): Table
    requires s in t.pending
  {
    if t.pending[s].parked then Update(t, s, t.pending[s].(beat := true)) else t
  }

  // ---------------------------------------------------------------------
  // Runs
  // ---------------------------------------------------------------------

  datatype Event =
    | Starts(request: Request)
    | CancelsHandle(seq_: nat)
    | CancelsAwait(seq_: nat)               // the awaiting coroutine is cancelled
    | Sweeps
    | Dispatches(enqueued: bool)
    | Delivers(index: nat, env: Envelope)
    | Completes(id: string, completion: Completion, sentAt: real)
    | Beats(id: string, sentAt: real)
    | Passes(to: real)                      // any other delivery that moves the clock

  ghost predicate Open(t: Table, s: nat, id: string) {
    s in t.pending && t.pending[s].id == id && t.pending[s].parked
  }

  /** Workflow code starts and cancels while it drains; the loop sweeps before it
      dispatches and delivers. */
  ghost predicate Possible(t: Table, event: Event) {
    match event
    case Dispatches(_) =>
      t.cancelled == [] && t.commands != [] && (t.commands[0] in t.pending ==> Awake(t, t.commands[0]))
    case Delivers(i, _) => t.cancelled == [] && i < |t.waiters| && Deliverable(t, t.waiters[i])
    case Completes(id, _, _) => t.cancelled == [] && forall s :: Open(t, s, id) ==> Awake(t, s)
    case Beats(_, _) => t.cancelled == []
    case _ => true
  }

  ghost function Next(t: Table, event: Event): Table
    requires Possible(t, event)
  {
    match event
    case Starts(request) => Start(t, request).0
    case CancelsHandle(s) => CancelHandle(t, s)
    case CancelsAwait(s) => CancelFuture(t, s)
    case Sweeps => Sweep(t)
    case Dispatches(enqueued) => Dispatch(t, enqueued)
    case Delivers(i, env) => Deliver(t, i, env)
    case Completes(id, completion, sentAt) =>
      if exists s :: Open(t, s, id) then
        var s :| Open(t, s, id);
        CompleteParked(Advance(t, sentAt), s, completion)
      else Advance(t, sentAt)
    case Beats(id, sentAt) =>
      if exists s :: Open(t, s, id) then
        var s :| Open(t, s, id);
        Beat(Advance(t, sentAt), s)
      else Advance(t, sentAt)
    case Passes(to) => Advance(t, to)
  }
}
