/**
 Signals of one execution: buffering until a handler exists, delivery, and the
 first run of the tasks that handle them.
 */
module Signals {
  import opened Prelude

  /** A handler as resolution finds it; decoding the arguments may fail. */
  type Handler(==, !new)

  /** A signal: its name and its place in the arrival order. */
  datatype Signal = Signal(name: string, number: nat)

  /** Registered handlers; the key None is the dynamic one. */
  type Handlers = map<Option<string>, Handler>

  /** Runtime settings: an unset (None) shadows the registered handler of its name. */
  type Overrides = map<Option<string>, Option<Handler>>

  datatype Bucket = Bucket(name: string, signals: seq<Signal>)

  /** What became of a delivered signal: a task was spawned with its arguments as
      decoded for the handler found, or they did not decode. */
  datatype Fate = Spawned(signal: Signal, handler: Handler) | Dropped(signal: Signal, handler: Handler)

  datatype Task = Task(signal: Signal, handler: Handler)

  /** What a task found at its first run, when the handler is resolved again: one to
      call with the arguments it has, or none, and then the signal is gone. */
  datatype FirstRun = Ran(task: Task, called: Handler) | Lost(task: Task)

  datatype Desk = Desk(
    registered: Handlers,
    decodes: (Signal, Handler) -> bool,
    overrides: Overrides,
    buffered: seq<Bucket>,          // by name, oldest name first
    pending: seq<Signal>,           // queued for the flush
    fates: seq<Fate>,
    tasks: seq<Task>,               // spawned and not yet run, in order
    firstRuns: seq<FirstRun>,
    received: seq<Signal>)

  /** An exact handler, runtime or registered, else the dynamic one. */
  function Resolve(d: Desk, name: string): Option<Handler> {
    var exact := Some(name);
    if exact in d.overrides && d.overrides[exact].Some? then d.overrides[exact]
    else if exact !in d.overrides && exact in d.registered then Some(d.registered[exact])
    else if None in d.overrides && d.overrides[None].Some? then d.overrides[None]
    else if None in d.registered then Some(d.registered[None])
    else None
  }

  /** setdefault(name, []).append(signal) */
  function Buffer(buckets: seq<Bucket>, s: Signal): seq<Bucket> {
    if buckets == [] then [Bucket(s.name, [s])]
    else if buckets[0].name == s.name then [Bucket(s.name, buckets[0].signals + [s])] + buckets[1..]
    else [buckets[0]] + Buffer(buckets[1..], s)
  }

  function Apply(d: Desk, s: Signal): Desk {
    var handler := Resolve(d, s.name);
    if handler.None? then d.(buffered := Buffer(d.buffered, s))
    else if d.decodes(s, handler.value) then
      d.(fates := d.fates + [Spawned(s, handler.value)], tasks := d.tasks + [Task(s, handler.value)])
    else d.(fates := d.fates + [Dropped(s, handler.value)])
  }

  /** A signal is consumed from the inbox. */
  function Receive(d: Desk, s: Signal): Desk {
    Apply(d.(received := d.received + [s]), s)
  }

  function All(buckets: seq<Bucket>): seq<Signal> {
    if buckets == [] then [] else buckets[0].signals + All(buckets[1..])
  }

  function Named(buckets: seq<Bucket>, name: string): seq<Signal> {
    if buckets == [] then []
    else if buckets[0].name == name then buckets[0].signals
    else Named(buckets[1..], name)
  }

  function Unnamed(buckets: seq<Bucket>, name: string): seq<Bucket> {
    if buckets == [] then []
    else if buckets[0].name == name then buckets[1..]
    else [buckets[0]] + Unnamed(buckets[1..], name)
  }

  /** set_signal_handler; None as the handler unsets. */
  function SetHandler(d: Desk, name: Option<string>, handler: Option<Handler>): Desk {
    var d := d.(overrides := d.overrides[name := handler]);
    if handler.None? then d
    else if name.None? then d.(pending := d.pending + All(d.buffered), buffered := [])
    else d.(pending := d.pending + Named(d.buffered, name.value), buffered := Unnamed(d.buffered, name.value))
  }

  function ApplyAll(d: Desk, signals: seq<Signal>): Desk
    decreases |signals|
  {
    if signals == [] then d else ApplyAll(Apply(d, signals[0]), signals[1..])
  }

  function Flush(d: Desk): Desk {
    ApplyAll(d.(pending := []), d.pending)
  }

  /** The oldest task runs for the first time, within a drain. */
  function RunTask(d: Desk): Desk
    requires d.tasks != []
  {
    var task := d.tasks[0];
    var found := Resolve(d, task.signal.name);
    d.(tasks := d.tasks[1..],
       firstRuns := d.firstRuns + [if found.Some? then Ran(task, found.value) else Lost(task)])
  }

  // ---------------------------------------------------------------------
  // Precedence
  // ---------------------------------------------------------------------

  /** What every name without a handler of its own resolves to. */
  function Dynamic(d: Desk): Option<Handler> {
    if None in d.overrides && d.overrides[None].Some? then d.overrides[None]
    else if None in d.registered then Some(d.registered[None])
    else None
  }

  /** A handler set for a name is what the name resolves to; an unset name resolves
      as the dynamic handler does and never to its registered one; a name nobody set
      or registered is dynamic; no setting changes what another name resolves to,
      but for the dynamic one, which all names without a handler of their own follow. */
  lemma SettingsPrecede(d: Desk, name: string, handler: Option<Handler>, other: string)
    ensures
      var exact := SetHandler(d, Some(name), handler);
      && Resolve(exact, name) == (if handler.Some? then handler else Dynamic(d))
      && Dynamic(exact) == Dynamic(d)
      && (other != name ==> Resolve(exact, other) == Resolve(d, other))
    ensures
      var all := SetHandler(d, None, handler);
      && (handler.Some? ==> Dynamic(all) == handler)
      && (handler.None? ==> Dynamic(all) == if None in d.registered then Some(d.registered[None]) else None)
      && Resolve(all, other) == (if OwnHandler(d, other).Some? then OwnHandler(d, other) else Dynamic(all))
  {
  }

  /** The handler a name has of its own: the one set for it, else, unless it was
      unset, the one registered for it. */
  function OwnHandler(d: Desk, name: string): Option<Handler> {
    if Some(name) in d.overrides then d.overrides[Some(name)]
    else if Some(name) in d.registered then Some(d.registered[Some(name)])
    else None
  }

  // ---------------------------------------------------------------------
  // Order and conservation, name by name
  // ---------------------------------------------------------------------

  function Select(signals: seq<Signal>, name: string): seq<Signal> {
    if signals == [] then []
    else if signals[0].name == name then [signals[0]] + Select(signals[1..], name)
    else Select(signals[1..], name)
  }

  function Settled(fates: seq<Fate>): seq<Signal> {
    if fates == [] then [] else [fates[0].signal] + Settled(fates[1..])
  }

  ghost predicate Distinct(buckets: seq<Bucket>) {
    forall i, j :: 0 <= i < j < |buckets| ==> buckets[i].name != buckets[j].name
  }

  ghost predicate Labelled(buckets: seq<Bucket>) {
    forall b <- buckets :: forall s <- b.signals :: s.name == b.name
  }

  /** A name's signals in the order the desk settles them: spawned or dropped,
      queued for the flush, buffered. */
  ghost function Line(d: Desk, name: string): seq<Signal> {
    Select(Settled(d.fates), name) + Select(d.pending, name) + Named(d.buffered, name)
  }

  /** Buckets carry one name each, and only names without a handler. */
  ghost predicate Tidy(d: Desk) {
    && Distinct(d.buffered) && Labelled(d.buffered)
    && (forall b <- d.buffered :: Resolve(d, b.name).None?)
  }

  /** Every received signal is exactly one of settled, queued and buffered, in
      arrival order within its name; a name is not both queued and buffered. */
  ghost predicate Orderly(d: Desk) {
    && Tidy(d)
    && (forall name :: Select(d.received, name) == Line(d, name))
    && (forall name :: Select(d.pending, name) == [] || Named(d.buffered, name) == [])
  }

  lemma {:induction false} SelectConcat(a: seq<Signal>, b: seq<Signal>, name: string)
    ensures Select(a + b, name) == Select(a, name) + Select(b, name)
  {
    if a == [] {
      assert a + b == b;
    } else {
      assert (a + b)[1..] == a[1..] + b;
      SelectConcat(a[1..], b, name);
    }
  }

  lemma {:induction false} SettledConcat(a: seq<Fate>, b: seq<Fate>)
    ensures Settled(a + b) == Settled(a) + Settled(b)
  {
    if a == [] {
      assert a + b == b;
    } else {
      assert (a + b)[1..] == a[1..] + b;
      SettledConcat(a[1..], b);
    }
  }

  lemma {:induction false} SelectAll(signals: seq<Signal>, name: string, only: string)
    requires forall s <- signals :: s.name == only
    ensures Select(signals, name) == if name == only then signals else []
  {
    if signals != [] {
      SelectAll(signals[1..], name, only);
    }
  }

  lemma {:induction false} NamedBuffer(buckets: seq<Bucket>, s: Signal, name: string)
    ensures Named(Buffer(buckets, s), name) == Named(buckets, name) + if s.name == name then [s] else []
  {
    if buckets != [] && buckets[0].name != s.name {
      NamedBuffer(buckets[1..], s, name);
    }
  }

  lemma {:induction false} BufferNames(buckets: seq<Bucket>, s: Signal)
    requires Distinct(buckets) && Labelled(buckets)
    ensures Distinct(Buffer(buckets, s)) && Labelled(Buffer(buckets, s))
    ensures forall b <- Buffer(buckets, s) :: b.name == s.name || exists c <- buckets :: c.name == b.name
  {
    if buckets != [] && buckets[0].name != s.name {
      var tail := buckets[1..];
      assert Distinct(tail) && Labelled(tail);
      BufferNames(tail, s);
      var rest := Buffer(tail, s);
      forall j | 0 <= j < |rest| ensures rest[j].name != buckets[0].name {
        assert rest[j] in rest;
      }
    } else if buckets != [] {
      assert forall b <- buckets[1..] :: b in buckets;
    }
  }

  lemma {:induction false} NamedAbsent(buckets: seq<Bucket>, name: string)
    ensures (forall b <- buckets :: b.name != name) ==> Named(buckets, name) == []
    ensures Named(buckets, name) != [] ==> exists b <- buckets :: b.name == name
  {
    if buckets != [] {
      NamedAbsent(buckets[1..], name);
    }
  }

  lemma {:induction false} UnnamedNames(buckets: seq<Bucket>, gone: string)
    requires Distinct(buckets)
    ensures forall b <- Unnamed(buckets, gone) :: b in buckets && b.name != gone
    ensures Distinct(Unnamed(buckets, gone))
  {
    if buckets != [] && buckets[0].name != gone {
      var rest := Unnamed(buckets[1..], gone);
      UnnamedNames(buckets[1..], gone);
      forall j | 0 <= j < |rest| ensures rest[j].name != buckets[0].name {
        assert rest[j] in buckets[1..];
      }
    }
  }

  lemma {:induction false} NamedUnnamed(buckets: seq<Bucket>, gone: string, name: string)
    requires Distinct(buckets)
    ensures Named(Unnamed(buckets, gone), name) == if name == gone then [] else Named(buckets, name)
    ensures forall b <- Unnamed(buckets, gone) :: b in buckets && b.name != gone
    ensures Distinct(Unnamed(buckets, gone))
  {
    UnnamedNames(buckets, gone);
    if buckets != [] {
      assert Distinct(buckets[1..]);
      NamedUnnamed(buckets[1..], gone, name);
      NamedAbsent(buckets[1..], gone);
    }
  }

  lemma {:induction false} SelectNamed(buckets: seq<Bucket>, gone: string, name: string)
    requires Labelled(buckets)
    ensures Select(Named(buckets, gone), name) == if name == gone then Named(buckets, name) else []
  {
    if buckets != [] {
      if buckets[0].name == gone {
        SelectAll(buckets[0].signals, name, gone);
      } else {
        SelectNamed(buckets[1..], gone, name);
      }
    }
  }

  lemma {:induction false} SelectBuckets(buckets: seq<Bucket>, name: string)
    requires Distinct(buckets) && Labelled(buckets)
    ensures Select(All(buckets), name) == Named(buckets, name)
  {
    if buckets != [] {
      assert Distinct(buckets[1..]) && Labelled(buckets[1..]);
      SelectBuckets(buckets[1..], name);
      SelectConcat(buckets[0].signals, All(buckets[1..]), name);
      SelectAll(buckets[0].signals, name, buckets[0].name);
      NamedAbsent(buckets[1..], name);
    }
  }

  lemma {:induction false} BufferTidy(d: Desk, s: Signal)
    requires Tidy(d) && Resolve(d, s.name).None?
    ensures Tidy(d.(buffered := Buffer(d.buffered, s)))
  {
    BufferNames(d.buffered, s);
    var d' := d.(buffered := Buffer(d.buffered, s));
    forall b <- d'.buffered ensures Resolve(d', b.name).None? {
      assert Resolve(d', b.name) == Resolve(d, b.name);
      if b.name != s.name {
        var c :| c in d.buffered && c.name == b.name;
      }
    }
  }

  lemma {:induction false} BufferExtends(d: Desk, s: Signal, name: string)
    requires Tidy(d) && Select(d.pending, s.name) == [] && Resolve(d, s.name).None?
    ensures
      var d' := d.(buffered := Buffer(d.buffered, s));
      Tidy(d') && Line(d', name) == Line(d, name) + if s.name == name then [s] else []
  {
    BufferTidy(d, s);
    NamedBuffer(d.buffered, s, name);
    var settled, queued := Select(Settled(d.fates), name), Select(d.pending, name);
    var more := if s.name == name then [s] else [];
    assert settled + queued + (Named(d.buffered, name) + more) == settled + queued + Named(d.buffered, name) + more;
  }

  lemma {:induction false} SettleExtends(d: Desk, fate: Fate, tasks: seq<Task>, name: string)
    requires Tidy(d) && Select(d.pending, fate.signal.name) == [] && Resolve(d, fate.signal.name).Some?
    ensures
      var d' := d.(fates := d.fates + [fate], tasks := tasks);
      Tidy(d') && Line(d', name) == Line(d, name) + if fate.signal.name == name then [fate.signal] else []
  {
    var d' := d.(fates := d.fates + [fate], tasks := tasks);
    assert Tidy(d') by {
      assert forall n :: Resolve(d', n) == Resolve(d, n);
    }
    SettledConcat(d.fates, [fate]);
    assert Settled([fate]) == [fate.signal];
    SelectConcat(Settled(d.fates), [fate.signal], name);
    assert Select([fate.signal], name) == if fate.signal.name == name then [fate.signal] else [];
    NamedAbsent(d.buffered, fate.signal.name);
  }

  /** Applying a signal while none of its name is queued puts it at the end of its line. */
  lemma {:induction false} ApplyExtends(d: Desk, s: Signal, name: string)
    requires Tidy(d) && Select(d.pending, s.name) == []
    ensures Tidy(Apply(d, s))
    ensures Line(Apply(d, s), name) == Line(d, name) + if s.name == name then [s] else []
  {
    var handler := Resolve(d, s.name);
    if handler.None? {
      BufferExtends(d, s, name);
    } else if d.decodes(s, handler.value) {
      SettleExtends(d, Spawned(s, handler.value), d.tasks + [Task(s, handler.value)], name);
    } else {
      SettleExtends(d, Dropped(s, handler.value), d.tasks, name);
    }
  }

  lemma {:induction false} ApplyAllExtends(d: Desk, signals: seq<Signal>, name: string)
    requires Tidy(d) && d.pending == []
    ensures Tidy(ApplyAll(d, signals)) && ApplyAll(d, signals).pending == []
    ensures Line(ApplyAll(d, signals), name) == Line(d, name) + Select(signals, name)
    ensures ApplyAll(d, signals).received == d.received
    decreases |signals|
  {
    if signals != [] {
      ApplyExtends(d, signals[0], name);
      ApplyAllExtends(Apply(d, signals[0]), signals[1..], name);
      OneMore(Line(d, name), signals, name);
    }
  }

  lemma OneMore(line: seq<Signal>, signals: seq<Signal>, name: string)
    requires signals != []
    ensures line + (if signals[0].name == name then [signals[0]] else []) + Select(signals[1..], name)
         == line + Select(signals, name)
  {
  }

  // ---------------------------------------------------------------------
  // The steps
  // ---------------------------------------------------------------------

  datatype Step =
    | Arrives(signal: Signal)
    | Sets(name: Option<string>, handler: Option<Handler>)
    | Flushes
    | RunsTask

  /** Code sets handlers while it drains; the loop flushes before it delivers again. */
  ghost predicate Possible(d: Desk, step: Step) {
    (step.Arrives? ==> d.pending == []) && (step.RunsTask? ==> d.tasks != [])
  }

  function Next(d: Desk, step: Step): Desk
    requires Possible(d, step)
  {
    match step
    case Arrives(s) => Receive(d, s)
    case Sets(name, handler) => SetHandler(d, name, handler)
    case Flushes => Flush(d)
    case RunsTask => RunTask(d)
  }

  lemma {:induction false} ArrivesOrderly(d: Desk, s: Signal)
    requires Orderly(d) && d.pending == []
    ensures Orderly(Receive(d, s)) && Receive(d, s).pending == []
  {
    var d0 := d.(received := d.received + [s]);
    forall name ensures Select(Receive(d, s).received, name) == Line(Receive(d, s), name) {
      ApplyExtends(d0, s, name);
      SelectConcat(d.received, [s], name);
      assert Select([s], name) == if s.name == name then [s] else [];
      assert Line(d0, name) == Line(d, name);
    }
    ApplyExtends(d0, s, s.name);
  }

  lemma {:induction false} FlushesOrderly(d: Desk)
    requires Orderly(d)
    ensures Orderly(Flush(d)) && Flush(d).pending == []
  {
    var d0 := d.(pending := []);
    assert Tidy(d0);
    forall name ensures Select(Flush(d).received, name) == Line(Flush(d), name) {
      ApplyAllExtends(d0, d.pending, name);
      assert Line(d0, name) + Select(d.pending, name) == Line(d, name);
    }
    ApplyAllExtends(d0, d.pending, "");
  }

  /** Unsetting never gives a name a handler; a handler takes its buffered signals along. */
  lemma {:induction false} SetsTidy(d: Desk, name: Option<string>, handler: Option<Handler>)
    requires Tidy(d)
    ensures Tidy(SetHandler(d, name, handler))
  {
    var d' := SetHandler(d, name, handler);
    if handler.Some? && name.Some? {
      NamedUnnamed(d.buffered, name.value, name.value);
    }
    forall b <- d'.buffered ensures Resolve(d', b.name).None? {
      assert b in d.buffered && Resolve(d, b.name).None?;
    }
  }

  lemma {:induction false} SetsLine(d: Desk, whose: Option<string>, handler: Option<Handler>, name: string)
    requires Orderly(d)
    ensures
      var d' := SetHandler(d, whose, handler);
      Line(d', name) == Line(d, name) && (Select(d'.pending, name) == [] || Named(d'.buffered, name) == [])
  {
    if handler.Some? && whose.None? {
      SelectBuckets(d.buffered, name);
      TakenToFlush(d, All(d.buffered), [], name);
    } else if handler.Some? {
      NamedUnnamed(d.buffered, whose.value, name);
      SelectNamed(d.buffered, whose.value, name);
      TakenToFlush(d, Named(d.buffered, whose.value), Unnamed(d.buffered, whose.value), name);
    }
  }

  /** Buffered signals queued for the flush keep their places in the line. */
  lemma TakenToFlush(d: Desk, taken: seq<Signal>, left: seq<Bucket>, name: string)
    requires Select(taken, name) + Named(left, name) == Named(d.buffered, name)
    ensures Line(d.(pending := d.pending + taken, buffered := left), name) == Line(d, name)
  {
    SelectConcat(d.pending, taken, name);
    InLine(Select(Settled(d.fates), name), Select(d.pending, name), Select(taken, name), Named(left, name));
  }

  lemma InLine<T>(a: seq<T>, b: seq<T>, c: seq<T>, e: seq<T>)
    ensures a + (b + c) + e == a + b + (c + e)
  {
  }

  lemma {:induction false} NextOrderly(d: Desk, step: Step)
    requires Orderly(d) && Possible(d, step)
    ensures Orderly(Next(d, step))
  {
    match step
    case Arrives(s) => ArrivesOrderly(d, s);
    case Flushes => FlushesOrderly(d);
    case RunsTask => RunsTaskOrderly(d);
    case Sets(name, handler) => SetsOrderly(d, name, handler);
  }

  lemma RunsTaskOrderly(d: Desk)
    requires Orderly(d) && d.tasks != []
    ensures Orderly(RunTask(d))
  {
    var d' := RunTask(d);
    assert forall n :: Resolve(d', n) == Resolve(d, n);
    assert forall n :: Line(d', n) == Line(d, n);
  }

  lemma SetsOrderly(d: Desk, name: Option<string>, handler: Option<Handler>)
    requires Orderly(d)
    ensures Orderly(SetHandler(d, name, handler))
  {
    SetsTidy(d, name, handler);
    forall n {
      SetsLine(d, name, handler, n);
    }
  }

  ghost predicate Runs(d: Desk, steps: seq<Step>, d': Desk)
    decreases |steps|
  {
    if steps == [] then d == d' else Possible(d, steps[0]) && Runs(Next(d, steps[0]), steps[1..], d')
  }

  /** Under any interleaving of arrivals, settings and flushes every signal is
      accounted for once and the signals of one name are settled in arrival order. */
  lemma {:induction false} RunsStayOrderly(d: Desk, steps: seq<Step>, d': Desk)
    requires Orderly(d) && Runs(d, steps, d')
    ensures Orderly(d')
    decreases |steps|
  {
    if steps != [] {
      NextOrderly(d, steps[0]);
      RunsStayOrderly(Next(d, steps[0]), steps[1..], d');
    }
  }

  // ---------------------------------------------------------------------
  // What arrives, and what becomes of it
  // ---------------------------------------------------------------------

  /** The signals consumed from the inbox, in order. */
  function Arrivals(steps: seq<Step>): seq<Signal> {
    if steps == [] then []
    else (if steps[0].Arrives? then [steps[0].signal] else []) + Arrivals(steps[1..])
  }

  lemma {:induction false} ApplyAllReceives(d: Desk, signals: seq<Signal>)
    ensures ApplyAll(d, signals).received == d.received && ApplyAll(d, signals).decodes == d.decodes
    decreases |signals|
  {
    if signals != [] {
      ApplyAllReceives(Apply(d, signals[0]), signals[1..]);
    }
  }

  /** A signal was dropped only because its arguments did not decode for the handler
      found, and its task spawned only because they did. */
  ghost predicate Decoded(d: Desk) {
    forall f <- d.fates :: f.Spawned? <==> d.decodes(f.signal, f.handler)
  }

  lemma {:induction false} ApplyDecodes(d: Desk, s: Signal)
    requires Decoded(d)
    ensures Decoded(Apply(d, s)) && Apply(d, s).decodes == d.decodes
  {
    var d' := Apply(d, s);
    assert forall f <- d'.fates :: f in d.fates || f == d'.fates[|d'.fates| - 1];
  }

  lemma {:induction false} ApplyAllDecodes(d: Desk, signals: seq<Signal>)
    requires Decoded(d)
    ensures Decoded(ApplyAll(d, signals))
    decreases |signals|
  {
    if signals != [] {
      ApplyDecodes(d, signals[0]);
      ApplyAllDecodes(Apply(d, signals[0]), signals[1..]);
    }
  }

  /** Over every run the received signals are those that arrived, in order, and each
      settled one was spawned or dropped by whether its arguments decoded. */
  lemma {:induction false} ReceivedAsArrived(d: Desk, steps: seq<Step>, d': Desk)
    requires Decoded(d) && Runs(d, steps, d')
    ensures d'.received == d.received + Arrivals(steps) && d'.decodes == d.decodes && Decoded(d')
    decreases |steps|
  {
    if steps != [] {
      var next, first := Next(d, steps[0]), if steps[0].Arrives? then [steps[0].signal] else [];
      StepReceives(d, steps[0]);
      ReceivedAsArrived(next, steps[1..], d');
      ThreeParts(d.received, first, Arrivals(steps[1..]));
    }
  }

  lemma StepReceives(d: Desk, step: Step)
    requires Decoded(d) && Possible(d, step)
    ensures
      var d' := Next(d, step);
      && d'.received == d.received + (if step.Arrives? then [step.signal] else [])
      && d'.decodes == d.decodes && Decoded(d')
  {
    match step
    case Arrives(s) => ApplyDecodes(d.(received := d.received + [s]), s);
    case Flushes =>
      ApplyAllReceives(d.(pending := []), d.pending);
      ApplyAllDecodes(d.(pending := []), d.pending);
    case _ =>
  }

  lemma ThreeParts<T>(a: seq<T>, b: seq<T>, c: seq<T>)
    ensures a + b + c == a + (b + c)
  {
  }

  function BucketNames(buckets: seq<Bucket>): seq<string> {
    if buckets == [] then [] else [buckets[0].name] + BucketNames(buckets[1..])
  }

  /** A name new to the buffer comes last in it. */
  lemma {:induction false} NewNamesComeLast(buckets: seq<Bucket>, s: Signal)
    ensures BucketNames(Buffer(buckets, s)) ==
        BucketNames(buckets) + if s.name in BucketNames(buckets) then [] else [s.name]
  {
    if buckets != [] && buckets[0].name != s.name {
      NewNamesComeLast(buckets[1..], s);
    }
  }

  /** Bucket after bucket, each with its signals in order. */
  lemma {:induction false} BucketAfterBucket(buckets: seq<Bucket>, i: nat)
    requires i < |buckets|
    ensures All(buckets) == All(buckets[..i]) + buckets[i].signals + All(buckets[i + 1..])
  {
    if i > 0 {
      BucketAfterBucket(buckets[1..], i - 1);
      assert buckets[..i][1..] == buckets[1..][..i - 1] && buckets[1..][i..] == buckets[i + 1..];
      FourParts(buckets[0].signals, All(buckets[1..][..i - 1]), buckets[i].signals, All(buckets[i + 1..]));
    }
  }

  lemma FourParts<T>(a: seq<T>, b: seq<T>, c: seq<T>, e: seq<T>)
    ensures a + (b + c + e) == a + b + c + e
  {
  }

  // ---------------------------------------------------------------------
  // Tasks and the handlers they find
  // ---------------------------------------------------------------------

  function TasksOf(runs: seq<FirstRun>): seq<Task> {
    if runs == [] then [] else [runs[0].task] + TasksOf(runs[1..])
  }

  function SpawnedBy(fates: seq<Fate>): seq<Task> {
    if fates == [] then []
    else if fates[0].Spawned? then [Task(fates[0].signal, fates[0].handler)] + SpawnedBy(fates[1..])
    else SpawnedBy(fates[1..])
  }

  /** All tasks, in the order they were spawned: those that ran, then the rest. */
  ghost function Launched(d: Desk): seq<Task> {
    TasksOf(d.firstRuns) + d.tasks
  }

  ghost predicate Accounted(d: Desk) {
    SpawnedBy(d.fates) == Launched(d) && |TasksOf(d.firstRuns)| == |d.firstRuns|
  }

  lemma {:induction false} TasksOfAppend(runs: seq<FirstRun>, r: FirstRun)
    ensures TasksOf(runs + [r]) == TasksOf(runs) + [r.task]
  {
    if runs == [] {
      assert [] + [r] == [r];
    } else {
      assert (runs + [r])[1..] == runs[1..] + [r];
      TasksOfAppend(runs[1..], r);
    }
  }

  lemma {:induction false} SpawnedByAppend(fates: seq<Fate>, f: Fate)
    ensures SpawnedBy(fates + [f]) == SpawnedBy(fates) + if f.Spawned? then [Task(f.signal, f.handler)] else []
  {
    if fates == [] {
      assert [] + [f] == [f];
    } else {
      assert (fates + [f])[1..] == fates[1..] + [f];
      SpawnedByAppend(fates[1..], f);
    }
  }

  /** The step keeps the tasks it found, in order, and every task it adds has the
      handler its name resolves to and arguments that decode for it. */
  ghost predicate Spawns(d: Desk, d': Desk) {
    && d'.decodes == d.decodes && d'.registered == d.registered
    && Launched(d) <= Launched(d')
    && forall n :: |Launched(d)| <= n < |Launched(d')| ==>
         var task := Launched(d')[n];
         Resolve(d, task.signal.name) == Some(task.handler) && d.decodes(task.signal, task.handler)
  }

  lemma {:induction false} ApplySpawns(d: Desk, s: Signal)
    requires Accounted(d)
    ensures Accounted(Apply(d, s)) && Spawns(d, Apply(d, s)) && Apply(d, s).overrides == d.overrides
    ensures Apply(d, s).firstRuns == d.firstRuns
  {
    var handler := Resolve(d, s.name);
    if handler.Some? {
      var fate := if d.decodes(s, handler.value) then Spawned(s, handler.value) else Dropped(s, handler.value);
      SpawnedByAppend(d.fates, fate);
      assert TasksOf(d.firstRuns) + (d.tasks + [Task(s, handler.value)]) == Launched(d) + [Task(s, handler.value)];
    }
  }

  lemma {:induction false} ApplyAllSpawns(d: Desk, signals: seq<Signal>)
    requires Accounted(d)
    ensures Accounted(ApplyAll(d, signals)) && Spawns(d, ApplyAll(d, signals))
    decreases |signals|
  {
    if signals != [] {
      var d1 := Apply(d, signals[0]);
      ApplySpawns(d, signals[0]);
      ApplyAllSpawns(d1, signals[1..]);
      assert forall name :: Resolve(d1, name) == Resolve(d, name);
    }
  }

  lemma {:induction false} RunTaskAccounted(d: Desk)
    requires Accounted(d) && d.tasks != []
    ensures Accounted(RunTask(d)) && Launched(RunTask(d)) == Launched(d)
  {
    var r := RunTask(d).firstRuns[|d.firstRuns|];
    TasksOfAppend(d.firstRuns, r);
    assert d.tasks == [d.tasks[0]] + d.tasks[1..];
    assert TasksOf(d.firstRuns) + [r.task] + d.tasks[1..] == TasksOf(d.firstRuns) + ([r.task] + d.tasks[1..]);
  }

  lemma {:induction false} NextSpawns(d: Desk, step: Step)
    requires Accounted(d) && Possible(d, step)
    ensures Accounted(Next(d, step)) && Spawns(d, Next(d, step))
  {
    match step
    case Arrives(s) => ReceiveSpawns(d, s);
    case Flushes =>
      var d0 := d.(pending := []);
      ApplyAllSpawns(d0, d.pending);
      assert forall name :: Resolve(d0, name) == Resolve(d, name);
    case Sets(_, _) =>
    case RunsTask => RunTaskAccounted(d);
  }

  lemma ReceiveSpawns(d: Desk, s: Signal)
    requires Accounted(d)
    ensures Accounted(Receive(d, s)) && Spawns(d, Receive(d, s))
  {
    var d0 := d.(received := d.received + [s]);
    ApplySpawns(d0, s);
    assert forall name :: Resolve(d0, name) == Resolve(d, name);
  }

  lemma {:induction false} RunsStayAccounted(d: Desk, steps: seq<Step>, d': Desk)
    requires Accounted(d) && Runs(d, steps, d')
    ensures Accounted(d') && Launched(d) <= Launched(d') && d'.decodes == d.decodes
    decreases |steps|
  {
    if steps != [] {
      NextSpawns(d, steps[0]);
      RunsStayAccounted(Next(d, steps[0]), steps[1..], d');
    }
  }

  /** Tasks run once each in the order they were spawned.  The n-th, spawned by a
      step from d, calls the handler its arguments were decoded for if and only if
      the name resolves at its first run as it did from d; it calls none, and its
      signal is gone, if and only if the name then resolves to none. */
  lemma {:induction false} TaskFindsItsHandler(d: Desk, spawn: Step, steps: seq<Step>, d': Desk, n: nat)
    requires Accounted(d) && Possible(d, spawn) && Runs(Next(d, spawn), steps, d')
    requires |Launched(d)| <= n < |Launched(Next(d, spawn))|
    requires |d'.firstRuns| == n && d'.tasks != []
    ensures
      var task := Launched(Next(d, spawn))[n];
      var run := RunTask(d').firstRuns[n];
      && run.task == task && d.decodes(task.signal, task.handler)
      && (run == Ran(task, task.handler) <==> Resolve(d', task.signal.name) == Resolve(d, task.signal.name))
      && (run == Lost(task) <==> Resolve(d', task.signal.name).None?)
  {
    NextSpawns(d, spawn);
    RunsStayAccounted(Next(d, spawn), steps, d');
    assert d'.tasks[0] == Launched(d')[n];
  }

  /** Settings of its own name or of the dynamic handler only can come between. */
  lemma {:induction false} OnlySettingsIntervene(d: Desk, steps: seq<Step>, d': Desk, name: string)
    requires Runs(d, steps, d')
    requires forall x <- steps :: x.Sets? ==> x.name.Some? && x.name.value != name
    ensures Resolve(d', name) == Resolve(d, name)
    decreases |steps|
  {
    if steps != [] {
      assert steps[0] in steps && forall x <- steps[1..] :: x in steps;
      StepResolves(d, steps[0], name);
      OnlySettingsIntervene(Next(d, steps[0]), steps[1..], d', name);
    }
  }

  lemma StepResolves(d: Desk, step: Step, name: string)
    requires Possible(d, step)
    requires step.Sets? ==> step.name.Some? && step.name.value != name
    ensures Resolve(Next(d, step), name) == Resolve(d, name)
  {
    match step
    case Arrives(s) => ApplyResolves(d.(received := d.received + [s]), s, name);
    case Flushes => ApplyAllResolves(d.(pending := []), d.pending, name);
    case Sets(whose, handler) => OtherSettingResolves(d, whose.value, handler, name);
    case RunsTask =>
  }

  lemma OtherSettingResolves(d: Desk, whose: string, handler: Option<Handler>, name: string)
    requires whose != name
    ensures Resolve(SetHandler(d, Some(whose), handler), name) == Resolve(d, name)
  {
  }

  lemma ApplyResolves(d: Desk, s: Signal, name: string)
    ensures Resolve(Apply(d, s), name) == Resolve(d, name)
  {
  }

  lemma {:induction false} ApplyAllResolves(d: Desk, signals: seq<Signal>, name: string)
    ensures Resolve(ApplyAll(d, signals), name) == Resolve(d, name)
    decreases |signals|
  {
    if signals != [] {
      ApplyAllResolves(Apply(d, signals[0]), signals[1..], name);
    }
  }

  function NewDesk(registered: Handlers, decodes: (Signal, Handler) -> bool): Desk {
    Desk(registered, decodes, map[], [], [], [], [], [], [])
  }

  /** A signal that is gone: its handler is unset between the delivery and the first
      run of the task, as code may that an activity of the same round woke first.
      The signal is neither dropped for its arguments nor kept for a later handler. */
  lemma {:induction false} SignalMayBeLost(h: Handler, s: Signal)
    ensures
      var d := NewDesk(map[Some(s.name) := h], (x, y) => true);
      var steps := [Arrives(s), Sets(Some(s.name), None), RunsTask];
      exists d' :: Runs(d, steps, d') && d'.firstRuns == [Lost(Task(s, h))]
        && d'.tasks == [] && d'.buffered == [] && d'.pending == [] && d'.fates == [Spawned(s, h)]
  {
    var d := NewDesk(map[Some(s.name) := h], (x, y) => true);
    var d1 := Next(d, Arrives(s));
    var d2 := Next(d1, Sets(Some(s.name), None));
    var d3 := Next(d2, RunsTask);
    ThreeSteps(d, Arrives(s), d1, Sets(Some(s.name), None), d2, RunsTask, d3);
  }

  /** A handler called with arguments decoded for another one. */
  lemma {:induction false} HandlerMayBeExchanged(h: Handler, g: Handler, s: Signal, decodes: (Signal, Handler) -> bool)
    requires h != g && decodes(s, h)
    ensures
      var d := NewDesk(map[Some(s.name) := h], decodes);
      var steps := [Arrives(s), Sets(Some(s.name), Some(g)), RunsTask];
      exists d' :: Runs(d, steps, d') && d'.firstRuns == [Ran(Task(s, h), g)]
  {
    var d := NewDesk(map[Some(s.name) := h], decodes);
    var d1 := Next(d, Arrives(s));
    var d2 := Next(d1, Sets(Some(s.name), Some(g)));
    var d3 := Next(d2, RunsTask);
    ThreeSteps(d, Arrives(s), d1, Sets(Some(s.name), Some(g)), d2, RunsTask, d3);
  }

  lemma {:induction false} ThreeSteps(d: Desk, a: Step, d1: Desk, b: Step, d2: Desk, c: Step, d3: Desk)
    requires Possible(d, a) && d1 == Next(d, a) && Possible(d1, b) && d2 == Next(d1, b)
    requires Possible(d2, c) && d3 == Next(d2, c)
    ensures Runs(d, [a, b, c], d3)
  {
    assert [a, b, c][1..] == [b, c] && [b, c][1..] == [c] && [c][1..] == [];
    assert Runs(d3, [], d3);
    assert Runs(d2, [c], d3);
    assert Runs(d1, [b, c], d3);
  }

  /** In particular what was spawned or dropped of a name is a prefix of what arrived of it. */
  lemma {:induction false} SettledInArrivalOrder(d: Desk, steps: seq<Step>, d': Desk, name: string)
    requires Orderly(d) && Runs(d, steps, d')
    ensures Select(Settled(d'.fates), name) <= Select(d'.received, name)
    ensures d'.pending == [] && Resolve(d', name).Some? ==> Select(Settled(d'.fates), name) == Select(d'.received, name)
  {
    RunsStayOrderly(d, steps, d');
    assert Select(d'.received, name) == Line(d', name);
    NamedAbsent(d'.buffered, name);
  }
}

/** The interpreter's signal state, updated in place. */
module SignalDelivery {
  import opened Prelude
  import opened Signals

  class SignalDesk {
    const registered: Handlers
    const decodes: (Signal, Handler) -> bool
    var overrides: Overrides
    var buffered: seq<Bucket>
    var pending: seq<Signal>
    var fates: seq<Fate>
    var tasks: seq<Task>
    var firstRuns: seq<FirstRun>
    ghost var received: seq<Signal>

    ghost function View(): Desk
      reads this
    {
      Desk(registered, decodes, overrides, buffered, pending, fates, tasks, firstRuns, received)
    }

    constructor (registered: Handlers, decodes: (Signal, Handler) -> bool)
      ensures View() == NewDesk(registered, decodes) && Orderly(View()) && Accounted(View())
    {
      this.registered, this.decodes := registered, decodes;
      overrides, buffered, pending, fates := map[], [], [], [];
      tasks, firstRuns, received := [], [], [];
    }

    function ResolveSignal(name: string): (handler: Option<Handler>)
      reads this
      ensures handler == Resolve(View(), name)
    {
      var exact := Some(name);
      if exact in overrides && overrides[exact].Some? then overrides[exact]
      else if exact !in overrides && exact in registered then Some(registered[exact])
      else if None in overrides && overrides[None].Some? then overrides[None]
      else if None in registered then Some(registered[None])
      else None
    }

    method BufferSignal(s: Signal)
      modifies this`buffered
      ensures buffered == Buffer(old(buffered), s)
    {
      for i := 0 to |buffered|
        invariant buffered == old(buffered)
        invariant Buffer(buffered, s) == buffered[..i] + Buffer(buffered[i..], s)
      {
        assert buffered[i..][1..] == buffered[i + 1..];
        if buffered[i].name == s.name {
          buffered := buffered[..i] + [Bucket(s.name, buffered[i].signals + [s])] + buffered[i + 1..];
          return;
        }
      }
      buffered := buffered + [Bucket(s.name, [s])];
    }

    method ApplySignal(s: Signal)
      modifies this
      ensures View() == Apply(old(View()), s)
    {
      var handler := ResolveSignal(s.name);
      if handler.None? {
        BufferSignal(s);
      } else if decodes(s, handler.value) {
        fates := fates + [Spawned(s, handler.value)];
        tasks := tasks + [Task(s, handler.value)];
      } else {
        fates := fates + [Dropped(s, handler.value)];
      }
    }

    /** A signal consumed from the inbox, between two turns of the loop. */
    method DeliverSignal(s: Signal)
      requires Orderly(View()) && pending == []
      modifies this
      ensures View() == Receive(old(View()), s) && Orderly(View()) && pending == []
    {
      ArrivesOrderly(View(), s);
      received := received + [s];
      ApplySignal(s);
    }

    /** The root of the inbound chain resolves the handler again and calls it. */
    method RunNextTask()
      requires Orderly(View()) && Accounted(View()) && tasks != []
      modifies this
      ensures View() == RunTask(old(View())) && Orderly(View()) && Accounted(View())
    {
      NextOrderly(View(), RunsTask);
      RunTaskAccounted(View());
      var task := tasks[0];
      tasks := tasks[1..];
      var handler := ResolveSignal(task.signal.name);
      firstRuns := firstRuns + [if handler.Some? then Ran(task, handler.value) else Lost(task)];
    }

    method TakeAll() returns (signals: seq<Signal>)
      modifies this`buffered
      ensures signals == All(old(buffered)) && buffered == []
    {
      signals := [];
      for i := 0 to |buffered|
        invariant signals + All(buffered[i..]) == All(buffered)
      {
        assert buffered[i..][1..] == buffered[i + 1..];
        signals := signals + buffered[i].signals;
      }
      buffered := [];
    }

    method Take(name: string) returns (signals: seq<Signal>)
      modifies this`buffered
      ensures signals == Named(old(buffered), name) && buffered == Unnamed(old(buffered), name)
    {
      for i := 0 to |buffered|
        invariant buffered == old(buffered)
        invariant Named(buffered[i..], name) == Named(buffered, name)
        invariant buffered[..i] + Unnamed(buffered[i..], name) == Unnamed(buffered, name)
      {
        assert buffered[i..][1..] == buffered[i + 1..];
        if buffered[i].name == name {
          signals := buffered[i].signals;
          buffered := buffered[..i] + buffered[i + 1..];
          return;
        }
      }
      signals := [];
    }

    method SetSignalHandler(name: Option<string>, handler: Option<Handler>)
      requires Orderly(View())
      modifies this
      ensures View() == SetHandler(old(View()), name, handler) && Orderly(View())
    {
      NextOrderly(View(), Sets(name, handler));
      overrides := overrides[name := handler];
      if handler.Some? {
        var signals;
        if name.None? {
          signals := TakeAll();
        } else {
          signals := Take(name.value);
        }
        pending := pending + signals;
      }
    }

    /** Redelivers what handlers set since the last turn may take. */
    method FlushPending() returns (flushed: bool)
      requires Orderly(View())
      modifies this
      ensures View() == Flush(old(View())) && Orderly(View()) && pending == []
      ensures flushed == (old(pending) != [])
    {
      FlushesOrderly(View());
      flushed := pending != [];
      var queued := pending;
      pending := [];
      ghost var before := View();
      for i := 0 to |queued|
        invariant ApplyAll(View(), queued[i..]) == ApplyAll(before, queued)
      {
        assert queued[i..][1..] == queued[i + 1..];
        ApplySignal(queued[i]);
      }
    }
  }
}
