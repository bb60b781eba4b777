/**
 What a closing or terminated run does to its children: the interpreter's sweep
 with its depth-first termination of child trees, and the client's walk after a
 termination.
 */
module ParentClose {
  /** The database id of a run. */
  type Run = string

  datatype Policy = Unspecified | Terminate | Abandon | RequestCancel

  datatype Edge = Edge(id: string, policy: Policy)

  /** The recorded children of each run, and the current run of each child id. */
  datatype Forest = Forest(children: map<Run, seq<Edge>>, current: map<string, Run>)

  datatype Effect =
    | Cancel(run: Run)
    | Send(parent: Run, place: nat, target: string)

  predicate Kills(e: Edge) {
    e.policy.Terminate? || e.policy.Unspecified?
  }

  function Edges(f: Forest, run: Run): seq<Edge> {
    if run in f.children then f.children[run] else []
  }

  ghost predicate Known(f: Forest, edges: seq<Edge>) {
    forall e <- edges :: e.id in f.current
  }

  /** Every recorded child id resolves. */
  ghost predicate WellFormed(f: Forest) {
    forall run <- f.children :: Known(f, f.children[run])
  }

  // ---------------------------------------------------------------------
  // Which runs are to go
  // ---------------------------------------------------------------------

  ghost predicate Leads(f: Forest, run: Run, child: Run) {
    exists e <- Edges(f, run) :: Kills(e) && e.id in f.current && f.current[e.id] == child
  }

  /** A path of terminate edges through open runs only. */
  ghost predicate Chain(f: Forest, open: set<Run>, path: seq<Run>) {
    && path != []
    && (forall run <- path :: run in open)
    && (forall i :: 0 <= i < |path| - 1 ==> Leads(f, path[i], path[i + 1]))
  }

  ghost predicate Joins(path: seq<Run>, first: Run, last: Run) {
    path != [] && path[0] == first && path[|path| - 1] == last
  }

  ghost predicate Doomed(f: Forest, open: set<Run>, root: Run, run: Run) {
    exists path :: Chain(f, open, path) && Joins(path, root, run)
  }

  /** Doomed behind one of these edges. */
  ghost predicate Behind(f: Forest, open: set<Run>, edges: seq<Edge>, run: Run) {
    exists e <- edges :: Kills(e) && e.id in f.current && Doomed(f, open, f.current[e.id], run)
  }

  /** The open runs shrank by exactly what is doomed from the root. */
  ghost predicate Reaped(f: Forest, before: set<Run>, after: set<Run>, root: Run) {
    after <= before && forall run :: run in before - after <==> Doomed(f, before, root, run)
  }

  /** Nothing that went left an open child behind a terminate edge. */
  ghost predicate Shut(f: Forest, before: set<Run>, after: set<Run>) {
    forall run, child :: run in before - after && Leads(f, run, child) ==> child !in after
  }

  lemma {:induction false} DoomedItself(f: Forest, open: set<Run>, root: Run)
    requires root in open
    ensures Doomed(f, open, root, root)
  {
    assert Chain(f, open, [root]) && Joins([root], root, root);
  }

  lemma {:induction false} DoomedFollows(f: Forest, open: set<Run>, root: Run, run: Run, child: Run)
    requires Doomed(f, open, root, run) && Leads(f, run, child) && child in open
    ensures Doomed(f, open, root, child)
  {
    var path :| Chain(f, open, path) && Joins(path, root, run);
    var longer := path + [child];
    forall i | 0 <= i < |longer| - 1 ensures Leads(f, longer[i], longer[i + 1]) {
      if i < |path| - 1 {
        assert Leads(f, path[i], path[i + 1]);
      }
    }
    assert Chain(f, open, longer) && Joins(longer, root, child);
  }

  /** A chain found later, among fewer open runs, behind a run that leads to its root. */
  lemma {:induction false} DoomedBehind(f: Forest, before: set<Run>, now: set<Run>, run: Run, child: Run, last: Run)
    requires Doomed(f, now, child, last) && now <= before && run in before && Leads(f, run, child)
    ensures Doomed(f, before, run, last)
  {
    var path :| Chain(f, now, path) && Joins(path, child, last);
    var longer := [run] + path;
    forall i | 0 <= i < |longer| - 1 ensures Leads(f, longer[i], longer[i + 1]) {
      if i > 0 {
        assert Leads(f, path[i - 1], path[i]);
      }
    }
    assert Chain(f, before, longer) && Joins(longer, run, last);
  }

  lemma {:induction false} DoomedEarlier(f: Forest, before: set<Run>, now: set<Run>, root: Run, run: Run)
    requires Doomed(f, now, root, run) && now <= before
    ensures Doomed(f, before, root, run) && root in now && run in now
  {
    var path :| Chain(f, now, path) && Joins(path, root, run);
    assert Chain(f, before, path) && path[0] in path && path[|path| - 1] in path;
  }

  lemma {:induction false} ReapedShut(f: Forest, before: set<Run>, after: set<Run>, root: Run)
    requires Reaped(f, before, after, root)
    ensures Shut(f, before, after) && root !in after
  {
    forall run, child | run in before - after && Leads(f, run, child) ensures child !in after {
      if child in before {
        DoomedFollows(f, before, root, run, child);
      }
    }
    if root in before {
      DoomedItself(f, before, root);
    }
  }

  /** What is shut and lost its root lost everything doomed from it. */
  lemma {:induction false} ShutReaches(f: Forest, before: set<Run>, after: set<Run>, path: seq<Run>)
    requires Shut(f, before, after) && Chain(f, before, path) && path[0] !in after
    ensures path[|path| - 1] !in after
    decreases |path|
  {
    if |path| > 1 {
      assert Leads(f, path[0], path[1]) && path[0] in before;
      var rest := path[1..];
      forall i | 0 <= i < |rest| - 1 ensures Leads(f, rest[i], rest[i + 1]) {
        assert Leads(f, path[i + 1], path[i + 2]);
      }
      ShutReaches(f, before, after, rest);
    }
  }

  lemma {:induction false} ShutDooms(f: Forest, before: set<Run>, after: set<Run>, root: Run, run: Run)
    requires Shut(f, before, after) && root !in after && Doomed(f, before, root, run)
    ensures run in before - after
  {
    var path :| Chain(f, before, path) && Joins(path, root, run);
    assert run in path;
    ShutReaches(f, before, after, path);
  }

  /** Sweeping again, as a replay does, finds nothing left to terminate. */
  lemma {:induction false} RepeatFindsNothing(f: Forest, before: set<Run>, after: set<Run>, root: Run, run: Run)
    requires Reaped(f, before, after, root)
    ensures !Doomed(f, after, root, run)
  {
    ReapedShut(f, before, after, root);
    if Doomed(f, after, root, run) {
      DoomedEarlier(f, after, after, root, run);
    }
  }

  // ---------------------------------------------------------------------
  // Effects, each counted
  // ---------------------------------------------------------------------

  function Count(effects: seq<Effect>, a: Effect): nat {
    if effects == [] then 0 else (if effects[|effects| - 1] == a then 1 else 0) + Count(effects[..|effects| - 1], a)
  }

  lemma {:induction false} CountNext(effects: seq<Effect>, e: Effect)
    ensures forall a :: Count(effects + [e], a) == Count(effects, a) + if a == e then 1 else 0
  {
    assert (effects + [e])[..|effects|] == effects;
  }

  /** The request among the first n edges of a run that an effect stands for. */
  predicate Requested(run: Run, edges: seq<Edge>, n: nat, a: Effect)
    requires n <= |edges|
  {
    a.Send? && a.parent == run && a.place < n && edges[a.place].policy.RequestCancel?
      && a.target == edges[a.place].id
  }

  /** What terminating these runs is to cause: each cancelled, each request-cancel edge served. */
  predicate Due(f: Forest, gone: set<Run>, a: Effect) {
    match a
    case Cancel(run) => run in gone
    case Send(parent, _, _) => parent in gone && Requested(parent, Edges(f, parent), |Edges(f, parent)|, a)
  }

  ghost predicate Performed(f: Forest, gone: set<Run>, before: seq<Effect>, after: seq<Effect>) {
    forall a :: Count(after, a) == Count(before, a) + if Due(f, gone, a) then 1 else 0
  }

  datatype Child = Child(edge: Edge, started: bool)

  function Started(pending: seq<Child>): seq<Edge> {
    if pending == [] then []
    else (if pending[0].started then [pending[0].edge] else []) + Started(pending[1..])
  }

  lemma {:induction false} StartedHas(pending: seq<Child>, e: Edge)
    ensures e in Started(pending) <==> exists i :: 0 <= i < |pending| && pending[i] == Child(e, true)
  {
    if pending != [] {
      StartedHas(pending[1..], e);
      if i :| 0 <= i < |pending[1..]| && pending[1..][i] == Child(e, true) {
        assert pending[i + 1] == Child(e, true);
      }
      if i :| 0 <= i < |pending| && pending[i] == Child(e, true) {
        assert i > 0 ==> pending[1..][i - 1] == Child(e, true);
      }
    }
  }

  /** Performed, with the edges of one run served only up to the k-th. */
  ghost predicate Tally(f: Forest, run: Run, k: nat, gone: set<Run>, before: seq<Effect>, after: seq<Effect>)
    requires k <= |Edges(f, run)|
  {
    forall a :: Count(after, a) == Count(before, a) +
      if a.Send? && a.parent == run then (if Requested(run, Edges(f, run), k, a) then 1 else 0)
      else if Due(f, gone, a) then 1 else 0
  }

  /** Where the walk stands after k edges of a run it cancelled. */
  ghost predicate Progress(f: Forest, run: Run, k: nat, before: set<Run>, now: set<Run>,
                           done: seq<Effect>, sofar: seq<Effect>)
  {
    && k <= |Edges(f, run)| && Known(f, Edges(f, run))
    && run in before && now <= before - {run}
    && (forall r :: r in before - now ==> Doomed(f, before, run, r))
    && Shut(f, before - {run}, now)
    && (forall i :: 0 <= i < k && Kills(Edges(f, run)[i]) ==> f.current[Edges(f, run)[i].id] !in now)
    && Tally(f, run, k, before - now, done, sofar)
  }

  lemma {:induction false} ProgressStarts(f: Forest, run: Run, before: set<Run>, done: seq<Effect>)
    requires WellFormed(f) && run in before
    ensures Progress(f, run, 0, before, before - {run}, done, done + [Cancel(run)])
  {
    DoomedItself(f, before, run);
    CountNext(done, Cancel(run));
  }

  lemma {:induction false} ProgressSends(f: Forest, run: Run, k: nat, before: set<Run>, now: set<Run>,
                                         done: seq<Effect>, sofar: seq<Effect>)
    requires Progress(f, run, k, before, now, done, sofar) && k < |Edges(f, run)|
    requires Edges(f, run)[k].policy.RequestCancel?
    ensures Progress(f, run, k + 1, before, now, done, sofar + [Send(run, k, Edges(f, run)[k].id)])
  {
    CountNext(sofar, Send(run, k, Edges(f, run)[k].id));
  }

  lemma {:induction false} ProgressSkips(f: Forest, run: Run, k: nat, before: set<Run>, now: set<Run>,
                                         done: seq<Effect>, sofar: seq<Effect>)
    requires Progress(f, run, k, before, now, done, sofar) && k < |Edges(f, run)|
    requires Edges(f, run)[k].policy.Abandon?
    ensures Progress(f, run, k + 1, before, now, done, sofar)
  {
  }

  lemma {:induction false} TallyKills(f: Forest, run: Run, k: nat, gone: set<Run>, more: set<Run>,
                                      done: seq<Effect>, sofar: seq<Effect>, after: seq<Effect>)
    requires k < |Edges(f, run)| && Kills(Edges(f, run)[k]) && gone !! more && run in gone
    requires Tally(f, run, k, gone, done, sofar) && Performed(f, more, sofar, after)
    ensures Tally(f, run, k + 1, gone + more, done, after)
  {
  }

  lemma {:induction false} ProgressKills(f: Forest, run: Run, k: nat, before: set<Run>, now: set<Run>, after: set<Run>,
                                         done: seq<Effect>, sofar: seq<Effect>, effects: seq<Effect>)
    requires Progress(f, run, k, before, now, done, sofar) && k < |Edges(f, run)| && Kills(Edges(f, run)[k])
    requires Reaped(f, now, after, f.current[Edges(f, run)[k].id])
    requires Performed(f, now - after, sofar, effects)
    ensures Progress(f, run, k + 1, before, after, done, effects)
  {
    var child := f.current[Edges(f, run)[k].id];
    ReapedShut(f, now, after, child);
    assert Leads(f, run, child) by {
      assert Edges(f, run)[k] in Edges(f, run);
    }
    forall r | r in now - after ensures Doomed(f, before, run, r) {
      DoomedBehind(f, before, now, run, child, r);
    }
    TallyKills(f, run, k, before - now, now - after, done, sofar, effects);
    assert before - after == (before - now) + (now - after);
  }

  lemma {:induction false} ProgressEnds(f: Forest, run: Run, before: set<Run>, now: set<Run>,
                                        done: seq<Effect>, sofar: seq<Effect>)
    requires Progress(f, run, |Edges(f, run)|, before, now, done, sofar)
    ensures Reaped(f, before, now, run) && Performed(f, before - now, done, sofar)
  {
    forall r, child | r in before - now && Leads(f, r, child) ensures child !in now {
      if r == run {
        var e :| e in Edges(f, run) && Kills(e) && e.id in f.current && f.current[e.id] == child;
      }
    }
    forall r | Doomed(f, before, run, r) ensures r in before - now {
      ShutDooms(f, before, now, run, r);
    }
  }

  lemma {:induction false} NothingReaped(f: Forest, open: set<Run>, root: Run, effects: seq<Effect>)
    requires root !in open
    ensures Reaped(f, open, open, root) && Performed(f, open - open, effects, effects)
  {
    forall run ensures !Doomed(f, open, root, run) {
      if Doomed(f, open, root, run) {
        DoomedEarlier(f, open, open, root, run);
      }
    }
  }

  // ---------------------------------------------------------------------
  // The interpreter's sweep over its pending children
  // ---------------------------------------------------------------------

  ghost predicate Sweeps(f: Forest, self: Run, pending: seq<Child>, n: nat, a: Effect)
    requires n <= |pending|
  {
    && a.Send? && a.parent == self && a.place < n && pending[a.place].started
    && pending[a.place].edge.policy.RequestCancel?
    && pending[a.place].edge.id in f.current && a.target == f.current[pending[a.place].edge.id]
  }

  /** Where the sweep stands after i children. */
  ghost predicate Sweeping(f: Forest, self: Run, pending: seq<Child>, i: nat, before: set<Run>, now: set<Run>,
                           done: seq<Effect>, sofar: seq<Effect>)
  {
    && i <= |pending| && now <= before && Shut(f, before, now)
    && (forall r :: r in before - now ==> Behind(f, before, Started(pending), r))
    && (forall j :: 0 <= j < i && pending[j].started && Kills(pending[j].edge) && pending[j].edge.id in f.current ==>
          f.current[pending[j].edge.id] !in now)
    && forall a :: Count(sofar, a) ==
         Count(done, a) + (if Due(f, before - now, a) then 1 else 0) + if Sweeps(f, self, pending, i, a) then 1 else 0
  }

  lemma {:induction false} SweepKills(f: Forest, self: Run, pending: seq<Child>, i: nat,
                                      before: set<Run>, now: set<Run>, after: set<Run>,
                                      done: seq<Effect>, sofar: seq<Effect>, effects: seq<Effect>)
    requires Sweeping(f, self, pending, i, before, now, done, sofar) && i < |pending|
    requires pending[i].started && Kills(pending[i].edge) && pending[i].edge.id in f.current
    requires Reaped(f, now, after, f.current[pending[i].edge.id])
    requires Performed(f, now - after, sofar, effects)
    ensures Sweeping(f, self, pending, i + 1, before, after, done, effects)
  {
    var root := f.current[pending[i].edge.id];
    ReapedShut(f, now, after, root);
    StartedHas(pending, pending[i].edge);
    assert pending[i] == Child(pending[i].edge, true);
    forall r | r in now - after ensures Behind(f, before, Started(pending), r) {
      DoomedEarlier(f, before, now, root, r);
    }
    forall a
      ensures Due(f, before - after, a) <==> Due(f, before - now, a) || Due(f, now - after, a)
    {
      assert before - after == (before - now) + (now - after);
    }
  }

  lemma {:induction false} SweepSends(f: Forest, self: Run, pending: seq<Child>, i: nat, before: set<Run>, now: set<Run>,
                                      done: seq<Effect>, sofar: seq<Effect>)
    requires Sweeping(f, self, pending, i, before, now, done, sofar) && i < |pending|
    requires pending[i].started && pending[i].edge.policy.RequestCancel? && pending[i].edge.id in f.current
    ensures Sweeping(f, self, pending, i + 1, before, now, done,
                     sofar + [Send(self, i, f.current[pending[i].edge.id])])
  {
    CountNext(sofar, Send(self, i, f.current[pending[i].edge.id]));
  }

  lemma {:induction false} SweepSkips(f: Forest, self: Run, pending: seq<Child>, i: nat, before: set<Run>, now: set<Run>,
                                      done: seq<Effect>, sofar: seq<Effect>)
    requires Sweeping(f, self, pending, i, before, now, done, sofar) && i < |pending|
    requires !pending[i].started || pending[i].edge.policy.Abandon?
    ensures Sweeping(f, self, pending, i + 1, before, now, done, sofar)
  {
  }

  lemma {:induction false} SweepEnds(f: Forest, self: Run, pending: seq<Child>, before: set<Run>, now: set<Run>,
                                     done: seq<Effect>, sofar: seq<Effect>)
    requires Sweeping(f, self, pending, |pending|, before, now, done, sofar)
    ensures forall r :: r in before - now <==> Behind(f, before, Started(pending), r)
  {
    forall r | Behind(f, before, Started(pending), r) ensures r in before - now {
      var e :| e in Started(pending) && Kills(e) && e.id in f.current && Doomed(f, before, f.current[e.id], r);
      StartedHas(pending, e);
      ShutDooms(f, before, now, f.current[e.id], r);
    }
  }

  // ---------------------------------------------------------------------
  // The client's walk below a terminated run
  // ---------------------------------------------------------------------

  /** A request-cancel edge of the parent (among its first k) or of a run gone,
      whose child's current run is among these. */
  ghost predicate Asks(f: Forest, parent: Run, k: nat, gone: set<Run>, runs: set<Run>, a: Effect) {
    && a.Send? && (if a.parent == parent then a.place < k else a.parent in gone)
    && a.place < |Edges(f, a.parent)| && Edges(f, a.parent)[a.place].policy.RequestCancel?
    && Edges(f, a.parent)[a.place].id in f.current && a.target == f.current[Edges(f, a.parent)[a.place].id]
    && a.target in runs
  }

  /** Every run gone was cancelled once; a request-cancel edge was served at most
      once, only if its child was open at first, and surely if it still is. */
  ghost predicate Walked(f: Forest, parent: Run, k: nat, before: set<Run>, now: set<Run>,
                         done: seq<Effect>, sofar: seq<Effect>)
  {
    forall a ::
      && Count(done, a) <= Count(sofar, a) <= Count(done, a) + 1
      && (a.Cancel? ==> (Count(sofar, a) > Count(done, a) <==> a.run in before - now))
      && (a.Send? && Count(sofar, a) > Count(done, a) ==> Asks(f, parent, k, before - now, before, a))
      && (Asks(f, parent, k, before - now, now, a) ==> Count(sofar, a) > Count(done, a))
  }

  ghost predicate Walking(f: Forest, parent: Run, k: nat, before: set<Run>, now: set<Run>,
                          done: seq<Effect>, sofar: seq<Effect>)
  {
    && k <= |Edges(f, parent)| && Known(f, Edges(f, parent))
    && parent !in before && now <= before && Shut(f, before, now)
    && (forall r :: r in before - now ==> Behind(f, before, Edges(f, parent), r))
    && (forall i :: 0 <= i < k && Kills(Edges(f, parent)[i]) ==> f.current[Edges(f, parent)[i].id] !in now)
    && Walked(f, parent, k, before, now, done, sofar)
  }

  lemma {:induction false} BehindShut(f: Forest, before: set<Run>, after: set<Run>, edges: seq<Edge>)
    requires after <= before && forall r :: r in before - after <==> Behind(f, before, edges, r)
    ensures Shut(f, before, after)
    ensures forall e <- edges :: Kills(e) && e.id in f.current ==> f.current[e.id] !in after
  {
    forall r, child | r in before - after && Leads(f, r, child) ensures child !in after {
      if child in before {
        var e :| e in edges && Kills(e) && e.id in f.current && Doomed(f, before, f.current[e.id], r);
        DoomedFollows(f, before, f.current[e.id], r, child);
      }
    }
    forall e | e in edges && Kills(e) && e.id in f.current ensures f.current[e.id] !in after {
      if f.current[e.id] in before {
        DoomedItself(f, before, f.current[e.id]);
      }
    }
  }

  /** Cancelling a child and walking below it, as far as the effects go. */
  lemma {:induction false} WalkedKills(f: Forest, parent: Run, k: nat, child: Run, before: set<Run>, now: set<Run>,
                                       after: set<Run>, done: seq<Effect>, sofar: seq<Effect>, effects: seq<Effect>)
    requires Walked(f, parent, k, before, now, done, sofar) && k < |Edges(f, parent)|
    requires Kills(Edges(f, parent)[k]) && parent !in before
    requires child in now && after <= now - {child} && now <= before
    requires Walked(f, child, |Edges(f, child)|, now - {child}, after, sofar + [Cancel(child)], effects)
    ensures Walked(f, parent, k + 1, before, after, done, effects)
  {
    CountNext(sofar, Cancel(child));
    forall a: Effect | a.Send?
      ensures Count(effects, a) > Count(sofar, a) ==> a.parent in now && Count(sofar, a) == Count(done, a)
      ensures Asks(f, parent, k + 1, before - after, after, a) ==> Count(effects, a) > Count(done, a)
      ensures Count(effects, a) > Count(done, a) ==> Asks(f, parent, k + 1, before - after, before, a)
    {
      assert Count(sofar + [Cancel(child)], a) == Count(sofar, a);
    }
  }

  lemma {:induction false} WalkKills(f: Forest, parent: Run, k: nat, before: set<Run>, now: set<Run>, after: set<Run>,
                                     done: seq<Effect>, sofar: seq<Effect>, effects: seq<Effect>)
    requires Walking(f, parent, k, before, now, done, sofar) && k < |Edges(f, parent)| && Kills(Edges(f, parent)[k])
    requires
      var child := f.current[Edges(f, parent)[k].id];
      && child in now && after <= now - {child}
      && (forall r :: r in now - {child} - after <==> Behind(f, now - {child}, Edges(f, child), r))
      && Walked(f, child, |Edges(f, child)|, now - {child}, after, sofar + [Cancel(child)], effects)
    ensures Walking(f, parent, k + 1, before, after, done, effects)
  {
    var edge := Edges(f, parent)[k];
    var child := f.current[edge.id];
    var fewer := now - {child};
    assert edge in Edges(f, parent);
    BehindShut(f, fewer, after, Edges(f, child));
    DoomedItself(f, before, child);
    forall r | r in fewer - after ensures Behind(f, before, Edges(f, parent), r) {
      var e :| e in Edges(f, child) && Kills(e) && e.id in f.current && Doomed(f, fewer, f.current[e.id], r);
      assert Leads(f, child, f.current[e.id]);
      DoomedBehind(f, before, fewer, child, f.current[e.id], r);
    }
    WalkedKills(f, parent, k, child, before, now, after, done, sofar, effects);
  }

  lemma {:induction false} WalkSkips(f: Forest, parent: Run, k: nat, before: set<Run>, now: set<Run>,
                                     done: seq<Effect>, sofar: seq<Effect>)
    requires Walking(f, parent, k, before, now, done, sofar) && k < |Edges(f, parent)|
    requires Edges(f, parent)[k].policy.Abandon? || f.current[Edges(f, parent)[k].id] !in now
    ensures Walking(f, parent, k + 1, before, now, done, sofar)
  {
  }

  lemma {:induction false} WalkSends(f: Forest, parent: Run, k: nat, before: set<Run>, now: set<Run>,
                                     done: seq<Effect>, sofar: seq<Effect>)
    requires Walking(f, parent, k, before, now, done, sofar) && k < |Edges(f, parent)|
    requires Edges(f, parent)[k].policy.RequestCancel? && f.current[Edges(f, parent)[k].id] in now
    ensures
      var child := f.current[Edges(f, parent)[k].id];
      Walking(f, parent, k + 1, before, now, done, sofar + [Send(parent, k, child)])
  {
    CountNext(sofar, Send(parent, k, f.current[Edges(f, parent)[k].id]));
  }

  lemma {:induction false} WalkEnds(f: Forest, parent: Run, before: set<Run>, now: set<Run>,
                                    done: seq<Effect>, sofar: seq<Effect>)
    requires Walking(f, parent, |Edges(f, parent)|, before, now, done, sofar)
    ensures forall r :: r in before - now <==> Behind(f, before, Edges(f, parent), r)
  {
    forall r | Behind(f, before, Edges(f, parent), r) ensures r in before - now {
      var e :| e in Edges(f, parent) && Kills(e) && e.id in f.current && Doomed(f, before, f.current[e.id], r);
      ShutDooms(f, before, now, f.current[e.id], r);
    }
  }

  /** The runs as the database holds them. */
  class Namespace {
    const forest: Forest
    var open: set<Run>
    var effects: seq<Effect>

    constructor (forest: Forest, open: set<Run>)
      ensures this.forest == forest && this.open == open && effects == []
    {
      this.forest, this.open, effects := forest, open, [];
    }

    method CancelRun(run: Run)
      requires run in open
      modifies this
      ensures open == old(open) - {run} && effects == old(effects) + [Cancel(run)]
    {
      open := open - {run};
      effects := effects + [Cancel(run)];
    }

    method SendCancel(parent: Run, place: nat, target: string)
      modifies this`effects
      ensures effects == old(effects) + [Send(parent, place, target)]
    {
      effects := effects + [Send(parent, place, target)];
    }

    /** Terminates exactly the open runs that terminate edges reach through open
        runs, once each, and serves each of their request-cancel edges once. */
    method TerminateChildTree(id: string, visited: set<string>) returns (seen: set<string>)
      requires WellFormed(forest) && id in forest.current
      requires visited <= forest.current.Keys && forall v <- visited :: forest.current[v] !in open
      modifies this
      ensures visited + {id} <= seen <= forest.current.Keys
      ensures forall v <- seen :: forest.current[v] !in open
      ensures Reaped(forest, old(open), open, forest.current[id])
      ensures Performed(forest, old(open) - open, old(effects), effects)
      decreases forest.current.Keys - visited
    {
      ghost var before, done := open, effects;
      if id in visited {
        NothingReaped(forest, before, forest.current[id], effects);
        return visited;
      }
      seen := visited + {id};
      var run := forest.current[id];
      if run !in open {
        NothingReaped(forest, before, run, effects);
        return;
      }
      CancelRun(run);
      ProgressStarts(forest, run, before, done);
      var edges := Edges(forest, run);
      for k := 0 to |edges|
        invariant visited + {id} <= seen <= forest.current.Keys
        invariant forall v <- seen :: forest.current[v] !in open
        invariant Progress(forest, run, k, before, open, done, effects)
      {
        var e := edges[k];
        assert e.id in forest.current;
        ghost var now, sofar := open, effects;
        assert id !in forest.current.Keys - seen && id in forest.current.Keys - visited;
        if e.policy.RequestCancel? {
          SendCancel(run, k, e.id);
          ProgressSends(forest, run, k, before, now, done, sofar);
        } else if Kills(e) {
          seen := TerminateChildTree(e.id, seen);
          ProgressKills(forest, run, k, before, now, open, done, sofar, effects);
        } else {
          ProgressSkips(forest, run, k, before, now, done, sofar);
        }
      }
      ProgressEnds(forest, run, before, open, done, effects);
    }

    /** The sweep of a closing run: what goes is exactly what is open behind the
        terminate edges of its started children. */
    method SweepChildrenOnClose(self: Run, pending: seq<Child>)
      requires WellFormed(forest) && Known(forest, Started(pending))
      modifies this
      ensures open <= old(open)
      ensures forall run :: run in old(open) - open <==> Behind(forest, old(open), Started(pending), run)
      ensures forall a ::
                Count(effects, a) == Count(old(effects), a) +
                                     (if Due(forest, old(open) - open, a) then 1 else 0) +
                                     (if Sweeps(forest, self, pending, |pending|, a) then 1 else 0)
    {
      ghost var before, done := open, effects;
      for i := 0 to |pending|
        invariant Sweeping(forest, self, pending, i, before, open, done, effects)
      {
        var child := pending[i];
        ghost var now, sofar := open, effects;
        if !child.started || child.edge.policy.Abandon? {
          SweepSkips(forest, self, pending, i, before, now, done, sofar);
        } else {
          assert child.edge.id in forest.current by {
            StartedHas(pending, child.edge);
            assert pending[i] == Child(child.edge, true);
          }
          if child.edge.policy.RequestCancel? {
            SendCancel(self, i, forest.current[child.edge.id]);
            SweepSends(forest, self, pending, i, before, now, done, sofar);
          } else {
            var _ := TerminateChildTree(child.edge.id, {});
            SweepKills(forest, self, pending, i, before, now, open, done, sofar, effects);
          }
        }
      }
      SweepEnds(forest, self, pending, before, open, done, effects);
    }

    /** The client's walk: what goes is exactly what is open behind the terminate
        edges of the run already terminated. */
    method ApplyParentClosePolicies(parent: Run, visited: set<Run>) returns (seen: set<Run>)
      requires WellFormed(forest) && parent !in open && visited !! open
      modifies this
      ensures visited + {parent} <= seen && seen !! open && open <= old(open)
      ensures parent in visited ==> open == old(open) && effects == old(effects)
      ensures parent !in visited ==>
          forall run :: run in old(open) - open <==> Behind(forest, old(open), Edges(forest, parent), run)
      ensures parent !in visited ==>
          Walked(forest, parent, |Edges(forest, parent)|, old(open), open, old(effects), effects)
      decreases open
    {
      if parent in visited {
        return visited;
      }
      seen := visited + {parent};
      ghost var before, done := open, effects;
      var edges := Edges(forest, parent);
      for k := 0 to |edges|
        invariant visited + {parent} <= seen && seen !! open
        invariant Walking(forest, parent, k, before, open, done, effects)
      {
        var e := edges[k];
        assert e.id in forest.current;
        var child := forest.current[e.id];
        ghost var now, sofar := open, effects;
        if e.policy.Abandon? || child !in open {
          WalkSkips(forest, parent, k, before, now, done, sofar);
        } else if e.policy.RequestCancel? {
          SendCancel(parent, k, child);
          WalkSends(forest, parent, k, before, now, done, sofar);
        } else {
          CancelRun(child);
          seen := ApplyParentClosePolicies(child, seen);
          WalkKills(forest, parent, k, before, now, open, done, sofar, effects);
        }
      }
      WalkEnds(forest, parent, before, open, done, effects);
    }
  }
}
