/**
 Run chains: the hops that extend a chain and what they keep, whoever takes them
 and however stale the run index they were computed from.
 */
module RunChain {
  import opened Prelude
  import opened Retry

  /** The metadata a run carries that decides its successors. */
  datatype Meta = Meta(attempt: nat, retry: Option<Policy>, cron: bool)

  /** One chain: its runs by index. */
  type Chain = map<nat, Meta>

  /** What a successor inherits before the hop fills in its own fields. */
  function CarriedForward(meta: Meta): Meta {
    meta.(attempt := 1)
  }

  function WorkflowRetryDelay(policy: Policy, attempt: nat, failure: Failure): Option<real>
    requires attempt >= 1
  {
    if failure.cls.CancelledError? || failure.cls.TerminatedError? then None
    else if failure.cls.TimeoutError? && failure.cls.timeout != StartToClose && failure.cls.timeout != Heartbeat then None
    else if failure.nonRetryable then None
    else if failure.type_.Some? && failure.type_.value in policy.nonRetryableTypes then None
    else if policy.maximumAttempts != 0 && attempt >= policy.maximumAttempts then None
    else if failure.nextRetryDelay.Some? then failure.nextRetryDelay
    else
      var cap := if policy.maximumInterval.Some? then policy.maximumInterval.value else policy.initialInterval * 100.0;
      Some(Min(GrownInterval(policy, attempt), cap))
  }

  /** The successor a failed run gets: a retry if the policy has one left, else the
      next cron occurrence; a cancel observed around the close ends the chain. */
  function AfterFailure(meta: Meta, failure: Failure, cancelled: bool): Option<Meta>
    requires meta.attempt >= 1
  {
    if cancelled then None
    else if meta.retry.Some? && WorkflowRetryDelay(meta.retry.value, meta.attempt, failure).Some? then
      Some(CarriedForward(meta).(attempt := meta.attempt + 1))
    else if meta.cron then Some(CarriedForward(meta))
    else None
  }

  datatype Observed = Observed(index: nat, open: bool, completed: bool)
  datatype Reuse = AllowDuplicate | AllowFailedOnly | RejectDuplicate | TerminateIfRunning
  datatype Conflict = Unspecified | Fail | UseExisting | TerminateExisting
  datatype Start = Attach | AlreadyStarted | StartAt(index: nat)

  /** The client's choice of a run index from the newest run it resolved. */
  function StartDecision(current: Option<Observed>, reuse: Reuse, conflict: Conflict): Start {
    if current.None? then StartAt(0)
    else if current.value.open && conflict.UseExisting? then Attach
    else if current.value.open && !conflict.TerminateExisting? && !reuse.TerminateIfRunning? then AlreadyStarted
    else if reuse.RejectDuplicate? then AlreadyStarted
    else if reuse.AllowFailedOnly? && !current.value.open && current.value.completed then AlreadyStarted
    else StartAt(current.value.index + 1)
  }

  /** Whether the client cancels the open run it found before it decides further. */
  predicate TerminatesOpen(current: Option<Observed>, reuse: Reuse, conflict: Conflict) {
    && current.Some? && current.value.open && !conflict.UseExisting?
    && (conflict.TerminateExisting? || reuse.TerminateIfRunning?)
  }

  /** A start attaches only to an open run and only when asked to, never leaves an
      open run running beside the new one, and is refused exactly where a policy
      forbids it; a fresh id always starts run 0. */
  lemma StartsRespectPolicies(current: Option<Observed>, reuse: Reuse, conflict: Conflict)
    ensures
      var start := StartDecision(current, reuse, conflict);
      && (current.None? <==> start == StartAt(0))
      && (start.Attach? <==> current.Some? && current.value.open && conflict.UseExisting?)
      && (start.StartAt? && current.Some? ==>
            && start.index == current.value.index + 1
            && (current.value.open ==> TerminatesOpen(current, reuse, conflict)))
      && (start.AlreadyStarted? <==>
            && current.Some? && !start.Attach?
            && (|| (current.value.open && !TerminatesOpen(current, reuse, conflict))
                || reuse.RejectDuplicate?
                || (reuse.AllowFailedOnly? && !current.value.open && current.value.completed)))
  {
  }

  /** Terminated for nothing: an open run is cancelled and the start refused all the
      same exactly when duplicates are rejected but existing runs terminated. */
  lemma RefusedAfterTerminating(current: Option<Observed>, reuse: Reuse, conflict: Conflict)
    ensures TerminatesOpen(current, reuse, conflict) && StartDecision(current, reuse, conflict).AlreadyStarted? <==>
        current.Some? && current.value.open && reuse.RejectDuplicate? && conflict.TerminateExisting?
  {
    StartsRespectPolicies(current, reuse, conflict);
  }

  /** Enqueueing under an id that exists re-attaches to it. */
  function Enqueue(chain: Chain, index: nat, meta: Meta): Chain {
    if index in chain then chain else chain[index := meta]
  }

  datatype Step =
    | ClientStart(current: Option<Observed>, reuse: Reuse, conflict: Conflict, retry: Option<Policy>, cron: bool)
    | ContinueAsNew(run: nat, retry: Option<Policy>)
    | Failed(run: nat, failure: Failure, cancelled: bool)
    | CronCompleted(run: nat, cancelled: bool)

  /** A hop is taken by an existing run, any number of times (a crash after the
      enqueue repeats it); a client saw a run that existed by then, or none. */
  ghost predicate Possible(chain: Chain, step: Step) {
    match step
    case ClientStart(current, _, _, _, _) => current.Some? ==> current.value.index in chain
    case ContinueAsNew(run, _) => run in chain
    case Failed(run, _, _) => run in chain && chain[run].attempt >= 1
    case CronCompleted(run, _) => run in chain && chain[run].cron
  }

  function Next(chain: Chain, step: Step): Chain
    requires Possible(chain, step)
  {
    match step
    case ClientStart(current, reuse, conflict, retry, cron) =>
      (match StartDecision(current, reuse, conflict)
       case StartAt(index) => Enqueue(chain, index, Meta(1, retry, cron))
       case Attach => chain
       case AlreadyStarted => chain)
    case ContinueAsNew(run, retry) =>
      var carried := CarriedForward(chain[run]);
      Enqueue(chain, run + 1, if retry.Some? then carried.(retry := retry) else carried)
    case Failed(run, failure, cancelled) =>
      var next := AfterFailure(chain[run], failure, cancelled);
      if next.Some? then Enqueue(chain, run + 1, next.value) else chain
    case CronCompleted(run, cancelled) =>
      if cancelled then chain else Enqueue(chain, run + 1, CarriedForward(chain[run]))
  }

  ghost predicate Run(chain: Chain, steps: seq<Step>, chain': Chain)
    decreases |steps|
  {
    if steps == [] then chain == chain'
    else Possible(chain, steps[0]) && Run(Next(chain, steps[0]), steps[1..], chain')
  }

  ghost predicate Respects(meta: Meta) {
    && 1 <= meta.attempt
    && (meta.retry.Some? && meta.retry.value.maximumAttempts >= 1 ==> meta.attempt <= meta.retry.value.maximumAttempts)
  }

  /** n runs, indexed exactly 0..n-1, their attempts within their policies. */
  ghost predicate Proper(chain: Chain, n: nat) {
    && (forall i: nat :: i in chain <==> i < n)
    && (forall i <- chain :: Respects(chain[i]))
  }

  ghost predicate Grown(chain: Chain, chain': Chain) {
    forall i <- chain :: i in chain' && chain'[i] == chain[i]
  }

  lemma EnqueueKeeps(chain: Chain, n: nat, index: nat, meta: Meta) returns (n': nat)
    requires Proper(chain, n) && index <= n && Respects(meta)
    ensures Proper(Enqueue(chain, index, meta), n') && n <= n' <= n + 1
    ensures Grown(chain, Enqueue(chain, index, meta))
  {
    n' := if index in chain then n else n + 1;
  }

  /** What AfterFailure hands on respects the policy it was decided by. */
  lemma RetryRespects(meta: Meta, failure: Failure, cancelled: bool)
    requires Respects(meta)
    ensures AfterFailure(meta, failure, cancelled).Some? ==> Respects(AfterFailure(meta, failure, cancelled).value)
  {
    if meta.retry.Some? && meta.retry.value.maximumAttempts >= 1 && meta.attempt >= meta.retry.value.maximumAttempts {
      assert WorkflowRetryDelay(meta.retry.value, meta.attempt, failure).None?;
    }
  }

  // ---------------------------------------------------------------------
  // Which hops are taken, and with what
  // ---------------------------------------------------------------------

  /** The failures a workflow's retry policy retries, attempts apart. */
  ghost predicate Retries(policy: Policy, failure: Failure) {
    && failure.cls != CancelledError && failure.cls != TerminatedError
    && (failure.cls.TimeoutError? ==> failure.cls.timeout == StartToClose || failure.cls.timeout == Heartbeat)
    && !failure.nonRetryable
    && (failure.type_.Some? ==> failure.type_.value !in policy.nonRetryableTypes)
  }

  /** A retry of the run is due: its policy retries the failure and has attempts left. */
  ghost predicate RetryDue(meta: Meta, failure: Failure) {
    && meta.retry.Some? && Retries(meta.retry.value, failure)
    && (meta.retry.value.maximumAttempts != 0 ==> meta.attempt < meta.retry.value.maximumAttempts)
  }

  /** A failure after a cancel ends the chain.  Otherwise a failure of the newest run
      gets a successor exactly if a retry is due, which counts the attempt on, or the
      run has a cron, which begins again at attempt 1; policy and cron are handed on. */
  lemma FailureHopsExactly(chain: Chain, n: nat, run: nat, failure: Failure, cancelled: bool)
    requires Proper(chain, n) && n > 0 && run == n - 1 && Possible(chain, Failed(run, failure, cancelled))
    ensures
      var meta, after := chain[run], Next(chain, Failed(run, failure, cancelled));
      && (cancelled ==> after == chain)
      && (!cancelled && RetryDue(meta, failure) ==> after == chain[run + 1 := meta.(attempt := meta.attempt + 1)])
      && (!cancelled && !RetryDue(meta, failure) && meta.cron ==> after == chain[run + 1 := meta.(attempt := 1)])
      && (!cancelled && !RetryDue(meta, failure) && !meta.cron ==> after == chain)
      && (run + 1 in after <==> !cancelled && (RetryDue(meta, failure) || meta.cron))
  {
  }

  /** A completed cron run is followed unless it was cancelled; a run that continues as
      new always is, with the policy it asks for or its own; a start adds a run only
      where the policies let it. */
  lemma OtherHopsExactly(chain: Chain, n: nat, run: nat, cancelled: bool, retry: Option<Policy>)
    requires Proper(chain, n) && n > 0 && run == n - 1
    ensures chain[run].cron ==>
        Next(chain, CronCompleted(run, cancelled)) ==
        if cancelled then chain else chain[run + 1 := Meta(1, chain[run].retry, true)]
    ensures Next(chain, ContinueAsNew(run, retry)) ==
        chain[run + 1 := Meta(1, if retry.Some? then retry else chain[run].retry, chain[run].cron)]
  {
  }

  /** What a client's start does to the chain whose newest run it has seen. */
  lemma StartHopsExactly(chain: Chain, n: nat, open: bool, completed: bool, reuse: Reuse, conflict: Conflict,
                         retry: Option<Policy>, cron: bool)
    requires Proper(chain, n)
    ensures
      var seen := if n == 0 then None else Some(Observed(n - 1, open, completed));
      var refused :=
        && n > 0
        && (|| (open && !conflict.TerminateExisting? && !reuse.TerminateIfRunning?)
            || reuse.RejectDuplicate? || (reuse.AllowFailedOnly? && !open && completed));
      var attached := n > 0 && open && conflict.UseExisting?;
      Next(chain, ClientStart(seen, reuse, conflict, retry, cron)) ==
      if attached || refused then chain else chain[n := Meta(1, retry, cron)]
  {
  }

  /** A hop repeated, or computed from a run that is no longer the newest, changes nothing. */
  lemma StaleHopsChangeNothing(chain: Chain, n: nat, run: nat, step: Step)
    requires Proper(chain, n) && run + 1 < n && Possible(chain, step)
    requires (step.ContinueAsNew? && step.run == run) || (step.Failed? && step.run == run)
             || (step.CronCompleted? && step.run == run)
    ensures Next(chain, step) == chain
  {
  }

  /** The delay before a retried run: the override, or the initial interval at first... */
  lemma WorkflowDelays(policy: Policy, attempt: nat, failure: Failure)
    requires attempt >= 1
    ensures WorkflowRetryDelay(policy, attempt, failure).Some? <==>
        Retries(policy, failure) && (policy.maximumAttempts != 0 ==> attempt < policy.maximumAttempts)
    ensures
      var delay := WorkflowRetryDelay(policy, attempt, failure);
      delay.Some? && failure.nextRetryDelay.Some? ==> delay == failure.nextRetryDelay
    ensures
      var delay, most := WorkflowRetryDelay(policy, attempt, failure), policy.maximumInterval;
      delay.Some? && failure.nextRetryDelay.None? && attempt == 1 && policy.Valid() ==>
        delay == Some(if most.Some? && most.value < policy.initialInterval then most.value else policy.initialInterval)
  {
    assert Power(policy.coefficient, 0) == 1.0 && GrownInterval(policy, 1) == policy.initialInterval;
  }

  /** ...then the coefficient times the one before, up to the maximum interval, zero
      included, or to a hundred initial ones without one. */
  lemma NextWorkflowDelay(policy: Policy, attempt: nat, failure: Failure, failure': Failure)
    requires attempt >= 1 && policy.Valid() && failure.nextRetryDelay.None? && failure'.nextRetryDelay.None?
    requires WorkflowRetryDelay(policy, attempt, failure).Some? && WorkflowRetryDelay(policy, attempt + 1, failure').Some?
    ensures
      var before, delay := WorkflowRetryDelay(policy, attempt, failure).value, WorkflowRetryDelay(policy, attempt + 1, failure').value;
      var most := if policy.maximumInterval.Some? then policy.maximumInterval.value else 100.0 * policy.initialInterval;
      delay == if policy.coefficient * before < most then policy.coefficient * before else most
  {
    var most := if policy.maximumInterval.Some? then policy.maximumInterval.value else policy.initialInterval * 100.0;
    assert policy.maximumAttempts != 1;
    CappedGrowth(policy, attempt, most);
  }

  /** A maximum interval of zero is none to an activity's retries and zero to a
      workflow's: where both retry without an override they wait equally long exactly
      unless it is zero and the initial interval is not. */
  lemma ZeroMaximumDiffers(policy: Policy, failure: Failure)
    requires policy.Valid() && failure.nextRetryDelay.None?
    requires RetryDecision(policy, 1, failure, None, None).0.Some? && WorkflowRetryDelay(policy, 1, failure).Some?
    ensures RetryDecision(policy, 1, failure, None, None).0 == WorkflowRetryDelay(policy, 1, failure) <==>
        !(policy.maximumInterval == Some(0.0) && policy.initialInterval != 0.0)
  {
    FirstDelay(policy, 1, failure, None, None);
    WorkflowDelays(policy, 1, failure);
  }

  /** A step adds at most the next run and rewrites none. */
  lemma StepKeeps(chain: Chain, n: nat, step: Step) returns (n': nat)
    requires Proper(chain, n) && Possible(chain, step)
    ensures Proper(Next(chain, step), n') && n <= n' <= n + 1
    ensures Grown(chain, Next(chain, step))
  {
    n' := n;
    match step
    case ClientStart(current, reuse, conflict, retry, cron) =>
      var start := StartDecision(current, reuse, conflict);
      if start.StartAt? {
        n' := EnqueueKeeps(chain, n, start.index, Meta(1, retry, cron));
      }
    case ContinueAsNew(run, retry) =>
      var carried := CarriedForward(chain[run]);
      n' := EnqueueKeeps(chain, n, run + 1, if retry.Some? then carried.(retry := retry) else carried);
    case Failed(run, failure, cancelled) =>
      var next := AfterFailure(chain[run], failure, cancelled);
      RetryRespects(chain[run], failure, cancelled);
      if next.Some? {
        n' := EnqueueKeeps(chain, n, run + 1, next.value);
      }
    case CronCompleted(run, cancelled) =>
      if !cancelled {
        n' := EnqueueKeeps(chain, n, run + 1, CarriedForward(chain[run]));
      }
  }

  /** Under any interleaving of starts and hops the indexes stay 0..n-1, no run is
      replaced, and no run's attempt exceeds its policy's maximum. */
  lemma {:induction false} ChainsStayProper(chain: Chain, n: nat, steps: seq<Step>, chain': Chain) returns (n': nat)
    requires Proper(chain, n) && Run(chain, steps, chain')
    ensures Proper(chain', n') && n <= n' <= n + |steps|
    ensures Grown(chain, chain')
    decreases |steps|
  {
    n' := n;
    if steps != [] {
      var m := StepKeeps(chain, n, steps[0]);
      n' := ChainsStayProper(Next(chain, steps[0]), m, steps[1..], chain');
    }
  }
}

/** Resolution of the newest run while the chain keeps growing. */
module CurrentRun {
  import opened Prelude
  import opened LatestRun
  import RunChain

  ghost predicate Evolves(chain: RunChain.Chain, chain': RunChain.Chain) {
    chain' == chain || exists step :: RunChain.Possible(chain, step) && chain' == RunChain.Next(chain, step)
  }

  ghost predicate Ticks(at: nat -> RunChain.Chain, x: nat) {
    Evolves(at(x), at(x + 1))
  }

  /** A chain's life: its state at every instant, a step or nothing apart. */
  ghost predicate History(at: nat -> RunChain.Chain) {
    at(0) == map[] && forall x: nat :: Ticks(at, x)
  }

  /** The k-th probe finds what exists at the k-th instant. */
  ghost predicate Sees(present: Lookup, at: nat -> RunChain.Chain, instants: nat -> nat) {
    forall k: nat, i: nat :: present(k, i) <==> i in at(instants(k))
  }

  lemma {:induction false} HistoryIsProper(at: nat -> RunChain.Chain, x: nat) returns (n: nat, n': nat)
    requires History(at)
    ensures RunChain.Proper(at(x), n) && RunChain.Proper(at(x + 1), n') && n <= n' <= n + 1
  {
    if x == 0 {
      n := 0;
    } else {
      var _, m := HistoryIsProper(at, x - 1);
      n := m;
    }
    n' := n;
    assert Ticks(at, x);
    if at(x + 1) != at(x) {
      var step :| RunChain.Possible(at(x), step) && at(x + 1) == RunChain.Next(at(x), step);
      n' := RunChain.StepKeeps(at(x), n, step);
    }
  }

  /** The number of runs never shrinks and skips nothing: every count between those
      at two instants was the count at some instant between. */
  lemma {:induction false} CountsSkipNothing(at: nat -> RunChain.Chain, x: nat, y: nat, a: nat, b: nat, n: nat) returns (z: nat)
    requires History(at) && x <= y
    requires RunChain.Proper(at(x), a) && RunChain.Proper(at(y), b)
    ensures a <= b
    ensures a <= n <= b ==> x <= z <= y && RunChain.Proper(at(z), n)
    decreases y
  {
    z := y;
    if x < y {
      var c, d := HistoryIsProper(at, y - 1);
      SameCount(at(y), b, d);
      var earlier := CountsSkipNothing(at, x, y - 1, a, c, n);
      if n != b {
        z := earlier;
      }
    } else {
      SameCount(at(y), a, b);
    }
  }

  lemma SameCount(chain: RunChain.Chain, a: nat, b: nat)
    requires RunChain.Proper(chain, a) && RunChain.Proper(chain, b)
    ensures a == b
  {
    assert a in chain <==> a < a;
    assert b in chain <==> b < b;
  }

  /** Run `index` was the chain's newest at the instant z. */
  ghost predicate NewestAt(at: nat -> RunChain.Chain, z: nat, index: nat) {
    index in at(z) && forall i <- at(z) :: i <= index
  }

  ghost predicate InOrder(instants: nat -> nat) {
    forall j: nat, k: nat {:trigger instants(j), instants(k)} :: j <= k ==> instants(j) <= instants(k)
  }

  lemma DuringTheCall(instants: nat -> nat, k: nat, last: nat)
    requires InOrder(instants) && k <= last
    ensures instants(0) <= instants(k) <= instants(last)
  {
  }

  /** Linearizability: what the probes found and missed was the newest run at some
      instant between the first and the last probe. */
  lemma SearchIsLinearizable(
    present: Lookup, at: nat -> RunChain.Chain, instants: nat -> nat, probes: seq<seq<nat>>, index: nat)
    returns (z: nat)
    requires History(at) && InOrder(instants) && Sees(present, at, instants) && probes != []
    requires Found(present, probes, index) && Missed(present, probes, index + 1)
    ensures instants(0) <= z <= instants(|probes| - 1) && NewestAt(at, z, index)
  {
    var k :| 0 <= k < |probes| && index in probes[k] && present(k, index);
    var j :| 0 <= j < |probes| && index + 1 in probes[j] && !present(j, index + 1);
    DuringTheCall(instants, k, |probes| - 1);
    DuringTheCall(instants, j, |probes| - 1);
    z := BetweenProbes(at, instants(k), instants(j), index);
  }

  /** No answer means no run existed at the instant of the first probe. */
  lemma NothingMeansEmpty(present: Lookup, at: nat -> RunChain.Chain, instants: nat -> nat)
    requires History(at) && Sees(present, at, instants)
    requires forall i <- Ladder() :: !present(0, i)
    ensures at(instants(0)) == map[]
  {
    LadderShape();
    assert Ladder()[0] == 0 && !present(0, Ladder()[0]);
    var n, _ := HistoryIsProper(at, instants(0));
    assert 0 !in at(instants(0)) && n == 0;
    assert at(instants(0)).Keys == {};
  }

  /** The search while the chain grows: its answer was the newest run at some instant
      of the call, and no answer means that no run existed when it began. */
  method ResolveGrowing(present: Lookup, ghost at: nat -> RunChain.Chain, ghost instants: nat -> nat, ghost bound: nat)
    returns (r: Option<nat>, ghost probes: seq<seq<nat>>, ghost z: nat)
    requires History(at) && InOrder(instants) && Sees(present, at, instants)
    requires forall t: nat, i: nat :: present(t, i) ==> i < bound
    ensures probes != []
    ensures r.Some? ==> instants(0) <= z <= instants(|probes| - 1) && NewestAt(at, z, r.value)
    ensures r.None? ==> |probes| == 1 && at(instants(0)) == map[]
    ensures forall k: nat, m: nat :: r.Some? && r.value <= Power(17, k) + 17 && r.value < Reach(m) ==> |probes| <= k + m + 3
  {
    ghost var closing;
    r, probes, closing := ResolveLatestRun(present, bound);
    z := 0;
    if r.None? {
      NothingMeansEmpty(present, at, instants);
    } else {
      z := SearchIsLinearizable(present, at, instants, probes, r.value);
    }
  }

  lemma BetweenProbes(at: nat -> RunChain.Chain, x: nat, y: nat, index: nat) returns (z: nat)
    requires History(at) && index in at(x) && index + 1 !in at(y)
    ensures (x <= z <= y || y <= z <= x) && NewestAt(at, z, index)
  {
    var a, _ := HistoryIsProper(at, x);
    var b, _ := HistoryIsProper(at, y);
    if x <= y {
      z := CountsSkipNothing(at, x, y, a, b, a);
    } else {
      z := CountsSkipNothing(at, y, x, b, a, index + 1);
    }
  }

  ghost predicate Prefix(runs: set<nat>, n: nat) {
    forall i: nat :: i in runs <==> i < n
  }

  /** The search over a set of runs that does not change, gaps allowed: a returned
      run exists and the next does not; on a gapless chain it is the newest. */
  method ResolveFixed(runs: set<nat>, ghost bound: nat) returns (r: Option<nat>)
    requires forall i <- runs :: i < bound
    ensures r.Some? ==> r.value in runs && r.value + 1 !in runs
    ensures r.None? ==> forall i <- Ladder() :: i !in runs
    ensures forall n: nat :: Prefix(runs, n) ==> r == if n == 0 then None else Some(n - 1)
  {
    ghost var probes, closing;
    r, probes, closing := ResolveLatestRun((t, i) => i in runs, bound);
    LadderShape();
    assert Ladder()[0] == 0;
    assert 0 in Ladder();
  }
}
