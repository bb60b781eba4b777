/**
 Activity retry decisions, shared by the in-process and the queued path.

 Seconds are reals: the floats of the original carry wall-clock values whose
 rounding is not the point.
 */
module Retry {
  import opened Prelude

  datatype TimeoutType = StartToClose | ScheduleToStart | ScheduleToClose | Heartbeat

  datatype FailureClass = ApplicationError | CancelledError | TerminatedError | TimeoutError(timeout: TimeoutType) | OtherError

  /** The part of a failure envelope the decision reads. */
  datatype Failure = Failure(cls: FailureClass, type_: Option<string>, nonRetryable: bool, nextRetryDelay: Option<real>)

  datatype RetryState = InProgress | NonRetryableFailure | Timeout | MaximumAttemptsReached

  datatype Policy = Policy(
    initialInterval: real,
    coefficient: real,
    maximumInterval: Option<real>,
    maximumAttempts: int,
    nonRetryableTypes: set<string>)
  {
    /** A policy that disables retries skips the other checks; a maximum
        interval of zero counts as none. */
    predicate Valid() {
      maximumAttempts == 1 ||
      (&& 0.0 <= initialInterval
       && 1.0 <= coefficient
       && (CapsInterval() ==> initialInterval <= maximumInterval.value)
       && 0 <= maximumAttempts)
    }

    predicate CapsInterval() {
      maximumInterval.Some? && maximumInterval.value != 0.0
    }

    function Cap(): real {
      if CapsInterval() then maximumInterval.value else initialInterval * 100.0
    }
  }

  function Power(base: real, exponent: nat): real {
    if exponent == 0 then 1.0 else base * Power(base, exponent - 1)
  }

  function Min(a: real, b: real): real {
    if b < a then b else a
  }

  /** The interval grown by the coefficient for each attempt before. */
  function GrownInterval(policy: Policy, attempt: nat): real
    requires attempt >= 1
  {
    policy.initialInterval * Power(policy.coefficient, attempt - 1)
  }

  function Backoff(policy: Policy, attempt: nat, failure: Failure): real
    requires attempt >= 1
  {
    if failure.nextRetryDelay.Some? then failure.nextRetryDelay.value
    else Min(GrownInterval(policy, attempt), policy.Cap())
  }

  /** The delay before the next attempt, or None to give up, and the state to report. */
  function RetryDecision(policy: Policy, attempt: nat, failure: Failure, elapsed: Option<real>, scheduleToClose: Option<real>)
    : (Option<real>, RetryState)
    requires attempt >= 1
  {
    if failure.nonRetryable then (None, NonRetryableFailure)
    else if failure.type_.Some? && failure.type_.value in policy.nonRetryableTypes then (None, NonRetryableFailure)
    else if failure.cls == TimeoutError(ScheduleToClose) then (None, Timeout)
    else if policy.maximumAttempts != 0 && attempt >= policy.maximumAttempts then (None, MaximumAttemptsReached)
    else
      var delay := Backoff(policy, attempt, failure);
      if scheduleToClose.Some? && elapsed.Some? && elapsed.value + delay >= scheduleToClose.value then (None, Timeout)
      else (Some(delay), InProgress)
  }

  /** The tightest limit of an attempt and which limit it is; a tie goes to start-to-close. */
  function EffectiveDeadline(startToClose: Option<real>, remaining: Option<real>): (Option<real>, TimeoutType) {
    if startToClose.None? && remaining.None? then (None, StartToClose)
    else if remaining.None? then (Some(Max(0.0, startToClose.value)), StartToClose)
    else if startToClose.None? then (Some(Max(0.0, remaining.value)), ScheduleToClose)
    else if Max(0.0, remaining.value) < Max(0.0, startToClose.value) then (Some(Max(0.0, remaining.value)), ScheduleToClose)
    else (Some(Max(0.0, startToClose.value)), StartToClose)
  }

  lemma {:induction false} PowerAtLeastOne(base: real, exponent: nat)
    requires base >= 1.0
    ensures Power(base, exponent) >= 1.0
  {
    if exponent > 0 {
      PowerAtLeastOne(base, exponent - 1);
    }
  }

  /** Without an override every backoff lasts at least the initial interval. */
  lemma BackoffAtLeastInitial(policy: Policy, attempt: nat, failure: Failure)
    requires attempt >= 1 && policy.Valid() && policy.maximumAttempts != 1
    requires failure.nextRetryDelay.None?
    ensures policy.initialInterval <= Backoff(policy, attempt, failure)
  {
    PowerAtLeastOne(policy.coefficient, attempt - 1);
    assert policy.initialInterval <= GrownInterval(policy, attempt) by {
      ScalesUp(policy.initialInterval, Power(policy.coefficient, attempt - 1));
    }
    assert policy.initialInterval <= policy.Cap();
  }

  lemma ScalesUp(x: real, factor: real)
    requires x >= 0.0 && factor >= 1.0
    ensures x <= x * factor
  {
    var more := factor - 1.0;
    assert factor == 1.0 + more;
    assert x * more >= 0.0;
    assert x * (1.0 + more) == x + x * more;
  }

  /** Every limit of the validation is itself allowed, and a policy that never retries is not validated. */
  lemma PoliciesAtTheBounds(initial: real, coefficient: real, maximum: Option<real>, excluded: set<string>)
    ensures Policy(initial, 1.0, Some(initial), 0, excluded).Valid() <==> initial >= 0.0
    ensures coefficient < 1.0 ==> !Policy(0.0, coefficient, None, 0, excluded).Valid()
    ensures !Policy(0.0, 1.0, None, -1, excluded).Valid()
    ensures Policy(initial, coefficient, maximum, 1, excluded).Valid()
  {
  }

  /** What the policy and the failure alone say: neither excludes a retry. */
  predicate Excluded(policy: Policy, failure: Failure) {
    failure.nonRetryable || (failure.type_.Some? && failure.type_.value in policy.nonRetryableTypes)
  }

  /** A retry is granted exactly if the failure is not excluded and no schedule-to-close
      timeout, attempts are left, and the delay it would have without a budget ends
      within the budget; the state names the first of these that fails. */
  lemma RetryGrantedExactly(policy: Policy, attempt: nat, failure: Failure, elapsed: Option<real>, budget: Option<real>)
    requires attempt >= 1
    ensures
      var (delay, state) := RetryDecision(policy, attempt, failure, elapsed, budget);
      var (free, _) := RetryDecision(policy, attempt, failure, None, None);
      var spent := policy.maximumAttempts != 0 && attempt >= policy.maximumAttempts;
      && (free.Some? <==> !Excluded(policy, failure) && failure.cls != TimeoutError(ScheduleToClose) && !spent)
      && (delay.Some? <==> free.Some? && (elapsed.Some? && budget.Some? ==> elapsed.value + free.value < budget.value))
      && (delay.Some? ==> delay == free)
      && (state == InProgress <==> delay.Some?)
      && (state == NonRetryableFailure <==> Excluded(policy, failure))
      && (state == MaximumAttemptsReached <==>
            !Excluded(policy, failure) && failure.cls != TimeoutError(ScheduleToClose) && spent)
      && (failure.cls == TimeoutError(ScheduleToClose) && !Excluded(policy, failure) ==> state == Timeout)
  {
  }

  lemma GrowsByCoefficient(policy: Policy, attempt: nat)
    requires attempt >= 1
    ensures GrownInterval(policy, attempt + 1) == policy.coefficient * GrownInterval(policy, attempt)
  {
    var grown := Power(policy.coefficient, attempt - 1);
    assert policy.initialInterval * (policy.coefficient * grown) == policy.coefficient * (policy.initialInterval * grown);
  }

  lemma ScaledAtLeast(coefficient: real, x: real)
    requires coefficient >= 1.0 && x >= 0.0
    ensures coefficient * x >= x
  {
    assert coefficient * x == x + (coefficient - 1.0) * x && (coefficient - 1.0) * x >= 0.0;
  }

  lemma CappedProduct(coefficient: real, grown: real, most: real)
    requires coefficient >= 1.0 && most >= 0.0
    ensures
      var before, next := Min(grown, most), coefficient * grown;
      Min(next, most) == if coefficient * before < most then coefficient * before else most
  {
    if grown >= most {
      ScaledAtLeast(coefficient, grown);
      ScaledAtLeast(coefficient, most);
    } else {
      assert Min(grown, most) == grown;
    }
  }

  /** Growth up to a bound, one attempt after the other. */
  lemma CappedGrowth(policy: Policy, attempt: nat, most: real)
    requires attempt >= 1 && policy.coefficient >= 1.0 && most >= 0.0
    ensures
      var before, after := Min(GrownInterval(policy, attempt), most), Min(GrownInterval(policy, attempt + 1), most);
      after == if policy.coefficient * before < most then policy.coefficient * before else most
  {
    GrowsByCoefficient(policy, attempt);
    CappedProduct(policy.coefficient, GrownInterval(policy, attempt), most);
  }

  /** The delay of a decision that grants one without an override. */
  lemma GrantedDelay(policy: Policy, attempt: nat, failure: Failure, elapsed: Option<real>, budget: Option<real>, delay: real)
    requires attempt >= 1 && failure.nextRetryDelay.None?
    requires RetryDecision(policy, attempt, failure, elapsed, budget).0 == Some(delay)
    ensures delay == Min(GrownInterval(policy, attempt), policy.Cap()) && policy.maximumAttempts != 1
  {
  }

  /** Under a valid policy the first delay is the initial interval; an override is the delay. */
  lemma FirstDelay(policy: Policy, attempt: nat, failure: Failure, elapsed: Option<real>, budget: Option<real>)
    requires attempt >= 1 && policy.Valid() && RetryDecision(policy, attempt, failure, elapsed, budget).0.Some?
    ensures
      var delay := RetryDecision(policy, attempt, failure, elapsed, budget).0.value;
      && (failure.nextRetryDelay.Some? ==> delay == failure.nextRetryDelay.value)
      && (failure.nextRetryDelay.None? && attempt == 1 ==> delay == policy.initialInterval)
  {
    assert Power(policy.coefficient, 0) == 1.0 && GrownInterval(policy, 1) == policy.initialInterval;
  }

  /** The delay after an attempt is the delay after the one before it times the
      coefficient, up to the maximum interval, or to a hundred initial ones without one. */
  lemma NextDelay(policy: Policy, attempt: nat, failure: Failure, elapsed: Option<real>, budget: Option<real>,
                  failure': Failure, elapsed': Option<real>, budget': Option<real>, before: real, delay: real)
    requires attempt >= 1 && policy.Valid() && failure.nextRetryDelay.None? && failure'.nextRetryDelay.None?
    requires RetryDecision(policy, attempt, failure, elapsed, budget).0 == Some(before)
    requires RetryDecision(policy, attempt + 1, failure', elapsed', budget').0 == Some(delay)
    ensures
      var most := if policy.maximumInterval.Some? && policy.maximumInterval.value != 0.0 then policy.maximumInterval.value
                  else 100.0 * policy.initialInterval;
      delay == if policy.coefficient * before < most then policy.coefficient * before else most
  {
    GrantedDelay(policy, attempt, failure, elapsed, budget, before);
    GrantedDelay(policy, attempt + 1, failure', elapsed', budget', delay);
    NextGranted(policy, attempt, before, delay);
  }

  lemma NextGranted(policy: Policy, attempt: nat, before: real, delay: real)
    requires attempt >= 1 && policy.Valid() && policy.maximumAttempts != 1
    requires before == Min(GrownInterval(policy, attempt), policy.Cap())
    requires delay == Min(GrownInterval(policy, attempt + 1), policy.Cap())
    ensures delay == if policy.coefficient * before < policy.Cap() then policy.coefficient * before else policy.Cap()
  {
    CappedGrowth(policy, attempt, policy.Cap());
  }

  /** The deadline is the tightest of the bounds that exist, never negative, and
      its bound names a limit that attains it. */
  lemma DeadlineIsTightest(startToClose: Option<real>, remaining: Option<real>)
    ensures
      var (deadline, bound) := EffectiveDeadline(startToClose, remaining);
      && (deadline.None? <==> startToClose.None? && remaining.None?)
      && (deadline.Some? && startToClose.Some? ==> deadline.value <= Max(0.0, startToClose.value))
      && (deadline.Some? && remaining.Some? ==> deadline.value <= Max(0.0, remaining.value))
      && (deadline.Some? ==> 0.0 <= deadline.value)
      && (deadline.Some? && bound == ScheduleToClose ==> remaining.Some? && deadline.value == Max(0.0, remaining.value))
      && (bound == ScheduleToClose && startToClose.Some? ==> deadline.value < Max(0.0, startToClose.value))
      && (deadline.Some? && bound != ScheduleToClose ==>
            bound == StartToClose && startToClose.Some? && deadline.value == Max(0.0, startToClose.value))
  {
  }
}

/**
 One activity's attempts on the two paths.  The interpreter's path measures the
 schedule-to-close budget in virtual time; the queued activity workflow measures
 it from recorded timestamps.  The attempts' outcomes come from a script.
 */
module Attempts {
  import opened Prelude
  import opened Retry

  datatype Job = Job(policy: Policy, startToClose: Option<real>, scheduleToClose: Option<real>)

  datatype Outcome = Completed(endedAt: real) | Failed(failure: Failure, endedAt: real)

  datatype Attempt = Attempt(number: nat, deadline: Option<real>, bound: TimeoutType, delay: Option<real>)

  datatype Final = InFlight | Succeeded | GaveUp(state: Option<RetryState>)

  datatype Run = Run(attempts: seq<Attempt>, final: Final)

  function Remaining(budget: Option<real>, spent: real): Option<real> {
    if budget.Some? then Some(budget.value - spent) else None
  }

  function Then(first: Attempt, rest: Run): Run {
    Run([first] + rest.attempts, rest.final)
  }

  /** The interpreter: the clock follows the attempts' end times and is charged each backoff. */
  function LocalRun(job: Job, scheduledAt: real, clock: real, number: nat, script: seq<Outcome>): Run
    requires number >= 1
    decreases |script|
  {
    var (deadline, bound) := EffectiveDeadline(job.startToClose, Remaining(job.scheduleToClose, clock - scheduledAt));
    if script == [] then Run([Attempt(number, deadline, bound, None)], InFlight)
    else if script[0].Completed? then Run([Attempt(number, deadline, bound, None)], Succeeded)
    else
      var now := Max(clock, script[0].endedAt);
      var elapsed := if job.scheduleToClose.Some? then Some(now - scheduledAt) else None;
      var (delay, state) := RetryDecision(job.policy, number, script[0].failure, elapsed, job.scheduleToClose);
      if delay.None? then Run([Attempt(number, deadline, bound, None)], GaveUp(Some(state)))
      else
        Then(Attempt(number, deadline, bound, delay),
             LocalRun(job, scheduledAt, Max(now, now + delay.value), number + 1, script[1..]))
  }

  /** The queued activity workflow: a cancelled attempt is terminal and carries no retry state. */
  function QueuedRun(job: Job, startedAt: real, elapsedBefore: real, number: nat, script: seq<Outcome>): Run
    requires number >= 1
    decreases |script|
  {
    var (deadline, bound) := EffectiveDeadline(job.startToClose, Remaining(job.scheduleToClose, elapsedBefore));
    if script == [] then Run([Attempt(number, deadline, bound, None)], InFlight)
    else if script[0].Completed? then Run([Attempt(number, deadline, bound, None)], Succeeded)
    else if script[0].failure.cls.CancelledError? then Run([Attempt(number, deadline, bound, None)], GaveUp(None))
    else
      var elapsed := script[0].endedAt - startedAt;
      var (delay, state) :=
        RetryDecision(job.policy, number, script[0].failure, Some(elapsed), job.scheduleToClose);
      if delay.None? then Run([Attempt(number, deadline, bound, None)], GaveUp(Some(state)))
      else
        Then(Attempt(number, deadline, bound, delay),
             QueuedRun(job, startedAt, elapsed + delay.value, number + 1, script[1..]))
  }

  /** Every attempt ends no earlier than it starts, backoffs included, and no
      override asks for a negative delay. */
  ghost predicate Timely(job: Job, scheduledAt: real, clock: real, number: nat, script: seq<Outcome>)
    requires number >= 1
    decreases |script|
  {
    script == [] || script[0].Completed? ||
    (&& clock <= script[0].endedAt
     && var elapsed := if job.scheduleToClose.Some? then Some(script[0].endedAt - scheduledAt) else None;
        var delay := RetryDecision(job.policy, number, script[0].failure, elapsed, job.scheduleToClose).0;
        delay.Some? ==>
          0.0 <= delay.value && Timely(job, scheduledAt, script[0].endedAt + delay.value, number + 1, script[1..]))
  }

  function Later(o: Outcome, shift: real): Outcome {
    o.(endedAt := o.endedAt + shift)
  }

  /** The same outcomes on a worker whose activity started at another time. */
  function Shifted(script: seq<Outcome>, shift: real): seq<Outcome> {
    seq(|script|, i requires 0 <= i < |script| => Later(script[i], shift))
  }

  /** One of the first n outcomes is a cancelled attempt. */
  ghost predicate Cancels(script: seq<Outcome>, n: nat) {
    exists i :: 0 <= i < n && i < |script| && script[i].Failed? && script[i].failure.cls.CancelledError?
  }

  lemma TimelyGoesOn(job: Job, scheduledAt: real, clock: real, number: nat, script: seq<Outcome>, delay: real)
    requires number >= 1 && Timely(job, scheduledAt, clock, number, script) && script != [] && script[0].Failed?
    requires RetryDecision(job.policy, number, script[0].failure, Some(script[0].endedAt - scheduledAt),
                           job.scheduleToClose).0 == Some(delay)
    ensures clock <= script[0].endedAt && 0.0 <= delay
    ensures Timely(job, scheduledAt, script[0].endedAt + delay, number + 1, script[1..])
  {
  }

  lemma LocalRetries(
    job: Job, scheduledAt: real, clock: real, number: nat, script: seq<Outcome>,
    elapsed: real, later: real, a: Attempt, rest: Run)
    requires number >= 1 && script != [] && script[0].Failed? && a.delay.Some? && a.number == number
    requires elapsed == script[0].endedAt - scheduledAt
    requires clock <= script[0].endedAt && 0.0 <= a.delay.value && later == script[0].endedAt + a.delay.value
    requires (a.deadline, a.bound) ==
        EffectiveDeadline(job.startToClose, Remaining(job.scheduleToClose, clock - scheduledAt))
    requires a.delay == RetryDecision(job.policy, number, script[0].failure, Some(elapsed), job.scheduleToClose).0
    requires rest == LocalRun(job, scheduledAt, later, number + 1, script[1..])
    ensures LocalRun(job, scheduledAt, clock, number, script) == Then(a, rest)
  {
  }

  lemma QueuedRetries(
    job: Job, startedAt: real, elapsedBefore: real, elapsed: real, number: nat, script: seq<Outcome>,
    a: Attempt, rest: Run)
    requires number >= 1 && script != [] && script[0].Failed? && !script[0].failure.cls.CancelledError?
    requires script[0].endedAt - startedAt == elapsed
    requires a.delay.Some? && a.number == number
    requires (a.deadline, a.bound) == EffectiveDeadline(job.startToClose, Remaining(job.scheduleToClose, elapsedBefore))
    requires a.delay == RetryDecision(job.policy, number, script[0].failure, Some(elapsed), job.scheduleToClose).0
    requires rest == QueuedRun(job, startedAt, elapsed + a.delay.value, number + 1, script[1..])
    ensures QueuedRun(job, startedAt, elapsedBefore, number, script) == Then(a, rest)
  {
  }

  /** Where the retry loop ends, cancellation aside, both end alike after one attempt. */
  lemma BothEnd(job: Job, scheduledAt: real, startedAt: real, clock: real, number: nat, script: seq<Outcome>)
    requires number >= 1 && Timely(job, scheduledAt, clock, number, script)
    requires script != [] && script[0].Failed? ==>
        && !script[0].failure.cls.CancelledError?
        && RetryDecision(job.policy, number, script[0].failure, Some(script[0].endedAt - scheduledAt),
                         job.scheduleToClose).0.None?
    ensures
      var local := LocalRun(job, scheduledAt, clock, number, script);
      && local == QueuedRun(job, startedAt, clock - scheduledAt, number, Shifted(script, startedAt - scheduledAt))
      && |local.attempts| == 1 && !Cancels(script, 1)
  {
    var shifted := Shifted(script, startedAt - scheduledAt);
    assert script != [] && script[0].Failed? ==> shifted[0].endedAt - startedAt == script[0].endedAt - scheduledAt;
  }

  /** A cancelled attempt ends the queued loop without a retry state, which the local loop always has. */
  lemma CancelSeparates(job: Job, scheduledAt: real, startedAt: real, clock: real, number: nat, script: seq<Outcome>)
    requires number >= 1 && script != [] && script[0].Failed? && script[0].failure.cls.CancelledError?
    ensures
      var local := LocalRun(job, scheduledAt, clock, number, script);
      && local != QueuedRun(job, startedAt, clock - scheduledAt, number, Shifted(script, startedAt - scheduledAt))
      && Cancels(script, |local.attempts|)
  {
    var local := LocalRun(job, scheduledAt, clock, number, script);
    LocalReportsState(job, scheduledAt, clock, number, script);
    assert QueuedRun(job, startedAt, clock - scheduledAt, number, Shifted(script, startedAt - scheduledAt)).final
           == GaveUp(None);
    assert Cancels(script, 1) && 0 < |local.attempts|;
  }

  /** The two loops agree on every attempt's number, deadline, bound and delay and
      on the final state, exactly as long as no attempt consumed was cancelled. */
  lemma {:induction false} LocalSimulatesQueued(
    job: Job, scheduledAt: real, startedAt: real, clock: real, number: nat, script: seq<Outcome>)
    requires number >= 1 && Timely(job, scheduledAt, clock, number, script)
    ensures
      var local := LocalRun(job, scheduledAt, clock, number, script);
      var queued := QueuedRun(job, startedAt, clock - scheduledAt, number, Shifted(script, startedAt - scheduledAt));
      local == queued <==> !Cancels(script, |local.attempts|)
    decreases |script|
  {
    if script != [] && script[0].Failed? && script[0].failure.cls.CancelledError? {
      CancelSeparates(job, scheduledAt, startedAt, clock, number, script);
    } else if script == [] || script[0].Completed? {
      BothEnd(job, scheduledAt, startedAt, clock, number, script);
    } else {
      var elapsed := script[0].endedAt - scheduledAt;
      var (delay, _) := RetryDecision(job.policy, number, script[0].failure, Some(elapsed), job.scheduleToClose);
      if delay.None? {
        BothEnd(job, scheduledAt, startedAt, clock, number, script);
      } else {
        var later := script[0].endedAt + delay.value;
        var restLocal := LocalRun(job, scheduledAt, later, number + 1, script[1..]);
        var restQueued := QueuedRun(
          job, startedAt, elapsed + delay.value, number + 1, Shifted(script[1..], startedAt - scheduledAt));
        var (deadline, bound) :=
          EffectiveDeadline(job.startToClose, Remaining(job.scheduleToClose, clock - scheduledAt));
        var a := Attempt(number, deadline, bound, delay);
        TimelyGoesOn(job, scheduledAt, clock, number, script, delay.value);
        LocalSimulatesQueued(job, scheduledAt, startedAt, later, number + 1, script[1..]);
        assert later - scheduledAt == elapsed + delay.value;
        AlikeAfterRetry(job, scheduledAt, startedAt, clock, number, script, elapsed, later, a, restLocal, restQueued);
      }
    }
  }

  lemma ShiftedFirst(script: seq<Outcome>, shift: real)
    requires script != []
    ensures
      var shifted := Shifted(script, shift);
      shifted != [] && shifted[0] == Later(script[0], shift) && shifted[1..] == Shifted(script[1..], shift)
  {
  }

  /** On a failure that is retried both loops make the same attempt and go on. */
  lemma AlikeAfterRetry(
    job: Job, scheduledAt: real, startedAt: real, clock: real, number: nat, script: seq<Outcome>,
    elapsed: real, later: real, a: Attempt, restLocal: Run, restQueued: Run)
    requires number >= 1 && script != [] && script[0].Failed? && !script[0].failure.cls.CancelledError?
    requires a.delay.Some? && a.number == number && elapsed == script[0].endedAt - scheduledAt
    requires clock <= script[0].endedAt && 0.0 <= a.delay.value && later == script[0].endedAt + a.delay.value
    requires (a.deadline, a.bound) ==
        EffectiveDeadline(job.startToClose, Remaining(job.scheduleToClose, clock - scheduledAt))
    requires a.delay == RetryDecision(job.policy, number, script[0].failure, Some(elapsed), job.scheduleToClose).0
    requires restLocal == LocalRun(job, scheduledAt, later, number + 1, script[1..])
    requires restQueued == QueuedRun(job, startedAt, elapsed + a.delay.value, number + 1,
                                     Shifted(script[1..], startedAt - scheduledAt))
    requires restLocal == restQueued <==> !Cancels(script[1..], |restLocal.attempts|)
    ensures
      var local := LocalRun(job, scheduledAt, clock, number, script);
      var queued := QueuedRun(job, startedAt, clock - scheduledAt, number, Shifted(script, startedAt - scheduledAt));
      local == queued <==> !Cancels(script, |local.attempts|)
  {
    var shift := startedAt - scheduledAt;
    assert LocalRun(job, scheduledAt, clock, number, script) == Then(a, restLocal) by {
      LocalRetries(job, scheduledAt, clock, number, script, elapsed, later, a, restLocal);
    }
    assert QueuedRun(job, startedAt, clock - scheduledAt, number, Shifted(script, shift)) == Then(a, restQueued) by {
      ShiftedRetries(job, startedAt, clock - scheduledAt, elapsed, number, script, shift, a, restQueued);
    }
    OneMoreAttempt(a, restLocal, restQueued, script);
  }

  lemma ShiftedRetries(
    job: Job, startedAt: real, elapsedBefore: real, elapsed: real, number: nat, script: seq<Outcome>, shift: real,
    a: Attempt, rest: Run)
    requires number >= 1 && script != [] && script[0].Failed? && !script[0].failure.cls.CancelledError?
    requires script[0].endedAt + shift - startedAt == elapsed
    requires a.delay.Some? && a.number == number
    requires (a.deadline, a.bound) == EffectiveDeadline(job.startToClose, Remaining(job.scheduleToClose, elapsedBefore))
    requires a.delay == RetryDecision(job.policy, number, script[0].failure, Some(elapsed), job.scheduleToClose).0
    requires rest == QueuedRun(job, startedAt, elapsed + a.delay.value, number + 1, Shifted(script[1..], shift))
    ensures QueuedRun(job, startedAt, elapsedBefore, number, Shifted(script, shift)) == Then(a, rest)
  {
    ShiftedFirst(script, shift);
    QueuedRetries(job, startedAt, elapsedBefore, elapsed, number, Shifted(script, shift), a, rest);
  }

  /** A first attempt in common changes nothing about whether two runs agree or cancel. */
  lemma OneMoreAttempt(a: Attempt, local: Run, queued: Run, script: seq<Outcome>)
    requires script != [] && !(script[0].Failed? && script[0].failure.cls.CancelledError?)
    requires local == queued <==> !Cancels(script[1..], |local.attempts|)
    ensures Then(a, local) == Then(a, queued) <==> !Cancels(script, |Then(a, local).attempts|)
  {
    assert Then(a, local).attempts[1..] == local.attempts && Then(a, queued).attempts[1..] == queued.attempts;
    CancelsTail(script, |local.attempts|);
  }

  lemma CancelsTail(script: seq<Outcome>, n: nat)
    requires script != [] && !(script[0].Failed? && script[0].failure.cls.CancelledError?)
    ensures Cancels(script, n + 1) <==> Cancels(script[1..], n)
  {
    if Cancels(script, n + 1) {
      var i :| 0 <= i < n + 1 && i < |script| && script[i].Failed? && script[i].failure.cls.CancelledError?;
      assert script[1..][i - 1] == script[i];
    }
    if Cancels(script[1..], n) {
      var i :| 0 <= i < n && i < |script[1..]| && script[1..][i].Failed? && script[1..][i].failure.cls.CancelledError?;
      assert script[i + 1] == script[1..][i];
    }
  }

  lemma {:induction false} LocalReportsState(job: Job, scheduledAt: real, clock: real, number: nat, script: seq<Outcome>)
    requires number >= 1
    ensures LocalRun(job, scheduledAt, clock, number, script).final != GaveUp(None)
    decreases |script|
  {
    if script != [] && script[0].Failed? {
      var now := Max(clock, script[0].endedAt);
      var elapsed := if job.scheduleToClose.Some? then Some(now - scheduledAt) else None;
      var (delay, state) := RetryDecision(job.policy, number, script[0].failure, elapsed, job.scheduleToClose);
      if delay.Some? {
        LocalReportsState(job, scheduledAt, Max(now, now + delay.value), number + 1, script[1..]);
      }
    }
  }

  function Splice(done: seq<Attempt>, rest: Run): Run {
    Run(done + rest.attempts, rest.final)
  }

  lemma SpliceThen(done: seq<Attempt>, a: Attempt, rest: Run)
    ensures Splice(done, Then(a, rest)) == Splice(done + [a], rest)
  {
    assert done + ([a] + rest.attempts) == done + [a] + rest.attempts;
  }

  /** The queued activity workflow, from the queue-wait check on. */
  method RunQueuedActivity(
    job: Job, startedAt: real, createdAt: Option<real>, scheduleToStart: Option<real>, script: seq<Outcome>)
    returns (run: Run)
    ensures
      run ==
      if scheduleToStart.Some? && createdAt.Some? && startedAt - createdAt.value > scheduleToStart.value then
        Run([], GaveUp(Some(Timeout)))
      else QueuedRun(job, startedAt, 0.0, 1, script)
  {
    if scheduleToStart.Some? && createdAt.Some? && startedAt - createdAt.value > scheduleToStart.value {
      return Run([], GaveUp(Some(Timeout)));
    }
    run := RunAttempts(job, startedAt, script);
  }

  /** Its retry loop. */
  method RunAttempts(job: Job, startedAt: real, script: seq<Outcome>) returns (run: Run)
    ensures run == QueuedRun(job, startedAt, 0.0, 1, script)
  {
    var attempt := 1;
    var elapsedBefore := 0.0;
    var attempts: seq<Attempt> := [];
    var ahead := script;
    while true
      invariant attempt >= 1
      invariant Splice(attempts, QueuedRun(job, startedAt, elapsedBefore, attempt, ahead))
             == QueuedRun(job, startedAt, 0.0, 1, script)
      decreases |ahead|
    {
      var (deadline, bound) := EffectiveDeadline(job.startToClose, Remaining(job.scheduleToClose, elapsedBefore));
      if ahead == [] {
        return Run(attempts + [Attempt(attempt, deadline, bound, None)], InFlight);
      }
      var outcome := ahead[0];
      if outcome.Completed? {
        return Run(attempts + [Attempt(attempt, deadline, bound, None)], Succeeded);
      }
      if outcome.failure.cls.CancelledError? {
        return Run(attempts + [Attempt(attempt, deadline, bound, None)], GaveUp(None));
      }
      var elapsed := outcome.endedAt - startedAt;
      var (delay, state) := RetryDecision(job.policy, attempt, outcome.failure, Some(elapsed), job.scheduleToClose);
      if delay.None? {
        return Run(attempts + [Attempt(attempt, deadline, bound, None)], GaveUp(Some(state)));
      }
      var made := Attempt(attempt, deadline, bound, delay);
      ghost var rest := QueuedRun(job, startedAt, elapsed + delay.value, attempt + 1, ahead[1..]);
      QueuedRetries(job, startedAt, elapsedBefore, elapsed, attempt, ahead, made, rest);
      SpliceThen(attempts, made, rest);
      assert Splice(attempts + [made], rest) == QueuedRun(job, startedAt, 0.0, 1, script);
      attempts := attempts + [made];
      elapsedBefore := elapsed + delay.value;
      attempt := attempt + 1;
      ahead := ahead[1..];
    }
  }
}
