/**
 Finding the newest run of a chain by exact-id probes.

 The t-th batched lookup is atomic; `present(t, i)` says whether it finds run i.
 Between lookups the chain may change.
 */
module LatestRun {
  import opened Prelude

  const DENSE_PROBE_LIMIT := 16
  const MAX_PROBE_EXPONENT := 20
  const REFINE_BATCH := 16

  type Lookup = (nat, nat) -> bool

  function Power(base: nat, exponent: nat): nat {
    if exponent == 0 then 1 else base * Power(base, exponent - 1)
  }

  function Ladder(): seq<nat> {
    seq(DENSE_PROBE_LIMIT + 1, i => i) + seq(MAX_PROBE_EXPONENT - 4, i requires 0 <= i => Power(2, i + 5))
  }

  function Top(): nat {
    Power(2, MAX_PROBE_EXPONENT)
  }

  predicate Ascending(s: seq<nat>) {
    forall i :: 0 < i < |s| ==> s[i - 1] < s[i]
  }

  lemma {:induction false} AscendingOrder(s: seq<nat>, i: nat, j: nat)
    requires Ascending(s) && i < j < |s|
    ensures s[i] < s[j]
    decreases j
  {
    if i < j - 1 {
      AscendingOrder(s, i, j - 1);
    }
  }

  lemma LadderShape()
    ensures Ascending(Ladder()) && |Ladder()| == 33 && Ladder()[32] == Top() && 0 < Top()
    ensures forall i :: 0 <= i <= 16 ==> Ladder()[i] == i
  {
    var s := Ladder();
    assert Power(2, 5) == 32;
    forall i | 0 < i < |s| ensures s[i - 1] < s[i] {
      if i > 17 {
        assert s[i] == Power(2, i - 12) && s[i - 1] == Power(2, i - 13);
        PowerPositive(2, i - 13);
      }
    }
    PowerPositive(2, MAX_PROBE_EXPONENT);
  }

  lemma {:induction false} PowerPositive(base: nat, exponent: nat)
    requires base > 0
    ensures Power(base, exponent) > 0
  {
    if exponent > 0 {
      PowerPositive(base, exponent - 1);
    }
  }

  method Probe(present: Lookup, time: nat, indexes: seq<nat>) returns (found: set<nat>)
    ensures forall i :: i in found <==> i in indexes && present(time, i)
  {
    found := set i | i in indexes && present(time, i);
  }

  method Largest(s: set<nat>) returns (m: nat)
    requires s != {}
    ensures m in s && forall i <- s :: i <= m
  {
    var first :| first in s;
    m := first;
    var rest := s - {first};
    while rest != {}
      invariant rest <= s && m in s
      invariant forall i :: i in s && i !in rest ==> i <= m
      decreases |rest|
    {
      var i :| i in rest;
      if i > m {
        m := i;
      }
      rest := rest - {i};
    }
  }

  /** The first candidate above lo that was not found. */
  method FirstMissing(candidates: seq<nat>, lo: nat, found: set<nat>) returns (r: Option<nat>)
    ensures r.None? ==> forall c <- candidates :: c > lo ==> c in found
    ensures r.Some? ==>
              exists k :: 0 <= k < |candidates| && candidates[k] == r.value && r.value > lo && r.value !in found
                          && forall j :: 0 <= j < k && candidates[j] > lo ==> candidates[j] in found
  {
    for k := 0 to |candidates|
      invariant forall j :: 0 <= j < k && candidates[j] > lo ==> candidates[j] in found
    {
      if candidates[k] > lo && candidates[k] !in found {
        return Some(candidates[k]);
      }
    }
    return None;
  }

  /** Evenly spaced points strictly inside the bracket, at most one batch. */
  ghost predicate Spaced(points: seq<nat>, lo: nat, hi: nat, step: nat) {
    && 1 <= step && 1 <= |points| <= REFINE_BATCH
    && points[0] == lo + step
    && (forall i :: 0 < i < |points| ==> points[i] == points[i - 1] + step)
    && (forall i :: 0 <= i < |points| ==> points[i] < hi)
    && if |points| < REFINE_BATCH then hi <= points[|points| - 1] + step
       else points[|points| - 1] == lo + REFINE_BATCH * step
  }

  method SpacedPoints(lo: nat, hi: nat, step: nat) returns (points: seq<nat>)
    requires lo + 1 < hi && 1 <= step < hi - lo
    ensures Spaced(points, lo, hi, step)
  {
    points := [lo + step];
    var last := lo + step;
    ghost var span := step;
    while last + step < hi && |points| < REFINE_BATCH
      invariant 1 <= |points| <= REFINE_BATCH && last < hi
      invariant points[0] == lo + step && points[|points| - 1] == last
      invariant last == lo + span && span == |points| * step
      invariant forall i :: 0 < i < |points| ==> points[i] == points[i - 1] + step
      invariant forall i :: 0 <= i < |points| ==> points[i] < hi
    {
      NextMultiple(|points|, step);
      last, span := last + step, span + step;
      points := points + [last];
    }
  }

  lemma NextMultiple(n: nat, step: nat)
    ensures (n + 1) * step == n * step + step
  {
  }

  lemma SpacedAscends(points: seq<nat>, lo: nat, hi: nat, step: nat)
    requires Spaced(points, lo, hi, step)
    ensures Ascending(points)
  {
  }

  /** What a refinement round makes of a bracket's width. */
  ghost predicate Narrows(width: nat, width': nat) {
    1 <= width' && if width <= 17 then width' <= 1 else width' <= width - 16 * (width / 17)
  }

  /** After j rounds a bracket that started within 17^k + 17 has come this far. */
  ghost predicate Within(width: nat, k: nat, j: nat) {
    && j <= k + 2
    && (j <= k ==> width <= Power(17, k - j) + 17)
    && (j == k + 1 ==> width <= 2)
    && (j == k + 2 ==> width <= 1)
  }

  lemma NarrowsWithin(width: nat, width': nat, k: nat, j: nat)
    requires Narrows(width, width') && Within(width, k, j) && width > 1
    ensures Within(width', k, j + 1)
  {
    if j < k {
      var p := Power(17, k - j - 1);
      assert Power(17, k - j) == 17 * p;
      assert width - 16 * (width / 17) == width / 17 + width % 17;
      assert width / 17 <= p + 1;
    }
  }

  /** One refinement round of the bracket (lo, hi). */
  method RefineOnce(present: Lookup, time: nat, lo: nat, hi: nat) returns (lo': nat, hi': nat, points: seq<nat>)
    requires lo + 1 < hi
    ensures lo <= lo' < hi' <= hi && Narrows(hi - lo, hi' - lo')
    ensures lo' == lo || (lo' in points && present(time, lo'))
    ensures hi' == hi || (hi' in points && !present(time, hi'))
    ensures |points| <= REFINE_BATCH
  {
    var step := if (hi - lo) / (REFINE_BATCH + 1) > 1 then (hi - lo) / (REFINE_BATCH + 1) else 1;
    points := SpacedPoints(lo, hi, step);
    SpacedAscends(points, lo, hi, step);
    var found := Probe(present, time, points);
    lo', hi' := lo, points[0];
    if found != {} {
      lo' := Largest(found);
      var missing := FirstMissing(points, lo', found);
      hi' := if missing.Some? then missing.value else hi;
      AroundLargest(points, found, lo', missing);
    }
  }

  /** Above the largest point found only the next one can be the first missing. */
  lemma AroundLargest(points: seq<nat>, found: set<nat>, lo: nat, missing: Option<nat>)
    requires Ascending(points) && lo in found && forall i <- found :: i in points && i <= lo
    requires missing.None? ==> forall c <- points :: c > lo ==> c in found
    requires missing.Some? ==>
               exists k :: 0 <= k < |points| && points[k] == missing.value && missing.value > lo && missing.value !in found
                           && forall j :: 0 <= j < k && points[j] > lo ==> points[j] in found
    ensures exists j :: 0 <= j < |points| && points[j] == lo
                        && missing == (if j + 1 < |points| then Some(points[j + 1]) else None)
  {
    var j :| 0 <= j < |points| && points[j] == lo;
    AscendingAfter(points, j);
    if j + 1 < |points| {
      assert points[j + 1] in points && points[j + 1] > lo;
      var k :| 0 <= k < |points| && points[k] == missing.value && missing.value > lo && missing.value !in found
               && forall j :: 0 <= j < k && points[j] > lo ==> points[j] in found;
      AscendingBefore(points, j, k);
    } else if missing.Some? {
      var k :| 0 <= k < |points| && points[k] == missing.value && missing.value > lo;
      AscendingBefore(points, j, k);
    }
  }

  lemma AscendingAfter(s: seq<nat>, j: nat)
    requires Ascending(s) && j < |s|
    ensures forall i :: j < i < |s| ==> s[j] < s[i]
  {
    forall i | j < i < |s| ensures s[j] < s[i] {
      AscendingOrder(s, j, i);
    }
  }

  lemma AscendingBefore(s: seq<nat>, j: nat, k: nat)
    requires Ascending(s) && j < |s| && k < |s| && s[k] > s[j]
    ensures k > j
  {
    if k < j {
      AscendingOrder(s, k, j);
    }
  }

  /** Nothing of an ascending list lies between two neighbours. */
  lemma AscendingNext(s: seq<nat>, j: nat)
    requires Ascending(s) && j + 1 < |s|
    ensures forall c <- s :: c > s[j] ==> s[j + 1] <= c
  {
    forall c | c in s && c > s[j] ensures s[j + 1] <= c {
      var k :| 0 <= k < |s| && s[k] == c;
      AscendingBefore(s, j, k);
      if k > j + 1 {
        AscendingOrder(s, j + 1, k);
      }
    }
  }

  ghost predicate Found(present: Lookup, probes: seq<seq<nat>>, index: nat) {
    exists t :: 0 <= t < |probes| && index in probes[t] && present(t, index)
  }

  ghost predicate Missed(present: Lookup, probes: seq<seq<nat>>, index: nat) {
    exists t :: 0 <= t < |probes| && index in probes[t] && !present(t, index)
  }

  lemma ProbesGrow(present: Lookup, probes: seq<seq<nat>>, batch: seq<nat>)
    ensures forall i :: Found(present, probes, i) ==> Found(present, probes + [batch], i)
    ensures forall i :: Missed(present, probes, i) ==> Missed(present, probes + [batch], i)
    ensures forall i <- batch :: if present(|probes|, i) then Found(present, probes + [batch], i) else Missed(present, probes + [batch], i)
  {
    var all := probes + [batch];
    assert all[|probes|] == batch;
    forall i | Found(present, probes, i) ensures Found(present, all, i) {
      var t :| 0 <= t < |probes| && i in probes[t] && present(t, i);
      assert i in all[t];
    }
    forall i | Missed(present, probes, i) ensures Missed(present, all, i) {
      var t :| 0 <= t < |probes| && i in probes[t] && !present(t, i);
      assert i in all[t];
    }
  }

  /** The lower bound after n extension rounds that did not close the bracket. */
  function Reach(n: nat): nat {
    if n == 0 then Top() else Reach(n - 1) * 16
  }

  /** The rungs of one extension round above lo. */
  function Rungs(lo: nat): seq<nat> {
    [lo * 2, lo * 4, lo * 8, lo * 16]
  }

  /** Extends the ladder once: the bracket closes at the next rung above the largest
      one found, or the lower bound is multiplied by 16. */
  method ExtendOnce(present: Lookup, time: nat, lo: nat) returns (lo': nat, hi: Option<nat>)
    requires lo > 0
    ensures lo <= lo' && (lo' == lo || (lo' in Rungs(lo) && present(time, lo')))
    ensures forall c <- Rungs(lo) :: present(time, c) ==> c <= lo'
    ensures hi.None? ==> lo' == lo * 16
    ensures hi.Some? ==> hi.value == lo' * 2 && hi.value in Rungs(lo) && !present(time, hi.value)
  {
    var rungs := Rungs(lo);
    var found := Probe(present, time, rungs);
    assert Ascending(rungs);
    var missing := NotFound(rungs, found);
    lo' := lo;
    if found != {} {
      lo' := Largest(found);
    }
    hi := FirstMissing(missing, lo', {});
    RungsAbove(lo, lo');
    if lo' < lo * 16 {
      assert lo' * 2 !in found;
      NextRung(missing, lo', hi);
    } else {
      assert forall k :: 0 <= k < |missing| ==> missing[k] in missing;
    }
  }

  /** Above lo or one of its rungs the next rung is twice as far, but for the last. */
  lemma RungsAbove(lo: nat, at: nat)
    requires lo > 0 && (at == lo || at in Rungs(lo))
    ensures lo <= at <= lo * 16
    ensures at < lo * 16 ==> at * 2 in Rungs(lo)
    ensures forall c <- Rungs(lo) :: c > at ==> at < lo * 16 && c >= at * 2
    ensures forall c <- Rungs(lo) :: c <= lo * 16
  {
    assert at == lo || at == lo * 2 || at == lo * 4 || at == lo * 8 || at == lo * 16;
    assert Rungs(lo)[0] == lo * 2 && Rungs(lo)[1] == lo * 4 && Rungs(lo)[2] == lo * 8 && Rungs(lo)[3] == lo * 16;
  }

  method NotFound(candidates: seq<nat>, found: set<nat>) returns (missing: seq<nat>)
    requires Ascending(candidates)
    ensures Ascending(missing) && forall c :: c in missing <==> c in candidates && c !in found
  {
    missing := [];
    for k := 0 to |candidates|
      invariant forall c :: c in missing <==> c in candidates[..k] && c !in found
      invariant Ascending(missing) && (k < |candidates| ==> forall c <- missing :: c < candidates[k])
    {
      assert candidates[..k + 1] == candidates[..k] + [candidates[k]];
      if candidates[k] !in found {
        assert missing != [] ==> missing[|missing| - 1] in missing;
        missing := missing + [candidates[k]];
      }
      if k + 1 < |candidates| {
        AscendingOrder(candidates, k, k + 1);
      }
    }
    assert candidates[..|candidates|] == candidates;
  }

  /** In an ascending list that has twice lo and nothing between, that is the first above lo. */
  lemma NextRung(missing: seq<nat>, lo: nat, hi: Option<nat>)
    requires Ascending(missing) && lo > 0 && lo * 2 in missing
    requires forall c <- missing :: c > lo ==> c >= lo * 2
    requires hi.None? ==> forall c <- missing :: c > lo ==> c in {}
    requires hi.Some? ==>
               exists k :: 0 <= k < |missing| && missing[k] == hi.value && hi.value > lo
                           && forall j :: 0 <= j < k && missing[j] > lo ==> missing[j] in {}
    ensures hi == Some(lo * 2)
  {
    var n :| 0 <= n < |missing| && missing[n] == lo * 2;
    assert missing[n] in missing;
    if hi.Some? {
      var k :| 0 <= k < |missing| && missing[k] == hi.value && hi.value > lo
               && forall j :: 0 <= j < k && missing[j] > lo ==> missing[j] in {};
      assert missing[k] in missing;
      if k < n {
        AscendingOrder(missing, k, n);
      }
    }
  }

  /** A rung is at most twice the one before it. */
  lemma LadderGap(j: nat)
    requires j < 32
    ensures |Ladder()| == 33 && Ladder()[j] < Ladder()[j + 1] <= Ladder()[j] + Widest(Ladder()[j])
  {
    LadderShape();
    if j == 16 {
      assert Power(2, 5) == 32;
    } else if j > 16 {
      assert Ladder()[j] == Power(2, j - 12) && Ladder()[j + 1] == Power(2, j - 11);
    }
  }

  /** How wide a closed bracket above lo can be. */
  function Widest(lo: nat): nat {
    if lo == 0 then 1 else lo
  }

  /** Probes the ladder: the bracket is the largest rung found and the next rung;
      at the ladder's top it stays open. */
  method ProbeLadder(present: Lookup) returns (lo: nat, hi: Option<nat>, any: bool)
    ensures any <==> exists i <- Ladder() :: present(0, i)
    ensures any ==> lo in Ladder() && present(0, lo) && forall i <- Ladder() :: present(0, i) ==> i <= lo
    ensures hi.Some? ==> any && lo < hi.value <= lo + Widest(lo)
    ensures hi.Some? ==> hi.value in Ladder() && !present(0, hi.value) && forall c <- Ladder() :: c > lo ==> hi.value <= c
    ensures any && hi.None? ==> lo == Top()
    ensures any ==> Found(present, [Ladder()], lo) && (hi.Some? ==> Missed(present, [Ladder()], hi.value))
  {
    var ladder := Ladder();
    LadderShape();
    var found := Probe(present, 0, ladder);
    ProbesGrow(present, [], ladder);
    assert [] + [ladder] == [ladder];
    if found == {} {
      assert forall i <- ladder :: present(0, i) ==> i in found;
      return 0, None, false;
    }
    lo := Largest(found);
    hi := FirstMissing(ladder, lo, found);
    any := true;
    AroundLargest(ladder, found, lo, hi);
    ghost var j :| 0 <= j < |ladder| && ladder[j] == lo && hi == (if j + 1 < |ladder| then Some(ladder[j + 1]) else None);
    if hi.Some? {
      LadderGap(j);
      AscendingNext(ladder, j);
      assert hi.value !in found;
    } else {
      assert j == 32;
    }
  }

  /** Above the ladder: extends it until the bracket closes. */
  method CloseBracket(present: Lookup, ghost bound: nat)
    returns (lo: nat, hi: nat, time: nat, ghost probes: seq<seq<nat>>)
    requires forall t: nat, i: nat :: present(t, i) ==> i < bound
    requires Found(present, [Ladder()], Top())
    ensures time == |probes| > 1 && probes[0] == Ladder()
    ensures hi == lo * 2 && Found(present, probes, lo) && Missed(present, probes, hi)
    ensures 0 < Reach(|probes| - 2) <= lo
  {
    lo, probes, time := Top(), [Ladder()], 1;
    LadderShape();
    var open := true;
    hi := 0;
    while open
      invariant time == |probes| >= 1 && probes[0] == Ladder()
      invariant Found(present, probes, lo)
      invariant !open ==> time > 1 && hi == lo * 2 && Missed(present, probes, hi) && 0 < Reach(time - 2) <= lo
      invariant open ==> 0 < lo == Reach(time - 1)
      decreases open, bound - lo
    {
      ProbesGrow(present, probes, Rungs(lo));
      probes := probes + [Rungs(lo)];
      var lo', hi' := ExtendOnce(present, time, lo);
      time := time + 1;
      lo, open := lo', hi'.None?;
      if hi'.Some? {
        hi := hi'.value;
      }
    }
  }

  /** A bracket of this width is narrowed in n rounds, at most k + 2 of them if it is
      at most 17^k + 17 wide. */
  ghost predicate FewRounds(width: nat, n: int) {
    forall k: nat :: width <= Power(17, k) + 17 ==> n <= k + 2
  }

  /** Where the bracket stands after j rounds. */
  ghost predicate OnCourse(width: nat, now: nat, j: nat) {
    forall k: nat :: width <= Power(17, k) + 17 ==> Within(now, k, j)
  }

  lemma StaysOnCourse(width: nat, now: nat, next: nat, j: nat)
    requires OnCourse(width, now, j) && Narrows(now, next) && now > 1
    ensures OnCourse(width, next, j + 1)
  {
    forall k: nat | width <= Power(17, k) + 17 ensures Within(next, k, j + 1) {
      NarrowsWithin(now, next, k, j);
    }
  }

  /** Of n probes all but `closing` refine the bracket: at most k + 2 of them for an
      answer of at most 17^k + 17, and at most k + m + 3 probes in all for one below the
      m-th reach. */
  ghost predicate FewProbes(answer: nat, closing: nat, n: nat) {
    && (forall k: nat :: answer <= Power(17, k) + 17 ==> n - closing <= k + 2)
    && (forall k: nat, m: nat :: answer <= Power(17, k) + 17 && answer < Reach(m) ==> n <= k + m + 3)
  }

  /** Narrows the bracket until the newest run and its missing successor are adjacent. */
  method RefineBracket(present: Lookup, from: nat, hi: nat, time: nat, ghost sofar: seq<seq<nat>>)
    returns (lo: nat, ghost probes: seq<seq<nat>>)
    requires from < hi && Found(present, sofar, from) && Missed(present, sofar, hi) && time == |sofar|
    ensures from <= lo && sofar <= probes && Found(present, probes, lo) && Missed(present, probes, lo + 1)
    ensures forall k :: |sofar| <= k < |probes| ==> |probes[k]| <= REFINE_BATCH
    ensures FewRounds(hi - from, |probes| - |sofar|)
  {
    lo, probes := from, sofar;
    var top, now := hi, time;
    while top - lo > 1
      invariant from <= lo < top && Found(present, probes, lo) && Missed(present, probes, top)
      invariant now == |probes| && sofar <= probes
      invariant forall k :: |sofar| <= k < |probes| ==> |probes[k]| <= REFINE_BATCH
      invariant OnCourse(hi - from, top - lo, |probes| - |sofar|)
      decreases top - lo
    {
      var lo', top', points := RefineOnce(present, now, lo, top);
      StaysOnCourse(hi - from, top - lo, top' - lo', |probes| - |sofar|);
      ProbesGrow(present, probes, points);
      probes := probes + [points];
      lo, top, now := lo', top', now + 1;
    }
  }

  lemma {:induction false} ReachGrows(n: nat, m: nat)
    requires n <= m
    ensures 0 < Reach(n) <= Reach(m)
    decreases m
  {
    LadderShape();
    if n < m {
      ReachGrows(n, m - 1);
    } else if n > 0 {
      ReachGrows(n - 1, n - 1);
    }
  }

  /** resolve_latest_run.  `bound` limits the chain's growth during the call: the
      ladder is extended for as long as the chain outgrows it.  The ghost results
      are the probes made and how many of them closed the bracket. */
  method ResolveLatestRun(present: Lookup, ghost bound: nat)
    returns (r: Option<nat>, ghost probes: seq<seq<nat>>, ghost closing: nat)
    requires forall t: nat, i: nat :: present(t, i) ==> i < bound
    ensures 1 <= closing <= |probes| && probes[0] == Ladder()
    ensures r.None? <==> forall i <- Ladder() :: !present(0, i)
    ensures r.None? ==> |probes| == 1
    ensures r.Some? ==> Found(present, probes, r.value) && Missed(present, probes, r.value + 1)
    ensures forall k :: closing <= k < |probes| ==> |probes[k]| <= REFINE_BATCH
    ensures r.Some? && closing > 1 ==> Reach(closing - 2) <= r.value
    ensures r.Some? ==> FewProbes(r.value, closing, |probes|)
  {
    var any, lo, top, time, bracket := Bracket(present, bound);
    if !any {
      return None, bracket, 1;
    }
    var newest, all := RefineBracket(present, lo, top, time, bracket);
    r, probes, closing := Some(newest), all, |bracket|;
    ProbeBounds(lo, top, newest, closing, |probes|);
  }

  /** The first closed bracket: on the ladder, or above it. */
  method Bracket(present: Lookup, ghost bound: nat)
    returns (any: bool, lo: nat, hi: nat, time: nat, ghost probes: seq<seq<nat>>)
    requires forall t: nat, i: nat :: present(t, i) ==> i < bound
    ensures any <==> exists i <- Ladder() :: present(0, i)
    ensures time == |probes| >= 1 && probes[0] == Ladder() && (!any ==> time == 1)
    ensures any ==> lo < hi <= lo + Widest(lo) && Found(present, probes, lo) && Missed(present, probes, hi)
    ensures any && time > 1 ==> Reach(time - 2) <= lo
  {
    var top;
    lo, top, any := ProbeLadder(present);
    hi, time, probes := 0, 1, [Ladder()];
    if any {
      if top.Some? {
        hi := top.value;
      } else {
        lo, hi, time, probes := CloseBracket(present, bound);
      }
    }
  }

  /** What the bracket and the rounds that close and refine it say of the number of probes. */
  lemma ProbeBounds(lo: nat, top: nat, newest: nat, closing: nat, n: nat)
    requires lo <= newest && top <= lo + Widest(lo)
    requires closing > 1 ==> Reach(closing - 2) <= newest
    requires lo < top && FewRounds(top - lo, n - closing)
    ensures FewProbes(newest, closing, n)
  {
    forall k: nat | newest <= Power(17, k) + 17 ensures n - closing <= k + 2 {
      NarrowEnough(lo, top, newest, k);
    }
    forall m: nat | newest < Reach(m) ensures closing <= m + 1 {
      ClosedBy(closing, newest, m);
    }
  }

  /** A closed bracket is no wider than what the answer allows. */
  lemma NarrowEnough(lo: nat, top: nat, newest: nat, k: nat)
    requires lo <= newest <= Power(17, k) + 17 && top <= lo + Widest(lo)
    ensures top - lo <= Power(17, k) + 17
  {
    PowerPositive(17, k);
  }

  /** The rounds that close the bracket reach no further than the answer. */
  lemma ClosedBy(closing: nat, newest: nat, m: nat)
    requires closing > 1 ==> Reach(closing - 2) <= newest
    requires newest < Reach(m)
    ensures closing <= m + 1
  {
    if closing >= m + 2 {
      ReachGrows(m, closing - 2);
    }
  }
}
