/**
 Schedules compiled to cron: interval specifications and calendar ranges.
 */
module Cron {
  import opened Prelude

  /** "*", a step over the whole domain, a number, a span, a stepped span. */
  datatype Token = Any | Every(step: int) | At(n: int) | Span(lo: int, hi: int) | SpanBy(lo: int, hi: int, step: int)

  type Field = seq<Token>

  /** Five fields stand for second 0. */
  datatype Expression = Expression(second: Option<Field>, minute: Field, hour: Field, day: Field, month: Field, weekday: Field)

  datatype Moment = Moment(second: int, minute: int, hour: int, day: int, month: int, weekday: int)

  predicate TokenMatches(t: Token, v: int, low: int) {
    match t
    case Any => true
    case Every(step) => step > 0 && (v - low) % step == 0
    case At(n) => v == n
    case Span(lo, hi) => lo <= v <= hi
    case SpanBy(lo, hi, step) => lo <= v <= hi && step > 0 && (v - lo) % step == 0
  }

  predicate Matches(f: Field, v: int, low: int) {
    exists t <- f :: TokenMatches(t, v, low)
  }

  /** A constrained day and a constrained weekday are alternatives. */
  predicate DayMatches(e: Expression, m: Moment) {
    if e.day == [Any] || e.weekday == [Any] then Matches(e.day, m.day, 1) && Matches(e.weekday, m.weekday, 0)
    else Matches(e.day, m.day, 1) || Matches(e.weekday, m.weekday, 0)
  }

  predicate Fires(e: Expression, m: Moment) {
    && (if e.second.Some? then Matches(e.second.value, m.second, 0) else m.second == 0)
    && Matches(e.minute, m.minute, 0)
    && Matches(e.hour, m.hour, 0)
    && Matches(e.month, m.month, 1)
    && DayMatches(e, m)
  }

  /** The calendar reading of a UTC second; of the days only those of early 1970 matter here. */
  predicate IsAt(m: Moment, t: nat) {
    && m.second == t % 60 && m.minute == t / 60 % 60 && m.hour == t / 3600 % 24
    && var day := t / 86400;
       && (day < 31 ==> m.day == day + 1)
       && (31 <= day < 59 ==> m.day == day - 30)
       && (59 <= day < 90 ==> m.day == day - 58)
  }

  // ---------------------------------------------------------------------
  // Intervals
  // ---------------------------------------------------------------------

  /** Logged says that the expression was reported as an approximation. */
  datatype Compiled = Cron(expression: Expression, logged: bool) | NotPositive | DividesByZero

  /** Rounds to the nearest integer, a tie to the even one. */
  function Round(x: real): int {
    var below := x.Floor;
    var rest := x - below as real;
    if rest < 0.5 || (rest == 0.5 && below % 2 == 0) then below else below + 1
  }

  function EverySeconds(n: int): Expression { Expression(Some([Every(n)]), [Any], [Any], [Any], [Any], [Any]) }

  function EveryMinutes(n: int): Expression { Expression(None, [Every(n)], [Any], [Any], [Any], [Any]) }

  function EveryHours(n: int): Expression { Expression(None, [At(0)], [Every(n)], [Any], [Any], [Any]) }

  function EveryDays(n: int): Expression { Expression(None, [At(0)], [At(0)], [Every(n)], [Any], [Any]) }

  const HOURLY := Expression(None, [At(0)], [Any], [Any], [Any], [Any])
  const DAILY := Expression(None, [At(0)], [At(0)], [Any], [Any], [Any])

  function Approximated(secs: int): Compiled {
    if secs % 86400 == 0 then
      var days := secs / 86400;
      Cron(EveryDays(if days < 31 then days else 31), true)
    else
      var rounded := Round(secs as real / 60.0);
      var mins := if rounded < 1 then 1 else rounded;
      Cron(if mins < 60 then EveryMinutes(mins) else HOURLY, true)
  }

  function CompileSeconds(secs: int): Compiled
    requires secs >= 0
  {
    if secs < 60 then
      if secs == 0 then DividesByZero else Cron(EverySeconds(secs), 60 % secs != 0)
    else if secs % 60 == 0 && secs / 60 == 60 then Cron(HOURLY, false)
    else if secs % 60 == 0 && secs / 60 < 60 && 60 % (secs / 60) == 0 then Cron(EveryMinutes(secs / 60), false)
    else if secs % 3600 == 0 && secs / 3600 == 24 then Cron(DAILY, false)
    else if secs % 3600 == 0 && secs / 3600 < 24 && 24 % (secs / 3600) == 0 then Cron(EveryHours(secs / 3600), false)
    else Approximated(secs)
  }

  function IntervalToCron(total: real): Compiled {
    if total <= 0.0 then NotPositive else CompileSeconds(Round(total))
  }

  /** The expression fires at exactly the multiples of the period. */
  ghost predicate FiresAtMultiples(e: Expression, secs: int)
    requires secs > 0
  {
    forall t: nat, m: Moment :: IsAt(m, t) ==> (Fires(e, m) <==> t % secs == 0)
  }

  lemma AnyMatches(v: int, low: int)
    ensures Matches([Any], v, low)
  {
    assert Any in [Any];
  }

  lemma OneMatches(t: Token, v: int, low: int)
    ensures Matches([t], v, low) <==> TokenMatches(t, v, low)
  {
    assert t in [t];
  }

  /** A divisor of a boundary is seen from inside the boundary. */
  lemma DivisorWithin(t: nat, whole: int, n: int)
    requires 0 < n <= whole && whole % n == 0
    ensures t % whole % n == t % n
  {
    var k := whole / n;
    assert whole == n * k;
    var q, r := t / whole, t % whole;
    assert t == (k * q) * n + r by {
      assert t == whole * q + r;
      assert whole * q == (n * k) * q == (k * q) * n;
    }
    RemainderOf(k * q, r, n);
  }

  lemma RemainderOf(q: int, r: nat, n: int)
    requires n > 0
    ensures (q * n + r) % n == r % n
  {
    var a, b := r / n, r % n;
    assert q * n + r == (q + a) * n + b;
    RemainderUnique(q * n + r, q + a, b, n);
  }

  lemma RemainderUnique(x: int, q: int, r: nat, n: int)
    requires n > 0 && r < n && x == q * n + r
    ensures x % n == r && x / n == q
  {
    var q', r' := x / n, x % n;
    Distributes(q', q, n);
    if q' > q {
      AtLeastOne(q' - q, n);
    } else if q > q' {
      AtLeastOne(q - q', n);
      Distributes(q, q', n);
    }
  }

  lemma Distributes(a: int, b: int, n: int)
    ensures (a - b) * n == a * n - b * n
  {
  }

  lemma AtLeastOne(k: int, n: int)
    requires k >= 1 && n > 0
    ensures k * n >= n
  {
  }

  /** A period of n units of which the unit is seen first. */
  lemma UnitsFirst(t: nat, unit: int, n: int)
    requires unit > 0 && n > 0
    ensures unit * n > 0
    ensures t % (unit * n) == 0 <==> t % unit == 0 && t / unit % n == 0
  {
    AtLeastOne(n, unit);
    var q, r := t / unit, t % unit;
    var a, b := q / n, q % n;
    Regrouped(a, b, n, unit);
    BelowProduct(b, r, n, unit);
    if b > 0 {
      AtLeastOne(b, unit);
    }
    RemainderUnique(t, a, b * unit + r, unit * n);
  }

  lemma Regrouped(a: int, b: int, n: int, unit: int)
    ensures (a * n + b) * unit == a * (unit * n) + b * unit
  {
  }

  lemma BelowProduct(b: nat, r: nat, n: int, unit: int)
    requires b < n && r < unit
    ensures b * unit + r < unit * n
  {
    AtLeastOne(n - b, unit);
    Distributes(n, b, unit);
  }

  /** The minute and the second are zero exactly on the hour. */
  lemma OnTheHour(t: nat)
    ensures t % 3600 == 0 <==> t % 60 == 0 && t / 60 % 60 == 0
  {
    UnitsFirst(t, 60, 60);
  }

  lemma SecondsAreExact(secs: int)
    requires 0 < secs < 60 && 60 % secs == 0
    ensures FiresAtMultiples(EverySeconds(secs), secs)
  {
    forall t: nat, m: Moment | IsAt(m, t) ensures Fires(EverySeconds(secs), m) <==> t % secs == 0 {
      OneMatches(Every(secs), m.second, 0);
      forall v, low { AnyMatches(v, low); }
      DivisorWithin(t, 60, secs);
    }
  }

  lemma MinutesAreExact(mins: int)
    requires 0 < mins < 60 && 60 % mins == 0
    ensures FiresAtMultiples(EveryMinutes(mins), 60 * mins)
  {
    forall t: nat, m: Moment | IsAt(m, t) ensures Fires(EveryMinutes(mins), m) <==> t % (60 * mins) == 0 {
      OneMatches(Every(mins), m.minute, 0);
      forall v, low { AnyMatches(v, low); }
      DivisorWithin(t / 60, 60, mins);
      UnitsFirst(t, 60, mins);
    }
  }

  lemma HourlyIsExact()
    ensures FiresAtMultiples(HOURLY, 3600)
  {
    forall t: nat, m: Moment | IsAt(m, t) ensures Fires(HOURLY, m) <==> t % 3600 == 0 {
      OneMatches(At(0), m.minute, 0);
      forall v, low { AnyMatches(v, low); }
      OnTheHour(t);
    }
  }

  lemma HoursAreExact(hours: int)
    requires 0 < hours < 24 && 24 % hours == 0
    ensures FiresAtMultiples(EveryHours(hours), 3600 * hours)
  {
    forall t: nat, m: Moment | IsAt(m, t) ensures Fires(EveryHours(hours), m) <==> t % (3600 * hours) == 0 {
      OneMatches(At(0), m.minute, 0);
      OneMatches(Every(hours), m.hour, 0);
      forall v, low { AnyMatches(v, low); }
      DivisorWithin(t / 3600, 24, hours);
      UnitsFirst(t, 3600, hours);
      OnTheHour(t);
    }
  }

  lemma DailyIsExact()
    ensures FiresAtMultiples(DAILY, 86400)
  {
    forall t: nat, m: Moment | IsAt(m, t) ensures Fires(DAILY, m) <==> t % 86400 == 0 {
      OneMatches(At(0), m.minute, 0);
      OneMatches(At(0), m.hour, 0);
      forall v, low { AnyMatches(v, low); }
      OnTheHour(t);
      UnitsFirst(t, 3600, 24);
    }
  }

  /** A time at which the expression and the period disagree. */
  ghost predicate Disagrees(e: Expression, secs: int, m: Moment, t: nat)
    requires secs > 0
  {
    IsAt(m, t) && (Fires(e, m) <==> t % secs != 0)
  }

  /** A second step that does not divide the minute restarts at each minute. */
  lemma UnevenSecondsDisagree(secs: int)
    requires 0 < secs < 60 && 60 % secs != 0
    ensures !FiresAtMultiples(EverySeconds(secs), secs)
  {
    var m := Moment(0, 1, 0, 1, 1, 4);
    OneMatches(Every(secs), 0, 0);
    forall v, low { AnyMatches(v, low); }
    assert Disagrees(EverySeconds(secs), secs, m, 60);
  }

  /** Whatever fires on the hour, and on whole minutes only, is no period but those compiled exactly. */
  lemma UnevenMinutesDisagree(secs: int, e: Expression)
    requires secs >= 60 && (3600 % secs != 0 || secs % 60 != 0)
    requires e == HOURLY || exists mins :: 0 < mins < 60 && e == EveryMinutes(mins)
    ensures !FiresAtMultiples(e, secs)
  {
    forall v, low { AnyMatches(v, low); }
    if 3600 % secs != 0 {
      var m := Moment(0, 0, 1, 1, 1, 4);
      forall token { OneMatches(token, 0, 0); }
      assert Disagrees(e, secs, m, 3600);
    } else {
      var day := secs / 86400;
      var m := Moment(secs % 60, secs / 60 % 60, secs / 3600 % 24,
                      if day < 31 then day + 1 else if day < 59 then day - 30 else day - 58, 1, 4);
      assert secs % secs == 0;
      assert Disagrees(e, secs, m, secs);
    }
  }

  /** A day step restarts with each month. */
  lemma DaysDisagree(days: int)
    requires days >= 2
    ensures !FiresAtMultiples(EveryDays(if days < 31 then days else 31), 86400 * days)
  {
    var step := if days < 31 then days else 31;
    var first := if days == 31 then 59 else 31;
    var t := 86400 * first;
    var m := Moment(0, 0, 0, 1, 1, 0);
    OneMatches(At(0), 0, 0);
    OneMatches(Every(step), 1, 1);
    forall v, low { AnyMatches(v, low); }
    assert first % days != 0 by {
      if days < 31 {
        ThirtyOneIsPrime(days);
      }
    }
    UnitsFirst(t, 86400, days);
    assert Disagrees(EveryDays(step), 86400 * days, m, t);
  }

  lemma ThirtyOneIsPrime(n: int)
    requires 2 <= n < 31
    ensures 31 % n != 0
  {
  }

  /** For every whole-second period: the expression fires at exactly its multiples
      if and only if it was not logged as an approximation. */
  lemma ExactUnlessLogged(secs: int)
    requires secs > 0
    ensures
      var c := IntervalToCron(secs as real);
      c.Cron? && (FiresAtMultiples(c.expression, secs) <==> !c.logged)
  {
    assert Round(secs as real) == secs;
    if secs < 60 {
      if 60 % secs == 0 {
        SecondsAreExact(secs);
      } else {
        UnevenSecondsDisagree(secs);
      }
    } else if secs % 60 == 0 && secs / 60 == 60 {
      HourlyIsExact();
    } else if secs % 60 == 0 && secs / 60 < 60 && 60 % (secs / 60) == 0 {
      MinutesAreExact(secs / 60);
    } else if secs % 3600 == 0 && secs / 3600 == 24 {
      DailyIsExact();
    } else if secs % 3600 == 0 && secs / 3600 < 24 && 24 % (secs / 3600) == 0 {
      HoursAreExact(secs / 3600);
    } else if secs % 86400 == 0 {
      DaysDisagree(secs / 86400);
    } else {
      assert 3600 % secs != 0 || secs % 60 != 0 by {
        if 3600 % secs == 0 && secs % 60 == 0 {
          UnitsOfAnHour(secs);
        }
      }
      UnevenMinutesDisagree(secs, Approximated(secs).expression);
    }
  }

  /** A divisor of the hour in whole minutes is a divisor of its sixty minutes. */
  lemma UnitsOfAnHour(secs: int)
    requires secs >= 60 && 3600 % secs == 0 && secs % 60 == 0
    ensures secs <= 3600 && 60 % (secs / 60) == 0
  {
    var k, mins := 3600 / secs, secs / 60;
    assert 3600 == k * secs;
    assert k * secs == k * (60 * mins) == 60 * (k * mins);
    assert 60 == k * mins;
    RemainderUnique(60, k, 0, mins);
    assert secs <= 3600 by {
      assert k >= 1;
    }
  }

  /** Rounding moves a period by half a unit at most, and a tie to the even side. */
  lemma RoundIsNearest(x: real)
    ensures Round(x) as real - 0.5 <= x <= Round(x) as real + 0.5
    ensures x - Round(x) as real == 0.5 || x - Round(x) as real == -0.5 ==> Round(x) % 2 == 0
  {
  }

  /** What a whole-second period is approximated by: as many seconds where it is under a
      minute, a step of days, at most 31, where it is whole days, else the nearest whole
      number of minutes, a tie to the even one, and the hour from 60 on. */
  lemma ApproximationIsNearest(secs: int)
    requires secs > 0 && IntervalToCron(secs as real).Cron? && IntervalToCron(secs as real).logged
    ensures
      var e := IntervalToCron(secs as real).expression;
      if secs < 60 then e == EverySeconds(secs)
      else if secs % 86400 == 0 then e == EveryDays(if 86400 * 31 <= secs then 31 else secs / 86400)
      else
        exists mins :: mins >= 1 && e == (if mins < 60 then EveryMinutes(mins) else HOURLY) && Nearest(secs, mins)
  {
    assert Round(secs as real) == secs;
    if secs >= 60 && secs % 86400 != 0 {
      var mins := Round(secs as real / 60.0);
      RoundIsNearest(secs as real / 60.0);
      assert Nearest(secs, mins);
      assert mins >= 1;
    }
  }

  /** No whole number of minutes is nearer, and of two as near this is the even one. */
  ghost predicate Nearest(secs: int, mins: int) {
    -30 <= secs - 60 * mins <= 30 && (secs - 60 * mins == 30 || secs - 60 * mins == -30 ==> mins % 2 == 0)
  }

  /** Below half a second the rounded period is zero and the divisor test fails. */
  lemma ShortIntervalsFail(total: real)
    ensures IntervalToCron(total) == NotPositive <==> total <= 0.0
    ensures IntervalToCron(total) == DividesByZero <==> 0.0 < total <= 0.5
  {
  }

  // ---------------------------------------------------------------------
  // Calendars
  // ---------------------------------------------------------------------

  datatype Range = Range(start: int, end: int, step: int)

  datatype Calendar = Calendar(second: seq<Range>, minute: seq<Range>, hour: seq<Range>,
                               day: seq<Range>, month: seq<Range>, weekday: seq<Range>)

  /** The values a range stands for; an end before the start and a step below one are repaired. */
  predicate Includes(r: Range, v: int) {
    r.start <= v <= (if r.end >= r.start then r.end else r.start) && (v - r.start) % (if r.step > 0 then r.step else 1) == 0
  }

  /** No ranges mean every value. */
  predicate Admits(ranges: seq<Range>, v: int) {
    ranges == [] || exists r <- ranges :: Includes(r, v)
  }

  predicate Covers(r: Range, low: int, high: int) {
    r.start <= low && (if r.end >= r.start then r.end else r.start) >= high && r.step <= 1
  }

  predicate Unconstrained(ranges: seq<Range>, low: int, high: int) {
    ranges == [] || exists r <- ranges :: Covers(r, low, high)
  }

  function TokenOf(r: Range, low: int, high: int): Token {
    var end := if r.end >= r.start then r.end else r.start;
    var step := if r.step > 0 then r.step else 1;
    if Covers(r, low, high) then Any
    else if r.start == end then At(r.start)
    else if step == 1 then Span(r.start, end)
    else SpanBy(r.start, end, step)
  }

  lemma TokenMeansRange(r: Range, low: int, high: int, v: int)
    requires low <= v <= high
    ensures TokenMatches(TokenOf(r, low, high), v, low) <==> Includes(r, v)
  {
  }

  /** The rendered field matches exactly the values of the domain that some range includes. */
  method RangesToField(ranges: seq<Range>, low: int, high: int) returns (field: Field)
    ensures forall v :: low <= v <= high ==> (Matches(field, v, low) <==> Admits(ranges, v))
    ensures field == [Any] <==> Unconstrained(ranges, low, high)
  {
    if ranges == [] {
      forall v { AnyMatches(v, low); }
      return [Any];
    }
    var tokens: seq<Token> := [];
    for i := 0 to |ranges|
      invariant |tokens| == i
      invariant forall j :: 0 <= j < i ==> tokens[j] == TokenOf(ranges[j], low, high)
    {
      tokens := tokens + [TokenOf(ranges[i], low, high)];
    }
    FieldMeansRanges(tokens, ranges, low, high);
    if Any in tokens {
      forall v { AnyMatches(v, low); }
      return [Any];
    }
    return tokens;
  }

  lemma FieldMeansRanges(tokens: seq<Token>, ranges: seq<Range>, low: int, high: int)
    requires ranges != [] && |tokens| == |ranges|
    requires forall j :: 0 <= j < |ranges| ==> tokens[j] == TokenOf(ranges[j], low, high)
    ensures forall v :: low <= v <= high ==> (Matches(tokens, v, low) <==> Admits(ranges, v))
    ensures Any in tokens <==> Unconstrained(ranges, low, high)
  {
    forall v | low <= v <= high ensures Matches(tokens, v, low) <==> Admits(ranges, v) {
      forall j | 0 <= j < |ranges| ensures TokenMatches(tokens[j], v, low) <==> Includes(ranges[j], v) {
        TokenMeansRange(ranges[j], low, high, v);
      }
      if Matches(tokens, v, low) {
        var j :| 0 <= j < |tokens| && TokenMatches(tokens[j], v, low);
        assert ranges[j] in ranges;
      }
      if Admits(ranges, v) {
        var j :| 0 <= j < |ranges| && Includes(ranges[j], v);
        assert tokens[j] in tokens;
      }
    }
    if Any in tokens {
      var j :| 0 <= j < |tokens| && tokens[j] == Any;
      assert Covers(ranges[j], low, high) && ranges[j] in ranges;
    }
    if Unconstrained(ranges, low, high) {
      var j :| 0 <= j < |ranges| && Covers(ranges[j], low, high);
      assert tokens[j] in tokens;
    }
  }

  ghost predicate InDomain(m: Moment) {
    && 0 <= m.second < 60 && 0 <= m.minute < 60 && 0 <= m.hour < 24
    && 1 <= m.day <= 31 && 1 <= m.month <= 12 && 0 <= m.weekday <= 6
  }

  /** The expression fires when every field admits the moment; of day and weekday,
      when both are constrained, one is enough for cron. */
  method CalendarToCron(c: Calendar) returns (e: Expression)
    ensures forall m: Moment :: InDomain(m) ==> (Fires(e, m) <==>
      && Admits(c.second, m.second) && Admits(c.minute, m.minute) && Admits(c.hour, m.hour)
      && Admits(c.month, m.month)
      && if Unconstrained(c.day, 1, 31) || Unconstrained(c.weekday, 0, 6)
         then Admits(c.day, m.day) && Admits(c.weekday, m.weekday)
         else Admits(c.day, m.day) || Admits(c.weekday, m.weekday))
  {
    var second := RangesToField(c.second, 0, 59);
    var minute := RangesToField(c.minute, 0, 59);
    var hour := RangesToField(c.hour, 0, 23);
    var day := RangesToField(c.day, 1, 31);
    var month := RangesToField(c.month, 1, 12);
    var weekday := RangesToField(c.weekday, 0, 6);
    e := Expression(if second != [At(0)] then Some(second) else None, minute, hour, day, month, weekday);
    forall v { OneMatches(At(0), v, 0); }
  }
}
