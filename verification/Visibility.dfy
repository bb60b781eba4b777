/**
 Visibility queries: clauses collected into a query object, split into what the
 database filters and what is checked row by row afterwards.
 */
module Visibility {
  import opened Prelude

  // ---------------------------------------------------------------------
  // Rows and statuses
  // ---------------------------------------------------------------------

  datatype DbosStatus = Pending | Enqueued | Delayed | Success | Error | Cancelled | MaxRecoveryAttemptsExceeded

  datatype ExecutionStatus =
    Running | Completed | Failed | Canceled | Terminated | ContinuedAsNew | TimedOut

  /** The recorded error of a row, as far as the markers tell it apart. */
  datatype RowError = NoError | ContinueMark | CancelMark | OtherError

  /** Text carries the instant the datetime parser reads in it, a number its printed form. */
  datatype Value = Text(text: string, moment: Option<int>) | Number(number: real, printed: string) | Flag(flag: bool)

  datatype Row = Row(id: string, name: string, status: DbosStatus, error: RowError,
                     created: int, completed: Option<int>, attributes: map<string, Value>)

  function ToExecutionStatus(status: DbosStatus, error: RowError): ExecutionStatus {
    match status
    case Pending | Enqueued | Delayed => Running
    case Success => Completed
    case Error =>
      if error.ContinueMark? then ContinuedAsNew else if error.CancelMark? then Canceled else Failed
    case Cancelled => Terminated
    case MaxRecoveryAttemptsExceeded => Running
  }

  function TemporalToDbos(s: ExecutionStatus): set<DbosStatus> {
    match s
    case Running => {Pending, Enqueued, Delayed, MaxRecoveryAttemptsExceeded}
    case Completed => {Success}
    case Terminated => {Cancelled}
    case Failed | Canceled | TimedOut | ContinuedAsNew => {Error}
  }

  predicate StartsWith(s: string, prefix: string) {
    prefix <= s
  }

  function TypeOf(row: Row): string {
    if StartsWith(row.name, "wf:") then row.name[3..] else row.name
  }

  // ---------------------------------------------------------------------
  // Clauses
  // ---------------------------------------------------------------------

  datatype Op = Eq | Ne | Gt | Ge | Lt | Le | In | StartsWithOp

  datatype Literal = One(value: Value) | Many(values: seq<Value>)

  datatype Clause = Clause(field: string, op: Op, literal: Literal)

  datatype Field = WorkflowType | WorkflowId | ExecStatus | StartTime | CloseTime | Attribute(name: string)

  function Lower(s: string): string {
    if s == [] then []
    else [if 'A' <= s[0] <= 'Z' then (s[0] as int + 32) as char else s[0]] + Lower(s[1..])
  }

  function FieldOf(name: string): Field {
    var key := Lower(name);
    if key == "workflowtype" then WorkflowType
    else if key == "workflowid" then WorkflowId
    else if key == "executionstatus" then ExecStatus
    else if key == "starttime" then StartTime
    else if key == "closetime" then CloseTime
    else Attribute(name)
  }

  function Printed(v: Value): string {
    match v
    case Text(text, _) => text
    case Number(_, printed) => printed
    case Flag(flag) => if flag then "True" else "False"
  }

  function StatusNamed(name: string): Option<ExecutionStatus> {
    var key := Lower(name);
    if key == "running" then Some(Running)
    else if key == "completed" then Some(Completed)
    else if key == "failed" then Some(Failed)
    else if key == "canceled" || key == "cancelled" then Some(Canceled)
    else if key == "terminated" then Some(Terminated)
    else if key == "continuedasnew" || key == "continued_as_new" then Some(ContinuedAsNew)
    else if key == "timedout" || key == "timed_out" then Some(TimedOut)
    else None
  }

  function Values(l: Literal): seq<Value> {
    if l.One? then [l.value] else l.values
  }

  function Names(values: seq<Value>): set<string> {
    set v <- values :: Printed(v)
  }

  function Statuses(values: seq<Value>): Option<set<ExecutionStatus>> {
    if exists v <- values :: StatusNamed(Printed(v)).None? then None
    else Some(set v <- values | StatusNamed(Printed(v)).Some? :: StatusNamed(Printed(v)).value)
  }

  predicate Comparison(op: Op) {
    op.Eq? || op.Gt? || op.Ge? || op.Lt? || op.Le?
  }

  type CompareOp = op: Op | Comparison(op) witness Eq

  /** What a clause demands once its field, operator and value are read. */
  datatype Demand =
    | TypeAmong(names: set<string>)
    | TypeOutside(names: set<string>)
    | Chain(id: string)
    | Prefix(id: string)
    | StatusAmong(statuses: set<ExecutionStatus>)
    | Started(op: CompareOp, at: int)
    | Closed(op: CompareOp, at: int)
    | Attributed(name: string, value: Value)

  /** None for what the query language does not have. */
  function Read(c: Clause): Option<Demand> {
    ReadAs(FieldOf(c.field), c.op, c.literal)
  }

  function ReadAs(field: Field, op: Op, l: Literal): Option<Demand> {
    match field
    case WorkflowType =>
      if op.Eq? || op.In? then Some(TypeAmong(Names(Values(l))))
      else if op.Ne? then Some(TypeOutside(Names(Values(l))))
      else None
    case WorkflowId =>
      if l.Many? then None
      else if op.Eq? then Some(Chain(Printed(l.value)))
      else if op.StartsWithOp? then Some(Prefix(Printed(l.value)))
      else None
    case ExecStatus =>
      if (op.Eq? || op.In?) && Statuses(Values(l)).Some?
      then Some(StatusAmong(Statuses(Values(l)).value)) else None
    case StartTime =>
      if l.One? && Instant(l.value).Some? && Comparison(op)
      then Some(Started(op, Instant(l.value).value)) else None
    case CloseTime =>
      if l.One? && Instant(l.value).Some? && Comparison(op)
      then Some(Closed(op, Instant(l.value).value)) else None
    case Attribute(name) =>
      if op.Eq? && l.One? then Some(Attributed(name, l.value)) else None
  }

  function Instant(v: Value): Option<int> {
    if v.Text? then v.moment else None
  }

  /** A run of the chain of this workflow id. */
  predicate InChain(id: string, base: string) {
    id == base || StartsWith(id, base + "--r")
  }

  predicate SameValue(a: Value, b: Value) {
    match a
    case Text(text, _) => b.Text? && b.text == text
    case Number(number, _) => b.Number? && b.number == number
    case Flag(flag) => b.Flag? && b.flag == flag
  }

  predicate Carries(row: Row, name: string, v: Value) {
    name in row.attributes && SameValue(row.attributes[name], v)
  }

  /** Time comparisons, strict bounds read as inclusive ones. */
  predicate Within(op: CompareOp, at: int, bound: int) {
    match op
    case Gt | Ge => at >= bound
    case Lt | Le => at <= bound
    case Eq => at == bound
  }

  predicate Satisfies(row: Row, d: Demand) {
    match d
    case TypeAmong(names) => TypeOf(row) in names
    case TypeOutside(names) => TypeOf(row) !in names
    case Chain(id) => InChain(row.id, id)
    case Prefix(id) => StartsWith(row.id, id)
    case StatusAmong(statuses) => ToExecutionStatus(row.status, row.error) in statuses
    case Started(op, at) => Within(op, row.created, at)
    case Closed(op, at) => row.completed.Some? && Within(op, row.completed.value, at)
    case Attributed(name, v) => Carries(row, name, v)
  }

  // ---------------------------------------------------------------------
  // The query object
  // ---------------------------------------------------------------------

  datatype Query = Query(
    typeIn: Option<set<string>>,
    typeNotIn: set<string>,
    idPrefix: Option<string>,
    idChain: Option<string>,
    statuses: Option<set<ExecutionStatus>>,
    startLo: Option<int>, startHi: Option<int>,
    closeLo: Option<int>, closeHi: Option<int>,
    attributes: map<string, Value>)

  const UNCONSTRAINED := Query(None, {}, None, None, None, None, None, None, None, map[])

  function Narrow<T>(have: Option<set<T>>, more: set<T>): Option<set<T>> {
    if have.None? then Some(more) else Some(have.value * more)
  }

  function TightenLo(have: Option<int>, at: int): Option<int> {
    Some(if have.Some? && have.value > at then have.value else at)
  }

  function TightenHi(have: Option<int>, at: int): Option<int> {
    Some(if have.Some? && have.value < at then have.value else at)
  }

  predicate Raises(op: Op) { op.Gt? || op.Ge? || op.Eq? }

  predicate Lowers(op: Op) { op.Lt? || op.Le? || op.Eq? }

  function Apply(q: Query, d: Demand): Query {
    match d
    case TypeAmong(names) => q.(typeIn := Narrow(q.typeIn, names))
    case TypeOutside(names) => q.(typeNotIn := q.typeNotIn + names)
    case Chain(id) => q.(idChain := Some(id))
    case Prefix(id) => q.(idPrefix := Some(id))
    case StatusAmong(statuses) => q.(statuses := Narrow(q.statuses, statuses))
    case Started(op, at) =>
      q.(startLo := if Raises(op) then TightenLo(q.startLo, at) else q.startLo,
         startHi := if Lowers(op) then TightenHi(q.startHi, at) else q.startHi)
    case Closed(op, at) =>
      q.(closeLo := if Raises(op) then TightenLo(q.closeLo, at) else q.closeLo,
         closeHi := if Lowers(op) then TightenHi(q.closeHi, at) else q.closeHi)
    case Attributed(name, v) => q.(attributes := q.attributes[name := v])
  }

  function Collect(demands: seq<Demand>): Query {
    if demands == [] then UNCONSTRAINED else Apply(Collect(demands[..|demands| - 1]), demands[|demands| - 1])
  }

  // ---------------------------------------------------------------------
  // Filters in the database, predicate afterwards
  // ---------------------------------------------------------------------

  datatype Filters = Filters(
    names: Option<set<string>>,
    idPrefixes: Option<set<string>>,
    statuses: Option<set<DbosStatus>>,
    startTime: Option<int>, endTime: Option<int>,
    completedAfter: Option<int>, completedBefore: Option<int>,
    attributes: map<string, Value>)

  function ToFilters(q: Query): Filters {
    Filters(
      if q.typeIn.Some? then Some(set t <- q.typeIn.value :: "wf:" + t) else None,
      if q.idPrefix.Some? then Some({q.idPrefix.value}) else if q.idChain.Some? then Some({q.idChain.value}) else None,
      if q.statuses.Some? then Some(set s <- q.statuses.value, d <- TemporalToDbos(s) :: d) else None,
      q.startLo, q.startHi, q.closeLo, q.closeHi,
      q.attributes)
  }

  /** How the database reads the filters: lists as membership, bounds inclusive. */
  predicate Selected(row: Row, f: Filters) {
    && (f.names.Some? ==> row.name in f.names.value)
    && (f.idPrefixes.Some? ==> exists p <- f.idPrefixes.value :: StartsWith(row.id, p))
    && (f.statuses.Some? ==> row.status in f.statuses.value)
    && (f.startTime.Some? ==> row.created >= f.startTime.value)
    && (f.endTime.Some? ==> row.created <= f.endTime.value)
    && (f.completedAfter.Some? ==> row.completed.Some? && row.completed.value >= f.completedAfter.value)
    && (f.completedBefore.Some? ==> row.completed.Some? && row.completed.value <= f.completedBefore.value)
    && (forall name <- f.attributes :: Carries(row, name, f.attributes[name]))
  }

  /** Some requested status shares the database's ERROR with others. */
  predicate NeedsStatus(q: Query) {
    q.statuses.Some? && exists s <- q.statuses.value :: TemporalToDbos(s) == {Error}
  }

  predicate NeedsPostFilter(q: Query) {
    NeedsStatus(q) || q.typeNotIn != {} || q.idChain.Some?
  }

  predicate PostFilter(row: Row, q: Query) {
    NeedsPostFilter(q) ==>
      && (q.idChain.Some? ==> InChain(row.id, q.idChain.value))
      && (q.statuses.Some? ==> ToExecutionStatus(row.status, row.error) in q.statuses.value)
      && TypeOf(row) !in q.typeNotIn
  }

  // ---------------------------------------------------------------------
  // The split loses nothing
  // ---------------------------------------------------------------------

  /** A database status alone decides among the statuses that do not share ERROR. */
  lemma {:induction false} StatusPushdown(row: Row, statuses: set<ExecutionStatus>)
    ensures ToExecutionStatus(row.status, row.error) in statuses ==>
        row.status in (set s <- statuses, d <- TemporalToDbos(s) :: d)
    ensures row.status in (set s <- statuses, d <- TemporalToDbos(s) :: d) ==>
        (exists s <- statuses :: TemporalToDbos(s) == {Error}) || ToExecutionStatus(row.status, row.error) in statuses
  {
    var actual := ToExecutionStatus(row.status, row.error);
    assert row.status in TemporalToDbos(actual);
    if row.status in (set s <- statuses, d <- TemporalToDbos(s) :: d) {
      var s :| s in statuses && row.status in TemporalToDbos(s);
      assert TemporalToDbos(s) != {Error} ==> actual == s by {
        assert row.status == Error ==> s in {Failed, Canceled, TimedOut, ContinuedAsNew};
      }
    }
  }

  /** What the query object as a whole asks, part by part: the parts that clauses narrow... */
  ghost predicate RestHolds(q: Query, row: Row) {
    && (q.typeIn.Some? ==> TypeOf(row) in q.typeIn.value) && TypeOf(row) !in q.typeNotIn
    && (q.statuses.Some? ==> ToExecutionStatus(row.status, row.error) in q.statuses.value)
    && (q.startLo.Some? ==> row.created >= q.startLo.value)
    && (q.startHi.Some? ==> row.created <= q.startHi.value)
    && (q.closeLo.Some? ==> row.completed.Some? && row.completed.value >= q.closeLo.value)
    && (q.closeHi.Some? ==> row.completed.Some? && row.completed.value <= q.closeHi.value)
  }

  datatype Slot = NoSlot | ChainSlot | PrefixSlot | AttributeSlot(name: string)

  /** ...and the parts that hold one value each, which a later clause replaces. */
  ghost predicate SlotHolds(q: Query, slot: Slot, row: Row) {
    match slot
    case NoSlot => true
    case ChainSlot => q.idChain.Some? ==> InChain(row.id, q.idChain.value)
    case PrefixSlot => q.idPrefix.Some? ==> StartsWith(row.id, q.idPrefix.value)
    case AttributeSlot(name) => name in q.attributes ==> Carries(row, name, q.attributes[name])
  }

  /** Database filter and post-filter together ask exactly what the query object says. */
  lemma {:induction false} FiltersAreExact(q: Query, row: Row)
    requires StartsWith(row.name, "wf:")
    ensures Selected(row, ToFilters(q)) && PostFilter(row, q) <==>
        RestHolds(q, row) && forall slot :: SlotHolds(q, slot, row)
  {
    var f := ToFilters(q);
    if q.statuses.Some? {
      StatusPushdown(row, q.statuses.value);
    }
    assert row.name == "wf:" + TypeOf(row);
    if q.typeIn.Some? {
      forall t | t in q.typeIn.value && row.name == "wf:" + t ensures t == TypeOf(row) {
        assert ("wf:" + t)[3..] == t;
      }
    }
    assert q.idChain.Some? && InChain(row.id, q.idChain.value) ==> StartsWith(row.id, q.idChain.value);
    if Selected(row, f) && PostFilter(row, q) {
      assert forall slot :: SlotHolds(q, slot, row);
    }
    if RestHolds(q, row) && forall slot :: SlotHolds(q, slot, row) {
      assert SlotHolds(q, ChainSlot, row) && SlotHolds(q, PrefixSlot, row);
      forall name | name in f.attributes ensures Carries(row, name, f.attributes[name]) {
        assert SlotHolds(q, AttributeSlot(name), row);
      }
    }
  }

  // ---------------------------------------------------------------------
  // The query object says what its clauses say
  // ---------------------------------------------------------------------

  /** The slot a demand fills, if its part of the query holds a single value. */
  function SlotOf(d: Demand): Slot {
    match d
    case Chain(_) => ChainSlot
    case Prefix(_) => PrefixSlot
    case Attributed(name, _) => AttributeSlot(name)
    case _ => NoSlot
  }

  ghost predicate Overridden(demands: seq<Demand>, i: nat)
    requires i < |demands|
  {
    SlotOf(demands[i]) != NoSlot && exists j :: i < j < |demands| && SlotOf(demands[j]) == SlotOf(demands[i])
  }

  /** The demands of a slot that no later one replaces hold of the row. */
  ghost predicate SlotSatisfied(demands: seq<Demand>, slot: Slot, row: Row) {
    forall i :: 0 <= i < |demands| && SlotOf(demands[i]) == slot && !Overridden(demands, i) ==>
      Satisfies(row, demands[i])
  }

  /** Every demand that no later one replaces holds of the row. */
  ghost predicate AllSatisfied(demands: seq<Demand>, row: Row) {
    forall i :: 0 <= i < |demands| && !Overridden(demands, i) ==> Satisfies(row, demands[i])
  }

  /** The database's filter and the row predicate let the row through. */
  predicate Listed(q: Query, row: Row) {
    Selected(row, ToFilters(q)) && PostFilter(row, q)
  }

  lemma {:induction false} NarrowMeans<T>(have: Option<set<T>>, more: set<T>, x: T)
    ensures x in Narrow(have, more).value <==> (have.Some? ==> x in have.value) && x in more
  {
  }

  /** A demand narrows the rest, or replaces its slot and touches no other. */
  lemma {:induction false} ApplyMeans(q: Query, d: Demand, row: Row)
    ensures RestHolds(Apply(q, d), row) <==> RestHolds(q, row) && (SlotOf(d) == NoSlot ==> Satisfies(row, d))
    ensures forall slot :: slot != NoSlot ==>
        (SlotHolds(Apply(q, d), slot, row) <==> if slot == SlotOf(d) then Satisfies(row, d) else SlotHolds(q, slot, row))
  {
    match d
    case TypeAmong(names) => NarrowMeans(q.typeIn, names, TypeOf(row));
    case StatusAmong(statuses) => NarrowMeans(q.statuses, statuses, ToExecutionStatus(row.status, row.error));
    case _ =>
  }

  lemma {:induction false} OverriddenInPrefix(demands: seq<Demand>, i: nat)
    requires i < |demands| - 1
    ensures SlotOf(demands[|demands| - 1]) == SlotOf(demands[i]) != NoSlot ==> Overridden(demands, i)
    ensures SlotOf(demands[|demands| - 1]) != SlotOf(demands[i]) ==>
        (Overridden(demands, i) <==> Overridden(demands[..|demands| - 1], i))
  {
    var fewer := demands[..|demands| - 1];
    assert forall j :: 0 <= j < |fewer| ==> fewer[j] == demands[j];
  }

  lemma {:induction false} SlotSatisfiedByLast(demands: seq<Demand>, slot: Slot, row: Row)
    requires demands != []
    ensures
      var d := demands[|demands| - 1];
      SlotSatisfied(demands, slot, row) <==>
        && (slot == SlotOf(d) ==> Satisfies(row, d))
        && (slot == SlotOf(d) != NoSlot || SlotSatisfied(demands[..|demands| - 1], slot, row))
  {
    var last := |demands| - 1;
    var fewer := demands[..last];
    forall i | 0 <= i < last
      ensures fewer[i] == demands[i]
      ensures SlotOf(demands[last]) == SlotOf(demands[i]) != NoSlot ==> Overridden(demands, i)
      ensures SlotOf(demands[last]) != SlotOf(demands[i]) ==> (Overridden(demands, i) <==> Overridden(fewer, i))
    {
      OverriddenInPrefix(demands, i);
    }
    assert !Overridden(demands, last);
  }

  lemma {:induction false} CollectMeans(demands: seq<Demand>, slot: Slot, row: Row)
    ensures if slot == NoSlot then RestHolds(Collect(demands), row) <==> SlotSatisfied(demands, slot, row)
            else SlotHolds(Collect(demands), slot, row) <==> SlotSatisfied(demands, slot, row)
    decreases |demands|
  {
    if demands != [] {
      CollectMeans(demands[..|demands| - 1], slot, row);
      ApplyMeans(Collect(demands[..|demands| - 1]), demands[|demands| - 1], row);
      SlotSatisfiedByLast(demands, slot, row);
    }
  }

  /** For every conjunction, whatever it repeats: a row is listed exactly when it
      satisfies the clauses that no later clause of the same slot replaces. */
  lemma {:induction false} QueryMeansItsLastClauses(demands: seq<Demand>, row: Row)
    requires StartsWith(row.name, "wf:")
    ensures Listed(Collect(demands), row) <==> AllSatisfied(demands, row)
  {
    var q := Collect(demands);
    FiltersAreExact(q, row);
    forall slot
      ensures (if slot == NoSlot then RestHolds(q, row) else SlotHolds(q, slot, row)) <==>
        SlotSatisfied(demands, slot, row)
    {
      CollectMeans(demands, slot, row);
    }
    if forall slot :: SlotSatisfied(demands, slot, row) {
      forall i | 0 <= i < |demands| && !Overridden(demands, i) ensures Satisfies(row, demands[i]) {
        assert SlotSatisfied(demands, SlotOf(demands[i]), row);
      }
    }
    assert RestHolds(q, row) <==> SlotSatisfied(demands, NoSlot, row);
    assert SlotHolds(q, NoSlot, row);
  }

  /** So a conjunction that repeats neither kind of WorkflowId clause nor an
      attribute name means all its clauses. */
  lemma {:induction false} QueryMeansItsConjunction(demands: seq<Demand>, row: Row)
    requires StartsWith(row.name, "wf:")
    requires forall i, j :: 0 <= i < j < |demands| && SlotOf(demands[i]) != NoSlot ==>
        SlotOf(demands[i]) != SlotOf(demands[j])
    ensures Listed(Collect(demands), row) <==> forall d <- demands :: Satisfies(row, d)
  {
    QueryMeansItsLastClauses(demands, row);
    assert forall i :: 0 <= i < |demands| ==> !Overridden(demands, i);
    if AllSatisfied(demands, row) {
      forall d | d in demands ensures Satisfies(row, d) {
        var i :| 0 <= i < |demands| && demands[i] == d;
      }
    }
  }

  /** A repeated WorkflowId clause does replace the first: the row is listed though
      it is no run of the first clause's chain. */
  lemma {:induction false} RepeatedWorkflowIdReplaces()
    ensures
      var row := Row("b", "wf:T", Success, NoError, 0, Some(1), map[]);
      Listed(Collect([Chain("a"), Chain("b")]), row) && !Satisfies(row, Chain("a"))
  {
    var row := Row("b", "wf:T", Success, NoError, 0, Some(1), map[]);
    var demands := [Chain("a"), Chain("b")];
    QueryMeansItsLastClauses(demands, row);
    assert SlotOf(demands[1]) == SlotOf(demands[0]);
    assert Overridden(demands, 0);
  }

  /** No row reports TimedOut, so asking for it lists nothing. */
  lemma {:induction false} TimedOutListsNothing(demands: seq<Demand>, row: Row)
    requires StartsWith(row.name, "wf:") && StatusAmong({TimedOut}) in demands
    ensures !Listed(Collect(demands), row)
  {
    QueryMeansItsLastClauses(demands, row);
    var i :| 0 <= i < |demands| && demands[i] == StatusAmong({TimedOut});
    assert !Overridden(demands, i);
  }
}

/** What clauses mean on a row, told from their text. */
module VisibilityClauses {
  import opened Prelude
  import opened Visibility

  ghost predicate IsA(c: Clause, field: string) {
    Lower(c.field) == field
  }

  /** A name no system field has is a search attribute's. */
  ghost predicate OnAttribute(c: Clause) {
    !IsA(c, "workflowtype") && !IsA(c, "workflowid") && !IsA(c, "executionstatus") && !IsA(c, "starttime") && !IsA(c, "closetime")
  }

  ghost predicate OnTime(c: Clause) {
    IsA(c, "starttime") || IsA(c, "closetime")
  }

  ghost predicate IsMoment(l: Literal) {
    l.One? && l.value.Text? && l.value.moment.Some?
  }

  /** The clauses the query language has. */
  ghost predicate Supported(c: Clause) {
    if IsA(c, "workflowtype") then c.op == Eq || c.op == Ne || c.op == In
    else if IsA(c, "workflowid") then c.literal.One? && (c.op == Eq || c.op == StartsWithOp)
    else if IsA(c, "executionstatus") then
      (c.op == Eq || c.op == In) && forall v :: v in Values(c.literal) ==> StatusNamed(Printed(v)).Some?
    else if OnTime(c) then IsMoment(c.literal) && c.op != Ne && c.op != In && c.op != StartsWithOp
    else c.literal.One? && c.op == Eq
  }

  /** How a row reports each status. */
  ghost predicate Reports(row: Row, s: ExecutionStatus) {
    match s
    case Running => row.status in {Pending, Enqueued, Delayed, MaxRecoveryAttemptsExceeded}
    case Completed => row.status == Success
    case Failed => row.status == Error && row.error != ContinueMark && row.error != CancelMark
    case Canceled => row.status == Error && row.error == CancelMark
    case Terminated => row.status == DbosStatus.Cancelled
    case ContinuedAsNew => row.status == Error && row.error == ContinueMark
    case TimedOut => false
  }

  /** A time against the moment of the clause, strict bounds read as inclusive ones. */
  ghost predicate Compares(at: int, op: Op, moment: int) {
    if op == Eq then at == moment else if op == Gt || op == Ge then moment <= at else at <= moment
  }

  ghost predicate SameScalar(a: Value, b: Value) {
    || (a.Text? && b.Text? && a.text == b.text)
    || (a.Number? && b.Number? && a.number == b.number)
    || (a.Flag? && b.Flag? && a.flag == b.flag)
  }

  /** What a supported clause asks of a row, field by field and operator by operator. */
  ghost predicate Holds(c: Clause, row: Row)
    requires Supported(c)
  {
    var values := Values(c.literal);
    if IsA(c, "workflowtype") then
      if c.op == Ne then forall v :: v in values ==> row.name != "wf:" + Printed(v)
      else exists v :: v in values && row.name == "wf:" + Printed(v)
    else if IsA(c, "workflowid") then
      var text := Printed(c.literal.value);
      if c.op == StartsWithOp then text <= row.id else row.id == text || text + "--r" <= row.id
    else if IsA(c, "executionstatus") then
      exists v :: v in values && Reports(row, StatusNamed(Printed(v)).value)
    else if IsA(c, "starttime") then Compares(row.created, c.op, c.literal.value.moment.value)
    else if IsA(c, "closetime") then row.completed.Some? && Compares(row.completed.value, c.op, c.literal.value.moment.value)
    else c.field in row.attributes && SameScalar(row.attributes[c.field], c.literal.value)
  }

  /** Two clauses of which the later replaces the earlier: on the workflow id with the
      same operator, or on the same attribute. */
  ghost predicate Replaces(later: Clause, earlier: Clause) {
    || (IsA(later, "workflowid") && IsA(earlier, "workflowid") && later.op == earlier.op)
    || (OnAttribute(later) && OnAttribute(earlier) && later.field == earlier.field)
  }

  /** The conjunction without its replaced clauses. */
  ghost predicate AllHold(clauses: seq<Clause>, row: Row)
    requires forall c <- clauses :: Supported(c)
  {
    forall i :: 0 <= i < |clauses| && !Replaced(clauses, i) ==> Holds(clauses[i], row)
  }

  ghost predicate Replaced(clauses: seq<Clause>, i: nat)
    requires i < |clauses|
  {
    exists j :: i < j < |clauses| && Replaces(clauses[j], clauses[i])
  }

  // ---------------------------------------------------------------------
  // The reader's demands mean the clauses
  // ---------------------------------------------------------------------

  /** The reader knows exactly the supported clauses. */
  lemma ReadsSupported(c: Clause)
    ensures Read(c).Some? <==> Supported(c)
  {
  }

  function LowerLetter(c: char): char {
    if 'A' <= c <= 'Z' then (c as int + 32) as char else c
  }

  lemma {:induction false} LowerAt(s: string)
    ensures |Lower(s)| == |s| && forall i :: 0 <= i < |s| ==> Lower(s)[i] == LowerLetter(s[i])
  {
    if s != [] {
      LowerAt(s[1..]);
    }
  }

  lemma LowersTo(s: string, lower: string)
    requires |lower| == |s| && forall i :: 0 <= i < |s| ==> lower[i] == LowerLetter(s[i])
    ensures Lower(s) == lower
  {
    LowerAt(s);
  }

  /** The system fields, whichever way their letters are cased. */
  lemma FieldsAreNamed(name: string, lower: string)
    requires lower == Lower(name)
    ensures FieldOf(name) ==
      if lower == "workflowtype" then WorkflowType
      else if lower == "workflowid" then WorkflowId
      else if lower == "executionstatus" then ExecStatus
      else if lower == "starttime" then StartTime
      else if lower == "closetime" then CloseTime
      else Attribute(name)
  {
  }

  /** The canonical spelling of a system field. */
  function FieldName(field: Field): string {
    match field
    case WorkflowType => "WorkflowType"
    case WorkflowId => "WorkflowId"
    case ExecStatus => "ExecutionStatus"
    case StartTime => "StartTime"
    case CloseTime => "CloseTime"
    case Attribute(name) => name
  }

  lemma FieldNamesLower(field: Field) returns (lower: string)
    requires !field.Attribute?
    ensures lower == Lower(FieldName(field))
    ensures lower == match field
                     case WorkflowType => "workflowtype"
                     case WorkflowId => "workflowid"
                     case ExecStatus => "executionstatus"
                     case StartTime => "starttime"
                     case CloseTime => "closetime"
                     case Attribute(_) => ""
  {
    match field {
      case WorkflowType => lower := "workflowtype";
      case WorkflowId => lower := "workflowid";
      case ExecStatus => lower := "executionstatus";
      case StartTime => lower := "starttime";
      case CloseTime => lower := "closetime";
    }
    LowersTo(FieldName(field), lower);
  }

  /** A system field is read from its canonical name and whatever differs in case only. */
  lemma FieldNamesRoundTrip(field: Field, name: string)
    requires !field.Attribute?
    ensures FieldOf(name) == field <==> Lower(name) == Lower(FieldName(field))
  {
    var lower := FieldNamesLower(field);
    FieldsAreNamed(name, Lower(name));
  }

  /** The canonical spelling of a status. */
  function StatusName(s: ExecutionStatus): string {
    match s
    case Running => "Running"
    case Completed => "Completed"
    case Failed => "Failed"
    case Canceled => "Canceled"
    case Terminated => "Terminated"
    case ContinuedAsNew => "ContinuedAsNew"
    case TimedOut => "TimedOut"
  }

  lemma StatusNamesLower(s: ExecutionStatus) returns (lower: string)
    ensures lower == Lower(StatusName(s))
    ensures lower == match s
                     case Running => "running"
                     case Completed => "completed"
                     case Failed => "failed"
                     case Canceled => "canceled"
                     case Terminated => "terminated"
                     case ContinuedAsNew => "continuedasnew"
                     case TimedOut => "timedout"
  {
    match s {
      case Running => lower := "running";
      case Completed => lower := "completed";
      case Failed => lower := "failed";
      case Canceled => lower := "canceled";
      case Terminated => lower := "terminated";
      case ContinuedAsNew => lower := "continuedasnew";
      case TimedOut => lower := "timedout";
    }
    LowersTo(StatusName(s), lower);
  }

  /** Each status is read from its canonical name or a second one, whatever the case. */
  lemma StatusNamesRoundTrip(s: ExecutionStatus, name: string)
    ensures StatusNamed(name) == Some(s) <==>
        || Lower(name) == Lower(StatusName(s)) || (s == Canceled && Lower(name) == "cancelled")
        || (s == ContinuedAsNew && Lower(name) == "continued_as_new") || (s == TimedOut && Lower(name) == "timed_out")
  {
    var lower := StatusNamesLower(s);
    StatusByKey(s, name, Lower(name));
  }

  lemma StatusByKey(s: ExecutionStatus, name: string, key: string)
    requires key == Lower(name)
    ensures StatusNamed(name) == Some(s) <==>
        match s
        case Running => key == "running"
        case Completed => key == "completed"
        case Failed => key == "failed"
        case Canceled => key == "canceled" || key == "cancelled"
        case Terminated => key == "terminated"
        case ContinuedAsNew => key == "continuedasnew" || key == "continued_as_new"
        case TimedOut => key == "timedout" || key == "timed_out"
  {
  }

  /** How the reader prints the values it compares as text. */
  lemma PrintsAsRead(text: string, moment: Option<int>, number: real, printed: string)
    ensures Printed(Text(text, moment)) == text && Printed(Number(number, printed)) == printed
    ensures Printed(Flag(true)) == "True" && Printed(Flag(false)) == "False"
  {
  }

  lemma ReportsItsStatus(row: Row, s: ExecutionStatus)
    ensures Reports(row, s) <==> ToExecutionStatus(row.status, row.error) == s
  {
  }

  lemma TypeIsNamed(row: Row, name: string)
    requires StartsWith(row.name, "wf:")
    ensures row.name == "wf:" + name <==> TypeOf(row) == name
  {
    assert row.name == "wf:" + row.name[3..];
    assert ("wf:" + name)[3..] == name;
  }

  /** What the reader demands is what the clause says. */
  lemma DemandMeansClause(c: Clause, row: Row)
    requires Supported(c) && StartsWith(row.name, "wf:")
    ensures Read(c).Some? && (Satisfies(row, Read(c).value) <==> Holds(c, row))
  {
    ReadsSupported(c);
    FieldsAreNamed(c.field, Lower(c.field));
    if IsA(c, "workflowtype") {
      TypeClause(c, row);
    } else if IsA(c, "workflowid") {
      IdClause(c, row);
    } else if IsA(c, "executionstatus") {
      StatusClause(c, row);
    } else if OnTime(c) {
      TimeClause(c, row);
    } else {
      AttributeClause(c, row);
    }
  }

  lemma TypeClause(c: Clause, row: Row)
    requires Supported(c) && IsA(c, "workflowtype") && StartsWith(row.name, "wf:")
    ensures Read(c).Some? && (Satisfies(row, Read(c).value) <==> Holds(c, row))
  {
    forall v | v in Values(c.literal) {
      TypeIsNamed(row, Printed(v));
    }
  }

  lemma IdClause(c: Clause, row: Row)
    requires Supported(c) && IsA(c, "workflowid")
    ensures Read(c).Some? && (Satisfies(row, Read(c).value) <==> Holds(c, row))
  {
  }

  lemma TimeClause(c: Clause, row: Row)
    requires Supported(c) && OnTime(c)
    ensures Read(c).Some? && (Satisfies(row, Read(c).value) <==> Holds(c, row))
  {
  }

  lemma AttributeClause(c: Clause, row: Row)
    requires Supported(c) && OnAttribute(c)
    ensures Read(c).Some? && (Satisfies(row, Read(c).value) <==> Holds(c, row))
  {
  }

  lemma StatusClause(c: Clause, row: Row)
    requires Supported(c) && IsA(c, "executionstatus")
    ensures Read(c).Some? && (Satisfies(row, Read(c).value) <==> Holds(c, row))
  {
    forall s {
      ReportsItsStatus(row, s);
    }
  }

  lemma SlotsAreReplaced(later: Clause, earlier: Clause)
    requires Supported(later) && Supported(earlier)
    ensures Read(later).Some? && Read(earlier).Some?
    ensures Replaces(later, earlier) <==>
        SlotOf(Read(earlier).value) != NoSlot && SlotOf(Read(later).value) == SlotOf(Read(earlier).value)
  {
  }

  function Demands(clauses: seq<Clause>): (demands: seq<Demand>)
    requires forall c <- clauses :: Read(c).Some?
    ensures |demands| == |clauses| && forall i :: 0 <= i < |clauses| ==> demands[i] == Read(clauses[i]).value
  {
    if clauses == [] then [] else Demands(clauses[..|clauses| - 1]) + [Read(clauses[|clauses| - 1]).value]
  }

  lemma SupportedAreRead(clauses: seq<Clause>)
    requires forall c <- clauses :: Supported(c)
    ensures forall c <- clauses :: Read(c).Some?
  {
    forall c | c in clauses ensures Read(c).Some? {
      ReadsSupported(c);
    }
  }

  /** The i-th clause and its demand: replaced alike, and meant alike. */
  ghost predicate Alike(clauses: seq<Clause>, demands: seq<Demand>, i: nat, row: Row)
    requires i < |clauses| == |demands| && Supported(clauses[i])
  {
    && (Overridden(demands, i) <==> Replaced(clauses, i))
    && (Satisfies(row, demands[i]) <==> Holds(clauses[i], row))
  }

  lemma DemandsAlike(clauses: seq<Clause>, demands: seq<Demand>, i: nat, row: Row)
    requires StartsWith(row.name, "wf:") && i < |clauses| == |demands|
    requires forall j :: 0 <= j < |clauses| ==> Supported(clauses[j]) && Read(clauses[j]) == Some(demands[j])
    ensures Alike(clauses, demands, i, row)
  {
    DemandMeansClause(clauses[i], row);
    OverriddenIsReplaced(clauses, demands, i);
  }

  lemma AllAlike(clauses: seq<Clause>, demands: seq<Demand>, row: Row)
    requires |clauses| == |demands| && forall c <- clauses :: Supported(c)
    requires forall i :: 0 <= i < |clauses| ==> Alike(clauses, demands, i, row)
    ensures AllSatisfied(demands, row) <==> AllHold(clauses, row)
  {
    if AllSatisfied(demands, row) {
      forall i | 0 <= i < |clauses| && !Replaced(clauses, i) ensures Holds(clauses[i], row) {
        assert Alike(clauses, demands, i, row);
      }
    }
    if AllHold(clauses, row) {
      forall i | 0 <= i < |demands| && !Overridden(demands, i) ensures Satisfies(row, demands[i]) {
        assert Alike(clauses, demands, i, row);
      }
    }
  }

  /** For every conjunction of supported clauses: a row is listed exactly when every
      clause holds of it that no later one on the same id or attribute replaces. */
  lemma QueryMeansItsClauses(clauses: seq<Clause>, row: Row)
    requires StartsWith(row.name, "wf:") && forall c <- clauses :: Supported(c)
    ensures forall c <- clauses :: Read(c).Some?
    ensures Listed(Collect(Demands(clauses)), row) <==> AllHold(clauses, row)
  {
    SupportedAreRead(clauses);
    var demands := Demands(clauses);
    DemandsOfSupported(clauses, demands);
    QueryMeansItsLastClauses(demands, row);
    forall i | 0 <= i < |clauses| ensures Alike(clauses, demands, i, row) {
      DemandsAlike(clauses, demands, i, row);
    }
    AllAlike(clauses, demands, row);
  }

  lemma DemandsOfSupported(clauses: seq<Clause>, demands: seq<Demand>)
    requires forall c <- clauses :: Supported(c) && Read(c).Some?
    requires demands == Demands(clauses)
    ensures forall j :: 0 <= j < |clauses| ==> Supported(clauses[j]) && Read(clauses[j]) == Some(demands[j])
  {
    forall j | 0 <= j < |clauses| ensures Supported(clauses[j]) && Read(clauses[j]) == Some(demands[j]) {
      assert clauses[j] in clauses;
      assert demands[j] == Read(clauses[j]).value;
    }
  }

  lemma OverriddenIsReplaced(clauses: seq<Clause>, demands: seq<Demand>, i: nat)
    requires i < |clauses| && |demands| == |clauses|
    requires forall j :: 0 <= j < |clauses| ==> Supported(clauses[j]) && Read(clauses[j]) == Some(demands[j])
    ensures Overridden(demands, i) <==> Replaced(clauses, i)
  {
    forall j | i < j < |clauses|
      ensures Replaces(clauses[j], clauses[i]) <==> SlotOf(demands[i]) != NoSlot && SlotOf(demands[j]) == SlotOf(demands[i])
    {
      SlotsAreReplaced(clauses[j], clauses[i]);
    }
  }
}

/** The query object and the clause reader that fills it in place. */
module VisibilityQueries {
  import opened Prelude
  import opened Visibility
  import opened VisibilityClauses

  class VisibilityQuery {
    var typeIn: Option<set<string>>
    var typeNotIn: set<string>
    var idPrefix: Option<string>
    var idChain: Option<string>
    var statuses: Option<set<ExecutionStatus>>
    var startLo: Option<int>
    var startHi: Option<int>
    var closeLo: Option<int>
    var closeHi: Option<int>
    var attributes: map<string, Value>
    ghost var clauses: seq<Clause>

    ghost function View(): Query
      reads this
    {
      Query(typeIn, typeNotIn, idPrefix, idChain, statuses, startLo, startHi, closeLo, closeHi, attributes)
    }

    ghost predicate Valid()
      reads this
    {
      (forall c <- clauses :: Supported(c) && Read(c).Some?) && View() == Collect(Demands(clauses))
    }

    constructor ()
      ensures Valid() && clauses == []
    {
      typeIn, typeNotIn, idPrefix, idChain, statuses := None, {}, None, None, None;
      startLo, startHi, closeLo, closeHi, attributes := None, None, None, None, map[];
      clauses := [];
    }

    method ReadStatuses(values: seq<Value>) returns (parsed: Option<set<ExecutionStatus>>)
      ensures parsed == Statuses(values)
    {
      var found: set<ExecutionStatus> := {};
      for i := 0 to |values|
        invariant forall v <- values[..i] :: StatusNamed(Printed(v)).Some?
        invariant found == set v <- values[..i] | StatusNamed(Printed(v)).Some? :: StatusNamed(Printed(v)).value
      {
        var status := StatusNamed(Printed(values[i]));
        if status.None? {
          assert values[i] in values;
          return None;
        }
        assert values[..i + 1] == values[..i] + [values[i]];
        found := found + {status.value};
      }
      assert values[..|values|] == values;
      return Some(found);
    }

    /** A clause the language has joins the conjunction; any other is refused and
        leaves the query as it was. */
    method ApplyClause(c: Clause) returns (ok: bool)
      requires Valid()
      modifies this
      ensures Valid() && ok == Supported(c)
      ensures clauses == if ok then old(clauses) + [c] else old(clauses)
      ensures !ok ==> View() == old(View())
    {
      ReadsSupported(c);
      ok := Demanding(FieldOf(c.field), c.op, c.literal);
      if ok {
        clauses := clauses + [c];
        assert clauses[..|clauses| - 1] == old(clauses);
        assert Demands(clauses)[..|clauses| - 1] == Demands(old(clauses));
      }
    }

    method Demanding(field: Field, op: Op, l: Literal) returns (ok: bool)
      modifies this
      ensures ok == ReadAs(field, op, l).Some? && clauses == old(clauses)
      ensures View() == if ok then Apply(old(View()), ReadAs(field, op, l).value) else old(View())
    {
      match field {
        case WorkflowType => ok := DemandType(op, l);
        case WorkflowId => ok := DemandId(op, l);
        case ExecStatus => ok := DemandStatus(op, l);
        case StartTime =>
          ok := l.One? && Instant(l.value).Some? && Comparison(op);
          if ok {
            if Raises(op) { startLo := TightenLo(startLo, Instant(l.value).value); }
            if Lowers(op) { startHi := TightenHi(startHi, Instant(l.value).value); }
          }
        case CloseTime =>
          ok := l.One? && Instant(l.value).Some? && Comparison(op);
          if ok {
            if Raises(op) { closeLo := TightenLo(closeLo, Instant(l.value).value); }
            if Lowers(op) { closeHi := TightenHi(closeHi, Instant(l.value).value); }
          }
        case Attribute(name) =>
          ok := op.Eq? && l.One?;
          if ok {
            attributes := attributes[name := l.value];
          }
      }
    }

    method DemandType(op: Op, l: Literal) returns (ok: bool)
      modifies this`typeIn, this`typeNotIn
      ensures ok == ReadAs(WorkflowType, op, l).Some?
      ensures View() == if ok then Apply(old(View()), ReadAs(WorkflowType, op, l).value) else old(View())
    {
      var names := Names(Values(l));
      ok := true;
      if op.Eq? || op.In? {
        typeIn := if typeIn.None? then Some(names) else Some(typeIn.value * names);
      } else if op.Ne? {
        typeNotIn := typeNotIn + names;
      } else {
        ok := false;
      }
    }

    method DemandId(op: Op, l: Literal) returns (ok: bool)
      modifies this`idChain, this`idPrefix
      ensures ok == ReadAs(WorkflowId, op, l).Some?
      ensures View() == if ok then Apply(old(View()), ReadAs(WorkflowId, op, l).value) else old(View())
    {
      ok := l.One? && (op.Eq? || op.StartsWithOp?);
      if ok {
        if op.Eq? {
          idChain := Some(Printed(l.value));
        } else {
          idPrefix := Some(Printed(l.value));
        }
      }
    }

    method DemandStatus(op: Op, l: Literal) returns (ok: bool)
      modifies this`statuses
      ensures ok == ReadAs(ExecStatus, op, l).Some?
      ensures View() == if ok then Apply(old(View()), ReadAs(ExecStatus, op, l).value) else old(View())
    {
      var parsed := ReadStatuses(Values(l));
      ok := (op.Eq? || op.In?) && parsed.Some?;
      if ok {
        statuses := if statuses.None? then parsed else Some(statuses.value * parsed.value);
      }
    }
  }
}
