/**
 Listing workflows page by page over a query's database filter and row predicate.
 */
module Paging {
  import opened Prelude

  /** The rows a predicate keeps, in order. */
  function Survivors<T>(rows: seq<T>, keep: T -> bool): seq<T> {
    if rows == [] then []
    else if keep(rows[0]) then [rows[0]] + Survivors(rows[1..], keep)
    else Survivors(rows[1..], keep)
  }

  lemma {:induction false} SurvivorsConcat<T>(a: seq<T>, b: seq<T>, keep: T -> bool)
    ensures Survivors(a + b, keep) == Survivors(a, keep) + Survivors(b, keep)
  {
    if a == [] {
      assert a + b == b;
    } else {
      var tail := a[1..];
      assert (a + b)[0] == a[0] && (a + b)[1..] == tail + b;
      SurvivorsConcat(tail, b, keep);
      var kept, later := Survivors(tail, keep), Survivors(b, keep);
      assert [a[0]] + (kept + later) == [a[0]] + kept + later;
    }
  }

  lemma FirstOfPrefix<T>(front: seq<T>, s: seq<T>, n: nat)
    requires 0 < n <= |s|
    ensures front + s[..n] == front + [s[0]] + s[1..][..n - 1]
  {
    assert s[..n] == [s[0]] + s[1..][..n - 1];
  }

  lemma NextOnPage<T>(page: seq<T>, index: nat, later: seq<T>)
    requires index < |page|
    ensures page[index..] + later == [page[index]] + (page[index + 1..] + later)
  {
    var rest := page[index + 1..];
    assert page[index..] == [page[index]] + rest;
    assert [page[index]] + rest + later == [page[index]] + (rest + later);
  }

  /** Iterates over a listing that stays as it is. */
  class WorkflowExecutionIterator<T> {
    const raw: seq<T>
    const keep: T -> bool
    const pageSize: nat
    const limit: Option<nat>
    var fetchOffset: nat
    var token: Option<nat>
    var page: Option<seq<T>>
    var index: nat
    var yielded: nat

    ghost predicate Valid()
      reads this
    {
      && (page.Some? ==> index <= |page.value|)
      && (token.Some? ==> token.value == fetchOffset)
      && (page.None? ==> index == 0 && (token.None? ==> fetchOffset == 0))
    }

    function Rest(offset: nat): seq<T> {
      if offset <= |raw| then raw[offset..] else []
    }

    /** The rows of later pages; a zero page size fetches none. */
    ghost function Later(): seq<T>
      reads this
    {
      if pageSize > 0 && (page.None? || token.Some?) then Survivors(Rest(fetchOffset), keep) else []
    }

    /** The rows still to come, the limit aside. */
    ghost function Ahead(): seq<T>
      reads this
      requires Valid()
    {
      if page.Some? then page.value[index..] + Later() else Later()
    }

    ghost function Allowed(): nat
      reads this
      requires Valid()
    {
      if limit.None? then |Ahead()|
      else if limit.value <= yielded then 0
      else if limit.value - yielded < |Ahead()| then limit.value - yielded
      else |Ahead()|
    }

    constructor (raw: seq<T>, keep: T -> bool, pageSize: nat, limit: Option<nat>, token: Option<nat>)
      ensures Valid() && this.raw == raw && this.keep == keep && this.pageSize == pageSize && this.limit == limit
      ensures yielded == 0
      ensures pageSize > 0 ==> Ahead() == Survivors(Rest(if token.Some? then token.value else 0), keep)
      ensures pageSize == 0 ==> Ahead() == []
    {
      this.raw, this.keep, this.pageSize, this.limit, this.token := raw, keep, pageSize, limit, token;
      fetchOffset := if token.Some? then token.value else 0;
      page, index, yielded := None, 0, 0;
    }

    method Keep(batch: seq<T>) returns (kept: seq<T>)
      ensures kept == Survivors(batch, keep)
    {
      kept := [];
      for i := 0 to |batch|
        invariant kept == Survivors(batch[..i], keep)
      {
        assert batch[..i + 1] == batch[..i] + [batch[i]];
        SurvivorsConcat(batch[..i], [batch[i]], keep);
        if keep(batch[i]) {
          kept := kept + [batch[i]];
        }
      }
      assert batch[..|batch|] == batch;
    }

    /** One batch of rows; a full one may be followed by more. */
    method Fetch(most: nat) returns (batch: seq<T>)
      modifies this`fetchOffset, this`token
      ensures Rest(old(fetchOffset)) == batch + Rest(fetchOffset)
      ensures token == if |batch| == most && most > 0 then Some(fetchOffset) else None
      ensures token.None? && most > 0 ==> Rest(fetchOffset) == []
      ensures most == 0 ==> batch == [] && fetchOffset == old(fetchOffset)
    {
      var rest := Rest(fetchOffset);
      batch := if most < |rest| then rest[..most] else rest;
      fetchOffset := fetchOffset + |batch|;
      assert Rest(fetchOffset) == rest[|batch|..];
      token := if |batch| == most && most > 0 then Some(fetchOffset) else None;
    }

    /** Keeps the survivors of the next rows; a token leads exactly to what follows
        them, and no token is given only at the end or for an empty page size. */
    method FetchNextPage(size: Option<nat>)
      requires Valid()
      modifies this
      ensures Valid() && page.Some? && index == 0 && yielded == old(yielded)
      ensures page.value + Survivors(Rest(fetchOffset), keep) == Survivors(Rest(old(fetchOffset)), keep)
      ensures |Rest(fetchOffset)| <= |Rest(old(fetchOffset))|
      ensures token.Some? ==> |Rest(fetchOffset)| < |Rest(old(fetchOffset))|
      ensures token.None? ==> Rest(fetchOffset) == [] || (pageSize == 0 && size in {None, Some(0)} && page.value == [])
      ensures size.None? && old(page.None? || (token.Some? && index == |page.value|)) ==> Ahead() == old(Ahead())
    {
      var batch := Fetch(if size.Some? && size.value > 0 then size.value else pageSize);
      SurvivorsConcat(batch, Rest(fetchOffset), keep);
      var kept := Keep(batch);
      page, index := Some(kept), 0;
      assert kept[0..] == kept;
    }

    /** The next row to come, or none when there is none or the limit is reached. */
    method Next() returns (row: Option<T>)
      requires Valid()
      modifies this
      ensures Valid()
      ensures row == if old(Allowed()) > 0 then Some(old(Ahead())[0]) else None
      ensures row.Some? ==> Ahead() == old(Ahead())[1..] && yielded == old(yielded) + 1
      ensures row.Some? ==> Allowed() == old(Allowed()) - 1
      ensures row.None? ==> yielded == old(yielded)
    {
      if limit.Some? && yielded >= limit.value {
        return None;
      }
      while page.None? || (index >= |page.value| && token.Some?)
        invariant Valid() && Ahead() == old(Ahead()) && yielded == old(yielded)
        decreases |Rest(fetchOffset)|, (if page.None? then 1 else 0) + (if token.Some? then 1 else 0)
      {
        FetchNextPage(None);
      }
      if index >= |page.value| {
        return None;
      }
      var first := Take();
      return Some(first);
    }

    method Take() returns (row: T)
      requires Valid() && page.Some? && index < |page.value|
      modifies this`index, this`yielded
      ensures Valid() && old(Ahead()) == [row] + Ahead() && yielded == old(yielded) + 1
    {
      NextOnPage(page.value, index, Later());
      row := page.value[index];
      index, yielded := index + 1, yielded + 1;
    }

    /** Iterating to the end yields all rows to come, in order, up to the limit. */
    method Drain() returns (rows: seq<T>)
      requires Valid()
      modifies this
      ensures rows == old(Ahead())[..old(Allowed())]
    {
      rows := [];
      ghost var all := Ahead()[..Allowed()];
      var row := None;
      var more := true;
      while more
        invariant Valid()
        invariant if more then rows + Ahead()[..Allowed()] == all else rows == all
        decreases more, |Ahead()|
      {
        ghost var ahead, allowed := Ahead(), Allowed();
        row := Next();
        more := row.Some?;
        if more {
          FirstOfPrefix(rows, ahead, allowed);
          rows := rows + [row.value];
        }
      }
    }
  }
}

module Listing {
  import opened Paging
  import opened Visibility
  import opened VisibilityClauses
  import Decimal
  import Ids

  /** User workflow runs only, and no replay scratch runs. */
  predicate Visible(row: Row) {
    StartsWith(row.name, "wf:") && Ids.ScratchMode(row.id).None?
  }

  /** The runs of a workflow are visible, its replay scratch runs and its activities are not. */
  lemma RunsAreVisible(row: Row, w: Ids.WorkflowId, run: nat, mode: Ids.Mode, suffix: string)
    requires Ids.Valid(w) && Ids.Token(suffix)
    ensures StartsWith(row.name, "wf:") && row.id == Ids.RunId(Ids.Text(w), run) ==> Visible(row)
    ensures row.id == Ids.ScratchId(Ids.RunId(Ids.Text(w), run), mode, suffix) ==> !Visible(row)
    ensures !StartsWith(row.name, "wf:") ==> !Visible(row)
  {
    Ids.ScratchModeIsExact(w, run, 0, mode, suffix);
  }

  /** The rows the database returns for the query's filters. */
  function Scan(table: seq<Row>, q: Query): seq<Row> {
    if table == [] then []
    else (if Selected(table[0], ToFilters(q)) then [table[0]] else []) + Scan(table[1..], q)
  }

  /** What a page keeps of the rows it fetched. */
  function Keeper(q: Query): Row -> bool {
    (row: Row) => Visible(row) && PostFilter(row, q)
  }

  /** The rows the clauses ask for. */
  ghost function Wanted(table: seq<Row>, clauses: seq<Clause>): seq<Row>
    requires forall c <- clauses :: Supported(c)
  {
    if table == [] then []
    else (if Visible(table[0]) && AllHold(clauses, table[0]) then [table[0]] else []) + Wanted(table[1..], clauses)
  }

  /** Scanning and post-filtering give the visible rows the clauses ask for, in order. */
  lemma {:induction false} SurvivorsAreWanted(table: seq<Row>, clauses: seq<Clause>)
    requires forall c <- clauses :: Supported(c)
    ensures forall c <- clauses :: Read(c).Some?
    ensures
      var q := Collect(Demands(clauses));
      Survivors(Scan(table, q), Keeper(q)) == Wanted(table, clauses)
  {
    forall c | c in clauses ensures Read(c).Some? {
      ReadsSupported(c);
    }
    if table != [] {
      var q := Collect(Demands(clauses));
      SurvivorsAreWanted(table[1..], clauses);
      if Visible(table[0]) {
        QueryMeansItsClauses(clauses, table[0]);
      }
      var first := if Selected(table[0], ToFilters(q)) then [table[0]] else [];
      SurvivorsConcat(first, Scan(table[1..], q), Keeper(q));
      assert Survivors(first, Keeper(q)) == if Visible(table[0]) && Listed(q, table[0]) then [table[0]] else [];
    }
  }

  /** WorkflowId = X lists every run of the chain X... */
  lemma {:induction false} ChainClauseCoversTheChain(base: string, id: string)
    requires Ids.RunIndexOf(base, id).Some?
    ensures InChain(id, base)
  {
  }

  /** v is a child of a later run of w, or descends from one through children. */
  ghost predicate Descends(v: Ids.WorkflowId, w: Ids.WorkflowId) {
    v.AutoChild? && ((v.run > 0 && Ids.Text(v.parent) == Ids.Text(w)) || Descends(v.parent, w))
  }

  /** The id goes on, behind this base, with a run separator. */
  ghost predicate Continues(id: string, base: string) {
    StartsWith(id, base + "--r")
  }

  /** A tail without an r adds no such prefix. */
  lemma PlainTail(front: string, tail: string, base: string)
    requires 'r' !in tail
    ensures Continues(front + tail, base) <==> Continues(front, base)
  {
    var id, prefix := front + tail, base + "--r";
    assert forall k | |front| <= k < |id| :: id[k] in tail;
    assert front == id[..|front|];
    if prefix <= id {
      assert id[|base| + 2] == prefix[|base| + 2] == 'r';
    }
  }

  lemma RunContinues(workflowId: string, n: nat, base: string)
    ensures Continues(Ids.RunId(workflowId, n), base) <==>
        (n > 0 && workflowId == base) || Continues(workflowId, base)
  {
    if n > 0 {
      var front, digits := workflowId + "--r", Decimal.Text(n);
      assert Ids.RunId(workflowId, n) == front + digits;
      PlainTail(front, digits, base);
      SeparatorContinues(workflowId, base);
    }
  }

  lemma SeparatorContinues(workflowId: string, base: string)
    ensures Continues(workflowId + "--r", base) <==> workflowId == base || Continues(workflowId, base)
  {
    var id, prefix := workflowId + "--r", base + "--r";
    assert workflowId == id[..|workflowId|] && base == prefix[..|base|];
    assert id[|workflowId|] == '-' && id[|workflowId| + 1] == '-';
    if prefix <= id {
      assert base == id[..|base|];
      assert id[|base| + 2] == prefix[|base| + 2] == 'r';
    }
  }

  lemma {:induction false} TextContinues(v: Ids.WorkflowId, w: Ids.WorkflowId)
    requires Ids.Valid(v)
    ensures Continues(Ids.Text(v), Ids.Text(w)) <==> Descends(v, w)
    decreases v
  {
    var base := Ids.Text(w);
    match v
    case User(name) =>
      if Continues(name, base) {
        assert (base + "--r")[|base|..] == "--r";
        assert Ids.MarkAt('r', name, |base|);
      }
    case AutoChild(parent, run, s) =>
      TextContinues(parent, w);
      RunContinues(Ids.Text(parent), run, base);
      var front, tail := Ids.RunId(Ids.Text(parent), run), "_" + Decimal.Text(s);
      assert Ids.Text(v) == front + tail;
      PlainTail(front, tail, base);
  }

  /** ...and, beyond the chain, exactly the runs of the automatic descendants of the
      chain's later runs. */
  lemma ChainClauseAdmitsExactly(v: Ids.WorkflowId, n: nat, w: Ids.WorkflowId)
    requires Ids.Valid(v) && Ids.Valid(w)
    ensures
      var id, base := Ids.RunId(Ids.Text(v), n), Ids.Text(w);
      InChain(id, base) && id != base <==> (Ids.Text(v) == base && n > 0) || Descends(v, w)
  {
    TextContinues(v, w);
    RunContinues(Ids.Text(v), n, Ids.Text(w));
    assert Continues(Ids.Text(w), Ids.Text(w)) ==> |Ids.Text(w)| >= |Ids.Text(w)| + 3;
  }

  /** The fifth child of run 2 of a, listed under WorkflowId = a. */
  lemma ChainClauseAdmitsChildren()
    ensures InChain("a--r2_5", "a") && Ids.RunIndexOf("a", "a--r2_5").None?
  {
    var id := "a--r2_5";
    assert "a" + Ids.Separator('r') == "a--r" && id[4..] == "2_5";
    assert !Decimal.Digit("2_5"[1]);
  }
}
