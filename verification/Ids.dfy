/** Decimal numerals as the ids carry them. */
module Decimal {
  predicate Digit(c: char) {
    '0' <= c <= '9'
  }

  /** str.isdigit, on ASCII text. */
  predicate IsNumeral(s: string) {
    s != "" && forall c <- s :: Digit(c)
  }

  function Text(n: nat): (s: string)
    ensures IsNumeral(s)
  {
    if n < 10 then [('0' as int + n) as char] else Text(n / 10) + [('0' as int + n % 10) as char]
  }

  function Value(s: string): nat
    requires forall c <- s :: Digit(c)
  {
    if s == "" then 0
    else
      var last := s[|s| - 1];
      assert Digit(last);
      Value(s[..|s| - 1]) * 10 + (last as int - '0' as int)
  }

  lemma {:induction false} ValueText(n: nat)
    ensures Value(Text(n)) == n
  {
    if n >= 10 {
      ValueText(n / 10);
      assert Text(n)[..|Text(n)| - 1] == Text(n / 10);
    }
  }
}

/**
 Workflow ids and the DBOS ids derived from them.  Every reserved separator is
 two hyphens and a letter: r for runs, a for queued activities, v and q for
 replay scratch forks.
 */
module Ids {
  import opened Prelude
  import Decimal

  datatype Mode = Verify | Rehydrate

  predicate MarkAt(letter: char, s: string, i: nat) {
    i + 2 < |s| && s[i] == '-' && s[i + 1] == '-' && s[i + 2] == letter
  }

  predicate Marked(letter: char, s: string) {
    exists i: nat | i < |s| :: MarkAt(letter, s, i)
  }

  function Separator(letter: char): string {
    ['-', '-', letter]
  }

  predicate AcceptsWorkflowId(id: string) {
    id != "" && !Marked('r', id) && !Marked('a', id) && !Marked('v', id) && !Marked('q', id)
  }

  function RunId(workflowId: string, index: nat): string {
    if index == 0 then workflowId else workflowId + Separator('r') + Decimal.Text(index)
  }

  function ActivityId(runId: string, s: nat): string {
    runId + Separator('a') + Decimal.Text(s)
  }

  function ScratchId(runId: string, mode: Mode, suffix: string): string {
    runId + Separator(if mode.Verify? then 'v' else 'q') + suffix
  }

  function ScratchMode(id: string): Option<Mode> {
    if Marked('v', id) then Some(Verify)
    else if Marked('q', id) then Some(Rehydrate)
    else None
  }

  /** Where the last separator with this letter starts, as rpartition finds it. */
  function LastMark(letter: char, s: string): (r: Option<nat>)
    ensures r.Some? ==> MarkAt(letter, s, r.value) && forall j: nat :: MarkAt(letter, s, j) ==> j <= r.value
    ensures r.None? ==> forall j: nat :: !MarkAt(letter, s, j)
  {
    if |s| < 3 then None
    else if MarkAt(letter, s, |s| - 3) then Some(|s| - 3)
    else
      var r := LastMark(letter, s[..|s| - 1]);
      assert forall j: nat :: MarkAt(letter, s, j) ==> MarkAt(letter, s[..|s| - 1], j);
      r
  }

  function ParseRun(id: string): (string, nat) {
    var at := LastMark('r', id);
    if at.Some? && Decimal.IsNumeral(id[at.value + 3..]) then
      (id[..at.value], Decimal.Value(id[at.value + 3..]))
    else (id, 0)
  }

  function RunIndexOf(workflowId: string, id: string): Option<nat> {
    var prefix := workflowId + Separator('r');
    if id == workflowId then Some(0)
    else if !(prefix <= id) then None
    else if Decimal.IsNumeral(id[|prefix|..]) then Some(Decimal.Value(id[|prefix|..]))
    else None
  }

  /** Workflow ids as they come to be: accepted from a user, or derived for the
      seq-th child of a run of another workflow. */
  datatype WorkflowId = User(name: string) | AutoChild(parent: WorkflowId, run: nat, seq_: nat)

  predicate Valid(w: WorkflowId) {
    match w
    case User(name) => AcceptsWorkflowId(name)
    case AutoChild(parent, _, _) => Valid(parent)
  }

  function Text(w: WorkflowId): string {
    match w
    case User(name) => name
    case AutoChild(parent, run, s) => RunId(Text(parent), run) + "_" + Decimal.Text(s)
  }

  /** The token of a scratch id: empty, a uuid or its hexadecimal digits. */
  predicate Token(suffix: string) {
    forall c <- suffix :: Decimal.Digit(c) || 'a' <= c <= 'f' || c == '-'
  }

  // ---------------------------------------------------------------------
  // Separators in concatenations
  // ---------------------------------------------------------------------

  lemma MarkInFront(letter: char, front: string, tail: string, i: nat)
    requires letter !in tail && MarkAt(letter, front + tail, i)
    ensures MarkAt(letter, front, i)
  {
    var s := front + tail;
    assert forall k | |front| <= k < |s| :: s[k] in tail;
  }

  lemma NoNewMark(letter: char, front: string, tail: string)
    requires letter !in tail && !Marked(letter, front)
    ensures !Marked(letter, front + tail)
  {
    if Marked(letter, front + tail) {
      var i: nat :| MarkAt(letter, front + tail, i);
      MarkInFront(letter, front, tail, i);
    }
  }

  /** The letters a, v and q stay out of every workflow and run id. */
  lemma {:induction false} Unmarked(letter: char, w: WorkflowId, run: nat)
    requires Valid(w) && letter in {'a', 'v', 'q'}
    ensures !Marked(letter, Text(w)) && !Marked(letter, RunId(Text(w), run))
  {
    match w {
      case User(name) =>
      case AutoChild(parent, r, s) =>
        Unmarked(letter, parent, r);
        var tail := "_" + Decimal.Text(s);
        assert Text(w) == RunId(Text(parent), r) + tail;
        NoNewMark(letter, RunId(Text(parent), r), tail);
    }
    var tail := Separator('r') + Decimal.Text(run);
    assert Text(w) + Separator('r') + Decimal.Text(run) == Text(w) + tail;
    NoNewMark(letter, Text(w), tail);
  }

  /** A mark after which its letter does not occur is the last one. */
  lemma LastMarkIs(letter: char, s: string, at: nat)
    requires MarkAt(letter, s, at)
    requires forall k :: at + 3 <= k < |s| ==> s[k] != letter
    ensures LastMark(letter, s) == Some(at)
  {
    forall j: nat | MarkAt(letter, s, j) ensures j <= at {
      assert s[j + 2] == letter;
    }
  }

  lemma SplitAtLast(front: string, tail: string, s: string)
    requires 'r' !in tail && s == front + Separator('r') + tail
    ensures LastMark('r', s) == Some(|front|)
  {
    assert forall k | |front| + 3 <= k < |s| :: s[k] in tail;
    LastMarkIs('r', s, |front|);
  }

  lemma ParseSplit(front: string, numeral: string)
    requires Decimal.IsNumeral(numeral)
    ensures ParseRun(front + Separator('r') + numeral) == (front, Decimal.Value(numeral))
  {
    var s := front + Separator('r') + numeral;
    SplitAtLast(front, numeral, s);
    assert s[..|front|] == front && s[|front| + 3..] == numeral;
  }

  /** A tail with some other character and no r hides every run index before it. */
  lemma ParseWhole(front: string, tail: string, odd: char)
    requires 'r' !in tail && odd in tail && !Decimal.Digit(odd)
    ensures ParseRun(front + tail) == (front + tail, 0)
  {
    var s := front + tail;
    var at := LastMark('r', s);
    if at.Some? {
      MarkInFront('r', front, tail, at.value);
      var rest := s[at.value + 3..];
      var k :| 0 <= k < |tail| && tail[k] == odd;
      assert rest[|front| + k - at.value - 3] == odd;
    }
  }

  lemma WorkflowIdIsItsOwnBase(w: WorkflowId)
    requires Valid(w)
    ensures ParseRun(Text(w)) == (Text(w), 0)
  {
    if w.AutoChild? {
      var tail := "_" + Decimal.Text(w.seq_);
      assert Text(w) == RunId(Text(w.parent), w.run) + tail;
      assert tail[0] == '_';
      ParseWhole(RunId(Text(w.parent), w.run), tail, '_');
    }
  }

  /** An id counts as a run of a workflow only if it is the workflow's id or parses to it. */
  lemma IndexMeansParse(workflowId: string, id: string)
    requires RunIndexOf(workflowId, id).Some? && id != workflowId
    ensures ParseRun(id) == (workflowId, RunIndexOf(workflowId, id).value)
  {
    var prefix := workflowId + Separator('r');
    assert id == workflowId + Separator('r') + id[|prefix|..];
    ParseSplit(workflowId, id[|prefix|..]);
  }

  // ---------------------------------------------------------------------
  // The theorems
  // ---------------------------------------------------------------------

  /** parse_run inverts run_dbos_id on every workflow id, nested to any depth. */
  lemma ParseInvertsRunId(w: WorkflowId, index: nat)
    requires Valid(w)
    ensures ParseRun(RunId(Text(w), index)) == (Text(w), index)
  {
    if index == 0 {
      WorkflowIdIsItsOwnBase(w);
    } else {
      ParseSplit(Text(w), Decimal.Text(index));
      Decimal.ValueText(index);
    }
  }

  /** run_index_of finds the index on the id's own workflow and nothing on any other. */
  lemma RunIndexIsExact(w: WorkflowId, v: WorkflowId, index: nat)
    requires Valid(w) && Valid(v)
    ensures RunIndexOf(Text(w), RunId(Text(v), index)) == if Text(w) == Text(v) then Some(index) else None
  {
    var id := RunId(Text(v), index);
    ParseInvertsRunId(v, index);
    WorkflowIdIsItsOwnBase(w);
    if Text(w) == Text(v) && index > 0 {
      assert |id| > |Text(v)| && Text(w) + Separator('r') <= id;
      assert id[|Text(v)| + 3..] == Decimal.Text(index);
      Decimal.ValueText(index);
    }
    if RunIndexOf(Text(w), id).Some? && id != Text(w) {
      IndexMeansParse(Text(w), id);
    }
  }

  /** Activity and scratch ids never read as a run of any workflow. */
  lemma InternalIdIsNoRun(w: WorkflowId, v: WorkflowId, run: nat, letter: char, suffix: string)
    requires Valid(w) && Valid(v) && letter in {'a', 'v', 'q'} && 'r' !in suffix
    ensures
      var id := RunId(Text(v), run) + Separator(letter) + suffix;
      ParseRun(id) == (id, 0) && RunIndexOf(Text(w), id) == None
  {
    var front := RunId(Text(v), run);
    var tail := Separator(letter) + suffix;
    var id := front + Separator(letter) + suffix;
    assert id == front + tail;
    assert tail[0] == '-';
    ParseWhole(front, tail, '-');
    Unmarked(letter, w, 0);
    assert MarkAt(letter, id, |front|);
    if RunIndexOf(Text(w), id).Some? {
      IndexMeansParse(Text(w), id);
    }
  }

  lemma ActivityIdIsNoRun(w: WorkflowId, v: WorkflowId, run: nat, s: nat)
    requires Valid(w) && Valid(v)
    ensures
      var id := ActivityId(RunId(Text(v), run), s);
      ParseRun(id) == (id, 0) && RunIndexOf(Text(w), id) == None
  {
    InternalIdIsNoRun(w, v, run, 'a', Decimal.Text(s));
  }

  lemma ScratchIdIsNoRun(w: WorkflowId, v: WorkflowId, run: nat, mode: Mode, suffix: string)
    requires Valid(w) && Valid(v) && Token(suffix)
    ensures
      var id := ScratchId(RunId(Text(v), run), mode, suffix);
      ParseRun(id) == (id, 0) && RunIndexOf(Text(w), id) == None
  {
    InternalIdIsNoRun(w, v, run, if mode.Verify? then 'v' else 'q', suffix);
  }

  /** replay_scratch_mode reads the mode of every scratch id and of no other id. */
  lemma ScratchModeIsExact(w: WorkflowId, run: nat, s: nat, mode: Mode, suffix: string)
    requires Valid(w) && Token(suffix)
    ensures ScratchMode(RunId(Text(w), run)) == None
    ensures ScratchMode(ActivityId(RunId(Text(w), run), s)) == None
    ensures ScratchMode(ScratchId(RunId(Text(w), run), mode, suffix)) == Some(mode)
  {
    var id := RunId(Text(w), run);
    Unmarked('v', w, run);
    Unmarked('q', w, run);
    var activity := Separator('a') + Decimal.Text(s);
    assert ActivityId(id, s) == id + activity;
    NoNewMark('v', id, activity);
    NoNewMark('q', id, activity);
    ScratchModeRead(id, mode, suffix);
  }

  lemma ScratchModeRead(id: string, mode: Mode, suffix: string)
    requires !Marked('v', id) && Token(suffix)
    ensures ScratchMode(ScratchId(id, mode, suffix)) == Some(mode)
  {
    assert MarkAt(if mode.Verify? then 'v' else 'q', ScratchId(id, mode, suffix), |id|);
    if mode.Rehydrate? {
      assert ScratchId(id, mode, suffix) == id + (Separator('q') + suffix);
      NoNewMark('v', id, Separator('q') + suffix);
    }
  }

  /** Two queued activities of any two runs share an id only if they are the same. */
  lemma ActivityIdsAreDistinct(v: WorkflowId, run: nat, s: nat, v': WorkflowId, run': nat, s': nat)
    requires Valid(v) && Valid(v')
    requires ActivityId(RunId(Text(v), run), s) == ActivityId(RunId(Text(v'), run'), s')
    ensures Text(v) == Text(v') && run == run' && s == s'
  {
    var id, id' := RunId(Text(v), run), RunId(Text(v'), run');
    var whole := ActivityId(id, s);
    MarkIsUnique(v, run, s, v', run', s');
    assert id == whole[..|id|] && id' == whole[..|id'|];
    assert Decimal.Text(s) == whole[|id| + 3..] && Decimal.Text(s') == whole[|id'| + 3..];
    Decimal.ValueText(s);
    Decimal.ValueText(s');
    ParseInvertsRunId(v, run);
    ParseInvertsRunId(v', run');
  }

  lemma MarkIsUnique(v: WorkflowId, run: nat, s: nat, v': WorkflowId, run': nat, s': nat)
    requires Valid(v) && Valid(v')
    requires ActivityId(RunId(Text(v), run), s) == ActivityId(RunId(Text(v'), run'), s')
    ensures |RunId(Text(v), run)| <= |RunId(Text(v'), run')|
    ensures |RunId(Text(v'), run')| <= |RunId(Text(v), run)|
  {
    var id, id' := RunId(Text(v), run), RunId(Text(v'), run');
    Unmarked('a', v, run);
    Unmarked('a', v', run');
    NoLaterMark('a', id, Decimal.Text(s), id', Decimal.Text(s'));
    NoLaterMark('a', id', Decimal.Text(s'), id, Decimal.Text(s));
  }

  /** Of two texts before a mark in one string the longer one contains a mark. */
  lemma MarkInside(letter: char, front: string, tail: string, front': string, tail': string)
    requires letter != '-' && front + Separator(letter) + tail == front' + Separator(letter) + tail'
    requires |front| < |front'|
    ensures MarkAt(letter, front', |front|)
  {
    var s := front + Separator(letter) + tail;
    assert MarkAt(letter, s, |front|);
    assert s == front' + Separator(letter) + tail';
    assert s[|front'|] == '-' && s[|front'| + 1] == '-';
  }

  lemma NoLaterMark(letter: char, front: string, tail: string, front': string, tail': string)
    requires letter != '-' && front + Separator(letter) + tail == front' + Separator(letter) + tail'
    requires !Marked(letter, front')
    ensures |front'| <= |front|
  {
    if |front| < |front'| {
      MarkInside(letter, front, tail, front', tail');
    }
  }

  /** A mark survives appending, and in a tail without its letter none is added. */
  lemma MarkStays(letter: char, front: string, tail: string)
    requires Marked(letter, front)
    ensures Marked(letter, front + tail)
  {
    var i: nat :| i < |front| && MarkAt(letter, front, i);
    assert MarkAt(letter, front + tail, i);
  }

  /** What is not unambiguous: a user may claim the id of a child to come, exactly
      when it is a child of a first run and the parent's own id could be claimed.
      The interpreter meets this with its existence check before a child starts. */
  lemma ChildIdMayBeTaken(w: WorkflowId)
    requires Valid(w) && w.AutoChild?
    ensures AcceptsWorkflowId(Text(w)) <==> w.run == 0 && AcceptsWorkflowId(Text(w.parent))
  {
    var front, tail := RunId(Text(w.parent), w.run), "_" + Decimal.Text(w.seq_);
    assert Text(w) == front + tail;
    Unmarked('a', w, 0);
    Unmarked('v', w, 0);
    Unmarked('q', w, 0);
    Unmarked('a', w.parent, 0);
    Unmarked('v', w.parent, 0);
    Unmarked('q', w.parent, 0);
    if Marked('r', front) {
      MarkStays('r', front, tail);
    } else {
      NoNewMark('r', front, tail);
    }
    if w.run > 0 {
      var parent := Text(w.parent);
      assert MarkAt('r', front, |parent|);
    }
    TextIsNotEmpty(w.parent);
  }

  lemma {:induction false} TextIsNotEmpty(w: WorkflowId)
    requires Valid(w)
    ensures Text(w) != ""
  {
  }

  /** The first child of run 0 of W, and a user's W_1. */
  lemma ChildIdTaken()
    ensures
      var v, w := User("W_1"), AutoChild(User("W"), 0, 1);
      Valid(v) && Valid(w) && Text(v) == Text(w)
  {
    assert Decimal.Text(1) == "1";
  }
}
