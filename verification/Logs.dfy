/** Run logs: numbering on append, and paging through them with a cursor while they grow. */
module Logs {
  import opened Wrappers

  datatype LogRow = LogRow(run: int, nodeRun: Option<int>, stream: string, sequence: int, content: string)

  datatype LogEntry = LogEntry(stream: string, content: string)

  /** The streams that the table takes. */
  predicate KnownStream(stream: string) { stream == "stdout" || stream == "stderr" || stream == "system" }

  /** How many entries come before the first one that the table refuses. */
  function AcceptedCount(entries: seq<LogEntry>): (n: nat)
    ensures n <= |entries| && forall i :: 0 <= i < n ==> KnownStream(entries[i].stream)
    ensures n < |entries| ==> !KnownStream(entries[n].stream)
  {
    if entries == [] || !KnownStream(entries[0].stream) then 0 else 1 + AcceptedCount(entries[1..])
  }

  // ---- Numbering ----

  /** The rows of one run, in the order in which they were appended. */
  function OfRun(rows: seq<LogRow>, run: int): seq<LogRow> {
    if rows == [] then []
    else
      var last := rows[|rows| - 1];
      OfRun(rows[..|rows| - 1], run) + (if last.run == run then [last] else [])
  }

  /** The rows of every run are numbered 1, 2, 3, ... in append order. */
  ghost predicate Numbered(rows: seq<LogRow>) {
    forall run, i :: 0 <= i < |OfRun(rows, run)| ==> OfRun(rows, run)[i].sequence == i + 1
  }

  /** The largest sequence number of the run, or 0. */
  function MaxSequence(rows: seq<LogRow>, run: int): int {
    if rows == [] then 0
    else
      var last, rest := rows[|rows| - 1], MaxSequence(rows[..|rows| - 1], run);
      if last.run == run && last.sequence > rest then last.sequence else rest
  }

  lemma {:induction false} MaxIsCount(rows: seq<LogRow>, run: int)
    requires forall i :: 0 <= i < |OfRun(rows, run)| ==> OfRun(rows, run)[i].sequence == i + 1
    ensures MaxSequence(rows, run) == |OfRun(rows, run)|
  {
    if rows != [] {
      var front, last := rows[..|rows| - 1], rows[|rows| - 1];
      assert forall i :: 0 <= i < |OfRun(front, run)| ==> OfRun(front, run)[i] == OfRun(rows, run)[i];
      MaxIsCount(front, run);
      assert last.run == run ==> OfRun(rows, run)[|OfRun(front, run)|] == last;
    }
  }

  lemma OfRunAppend(rows: seq<LogRow>, row: LogRow, run: int)
    ensures OfRun(rows + [row], run) == OfRun(rows, run) + (if row.run == run then [row] else [])
  {
    assert (rows + [row])[..|rows|] == rows;
  }

  lemma NumberedAppend(rows: seq<LogRow>, row: LogRow)
    requires Numbered(rows) && row.sequence == |OfRun(rows, row.run)| + 1
    ensures Numbered(rows + [row]) && |OfRun(rows + [row], row.run)| == |OfRun(rows, row.run)| + 1
  {
    hide OfRun;
    forall run { OfRunAppend(rows, row, run); }
  }

  lemma SplitLast<T>(a: seq<T>, b: seq<T>)
    requires b != []
    ensures b == b[..|b| - 1] + [b[|b| - 1]]
    ensures a + b == (a + b[..|b| - 1]) + [b[|b| - 1]]
  {}

  class LogTable {
    var rows: seq<LogRow>

    ghost predicate Valid()
      reads this
    {
      Numbered(rows)
    }

    constructor ()
      ensures Valid() && rows == []
    {
      rows := [];
    }

    /** Append the entries under the next free numbers of their run, up to the first one that the table refuses. */
    method ReportLogs(run: int, nodeRun: int, entries: seq<LogEntry>) returns (ok: bool)
      requires Valid()
      modifies this
      ensures Valid() && (ok <==> forall e :: e in entries ==> e.stream in {"stdout", "stderr", "system"})
      ensures rows == old(rows) + NewRows(run, nodeRun, entries[..AcceptedCount(entries)], |OfRun(old(rows), run)|)
    {
      hide OfRun, NewRows, Numbered;
      NewRowsNone(run, nodeRun, entries, |OfRun(rows, run)|);
      NumberedRun(rows, run);
      var nextSequence := MaxSequence(rows, run);
      MaxIsCount(rows, run);
      ghost var count := nextSequence;
      for i := 0 to |entries|
        invariant Valid() && nextSequence == |OfRun(rows, run)| == count + i && i <= AcceptedCount(entries)
        invariant forall j :: 0 <= j < i ==> KnownStream(entries[j].stream)
        invariant rows == old(rows) + NewRows(run, nodeRun, entries[..i], count)
      {
        if !KnownStream(entries[i].stream) {
          assert entries[i] in entries;
          return false;
        }
        nextSequence := nextSequence + 1;
        var row := LogRow(run, Some(nodeRun), entries[i].stream, nextSequence, entries[i].content);
        NumberedAppend(rows, row);
        NewRowsNext(run, nodeRun, entries, i, count);
        rows := rows + [row];
      }
      return true;
    }

    /** What the built-in worker records of a process: its standard output and error, where not empty. */
    method RecordOutput(run: int, nodeRun: int, stdout: string, stderr: string)
      requires Valid()
      modifies this
      ensures Valid()
      ensures rows == old(rows) + NewRows(run, nodeRun, OutputEntries(stdout, stderr), |OfRun(old(rows), run)|)
    {
      var entries: seq<LogEntry> := [];
      if stdout != "" {
        entries := entries + [LogEntry("stdout", stdout)];
      }
      if stderr != "" {
        entries := entries + [LogEntry("stderr", stderr)];
      }
      var _ := ReportLogs(run, nodeRun, entries);
      assert entries[..|entries|] == entries;
    }
  }

  /** The entries as rows of the run, numbered on from `count`. */
  ghost function NewRows(run: int, nodeRun: int, entries: seq<LogEntry>, count: int): seq<LogRow> {
    seq(|entries|, i requires 0 <= i < |entries| =>
      LogRow(run, Some(nodeRun), entries[i].stream, count + i + 1, entries[i].content))
  }

  lemma NewRowsNone(run: int, nodeRun: int, entries: seq<LogEntry>, count: int)
    ensures NewRows(run, nodeRun, entries[..0], count) == []
  {}

  lemma NewRowsNext(run: int, nodeRun: int, entries: seq<LogEntry>, i: nat, count: int)
    requires i < |entries|
    ensures NewRows(run, nodeRun, entries[..i + 1], count) == NewRows(run, nodeRun, entries[..i], count)
      + [LogRow(run, Some(nodeRun), entries[i].stream, count + i + 1, entries[i].content)]
  {}

  ghost function OutputEntries(stdout: string, stderr: string): seq<LogEntry> {
    (if stdout != "" then [LogEntry("stdout", stdout)] else [])
    + (if stderr != "" then [LogEntry("stderr", stderr)] else [])
  }

  // ---- One page ----

  /** What a client asks for, apart from the cursor. */
  datatype Query = Query(run: int, node: Option<string>, stream: Option<string>, limit: Option<int>) {
    function Limit(): (n: int)
      ensures 1 <= n <= 1000
      ensures limit.None? ==> n == 200
      ensures limit.Some? && 1 <= limit.value <= 1000 ==> n == limit.value
      ensures limit.Some? && limit.value > 1000 ==> n == 1000
      ensures limit.Some? && limit.value < 1 ==> n == 1
    {
      var n := limit.GetOr(200);
      if n < 1 then 1 else if n > 1000 then 1000 else n
    }

    /** `nodeOf` are the node ids of the node runs. */
    predicate Matches(nodeOf: map<int, string>, row: LogRow) {
      && row.run == run
      && (node.Some? ==> row.nodeRun.Some? && row.nodeRun.value in nodeOf && nodeOf[row.nodeRun.value] == node.value)
      && (stream.Some? ==> row.stream == stream.value)
    }
  }

  /** The row comes after the cursor. */
  predicate Beyond(after: Option<int>, row: LogRow) { after.Some? ==> row.sequence > after.value }

  function Select(rows: seq<LogRow>, q: Query, nodeOf: map<int, string>, after: Option<int>): seq<LogRow> {
    if rows == [] then []
    else
      var last := rows[|rows| - 1];
      Select(rows[..|rows| - 1], q, nodeOf, after)
      + (if q.Matches(nodeOf, last) && Beyond(after, last) then [last] else [])
  }

  /** Insert into rows ordered by sequence, behind equal ones. */
  function Insert(rows: seq<LogRow>, row: LogRow): seq<LogRow> {
    if rows == [] || rows[|rows| - 1].sequence <= row.sequence then rows + [row]
    else Insert(rows[..|rows| - 1], row) + [rows[|rows| - 1]]
  }

  function OrderBySequence(rows: seq<LogRow>): seq<LogRow> {
    if rows == [] then [] else Insert(OrderBySequence(rows[..|rows| - 1]), rows[|rows| - 1])
  }

  function GetRunLogs(rows: seq<LogRow>, q: Query, nodeOf: map<int, string>, after: Option<int>): seq<LogRow> {
    var found := OrderBySequence(Select(rows, q, nodeOf, after));
    if |found| <= q.Limit() then found else found[..q.Limit()]
  }

  ghost predicate StrictlyIncreasing(rows: seq<LogRow>) {
    forall i, j :: 0 <= i < j < |rows| ==> rows[i].sequence < rows[j].sequence
  }

  lemma {:induction false} OrderedAlready(rows: seq<LogRow>)
    requires StrictlyIncreasing(rows)
    ensures OrderBySequence(rows) == rows
  {
    hide Insert;
    if rows != [] {
      var front, last := rows[..|rows| - 1], rows[|rows| - 1];
      assert rows == front + [last];
      assert front != [] ==> rows[|rows| - 2].sequence < last.sequence;
      OrderedAlready(front);
      InsertLast(front, last);
    }
  }

  lemma InsertLast(rows: seq<LogRow>, row: LogRow)
    requires rows == [] || rows[|rows| - 1].sequence <= row.sequence
    ensures Insert(rows, row) == rows + [row]
  {}

  ghost predicate InOrder(rows: seq<LogRow>) {
    forall i, j :: 0 <= i < j < |rows| ==> rows[i].sequence <= rows[j].sequence
  }

  /** The rows come out in order of their sequence numbers, none lost or added, whatever the order they were in. */
  lemma {:induction false} OrderSorts(rows: seq<LogRow>)
    ensures InOrder(OrderBySequence(rows)) && multiset(OrderBySequence(rows)) == multiset(rows)
  {
    if rows != [] {
      var front, last := rows[..|rows| - 1], rows[|rows| - 1];
      assert rows == front + [last];
      OrderSorts(front);
      InsertSorts(OrderBySequence(front), last);
      hide Insert, InOrder;
    }
  }

  lemma {:induction false} InsertSorts(rows: seq<LogRow>, row: LogRow)
    requires InOrder(rows)
    ensures InOrder(Insert(rows, row)) && multiset(Insert(rows, row)) == multiset(rows) + multiset{row}
  {
    if rows != [] && rows[|rows| - 1].sequence > row.sequence {
      var front, last := rows[..|rows| - 1], rows[|rows| - 1];
      assert rows == front + [last];
      InsertSorts(front, row);
      var more := Insert(front, row);
      forall r | r in more ensures r.sequence <= last.sequence {
        assert r in multiset(more);
        assert r in front || r == row;
      }
      AppendInOrder(more, last);
      assert Insert(rows, row) == more + [last];
    } else if rows != [] {
      forall r | r in rows ensures r.sequence <= row.sequence {}
      AppendInOrder(rows, row);
    }
  }

  lemma AppendInOrder(rows: seq<LogRow>, row: LogRow)
    requires InOrder(rows) && forall r :: r in rows ==> r.sequence <= row.sequence
    ensures InOrder(rows + [row])
  {}

  /** Within one run the selected rows come in increasing sequence. */
  lemma {:induction false} SelectIncreasing(rows: seq<LogRow>, q: Query, nodeOf: map<int, string>, after: Option<int>)
    requires forall i :: 0 <= i < |OfRun(rows, q.run)| ==> OfRun(rows, q.run)[i].sequence == i + 1
    ensures StrictlyIncreasing(Select(rows, q, nodeOf, after))
    ensures forall r :: r in Select(rows, q, nodeOf, after) ==> r.sequence <= |OfRun(rows, q.run)|
  {
    if rows != [] {
      var front, last := rows[..|rows| - 1], rows[|rows| - 1];
      assert forall i :: 0 <= i < |OfRun(front, q.run)| ==> OfRun(front, q.run)[i] == OfRun(rows, q.run)[i];
      SelectIncreasing(front, q, nodeOf, after);
      assert last.run == q.run ==> OfRun(rows, q.run)[|OfRun(front, q.run)|] == last;
    }
  }

  /** A page is the beginning of the selected rows. */
  lemma PageIsPrefix(rows: seq<LogRow>, q: Query, nodeOf: map<int, string>, after: Option<int>)
    requires Numbered(rows)
    ensures var all, page := Select(rows, q, nodeOf, after), GetRunLogs(rows, q, nodeOf, after);
      page <= all && (|page| < q.Limit() ==> page == all) && (page == [] ==> all == [])
  {
    SelectIncreasing(rows, q, nodeOf, after);
    OrderedAlready(Select(rows, q, nodeOf, after));
  }

  /** What a client asked for, read off the fields of a row. */
  ghost predicate Wanted(row: LogRow, q: Query, nodeOf: map<int, string>, after: Option<int>) {
    && row.run == q.run
    && (q.stream == None || q.stream == Some(row.stream))
    && (q.node == None
        || (row.nodeRun.Some? && row.nodeRun.value in nodeOf && q.node == Some(nodeOf[row.nodeRun.value])))
    && (after == None || row.sequence > after.value)
  }

  lemma SelectWanted(rows: seq<LogRow>, q: Query, nodeOf: map<int, string>, after: Option<int>, row: LogRow)
    ensures row in Select(rows, q, nodeOf, after) <==> row in rows && Wanted(row, q, nodeOf, after)
  {
    SelectMember(rows, q, nodeOf, after, row);
  }

  /**
   A page holds only wanted rows, in increasing sequence, and all of them up to its limit: a wanted row
   that is not on it comes after a full page.
   */
  lemma PageHoldsWanted(rows: seq<LogRow>, q: Query, nodeOf: map<int, string>, after: Option<int>)
    requires Numbered(rows)
    ensures var page := GetRunLogs(rows, q, nodeOf, after);
      && (forall r :: r in page ==> r in rows && Wanted(r, q, nodeOf, after))
      && (forall i, j :: 0 <= i < j < |page| ==> page[i].sequence < page[j].sequence)
      && |page| <= q.Limit()
      && (forall r, m :: r in rows && Wanted(r, q, nodeOf, after) && r !in page && m in page ==>
            |page| == q.Limit() && m.sequence < r.sequence)
      && (page == [] ==> forall r :: r in rows ==> !Wanted(r, q, nodeOf, after))
  {
    hide Numbered, Select, Wanted, OfRun, GetRunLogs;
    var all, page := Select(rows, q, nodeOf, after), GetRunLogs(rows, q, nodeOf, after);
    PageIsPrefix(rows, q, nodeOf, after);
    PageLength(rows, q, nodeOf, after);
    NumberedRun(rows, q.run);
    SelectIncreasing(rows, q, nodeOf, after);
    forall r ensures r in all <==> r in rows && Wanted(r, q, nodeOf, after) { SelectWanted(rows, q, nodeOf, after, r); }
    PrefixFirst(page, all);
  }

  lemma PageLength(rows: seq<LogRow>, q: Query, nodeOf: map<int, string>, after: Option<int>)
    ensures |GetRunLogs(rows, q, nodeOf, after)| <= q.Limit()
  {
    hide Select;
  }

  lemma PrefixFirst(page: seq<LogRow>, all: seq<LogRow>)
    requires page <= all && StrictlyIncreasing(all)
    ensures StrictlyIncreasing(page) && forall r :: r in page ==> r in all
    ensures forall r, m :: r in all && r !in page && m in page ==> m.sequence < r.sequence
    ensures forall r :: r in all && r !in page ==> |page| < |all|
  {
    assert forall i :: 0 <= i < |page| ==> page[i] == all[i];
    forall r, m | r in all && r !in page && m in page ensures m.sequence < r.sequence {
      var i :| 0 <= i < |all| && all[i] == r;
      var j :| 0 <= j < |page| && page[j] == m;
      assert i >= |page|;
    }
  }

  // ---- Many pages over a growing table ----

  /** The cursor after a page: the last sequence number seen. */
  function NextCursor(after: Option<int>, page: seq<LogRow>): Option<int> {
    if page == [] then after else Some(page[|page| - 1].sequence)
  }

  /** The log rows at some time, and the node ids of the node runs that exist then. */
  datatype Table = Table(rows: seq<LogRow>, nodeOf: map<int, string>)

  /** The cursor after fetching one page from each of the successive table states. */
  function CursorAt(tables: seq<Table>, q: Query, start: Option<int>): Option<int> {
    if tables == [] then start
    else
      var after, table := CursorAt(tables[..|tables| - 1], q, start), tables[|tables| - 1];
      NextCursor(after, GetRunLogs(table.rows, q, table.nodeOf, after))
  }

  function Fetched(tables: seq<Table>, q: Query, start: Option<int>): seq<LogRow> {
    if tables == [] then []
    else
      var after, table := CursorAt(tables[..|tables| - 1], q, start), tables[|tables| - 1];
      Fetched(tables[..|tables| - 1], q, start) + GetRunLogs(table.rows, q, table.nodeOf, after)
  }

  /** Log rows refer to node runs that exist. */
  ghost predicate Refers(rows: seq<LogRow>, nodeOf: map<int, string>) {
    forall r :: r in rows && r.nodeRun.Some? ==> r.nodeRun.value in nodeOf
  }

  ghost predicate Later(a: Table, b: Table) {
    a.rows <= b.rows && forall n :: n in a.nodeOf ==> n in b.nodeOf && b.nodeOf[n] == a.nodeOf[n]
  }

  /** Log rows and node runs only grow, and the log stays numbered. */
  ghost predicate Growing(tables: seq<Table>) {
    && (forall i :: 0 <= i < |tables| ==> Numbered(tables[i].rows) && Refers(tables[i].rows, tables[i].nodeOf))
    && (forall i, j :: 0 <= i && j == i + 1 && j < |tables| ==> Later(tables[i], tables[j]))
  }

  /** Node runs that come later do not change which of the older rows match. */
  lemma {:induction false} NodeRunsGrow(rows: seq<LogRow>, q: Query, older: map<int, string>, newer: map<int, string>,
                                        after: Option<int>)
    requires Refers(rows, older) && forall n :: n in older ==> n in newer && newer[n] == older[n]
    ensures Select(rows, q, newer, after) == Select(rows, q, older, after)
  {
    if rows != [] {
      assert rows[|rows| - 1] in rows;
      NodeRunsGrow(rows[..|rows| - 1], q, older, newer, after);
    }
  }

  lemma SelectPush(rows: seq<LogRow>, row: LogRow, q: Query, nodeOf: map<int, string>, after: Option<int>)
    ensures Select(rows + [row], q, nodeOf, after)
      == Select(rows, q, nodeOf, after) + (if q.Matches(nodeOf, row) && Beyond(after, row) then [row] else [])
  {
    hide Query.Matches, Beyond;
    assert (rows + [row])[..|rows|] == rows;
  }

  lemma {:induction false} SelectAppend(a: seq<LogRow>, b: seq<LogRow>, q: Query, nodeOf: map<int, string>,
                               after: Option<int>)
    ensures Select(a + b, q, nodeOf, after) == Select(a, q, nodeOf, after) + Select(b, q, nodeOf, after)
  {
    if b == [] {
      assert a + b == a;
    } else {
      var front, last := b[..|b| - 1], b[|b| - 1];
      hide Select, Query.Matches, Beyond;
      SelectAppend(a, front, q, nodeOf, after);
      SelectPush(a + front, last, q, nodeOf, after);
      SelectPush(front, last, q, nodeOf, after);
      SplitLast(a, b);
    }
  }

  lemma {:induction false} OfRunAppendAll(a: seq<LogRow>, b: seq<LogRow>, run: int)
    ensures OfRun(a + b, run) == OfRun(a, run) + OfRun(b, run)
  {
    if b == [] {
      assert a + b == a;
    } else {
      var front, last := b[..|b| - 1], b[|b| - 1];
      hide OfRun;
      OfRunAppendAll(a, front, run);
      OfRunAppend(a + front, last, run);
      OfRunAppend(front, last, run);
      SplitLast(a, b);
    }
  }

  lemma {:induction false} SelectMember(rows: seq<LogRow>, q: Query, nodeOf: map<int, string>, after: Option<int>,
                               row: LogRow)
    ensures row in Select(rows, q, nodeOf, after) <==> row in rows && q.Matches(nodeOf, row) && Beyond(after, row)
  {
    if rows != [] {
      SelectMember(rows[..|rows| - 1], q, nodeOf, after, row);
      assert rows == rows[..|rows| - 1] + [rows[|rows| - 1]];
    }
  }

  lemma SelectOne(row: LogRow, q: Query, nodeOf: map<int, string>, after: Option<int>)
    ensures Select([row], q, nodeOf, after) == if q.Matches(nodeOf, row) && Beyond(after, row) then [row] else []
  {
    assert [row][..0] == [];
  }

  /** Selecting beyond a later cursor is selecting from the rows beyond the earlier one. */
  lemma {:induction false} SelectTwice(rows: seq<LogRow>, q: Query, nodeOf: map<int, string>, after: Option<int>,
                              c: Option<int>)
    requires after.Some? ==> c.Some? && after.value <= c.value
    ensures Select(rows, q, nodeOf, c) == Select(Select(rows, q, nodeOf, after), q, nodeOf, c)
  {
    if rows != [] {
      var front, last := rows[..|rows| - 1], rows[|rows| - 1];
      SelectTwice(front, q, nodeOf, after, c);
      var kept := Select(front, q, nodeOf, after);
      assert kept + [] == kept;
      SelectAppend(kept, [last], q, nodeOf, c);
      SelectOne(last, q, nodeOf, c);
      assert Select(rows, q, nodeOf, c) == Select(kept, q, nodeOf, c) + Select([last], q, nodeOf, c)
        || !Beyond(after, last) || !q.Matches(nodeOf, last);
    }
  }

  lemma {:induction false} SelectEvery(rows: seq<LogRow>, q: Query, nodeOf: map<int, string>, after: Option<int>)
    requires forall r :: r in rows ==> q.Matches(nodeOf, r) && Beyond(after, r)
    ensures Select(rows, q, nodeOf, after) == rows
  {
    hide Query.Matches, Beyond;
    if rows != [] {
      var front, last := rows[..|rows| - 1], rows[|rows| - 1];
      assert rows == front + [last] && last in rows;
      SelectEvery(front, q, nodeOf, after);
    }
  }

  lemma {:induction false} SelectNone(rows: seq<LogRow>, q: Query, nodeOf: map<int, string>, after: Option<int>)
    requires forall r :: r in rows ==> !Beyond(after, r)
    ensures Select(rows, q, nodeOf, after) == []
  {
    hide Query.Matches, Beyond;
    if rows != [] {
      assert rows[|rows| - 1] in rows;
      SelectNone(rows[..|rows| - 1], q, nodeOf, after);
    }
  }

  lemma SplitAtCursor(page: seq<LogRow>, rest: seq<LogRow>, q: Query, nodeOf: map<int, string>, c: Option<int>)
    requires forall r :: r in page ==> !Beyond(c, r)
    requires forall r :: r in rest ==> q.Matches(nodeOf, r) && Beyond(c, r)
    ensures Select(page + rest, q, nodeOf, c) == rest
  {
    SelectAppend(page, rest, q, nodeOf, c);
    SelectNone(page, q, nodeOf, c);
    SelectEvery(rest, q, nodeOf, c);
    hide *;
  }

  /** What a page leaves over is exactly what lies beyond its cursor. */
  lemma PageSplits(rows: seq<LogRow>, q: Query, nodeOf: map<int, string>, after: Option<int>)
    requires Numbered(rows)
    ensures var page := GetRunLogs(rows, q, nodeOf, after);
      page + Select(rows, q, nodeOf, NextCursor(after, page)) == Select(rows, q, nodeOf, after)
  {
    hide GetRunLogs, Select, Numbered;
    var all, page := Select(rows, q, nodeOf, after), GetRunLogs(rows, q, nodeOf, after);
    PageIsPrefix(rows, q, nodeOf, after);
    NumberedRun(rows, q.run);
    SelectIncreasing(rows, q, nodeOf, after);
    if page != [] {
      var c, rest := NextCursor(after, page), all[|page|..];
      forall r ensures r in all ==> q.Matches(nodeOf, r) && Beyond(after, r) {
        SelectMember(rows, q, nodeOf, after, r); }
      assert page[|page| - 1] in all && all == page + rest;
      hide Query.Matches;
      SelectTwice(rows, q, nodeOf, after, c);
      SplitAtCursor(page, rest, q, nodeOf, c);
    }
  }

  lemma NumberedRun(rows: seq<LogRow>, run: int)
    requires Numbered(rows)
    ensures forall i :: 0 <= i < |OfRun(rows, run)| ==> OfRun(rows, run)[i].sequence == i + 1
  {}

  /** A cursor is the start, or lies beyond it and belongs to a row that exists. */
  lemma {:induction false} CursorBound(tables: seq<Table>, q: Query, start: Option<int>)
    requires Growing(tables)
    ensures var c := CursorAt(tables, q, start);
      c == start || (tables != [] && c.Some? && c.value <= |OfRun(tables[|tables| - 1].rows, q.run)|)
    ensures start.Some? ==> var c := CursorAt(tables, q, start); c.Some? && start.value <= c.value
  {
    hide Select, GetRunLogs, OfRun, Numbered, Refers;
    if tables != [] {
      var prev, table := tables[..|tables| - 1], tables[|tables| - 1];
      CursorBound(prev, q, start);
      if prev != [] {
        assert Later(prev[|prev| - 1], table);
        OfRunGrows(prev[|prev| - 1].rows, table.rows, q.run);
      }
      hide Later;
      PageBound(table.rows, q, table.nodeOf, CursorAt(prev, q, start));
    }
  }

  lemma OfRunGrows(a: seq<LogRow>, b: seq<LogRow>, run: int)
    requires a <= b
    ensures |OfRun(a, run)| <= |OfRun(b, run)|
  {
    hide OfRun;
    OfRunAppendAll(a, b[|a|..], run);
    assert a + b[|a|..] == b;
  }

  /** The last row of a page lies beyond the cursor and exists. */
  lemma PageBound(rows: seq<LogRow>, q: Query, nodeOf: map<int, string>, c: Option<int>)
    requires Numbered(rows)
    ensures var page := GetRunLogs(rows, q, nodeOf, c);
      page != [] ==> Beyond(c, page[|page| - 1]) && page[|page| - 1].sequence <= |OfRun(rows, q.run)|
  {
    hide Select, GetRunLogs, OfRun, Numbered;
    var page := GetRunLogs(rows, q, nodeOf, c);
    PageIsPrefix(rows, q, nodeOf, c);
    NumberedRun(rows, q.run);
    SelectIncreasing(rows, q, nodeOf, c);
    if page != [] {
      assert page[|page| - 1] in Select(rows, q, nodeOf, c);
      SelectMember(rows, q, nodeOf, c, page[|page| - 1]);
    }
  }

  /** Rows appended later lie beyond every cursor taken before. */
  lemma FreshBeyond(older: seq<LogRow>, added: seq<LogRow>, q: Query, row: LogRow)
    requires Numbered(older + added) && row in added && row.run == q.run
    ensures row.sequence > |OfRun(older, q.run)|
  {
    OfRunAppendAll(older, added, q.run);
    NumberedRun(older + added, q.run);
    var i := OfRunHas(added, row);
    assert OfRun(older + added, q.run)[|OfRun(older, q.run)| + i] == row;
  }

  lemma {:induction false} OfRunHas(rows: seq<LogRow>, row: LogRow) returns (i: nat)
    requires row in rows
    ensures i < |OfRun(rows, row.run)| && OfRun(rows, row.run)[i] == row
  {
    if rows[|rows| - 1] == row {
      i := |OfRun(rows, row.run)| - 1;
    } else {
      assert rows == rows[..|rows| - 1] + [rows[|rows| - 1]];
      i := OfRunHas(rows[..|rows| - 1], row);
    }
  }

  lemma {:induction false} SelectSame(rows: seq<LogRow>, q: Query, nodeOf: map<int, string>, a: Option<int>,
                             b: Option<int>)
    requires forall r :: r in rows && r.run == q.run ==> (Beyond(a, r) <==> Beyond(b, r))
    ensures Select(rows, q, nodeOf, a) == Select(rows, q, nodeOf, b)
  {
    if rows != [] {
      SelectSame(rows[..|rows| - 1], q, nodeOf, a, b);
    }
  }

  /** Fetching from the newer table goes on exactly where the older one was left. */
  lemma GrowthIsSeen(older: seq<LogRow>, newer: seq<LogRow>, q: Query, nodeOf: map<int, string>,
                     start: Option<int>, c: Option<int>, fetched: seq<LogRow>)
    requires older <= newer && Numbered(newer)
    requires c == start || (c.Some? && c.value <= |OfRun(older, q.run)|)
    requires start.Some? ==> c.Some? && start.value <= c.value
    requires fetched + Select(older, q, nodeOf, c) == Select(older, q, nodeOf, start)
    ensures fetched + Select(newer, q, nodeOf, c) == Select(newer, q, nodeOf, start)
  {
    hide OfRun, Numbered, Select;
    var added := newer[|older|..];
    assert newer == older + added;
    SelectAppend(older, added, q, nodeOf, c);
    SelectAppend(older, added, q, nodeOf, start);
    forall r | r in added && r.run == q.run ensures Beyond(c, r) <==> Beyond(start, r) {
      FreshBeyond(older, added, q, r);
    }
    SelectSame(added, q, nodeOf, c, start);
  }

  /**
   Paging: what has been fetched, followed by what lies beyond the cursor, is exactly the matching
   rows in order, each once, even though rows and node runs were added between the pages.
   */
  lemma {:induction false} Paging(tables: seq<Table>, q: Query, start: Option<int>)
    requires Growing(tables) && tables != []
    ensures var table := tables[|tables| - 1];
      Fetched(tables, q, start) + Select(table.rows, q, table.nodeOf, CursorAt(tables, q, start))
        == Select(table.rows, q, table.nodeOf, start)
  {
    hide Numbered, Select, GetRunLogs, OfRun, NextCursor, Refers;
    var prev, table := tables[..|tables| - 1], tables[|tables| - 1];
    var c := CursorAt(prev, q, start);
    CursorBound(prev, q, start);
    if prev != [] {
      var last := prev[|prev| - 1];
      Paging(prev, q, start);
      assert Later(last, table);
      NodeRunsGrow(last.rows, q, last.nodeOf, table.nodeOf, c);
      NodeRunsGrow(last.rows, q, last.nodeOf, table.nodeOf, start);
      GrowthIsSeen(last.rows, table.rows, q, table.nodeOf, start, c, Fetched(prev, q, start));
    }
    PageSplits(table.rows, q, table.nodeOf, c);
  }

  /** A page shorter than the limit completes the download. */
  lemma ShortPageIsLast(tables: seq<Table>, q: Query, start: Option<int>)
    requires Growing(tables) && tables != []
    requires var after, table := CursorAt(tables[..|tables| - 1], q, start), tables[|tables| - 1];
      |GetRunLogs(table.rows, q, table.nodeOf, after)| < q.Limit()
    ensures var table := tables[|tables| - 1]; Fetched(tables, q, start) == Select(table.rows, q, table.nodeOf, start)
  {
    var table := tables[|tables| - 1];
    var after := CursorAt(tables[..|tables| - 1], q, start);
    Paging(tables, q, start);
    PageSplits(table.rows, q, table.nodeOf, after);
    PageIsPrefix(table.rows, q, table.nodeOf, after);
  }

  /**
   Once a page is short, the pages fetched together hold exactly the rows of the table that are of the
   query's run, on its stream if it names one, of its node if it names one, and beyond the starting
   cursor; each once, in increasing sequence.
   */
  lemma FetchedHoldsWanted(tables: seq<Table>, q: Query, start: Option<int>)
    requires Growing(tables) && tables != []
    requires var after, table := CursorAt(tables[..|tables| - 1], q, start), tables[|tables| - 1];
      |GetRunLogs(table.rows, q, table.nodeOf, after)| < q.Limit()
    ensures var table, fetched := tables[|tables| - 1], Fetched(tables, q, start);
      && (forall r :: r in fetched <==>
            && r in table.rows && r.run == q.run
            && (q.stream.Some? ==> r.stream == q.stream.value)
            && (q.node.Some? ==> r.nodeRun.Some? && r.nodeRun.value in table.nodeOf
                                 && table.nodeOf[r.nodeRun.value] == q.node.value)
            && (start.Some? ==> r.sequence > start.value))
      && (forall i, j :: 0 <= i < j < |fetched| ==> fetched[i].sequence < fetched[j].sequence)
  {
    var table := tables[|tables| - 1];
    ShortPageIsLast(tables, q, start);
    NumberedRun(table.rows, q.run);
    SelectIncreasing(table.rows, q, table.nodeOf, start);
    hide Growing, Numbered, Select, Fetched, GetRunLogs, OfRun, CursorAt;
    forall r { SelectWanted(table.rows, q, table.nodeOf, start, r); }
  }
}
