/** A sort by the index column, to show that the sorts the conversion is proved for exist. */
module LeRobotSorting {
  import opened LeRobotTables
  import opened TrajectoryRows

  function IndexOf(row: TableRow): int {
    if IndexColumn in row && row[IndexColumn].Integer? then row[IndexColumn].i else 0
  }

  predicate Ascends(rows: seq<TableRow>) {
    forall j, k :: 0 <= j < k < |rows| ==> IndexOf(rows[j]) <= IndexOf(rows[k])
  }

  /** From the end towards the start. */
  function InsertRow(sorted: seq<TableRow>, row: TableRow): seq<TableRow> {
    var n := |sorted| - 1;
    if sorted == [] || IndexOf(sorted[n]) <= IndexOf(row) then sorted + [row]
    else InsertRow(sorted[..n], row) + [sorted[n]]
  }

  function SortRows(rows: seq<TableRow>): seq<TableRow> {
    if rows == [] then [] else InsertRow(SortRows(rows[..|rows| - 1]), rows[|rows| - 1])
  }

  lemma {:induction false} InsertKeeps(sorted: seq<TableRow>, row: TableRow)
    ensures multiset(InsertRow(sorted, row)) == multiset(sorted) + multiset{row}
  {
    hide IndexOf;
    var n := |sorted| - 1;
    if sorted != [] && IndexOf(sorted[n]) > IndexOf(row) {
      InsertKeeps(sorted[..n], row);
      assert sorted == sorted[..n] + [sorted[n]];
    }
  }

  lemma {:induction false} InsertAscends(sorted: seq<TableRow>, row: TableRow)
    requires Ascends(sorted)
    ensures Ascends(InsertRow(sorted, row))
  {
    hide IndexOf;
    var n := |sorted| - 1;
    if sorted != [] && IndexOf(sorted[n]) > IndexOf(row) {
      InsertAscends(sorted[..n], row);
      InsertKeeps(sorted[..n], row);
      var before := InsertRow(sorted[..n], row);
      forall j | 0 <= j < |before| ensures IndexOf(before[j]) <= IndexOf(sorted[n]) {
        assert before[j] in multiset(before);
        assert before[j] == row || before[j] in sorted[..n];
      }
    }
  }

  lemma {:induction false} SortRowsSorts(rows: seq<TableRow>)
    ensures multiset(SortRows(rows)) == multiset(rows) && Ascends(SortRows(rows))
  {
    hide Ascends, InsertRow;
    if rows == [] {
      EmptyAscends();
    } else {
      var n := |rows| - 1;
      SortRowsSorts(rows[..n]);
      InsertKeeps(SortRows(rows[..n]), rows[n]);
      InsertAscends(SortRows(rows[..n]), rows[n]);
      assert rows == rows[..n] + [rows[n]];
    }
  }

  lemma EmptyAscends()
    ensures Ascends([])
  {
  }

  /** The hypothesis of the round trip can be met. */
  lemma SortsExist()
    ensures IsSort(SortRows)
  {
    forall rows ensures multiset(SortRows(rows)) == multiset(rows) && (Indexed(rows) ==> Sorted(SortRows(rows))) {
      SortRowsSorts(rows);
      if Indexed(rows) { IndexedPermutes(rows, SortRows(rows)); }
    }
  }
}
