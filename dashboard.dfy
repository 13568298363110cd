/** The admin dashboard's table view: choosing a table's key column, filtering rows by
    per-column text, splitting the filtered rows into pages, the window of page buttons,
    and the view state the page keeps (filters, current page, the row being edited). */
module Dashboard {
  import opened Wrappers
  import opened Text
  import opened Sequences
  import opened TableSorting

  /** A fetched row: its cells by column key. A key the row lacks reads as missing. */
  type Row = map<string, SortableValue>

  /** The page size the view starts with and never changes. */
  const PageSize: int := 10

  function Min(a: int, b: int): int {
    if a <= b then a else b
  }

  // ---------------------------------------------------------------------------
  // detectPrimaryKey

  /** The key is `id` in any case. */
  predicate IsIdKey(k: string) {
    Lower(k) == "id"
  }

  /** The key ends in `_id` in any case. */
  predicate EndsInId(k: string) {
    EndsWith(Lower(k), "_id")
  }

  /** The position of the first key satisfying `p`, if any. */
  function FirstKey(keys: seq<string>, p: string -> bool): (r: Option<int>)
    ensures r.Some? ==> 0 <= r.value < |keys| && p(keys[r.value])
                        && forall j | 0 <= j < r.value :: !p(keys[j])
    ensures r.None? ==> forall j | 0 <= j < |keys| :: !p(keys[j])
  {
    if keys == [] then None
    else if p(keys[0]) then Some(0)
    else
      var r := FirstKey(keys[1..], p);
      if r.Some? then Some(r.value + 1) else None
  }

  /** `detectPrimaryKey`, as the position of the key it picks: the first key that is `id`
      in any case, else the first ending in `_id`, else the first key; none for a table
      without columns. */
  function DetectPrimaryKey(keys: seq<string>): (r: Option<int>)
    ensures r.None? <==> keys == []
    ensures r.Some? ==> 0 <= r.value < |keys|
    ensures (exists i | 0 <= i < |keys| :: IsIdKey(keys[i])) ==>
              r.Some? && IsIdKey(keys[r.value]) && forall j | 0 <= j < r.value :: !IsIdKey(keys[j])
    ensures (forall i | 0 <= i < |keys| :: !IsIdKey(keys[i])) && (exists i | 0 <= i < |keys| :: EndsInId(keys[i])) ==>
              r.Some? && EndsInId(keys[r.value]) && forall j | 0 <= j < r.value :: !EndsInId(keys[j])
    ensures (forall i | 0 <= i < |keys| :: !IsIdKey(keys[i]) && !EndsInId(keys[i])) && keys != [] ==> r == Some(0)
  {
    var byName := FirstKey(keys, IsIdKey);
    if byName.Some? then byName
    else
      var bySuffix := FirstKey(keys, EndsInId);
      if bySuffix.Some? then bySuffix
      else if keys == [] then None
      else Some(0)
  }

  // ---------------------------------------------------------------------------
  // Filtering

  /** `String(val ?? '')`: a missing cell reads as the empty string. */
  function CellText(v: SortableValue): string {
    match v
    case Null => ""
    case Num(n) => IntToString(n)
    case Str(s) => s
  }

  function Cell(row: Row, key: string): SortableValue {
    if key in row then row[key] else Null
  }

  /** A row passes when, for every filter with text, its cell in that column contains the
      filter text, both lower-cased. */
  predicate RowMatches(row: Row, filters: map<string, string>) {
    forall k | k in filters :: filters[k] == "" || Contains(Lower(CellText(Cell(row, k))), Lower(filters[k]))
  }

  function Matcher(filters: map<string, string>): Row -> bool {
    row => RowMatches(row, filters)
  }

  /** `filteredData`: the rows that pass every filter, in table order. */
  function Filtered(rows: seq<Row>, filters: map<string, string>): (r: seq<Row>)
    ensures forall row :: row in r <==> row in rows && RowMatches(row, filters)
  {
    Filter(rows, Matcher(filters))
  }

  /** Where each filtered row sits in the table. */
  function MatchingIndices(rows: seq<Row>, filters: map<string, string>): (r: seq<int>)
    ensures forall j | 0 <= j < |r| :: 0 <= r[j] < |rows|
  {
    Positions(rows, Matcher(filters))
  }

  /** One step of the filter: the first row is kept exactly when it matches. */
  lemma FilteredCons(rows: seq<Row>, filters: map<string, string>)
    requires rows != []
    ensures Filtered(rows, filters)
            == (if RowMatches(rows[0], filters) then [rows[0]] else []) + Filtered(rows[1..], filters)
  {
    assert Matcher(filters)(rows[0]) == RowMatches(rows[0], filters);
  }

  /** The indices name the filtered rows in order: the `j`-th shown row is the table row
      at the `j`-th index. */
  lemma MatchingIndicesLocate(rows: seq<Row>, filters: map<string, string>)
    ensures var idx := MatchingIndices(rows, filters);
            && |idx| == |Filtered(rows, filters)|
            && forall j | 0 <= j < |idx| :: rows[idx[j]] == Filtered(rows, filters)[j]
  {
    PositionsLocate(rows, Matcher(filters));
  }

  /** Filters without text pass every row. */
  predicate NoActiveFilter(filters: map<string, string>) {
    forall k | k in filters :: filters[k] == ""
  }

  /** With no filter text every row is shown, each in its own place. */
  lemma UnfilteredShowsAll(rows: seq<Row>, filters: map<string, string>)
    requires NoActiveFilter(filters)
    ensures Filtered(rows, filters) == rows
    ensures MatchingIndices(rows, filters) == seq(|rows|, i => i)
  {
    UnfilteredKeepsRows(rows, filters);
    UnfilteredIndices(rows, filters);
  }

  lemma {:induction false} UnfilteredKeepsRows(rows: seq<Row>, filters: map<string, string>)
    requires NoActiveFilter(filters)
    ensures Filtered(rows, filters) == rows
  {
    if rows != [] {
      UnfilteredKeepsRows(rows[1..], filters);
      FilteredCons(rows, filters);
      assert RowMatches(rows[0], filters);
      assert rows == [rows[0]] + rows[1..];
    }
  }

  lemma {:induction false} UnfilteredIndices(rows: seq<Row>, filters: map<string, string>)
    requires NoActiveFilter(filters)
    ensures MatchingIndices(rows, filters) == seq(|rows|, i => i)
  {
    if rows != [] {
      UnfilteredIndices(rows[1..], filters);
      assert RowMatches(rows[0], filters);
      var rest := Positions(rows[1..], Matcher(filters));
      var idx := Positions(rows, Matcher(filters));
      assert Matcher(filters)(rows[0]);
      assert |idx| == |rows| && idx[0] == 0;
      forall k | 1 <= k < |rows| ensures idx[k] == k {
        assert idx[k] == rest[k - 1] + 1;
      }
    }
  }

  /** Adding text to a filter only narrows the view: a row that passes the new filters
      passed the old ones. */
  lemma NarrowingFilters(row: Row, filters: map<string, string>, key: string, text: string)
    requires key in filters ==> filters[key] == ""
    requires RowMatches(row, filters[key := text])
    ensures RowMatches(row, filters)
  {
    forall k | k in filters
      ensures filters[k] == "" || Contains(Lower(CellText(Cell(row, k))), Lower(filters[k]))
    {
      if k != key {
        assert filters[key := text][k] == filters[k];
      }
    }
  }

  // ---------------------------------------------------------------------------
  // Pagination

  /** `totalPages`: `max(1, ceil(count / limit))`. */
  function TotalPages(count: nat, limit: int): (n: int)
    requires limit > 0
    ensures n >= 1
    ensures count <= n * limit
    ensures count > 0 ==> (n - 1) * limit < count
    ensures count == 0 ==> n == 1
  {
    if count == 0 then 1 else (count + limit - 1) / limit
  }

  function StartIndex(page: int, limit: int): int {
    (page - 1) * limit
  }

  /** The rows of page `page`: `slice(start, start + limit)`, cut short at the end. */
  function PageRows<T>(rows: seq<T>, page: int, limit: int): (r: seq<T>)
    requires page >= 1 && limit > 0
    ensures |r| <= limit
  {
    var start := Min(StartIndex(page, limit), |rows|);
    var end := Min(StartIndex(page, limit) + limit, |rows|);
    rows[start..end]
  }

  /** Entry `k` of a page is the row `k` places after the page's start. */
  lemma PageRowsAt<T>(rows: seq<T>, page: int, limit: int, k: int)
    requires page >= 1 && limit > 0
    requires 0 <= k < |PageRows(rows, page, limit)|
    ensures 0 <= StartIndex(page, limit) + k < |rows|
    ensures PageRows(rows, page, limit)[k] == rows[StartIndex(page, limit) + k]
  {
    var start := StartIndex(page, limit);
    assert start >= 0 by {
      assert (page - 1) * limit >= 0;
    }
  }

  /** Every row is shown on exactly one page in range: row `i` is entry `i % limit` of page
      `i / limit + 1`. */
  lemma EveryRowOnItsPage<T>(rows: seq<T>, limit: int, i: int)
    requires limit > 0 && 0 <= i < |rows|
    ensures var p := i / limit + 1;
            && 1 <= p <= TotalPages(|rows|, limit)
            && i % limit < |PageRows(rows, p, limit)|
            && PageRows(rows, p, limit)[i % limit] == rows[i]
  {
    RowOnPage(rows, limit, i / limit, i % limit, i);
  }

  /** Row `i`, `rem` places into the `q`-th block of `limit` rows, is entry `rem` of page
      `q + 1`, and that page is in range. */
  lemma RowOnPage<T>(rows: seq<T>, limit: int, q: int, rem: int, i: int)
    requires limit > 0 && 0 <= i < |rows|
    requires q == i / limit && rem == i % limit
    ensures 1 <= q + 1 <= TotalPages(|rows|, limit)
    ensures rem < |PageRows(rows, q + 1, limit)|
    ensures PageRows(rows, q + 1, limit)[rem] == rows[i]
  {
    var start := q * limit;
    assert start + rem == i && 0 <= rem < limit && 0 <= q;
    assert StartIndex(q + 1, limit) == start;
    var tp := TotalPages(|rows|, limit);
    assert q + 1 <= tp by {
      assert start < tp * limit;
      MulLessCancel(q, tp, limit);
    }
    assert 0 <= start by {
      assert q * limit >= 0;
    }
    assert PageRows(rows, q + 1, limit) == rows[start..Min(start + limit, |rows|)];
  }

  lemma MulLessCancel(a: int, b: int, c: int)
    requires c > 0 && a * c < b * c
    ensures a < b
  {
    assert (b - a) * c == b * c - a * c;
  }

  /** One page number of the window of page buttons, for button `i`. */
  function PageNumber(page: int, totalPages: int, i: int): int {
    if totalPages <= 5 then i + 1
    else if page <= 3 then i + 1
    else if page >= totalPages - 2 then totalPages - 4 + i
    else page - 2 + i
  }

  /** The page buttons: `min(5, totalPages)` consecutive page numbers. */
  function PageWindow(page: int, totalPages: int): (w: seq<int>)
    requires totalPages >= 1
    ensures |w| == Min(5, totalPages)
    ensures forall i | 0 <= i < |w| :: w[i] == w[0] + i
  {
    seq(Min(5, totalPages), i => PageNumber(page, totalPages, i))
  }

  /** Every button names a page that exists, and when the current page is in range its
      own button is among them. */
  lemma PageWindowInRange(page: int, totalPages: int)
    requires totalPages >= 1
    ensures var w := PageWindow(page, totalPages);
            && (forall i | 0 <= i < |w| :: 1 <= w[i] <= totalPages)
            && (1 <= page <= totalPages ==> page in w)
  {
    var w := PageWindow(page, totalPages);
    if 1 <= page <= totalPages {
      var i := page - w[0];
      assert 0 <= i < |w| && w[i] == page;
    }
  }

  // ---------------------------------------------------------------------------
  // Saving an edited row

  /** `{ ...row, ...edited }`: the edited cells replace the row's. */
  function Merged(row: Row, edited: Row): Row {
    row + edited
  }

  /** `handleSave` as written: the edit is merged into the table row at the page's start
      plus the edited row's position on the page. That position counts rows of the
      filtered view, so with a filter active it can name another row. An index past the
      end leaves the rows as they are. */
  function SavedAsWritten(rows: seq<Row>, page: int, limit: int, editingRow: int, edited: Row): (r: seq<Row>)
    ensures |r| == |rows|
  {
    var g := StartIndex(page, limit) + editingRow;
    if 0 <= g < |rows| then rows[g := Merged(rows[g], edited)] else rows
  }

  /** The save as intended: the edit is merged into the table row that is shown at that
      position of the filtered page. */
  function SavedCorrected(rows: seq<Row>, filters: map<string, string>, page: int, limit: int, editingRow: int, edited: Row)
    : (r: seq<Row>)
    ensures |r| == |rows|
  {
    var idx := MatchingIndices(rows, filters);
    var g := StartIndex(page, limit) + editingRow;
    if 0 <= g < |idx| then rows[idx[g] := Merged(rows[idx[g]], edited)] else rows
  }

  /** With a filter active the save as written edits the wrong row: in the table
      `[{name: "x"}, {name: "y"}]` filtered by "y", the page shows only `{name: "y"}`, but
      saving an edit of it rewrites `{name: "x"}` and leaves `{name: "y"}` untouched. */
  lemma SaveAsWrittenEditsWrongRow()
    ensures var x: Row := map["name" := Str("x")];
            var y: Row := map["name" := Str("y")];
            var filters := map["name" := "y"];
            var edited: Row := map["name" := Str("z")];
            && PageRows(Filtered([x, y], filters), 1, PageSize) == [y]
            && SavedAsWritten([x, y], 1, PageSize, 0, edited) == [edited, y]
  {
    var x: Row := map["name" := Str("x")];
    var y: Row := map["name" := Str("y")];
    var filters := map["name" := "y"];
    NameFilterKeepsOnly(x, y);
    assert Merged(x, map["name" := Str("z")]) == map["name" := Str("z")];
  }

  /** The name filter "y" keeps the row named "y" and drops the row named "x". */
  lemma NameFilterKeepsOnly(x: Row, y: Row)
    requires x == map["name" := Str("x")] && y == map["name" := Str("y")]
    ensures Filtered([x, y], map["name" := "y"]) == [y]
  {
    var filters := map["name" := "y"];
    assert !RowMatches(x, filters) by {
      assert Lower("x") == "x" && Lower("y") == "y";
      assert !Contains("x", "y");
      assert "name" in filters;
    }
    assert RowMatches(y, filters) by {
      assert Lower("y") == "y";
      assert Contains("y", "y") by { assert OccursAt("y", "y", 0); }
    }
    assert [x, y][1..] == [y];
    assert [y][1..] == [];
  }


  /** The corrected save edits exactly the row shown at the edited position of the page
      and leaves every other row as it was. */
  lemma SaveEditsShownRow(rows: seq<Row>, filters: map<string, string>, page: int, limit: int, editingRow: int, edited: Row)
    requires page >= 1 && limit > 0
    requires 0 <= editingRow < |PageRows(Filtered(rows, filters), page, limit)|
    ensures var idx := MatchingIndices(rows, filters);
            var g := StartIndex(page, limit) + editingRow;
            var r := SavedCorrected(rows, filters, page, limit, editingRow, edited);
            && 0 <= g < |idx|
            && rows[idx[g]] == PageRows(Filtered(rows, filters), page, limit)[editingRow]
            && r[idx[g]] == Merged(PageRows(Filtered(rows, filters), page, limit)[editingRow], edited)
            && forall i | 0 <= i < |rows| && i != idx[g] :: r[i] == rows[i]
  {
    MatchingIndicesLocate(rows, filters);
    PageRowsAt(Filtered(rows, filters), page, limit, editingRow);
  }

  /** Without filter text both saves edit the same row. */
  lemma SaveAgreesWithoutFilters(rows: seq<Row>, filters: map<string, string>, page: int, limit: int, editingRow: int, edited: Row)
    requires NoActiveFilter(filters)
    ensures SavedCorrected(rows, filters, page, limit, editingRow, edited)
            == SavedAsWritten(rows, page, limit, editingRow, edited)
  {
    UnfilteredShowsAll(rows, filters);
  }

  // ---------------------------------------------------------------------------
  // The view state

  /** The state the dashboard keeps for the selected table. */
  class TableView {
    var tableData: seq<Row>
    var filters: map<string, string>
    var page: int
    const limit: int
    var editingRow: Option<int>
    var editedData: Row

    ghost predicate Valid()
      reads this
    {
      limit > 0 && page >= 1
    }

    /** A freshly loaded table: first page, no filters, nothing being edited. */
    constructor Loaded(rows: seq<Row>)
      ensures Valid()
      ensures tableData == rows && filters == map[] && page == 1 && limit == PageSize
      ensures editingRow == None && editedData == map[]
    {
      tableData := rows;
      filters := map[];
      page := 1;
      limit := PageSize;
      editingRow := None;
      editedData := map[];
    }

    function FilteredRows(): seq<Row>
      reads this
    {
      Filtered(tableData, filters)
    }

    function Pages(): int
      reads this
      requires Valid()
    {
      TotalPages(|FilteredRows()|, limit)
    }

    function ShownRows(): seq<Row>
      reads this
      requires Valid()
    {
      PageRows(FilteredRows(), page, limit)
    }

    /** `handleFilterChange`: sets one filter's text and goes back to the first page. */
    method HandleFilterChange(key: string, value: string)
      requires Valid()
      modifies this
      ensures Valid()
      ensures filters == old(filters)[key := value] && page == 1
      ensures tableData == old(tableData) && editingRow == old(editingRow) && editedData == old(editedData)
    {
      filters := filters[key := value];
      page := 1;
    }

    /** `handlePageChange`: moves to `newPage` when it is a page that exists, and ignores
        it otherwise. */
    method HandlePageChange(newPage: int)
      requires Valid()
      modifies this
      ensures Valid()
      ensures page == if 1 <= newPage <= old(Pages()) then newPage else old(page)
      ensures tableData == old(tableData) && filters == old(filters)
      ensures editingRow == old(editingRow) && editedData == old(editedData)
    {
      if newPage < 1 || newPage > Pages() {
        return;
      }
      page := newPage;
    }

    /** `handleEdit`: starts editing the row at `rowIndex` of the page with a copy of its
        cells (no cells when there is no such row). */
    method HandleEdit(rowIndex: int)
      requires Valid()
      modifies this
      ensures Valid()
      ensures editingRow == Some(rowIndex)
      ensures editedData == if 0 <= rowIndex < |old(ShownRows())| then old(ShownRows())[rowIndex] else map[]
      ensures tableData == old(tableData) && filters == old(filters) && page == old(page)
    {
      var shown := ShownRows();
      editingRow := Some(rowIndex);
      editedData := if 0 <= rowIndex < |shown| then shown[rowIndex] else map[];
    }

    /** `handleSave`: merges the edit into the table row at the page's start plus the
        edited position, then stops editing. Nothing happens when no row is being edited.
        With no filter text that is the row being edited (`SaveAgreesWithoutFilters`);
        with a filter it can be another one (`SaveAsWrittenEditsWrongRow`). */
    method HandleSave()
      requires Valid()
      modifies this
      ensures Valid()
      ensures old(editingRow).None? ==>
                tableData == old(tableData) && editingRow == None && editedData == old(editedData)
      ensures old(editingRow).Some? ==>
                && tableData == SavedAsWritten(old(tableData), old(page), limit, old(editingRow).value, old(editedData))
                && editingRow == None && editedData == map[]
      ensures filters == old(filters) && page == old(page)
    {
      if editingRow.None? {
        return;
      }
      var globalIndex := StartIndex(page, limit) + editingRow.value;
      if 0 <= globalIndex < |tableData| {
        tableData := tableData[globalIndex := Merged(tableData[globalIndex], editedData)];
      }
      editingRow := None;
      editedData := map[];
    }
  }
}
