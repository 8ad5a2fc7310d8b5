/** The navigation state of the explorer (`AppState`, src/app.rs): the cursor
    and scroll offsets, the search fields, the SQL fields and the row-detail
    overlay. `Snapshot` is its value; the class `AppState` holds the same
    fields and updates them in place, each method promising the new value in
    terms of the old one. Offsets are `usize` in the source and `nat` here:
    the wrap-around of an increment at 2^64 is not modelled. */
module State {
  import opened Options
  import opened SampleData
  import opened FileSql

  function Min(a: nat, b: nat): nat {
    if a <= b then a else b
  }

  /** `usize::saturating_sub` */
  function SaturatingSub(a: nat, b: nat): nat {
    if a >= b then a - b else 0
  }

  /** `String::pop`, result discarded: drops the last character if any. */
  function Pop(s: string): (r: string)
    ensures s == [] ==> r == []
    ensures s != [] ==> r + [s[|s| - 1]] == s
  {
    if s == [] then [] else s[..|s| - 1]
  }

  /** Rows shown by the data table for a terminal of `height` lines: seven
      lines go to the header, the footer and the table header, and at least
      one row is always shown (src/app.rs:215). */
  function VisibleDataRows(height: nat): (rows: nat)
    ensures rows >= 1
    ensures height >= 8 ==> rows + 7 == height
    ensures height <= 8 ==> rows == 1
  {
    if SaturatingSub(height, 7) >= 1 then SaturatingSub(height, 7) else 1
  }

  // ---------------------------------------------------------------------------
  // Paging and the viewport rule of the data table.

  /** The selection after page_down: `visible` further down, never below the
      last row (and 0 when there is no row). */
  function PageDownOffset(v: nat, visible: nat, maxRows: nat): (r: nat)
    ensures r <= SaturatingSub(maxRows, 1)
    ensures v + visible <= SaturatingSub(maxRows, 1) ==> r == v + visible
    ensures v + visible > SaturatingSub(maxRows, 1) ==> r == SaturatingSub(maxRows, 1)
    ensures v <= SaturatingSub(maxRows, 1) ==> v <= r
  {
    Min(v + visible, SaturatingSub(maxRows, 1))
  }

  /** The selection after page_up: `visible` further up, stopping at 0. */
  function PageUpOffset(v: nat, visible: nat): (r: nat)
    ensures r <= v
    ensures v >= visible ==> r + visible == v
    ensures v < visible ==> r == 0
  {
    SaturatingSub(v, visible)
  }

  /** adjust_scroll_to_selection computes `visible_rows - 1` when the selection
      is not above the window; on `usize` that underflows (a panic in a debug
      build) unless at least one row is visible. */
  predicate AdjustDefined(v: nat, scroll: nat, visible: nat) {
    visible >= 1 || v < scroll
  }

  /** The data-table scroll after adjust_scroll_to_selection: move the window
      just enough to contain the selection, then clamp it to the last full
      window. */
  function AdjustScroll(v: nat, scroll: nat, visible: nat, maxRows: nat): (r: nat)
    requires AdjustDefined(v, scroll, visible)
    ensures r <= SaturatingSub(maxRows, visible)
    ensures visible >= 1 && v < maxRows ==> r <= v < r + visible
    ensures scroll <= v < scroll + visible && scroll <= SaturatingSub(maxRows, visible) ==> r == scroll
    ensures v < scroll ==> r == Min(v, SaturatingSub(maxRows, visible))
    ensures v >= maxRows && !(scroll <= v < scroll + visible && scroll <= SaturatingSub(maxRows, visible)) ==>
      r == SaturatingSub(maxRows, visible)
  {
    var moved :=
      if v < scroll then v
      else if v >= scroll + visible then SaturatingSub(v, visible - 1)
      else scroll;
    Min(moved, SaturatingSub(maxRows, visible))
  }

  /** Of all in-range windows that show the selection, adjust_scroll_to_selection
      picks one nearest to the current window: it moves no further than it must. */
  lemma AdjustScrollMovesLeast(v: nat, scroll: nat, visible: nat, maxRows: nat, other: nat)
    requires visible >= 1 && v < maxRows
    requires other <= v < other + visible && other <= SaturatingSub(maxRows, visible)
    ensures var r := AdjustScroll(v, scroll, visible, maxRows);
      (if r <= scroll then scroll - r else r - scroll)
      <= (if other <= scroll then scroll - other else other - scroll)
  {
  }

  /** A page down followed by a page up with the same arguments restores the
      selection whenever the page down was not clamped. */
  lemma PageDownThenUpRestores(v: nat, visible: nat, maxRows: nat)
    requires v + visible <= SaturatingSub(maxRows, 1)
    ensures PageUpOffset(PageDownOffset(v, visible, maxRows), visible) == v
  {
  }

  // ---------------------------------------------------------------------------
  // The value of the navigation state.

  /** The search, SQL and row-detail fields of `a` and `b` agree. */
  predicate SameModalState(a: Snapshot, b: Snapshot) {
    && a.searchMode == b.searchMode
    && a.searchQuery == b.searchQuery
    && a.searchFilter == b.searchFilter
    && a.filteredSampleData == b.filteredSampleData
    && a.sqlQuery == b.sqlQuery
    && a.sqlResult == b.sqlResult
    && a.rowDetailRow == b.rowDetailRow
    && a.detailScrollOffset == b.detailScrollOffset
    && a.detailScrollHorizontal == b.detailScrollHorizontal
  }

  datatype Snapshot = Snapshot(
    horizontalOffset: nat,
    verticalOffset: nat,
    treeScrollOffset: nat,
    dataVerticalScroll: nat,
    visibleDataRows: nat,
    searchMode: bool,
    searchQuery: string,
    searchFilter: Option<string>,
    filteredSampleData: Option<ParquetSampleData>,
    sqlQuery: string,
    sqlResult: Option<SqlResult>,
    rowDetailRow: Option<nat>,
    detailScrollOffset: nat,
    detailScrollHorizontal: nat)
  {
    /** The two invariants of the state: a search filter is present exactly
        when filtered data is, and search entry and the row-detail overlay are
        never active together. */
    predicate Consistent() {
      && (searchFilter.Some? <==> filteredSampleData.Some?)
      && !(searchMode && rowDetailRow.Some?)
    }

    /** reset: zeroes the four base offsets. */
    function Reset(): (t: Snapshot)
      ensures t.horizontalOffset == t.verticalOffset == t.treeScrollOffset == t.dataVerticalScroll == 0
      ensures SameModalState(this, t) && t.visibleDataRows == visibleDataRows
      ensures Consistent() ==> t.Consistent()
    {
      this.(horizontalOffset := 0, verticalOffset := 0, treeScrollOffset := 0, dataVerticalScroll := 0)
    }

    /** clear_search_filter: drops the filter and the filtered data together. */
    function ClearSearchFilter(): (t: Snapshot)
      ensures t.searchFilter.None? && t.filteredSampleData.None?
      ensures t == this.(searchFilter := t.searchFilter, filteredSampleData := t.filteredSampleData)
      ensures Consistent() ==> t.Consistent()
    {
      this.(searchFilter := None, filteredSampleData := None)
    }

    function Down(): (t: Snapshot)
      ensures t == this.(verticalOffset := t.verticalOffset)
      ensures t.verticalOffset == verticalOffset + 1
    {
      this.(verticalOffset := verticalOffset + 1)
    }

    function Up(): (t: Snapshot)
      ensures t == this.(verticalOffset := t.verticalOffset)
      ensures verticalOffset == 0 ==> t.verticalOffset == 0
      ensures verticalOffset > 0 ==> t.verticalOffset + 1 == verticalOffset
    {
      this.(verticalOffset := SaturatingSub(verticalOffset, 1))
    }

    function Right(): (t: Snapshot)
      ensures t == this.(horizontalOffset := t.horizontalOffset)
      ensures t.horizontalOffset == horizontalOffset + 1
    {
      this.(horizontalOffset := horizontalOffset + 1)
    }

    function Left(): (t: Snapshot)
      ensures t == this.(horizontalOffset := t.horizontalOffset)
      ensures horizontalOffset == 0 ==> t.horizontalOffset == 0
      ensures horizontalOffset > 0 ==> t.horizontalOffset + 1 == horizontalOffset
    {
      this.(horizontalOffset := SaturatingSub(horizontalOffset, 1))
    }

    function TreeScrollUp(): (t: Snapshot)
      ensures t == this.(treeScrollOffset := t.treeScrollOffset)
      ensures treeScrollOffset == 0 ==> t.treeScrollOffset == 0
      ensures treeScrollOffset > 0 ==> t.treeScrollOffset + 1 == treeScrollOffset
    {
      this.(treeScrollOffset := SaturatingSub(treeScrollOffset, 1))
    }

    function TreeScrollDown(): (t: Snapshot)
      ensures t == this.(treeScrollOffset := t.treeScrollOffset)
      ensures t.treeScrollOffset == treeScrollOffset + 1
    {
      this.(treeScrollOffset := treeScrollOffset + 1)
    }

    /** adjust_scroll_to_selection on the value. */
    function AdjustScrollToSelection(visible: nat, maxRows: nat): (t: Snapshot)
      requires AdjustDefined(verticalOffset, dataVerticalScroll, visible)
      ensures t == this.(dataVerticalScroll := t.dataVerticalScroll)
      ensures t.dataVerticalScroll <= SaturatingSub(maxRows, visible)
      ensures visible >= 1 && verticalOffset < maxRows ==>
        t.dataVerticalScroll <= verticalOffset < t.dataVerticalScroll + visible
      ensures dataVerticalScroll <= verticalOffset < dataVerticalScroll + visible
              && dataVerticalScroll <= SaturatingSub(maxRows, visible) ==>
        t == this
      ensures t.dataVerticalScroll == AdjustScroll(verticalOffset, dataVerticalScroll, visible, maxRows)
    {
      this.(dataVerticalScroll := AdjustScroll(verticalOffset, dataVerticalScroll, visible, maxRows))
    }

    predicate PageUpDefined(visible: nat) {
      AdjustDefined(PageUpOffset(verticalOffset, visible), dataVerticalScroll, visible)
    }

    predicate PageDownDefined(visible: nat, maxRows: nat) {
      AdjustDefined(PageDownOffset(verticalOffset, visible, maxRows), dataVerticalScroll, visible)
    }

    /** page_up on the value: the selection moves up a page, then the window
        follows it. */
    function PageUp(visible: nat, maxRows: nat): (t: Snapshot)
      requires PageUpDefined(visible)
      ensures t == this.(verticalOffset := t.verticalOffset, dataVerticalScroll := t.dataVerticalScroll)
      ensures t.verticalOffset == PageUpOffset(verticalOffset, visible)
      ensures t.dataVerticalScroll == AdjustScroll(t.verticalOffset, dataVerticalScroll, visible, maxRows)
    {
      this.(verticalOffset := PageUpOffset(verticalOffset, visible)).AdjustScrollToSelection(visible, maxRows)
    }

    /** page_down on the value: the selection moves down a page (clamped to
        the last row), then the window follows it. */
    function PageDown(visible: nat, maxRows: nat): (t: Snapshot)
      requires PageDownDefined(visible, maxRows)
      ensures t == this.(verticalOffset := t.verticalOffset, dataVerticalScroll := t.dataVerticalScroll)
      ensures t.verticalOffset == PageDownOffset(verticalOffset, visible, maxRows)
      ensures t.dataVerticalScroll == AdjustScroll(t.verticalOffset, dataVerticalScroll, visible, maxRows)
    {
      this.(verticalOffset := PageDownOffset(verticalOffset, visible, maxRows)).AdjustScrollToSelection(visible, maxRows)
    }
  }

  /** AppState::new */
  const Initial: Snapshot := Snapshot(0, 0, 0, 0, 20, false, "", None, None, "", None, None, 0, 0)

  /** From a fresh state, five page downs of 10 over 100 rows select row 50
      with the window starting at row 41. */
  lemma FivePageDownsFromInitial()
    ensures var s := Initial.PageDown(10, 100).PageDown(10, 100).PageDown(10, 100).PageDown(10, 100).PageDown(10, 100);
      s.verticalOffset == 50 && s.dataVerticalScroll == 41
  {
  }

  /** With the visible-row count the run loop computes, paging can never hit
      the underflow of adjust_scroll_to_selection. */
  lemma RunLoopPagingIsDefined(s: Snapshot, height: nat, maxRows: nat)
    ensures s.PageUpDefined(VisibleDataRows(height))
    ensures s.PageDownDefined(VisibleDataRows(height), maxRows)
  {
  }

  // ---------------------------------------------------------------------------
  // The mutable record.

  class AppState {
    var horizontalOffset: nat
    var verticalOffset: nat
    var treeScrollOffset: nat
    var dataVerticalScroll: nat
    var visibleDataRows: nat
    var searchMode: bool
    var searchQuery: string
    var searchFilter: Option<string>
    var filteredSampleData: Option<ParquetSampleData>
    var sqlQuery: string
    var sqlResult: Option<SqlResult>
    var rowDetailRow: Option<nat>
    var detailScrollOffset: nat
    var detailScrollHorizontal: nat

    function Model(): Snapshot
      reads this
    {
      Snapshot(horizontalOffset, verticalOffset, treeScrollOffset, dataVerticalScroll, visibleDataRows,
               searchMode, searchQuery, searchFilter, filteredSampleData, sqlQuery, sqlResult,
               rowDetailRow, detailScrollOffset, detailScrollHorizontal)
    }

    predicate Valid()
      reads this
    {
      Model().Consistent()
    }

    constructor ()
      ensures Model() == Initial && Valid()
    {
      horizontalOffset, verticalOffset, treeScrollOffset, dataVerticalScroll := 0, 0, 0, 0;
      visibleDataRows := 20;
      searchMode, searchQuery, searchFilter, filteredSampleData := false, "", None, None;
      sqlQuery, sqlResult := "", None;
      rowDetailRow, detailScrollOffset, detailScrollHorizontal := None, 0, 0;
    }

    method Reset()
      modifies this
      ensures Model() == old(Model()).Reset()
    {
      horizontalOffset := 0;
      verticalOffset := 0;
      treeScrollOffset := 0;
      dataVerticalScroll := 0;
    }

    method ClearSearchFilter()
      modifies this
      ensures Model() == old(Model()).ClearSearchFilter()
    {
      searchFilter := None;
      filteredSampleData := None;
    }

    method Down()
      modifies this
      ensures Model() == old(Model()).Down()
    {
      verticalOffset := verticalOffset + 1;
    }

    method Up()
      modifies this
      ensures Model() == old(Model()).Up()
    {
      verticalOffset := SaturatingSub(verticalOffset, 1);
    }

    method Right()
      modifies this
      ensures Model() == old(Model()).Right()
    {
      horizontalOffset := horizontalOffset + 1;
    }

    method Left()
      modifies this
      ensures Model() == old(Model()).Left()
    {
      horizontalOffset := SaturatingSub(horizontalOffset, 1);
    }

    method TreeScrollUp()
      modifies this
      ensures Model() == old(Model()).TreeScrollUp()
    {
      treeScrollOffset := SaturatingSub(treeScrollOffset, 1);
    }

    method TreeScrollDown()
      modifies this
      ensures Model() == old(Model()).TreeScrollDown()
    {
      treeScrollOffset := treeScrollOffset + 1;
    }

    method SetDataVerticalScroll(scroll: nat)
      modifies this
      ensures Model() == old(Model()).(dataVerticalScroll := scroll)
    {
      dataVerticalScroll := scroll;
    }

    method SetVisibleDataRows(rows: nat)
      modifies this
      ensures Model() == old(Model()).(visibleDataRows := rows)
    {
      visibleDataRows := rows;
    }

    method PageUp(visible: nat, maxRows: nat)
      requires Model().PageUpDefined(visible)
      modifies this
      ensures Model() == old(Model()).PageUp(visible, maxRows)
    {
      verticalOffset := SaturatingSub(verticalOffset, visible);
      AdjustScrollToSelection(visible, maxRows);
    }

    method PageDown(visible: nat, maxRows: nat)
      requires Model().PageDownDefined(visible, maxRows)
      modifies this
      ensures Model() == old(Model()).PageDown(visible, maxRows)
    {
      verticalOffset := Min(verticalOffset + visible, SaturatingSub(maxRows, 1));
      AdjustScrollToSelection(visible, maxRows);
    }

    method AdjustScrollToSelection(visible: nat, maxRows: nat)
      requires AdjustDefined(verticalOffset, dataVerticalScroll, visible)
      modifies this
      ensures Model() == old(Model()).AdjustScrollToSelection(visible, maxRows)
    {
      if verticalOffset < dataVerticalScroll {
        dataVerticalScroll := verticalOffset;
      } else if verticalOffset >= dataVerticalScroll + visible {
        dataVerticalScroll := SaturatingSub(verticalOffset, visible - 1);
      }
      var maxScroll := SaturatingSub(maxRows, visible);
      dataVerticalScroll := Min(dataVerticalScroll, maxScroll);
    }
  }
}
