/** The pure decisions inside the renderer (src/ui.rs): which schema row the
    selection denotes, where the tree window scrolls, how wide the tree panel
    is, what the row-detail overlay shows and how far it may scroll, and which
    of the overlays, footers and data sets take precedence. Drawing itself is
    not modelled. */
module Ui {
  import opened Options
  import opened SampleData
  import opened FileSql
  import opened State
  import opened Tabs
  import SqlTab

  newtype u16 = x: int | 0 <= x < 0x1_0000

  /** A `usize` value cast `as u16`: only the low 16 bits survive. */
  function AsU16(n: nat): (r: u16)
    ensures n < 0x1_0000 ==> r as int == n
  {
    (n % 0x1_0000) as u16
  }

  // ---------------------------------------------------------------------------
  // The schema tree: which entry the selection denotes.

  /** An entry of the flattened schema column list: a group node or a
      primitive (leaf) column. */
  datatype SchemaInfo = Group | Primitive

  function CountPrimitives(columns: seq<SchemaInfo>): nat {
    if columns == [] then 0
    else (if columns[0].Primitive? then 1 else 0) + CountPrimitives(columns[1..])
  }

  lemma {:induction false} CountPrimitivesAppend(a: seq<SchemaInfo>, b: seq<SchemaInfo>)
    ensures CountPrimitives(a + b) == CountPrimitives(a) + CountPrimitives(b)
  {
    if a != [] {
      assert (a + b)[1..] == a[1..] + b;
      CountPrimitivesAppend(a[1..], b);
    } else {
      assert a + b == b;
    }
  }

  /** The schema indices of the primitive entries at or after `start`, in
      order: the `filter_map` over the enumerated columns. */
  function PrimitivesFrom(columns: seq<SchemaInfo>, start: nat): (r: seq<nat>)
    requires start <= |columns|
    ensures forall i :: 0 <= i < |r| ==> start <= r[i] < |columns| && columns[r[i]].Primitive?
    ensures forall i, j :: 0 <= i < j < |r| ==> r[i] < r[j]
    decreases |columns| - start
  {
    if start == |columns| then []
    else if columns[start].Primitive? then [start] + PrimitivesFrom(columns, start + 1)
    else PrimitivesFrom(columns, start + 1)
  }

  /** PrimitivesFrom finds as many entries as there are primitives at or after `start`. */
  lemma {:induction false} PrimitivesFromLength(columns: seq<SchemaInfo>, start: nat)
    requires start <= |columns|
    ensures |PrimitivesFrom(columns, start)| == CountPrimitives(columns[start..])
    decreases |columns| - start
  {
    if start < |columns| {
      PrimitivesFromLength(columns, start + 1);
      assert columns[start..] == [columns[start]] + columns[start + 1..];
      CountPrimitivesAppend([columns[start]], columns[start + 1..]);
    }
  }

  /** PrimitivesFrom finds every primitive at or after `start`. */
  lemma {:induction false} PrimitivesFromComplete(columns: seq<SchemaInfo>, start: nat)
    requires start <= |columns|
    ensures forall k :: start <= k < |columns| && columns[k].Primitive? ==> k in PrimitivesFrom(columns, start)
    decreases |columns| - start
  {
    if start < |columns| {
      PrimitivesFromComplete(columns, start + 1);
    }
  }

  /** The i-th primitive found is preceded (from `start`) by exactly i primitives. */
  lemma {:induction false} PrimitivesFromRank(columns: seq<SchemaInfo>, start: nat)
    requires start <= |columns|
    ensures forall i :: 0 <= i < |PrimitivesFrom(columns, start)| ==>
      CountPrimitives(columns[start..PrimitivesFrom(columns, start)[i]]) == i
    decreases |columns| - start
  {
    if start < |columns| {
      var rest := PrimitivesFrom(columns, start + 1);
      PrimitivesFromRank(columns, start + 1);
      var head := if columns[start].Primitive? then 1 else 0;
      assert CountPrimitives([columns[start]]) == head by {
        assert [columns[start]][1..] == [];
      }
      forall i | 0 <= i < |rest|
        ensures CountPrimitives(columns[start..rest[i]]) == head + i
      {
        assert columns[start..rest[i]] == [columns[start]] + columns[start + 1..rest[i]];
        CountPrimitivesAppend([columns[start]], columns[start + 1..rest[i]]);
      }
      if columns[start].Primitive? {
        assert columns[start..start] == [];
      }
    }
  }

  /** calculate_selected_tree_index: selection 0 is the header and denotes no
      entry; selection k >= 1 denotes the k-th primitive column, if there is
      one. */
  function SelectedTreeIndex(columns: seq<SchemaInfo>, verticalOffset: nat): (r: Option<nat>)
    ensures verticalOffset == 0 ==> r.None?
    ensures verticalOffset >= 1 ==> (r.None? <==> CountPrimitives(columns) < verticalOffset)
    ensures r.Some? ==>
      && r.value < |columns|
      && columns[r.value].Primitive?
      && CountPrimitives(columns[..r.value]) == verticalOffset - 1
  {
    if verticalOffset == 0 then
      None
    else
      var primitiveToSchema := PrimitivesFrom(columns, 0);
      PrimitivesFromLength(columns, 0);
      PrimitivesFromRank(columns, 0);
      assert columns[0..] == columns;
      if verticalOffset - 1 < |primitiveToSchema| then
        assert columns[0..primitiveToSchema[verticalOffset - 1]] == columns[..primitiveToSchema[verticalOffset - 1]];
        Some(primitiveToSchema[verticalOffset - 1])
      else
        None
  }

  /** Later selections denote later schema entries. */
  lemma SelectedTreeIndexIncreasing(columns: seq<SchemaInfo>, k1: nat, k2: nat)
    requires 1 <= k1 < k2
    requires SelectedTreeIndex(columns, k2).Some?
    ensures SelectedTreeIndex(columns, k1).Some?
    ensures SelectedTreeIndex(columns, k1).value < SelectedTreeIndex(columns, k2).value
  {
    var p := PrimitivesFrom(columns, 0);
    assert SelectedTreeIndex(columns, k1) == Some(p[k1 - 1]);
    assert SelectedTreeIndex(columns, k2) == Some(p[k2 - 1]);
  }

  // ---------------------------------------------------------------------------
  // The tree window.

  /** calculate_scroll_to_show_item computes `visible_items - 1` when the item
      is not above the window; on `usize` that underflows (a panic in a debug
      build) unless at least one item is visible. */
  predicate ShowItemDefined(selected: Option<nat>, currentScroll: nat, visibleItems: nat) {
    visibleItems >= 1 || selected.None? || selected.value < currentScroll
  }

  /** calculate_scroll_to_show_item: the window start that brings the selected
      item into view. It is not clamped against the number of items. */
  function ScrollToShowItem(selected: Option<nat>, currentScroll: nat, visibleItems: nat): (r: nat)
    requires ShowItemDefined(selected, currentScroll, visibleItems)
    ensures selected.None? ==> r == currentScroll
    ensures selected.Some? && visibleItems >= 1 ==> r <= selected.value < r + visibleItems
    ensures selected.Some? && currentScroll <= selected.value < currentScroll + visibleItems ==> r == currentScroll
    ensures selected.Some? && selected.value < currentScroll ==> r == selected.value
  {
    match selected
    case Some(idx) =>
      if idx < currentScroll then idx
      else if idx >= currentScroll + visibleItems then SaturatingSub(idx, visibleItems - 1)
      else currentScroll
    case None => currentScroll
  }

  /** Of all windows that show the item, the rule picks one nearest to the
      current one: the window moves no further than it must. */
  lemma ScrollToShowItemMovesLeast(idx: nat, currentScroll: nat, visibleItems: nat, other: nat)
    requires visibleItems >= 1
    requires other <= idx < other + visibleItems
    ensures var r := ScrollToShowItem(Some(idx), currentScroll, visibleItems);
      (if r <= currentScroll then currentScroll - r else r - currentScroll)
      <= (if other <= currentScroll then currentScroll - other else other - currentScroll)
  {
  }

  /** A 12-entry tree showing 5 entries from the top: selecting entry 9 scrolls
      the window to start at 5. */
  lemma ScrollToShowItemExample()
    ensures ScrollToShowItem(Some(9), 0, 5) == 5
  {
  }

  /** The entries a tree panel of `height` lines shows: two lines go to the
      panel's border. */
  function VisibleTreeItems(height: u16): (r: nat)
    ensures r < 0x1_0000
    ensures height >= 2 ==> r + 2 == height as nat
    ensures height <= 2 ==> r == 0
  {
    SaturatingSub(height as nat, 2)
  }

  /** A panel of two lines or less leaves no entry visible, and then any
      selected primitive at or below the window start makes the tree window
      rule underflow. */
  lemma ShortPanelUnderflows(columns: seq<SchemaInfo>, verticalOffset: nat, treeScroll: nat, height: u16)
    requires height <= 2
    requires SelectedTreeIndex(columns, verticalOffset).Some?
    requires treeScroll <= SelectedTreeIndex(columns, verticalOffset).value
    ensures !ShowItemDefined(SelectedTreeIndex(columns, verticalOffset), treeScroll, VisibleTreeItems(height))
  {
  }

  /** calculate_adjusted_scroll_offset: the tree window for the current
      selection. */
  function AdjustedScrollOffset(columns: seq<SchemaInfo>, verticalOffset: nat, treeScroll: nat, visibleTreeItems: nat): (r: nat)
    requires ShowItemDefined(SelectedTreeIndex(columns, verticalOffset), treeScroll, visibleTreeItems)
    ensures var sel := SelectedTreeIndex(columns, verticalOffset);
      && (sel.None? ==> r == treeScroll)
      && (sel.Some? && visibleTreeItems >= 1 ==> r <= sel.value < r + visibleTreeItems)
  {
    ScrollToShowItem(SelectedTreeIndex(columns, verticalOffset), treeScroll, visibleTreeItems)
  }

  // ---------------------------------------------------------------------------
  // Tree panel widths (u16 additions, which panic on overflow in a debug build).

  /** calculate_tree_width: one column of spacing, plus one for the scrollbar. */
  function TreeWidth(treeWidth: u16, needsScrollbar: bool): u16
    requires treeWidth as int + (if needsScrollbar then 2 else 1) < 0x1_0000
  {
    if needsScrollbar then treeWidth + 2 else treeWidth + 1
  }

  /** calculate_tree_width_for_row_groups: no spacing column unless there is a
      scrollbar. */
  function TreeWidthForRowGroups(treeWidth: u16, needsScrollbar: bool): u16
    requires needsScrollbar ==> treeWidth as int + 2 < 0x1_0000
  {
    if needsScrollbar then treeWidth + 2 else treeWidth
  }

  /** With a scrollbar, both views reserve exactly the tree area (tree width
      plus one) and the one-column scrollbar the tree section lays out; without
      one, the row-groups view is one column narrower. */
  lemma TreeWidthsAgreeWithLayout(treeWidth: u16, needsScrollbar: bool)
    requires treeWidth as int + (if needsScrollbar then 2 else 1) < 0x1_0000
    ensures needsScrollbar ==>
      TreeWidth(treeWidth, true) as int == TreeWidthForRowGroups(treeWidth, true) as int == (treeWidth as int + 1) + 1
    ensures !needsScrollbar ==>
      && TreeWidth(treeWidth, false) as int == treeWidth as int + 1
      && TreeWidthForRowGroups(treeWidth, false) == treeWidth
    ensures TreeWidthForRowGroups(treeWidth, needsScrollbar) <= TreeWidth(treeWidth, needsScrollbar)
  {
  }

  // ---------------------------------------------------------------------------
  // The row-detail overlay.

  /** row_detail_lines: one "name: value" line per column that has a value,
      pairing columns and cells in order. */
  function RowDetailLines(columns: seq<string>, row: seq<string>): (lines: seq<string>)
    ensures |lines| == Min(|columns|, |row|)
    ensures forall i :: 0 <= i < |lines| ==> lines[i] == columns[i] + ": " + row[i]
  {
    if columns == [] || row == [] then []
    else [columns[0] + ": " + row[0]] + RowDetailLines(columns[1..], row[1..])
  }

  datatype DetailTitle = RowOf(number: nat, origin: string) | PlainRowDetail
  datatype DetailContent = DetailContent(lines: seq<string>, title: DetailTitle)

  /** The data set the Visualize tab shows: the filtered rows if present, else
      the sample rows. */
  function VisualizeData(s: Snapshot, sample: ParquetSampleData): ParquetSampleData {
    s.filteredSampleData.UnwrapOr(sample)
  }

  /** The lines of row `rowIdx` of `data`, or the out-of-range message. */
  function RowLines(data: ParquetSampleData, rowIdx: nat, origin: string): DetailContent {
    if rowIdx < |data.rows| then
      DetailContent(RowDetailLines(data.flattenedColumns, data.rows[rowIdx]), RowOf(rowIdx + 1, origin))
    else
      DetailContent(["Row out of range"], PlainRowDetail)
  }

  /** The content of the overlay, resolved from the active tab's label; None
      when the overlay is closed. */
  function RowDetailContent(tab: Tab, s: Snapshot, sample: ParquetSampleData): Option<DetailContent> {
    match s.rowDetailRow
    case None => None
    case Some(rowIdx) =>
      if tab.Label() == "Visualize" then
        Some(RowLines(VisualizeData(s, sample), rowIdx, "Visualize"))
      else if tab.Label() == "SQL" then
        if SqlTab.HasOkResult(s) then
          Some(RowLines(s.sqlResult.value.data, rowIdx, "SQL result"))
        else
          Some(DetailContent(["No result data"], PlainRowDetail))
      else
        Some(DetailContent(["No data"], PlainRowDetail))
  }

  /** The overlay shows the row the table it covers shows: on Visualize, the
      selected row of the filtered data when a filter is active, else of the
      sample; on the SQL tab, of the Ok result. For a rectangular data set
      and a row in range it shows one line per column; otherwise it says why
      there is nothing to show. */
  lemma RowDetailShowsCoveredRow(tab: Tab, s: Snapshot, sample: ParquetSampleData)
    requires s.Consistent() && s.rowDetailRow.Some?
    ensures var c := RowDetailContent(tab, s, sample).value;
      var i := s.rowDetailRow.value;
      && (tab == Visualize ==>
            var data := if s.searchFilter.Some? then s.filteredSampleData.value else sample;
            && (i < |data.rows| ==>
                  && c.title == RowOf(i + 1, "Visualize")
                  && (data.Rectangular() ==> |c.lines| == data.totalColumns)
                  && forall j :: 0 <= j < |c.lines| ==> c.lines[j] == data.flattenedColumns[j] + ": " + data.rows[i][j])
            && (i >= |data.rows| ==> c == DetailContent(["Row out of range"], PlainRowDetail)))
      && (tab == Sql && (s.sqlResult.None? || s.sqlResult.value.Err?) ==> c == DetailContent(["No result data"], PlainRowDetail))
      && (tab == Sql && s.sqlResult.Some? && s.sqlResult.value.Ok? ==>
            var data := s.sqlResult.value.data;
            && (i < |data.rows| ==>
                  && c.title == RowOf(i + 1, "SQL result")
                  && (data.Rectangular() ==> |c.lines| == data.totalColumns)
                  && forall j :: 0 <= j < |c.lines| ==> c.lines[j] == data.flattenedColumns[j] + ": " + data.rows[i][j])
            && (i >= |data.rows| ==> c == DetailContent(["Row out of range"], PlainRowDetail)))
      && (tab != Visualize && tab != Sql ==> c == DetailContent(["No data"], PlainRowDetail))
  {
    LabelsIdentifyTabs(tab, Visualize);
    LabelsIdentifyTabs(tab, Sql);
  }

  /** `min(offset, content.saturating_sub(viewport))`: the scroll actually
      applied, which never passes the last full screen. */
  function ClampScroll(offset: nat, content: nat, viewport: nat): (r: nat)
    ensures r <= offset && r <= SaturatingSub(content, viewport)
    ensures r == offset || r == SaturatingSub(content, viewport)
  {
    Min(offset, SaturatingSub(content, viewport))
  }

  /** The widest line, 0 for none; `width` is the display width of a line. */
  function MaxLineWidth(lines: seq<string>, width: string -> nat): (w: nat)
    ensures forall i :: 0 <= i < |lines| ==> width(lines[i]) <= w
    ensures lines == [] ==> w == 0
    ensures lines != [] ==> exists i :: 0 <= i < |lines| && w == width(lines[i])
  {
    if lines == [] then 0
    else
      var rest := MaxLineWidth(lines[1..], width);
      assert forall i :: 1 <= i < |lines| ==> lines[i] == lines[1..][i - 1];
      if width(lines[0]) >= rest then width(lines[0]) else rest
  }

  /** The (vertical, horizontal) scroll handed to the paragraph of the
      overlay: the stored detail scrolls clamped to the content, cast to u16. */
  function DetailScroll(lines: seq<string>, width: string -> nat, innerHeight: u16, innerWidth: u16,
                        detailScrollOffset: nat, detailScrollHorizontal: nat): (r: (u16, u16))
    ensures |lines| < 0x1_0000 ==>
      r.0 as int == ClampScroll(detailScrollOffset, |lines|, innerHeight as nat)
    ensures MaxLineWidth(lines, width) < 0x1_0000 ==>
      r.1 as int == ClampScroll(detailScrollHorizontal, MaxLineWidth(lines, width), innerWidth as nat)
  {
    var vertical := ClampScroll(detailScrollOffset, |lines|, innerHeight as nat);
    var horizontal := ClampScroll(detailScrollHorizontal, MaxLineWidth(lines, width), innerWidth as nat);
    (AsU16(vertical), AsU16(horizontal))
  }

  /** A stored scroll already in range is applied unchanged; one past the end
      shows the last full screen. */
  lemma ClampScrollShowsLastScreen(offset: nat, content: nat, viewport: nat)
    ensures offset <= SaturatingSub(content, viewport) ==> ClampScroll(offset, content, viewport) == offset
    ensures offset > SaturatingSub(content, viewport) ==>
      ClampScroll(offset, content, viewport) == SaturatingSub(content, viewport)
    ensures content >= viewport ==> ClampScroll(offset, content, viewport) + viewport <= content
  {
  }

  // ---------------------------------------------------------------------------
  // Precedence of what is shown.

  /** The footer beside the title. The search prompt carries its key hint;
      the filter summary is the active tab's instruction spans, a " - "
      separator when there are any, then the filtered-row count; otherwise the
      tab's own instructions are drawn. */
  datatype FooterLine =
    | SearchPrompt(prompt: string, hint: string)
    | FilterSummary(spans: seq<string>, rowsFiltered: nat)
    | TabInstructions

  /** Decimal digits of `n`, as `format!("{}", n)` writes them. */
  function NatToString(n: nat): (r: string)
    ensures |r| >= 1
    ensures forall i :: 0 <= i < |r| ==> '0' <= r[i] <= '9'
    ensures n == 0 ==> r == "0"
    ensures n >= 1 ==> r[0] != '0'
  {
    if n < 10 then ["0123456789"[n]]
    else NatToString(n / 10) + ["0123456789"[n % 10]]
  }

  /** The number a string of decimal digits denotes. */
  function DecimalValue(r: string): nat
    requires forall i :: 0 <= i < |r| ==> '0' <= r[i] <= '9'
  {
    if r == [] then 0
    else DecimalValue(r[..|r| - 1]) * 10 + (r[|r| - 1] as int - '0' as int)
  }

  /** The rendered count reads back as the count. */
  lemma {:induction false} NatToStringDenotes(n: nat)
    ensures DecimalValue(NatToString(n)) == n
  {
    var d := "0123456789"[n % 10];
    assert d as int - '0' as int == n % 10;
    if n >= 10 {
      NatToStringDenotes(n / 10);
      var p := NatToString(n / 10);
      var r := NatToString(n);
      assert r == p + [d];
      assert r[..|r| - 1] == p;
      assert DecimalValue(r) == DecimalValue(p) * 10 + n % 10;
    } else {
      assert NatToString(n) == [d];
      assert NatToString(n)[..0] == [];
    }
  }

  const SearchHint := "  Enter=filter, Esc=cancel"

  /** render_footer_view; `instructions` are the active tab's instruction
      spans. */
  function Footer(s: Snapshot, instructions: seq<string>): FooterLine {
    if s.searchMode then
      SearchPrompt("Search: " + s.searchQuery + "|", SearchHint)
    else if s.searchFilter.Some? then
      var n := if s.filteredSampleData.Some? then s.filteredSampleData.value.totalRows else 0;
      FilterSummary((if instructions == [] then [] else instructions + [" - "])
                    + [NatToString(n) + " rows filtered", " (Esc to show all)"], n)
    else
      TabInstructions
  }

  /** The footer's precedence. While a filter is active the tab's
      instructions are kept, followed by the count of the filtered rows, which
      in a consistent state is the filtered data's `total_rows`. */
  lemma FooterPrecedence(s: Snapshot, instructions: seq<string>)
    requires s.Consistent()
    ensures s.searchMode ==>
      Footer(s, instructions) == SearchPrompt("Search: " + s.searchQuery + "|", SearchHint)
    ensures !s.searchMode && s.searchFilter.Some? ==>
      && Footer(s, instructions).FilterSummary?
      && Footer(s, instructions).rowsFiltered == s.filteredSampleData.value.totalRows
      && var spans := Footer(s, instructions).spans;
         && |spans| == |instructions| + (if instructions == [] then 0 else 1) + 2
         && spans[..|instructions|] == instructions
         && (instructions != [] ==> spans[|instructions|] == " - ")
         && spans[|spans| - 2] == NatToString(s.filteredSampleData.value.totalRows) + " rows filtered"
         && spans[|spans| - 1] == " (Esc to show all)"
    ensures !s.searchMode && s.searchFilter.None? ==> Footer(s, instructions) == TabInstructions
  {
  }

  datatype MainView = RowDetailOverlay | MetadataView | SchemaView | RowGroupsView | VisualizeView | SqlView | NoView

  /** AppWidget::render: the row-detail overlay replaces the tab's view; the
      view is otherwise chosen by the tab's label. */
  function MainArea(s: Snapshot, tab: Tab): MainView {
    if s.rowDetailRow.Some? then RowDetailOverlay
    else if tab.Label() == "Metadata" then MetadataView
    else if tab.Label() == "Schema" then SchemaView
    else if tab.Label() == "Row Groups" then RowGroupsView
    else if tab.Label() == "Visualize" then VisualizeView
    else if tab.Label() == "SQL" then SqlView
    else NoView
  }

  /** The open overlay hides every tab view; with it closed each tab shows
      its own view, and the fall-through arm is never taken. */
  lemma MainAreaPrecedence(s: Snapshot, tab: Tab)
    ensures s.rowDetailRow.Some? <==> MainArea(s, tab) == RowDetailOverlay
    ensures MainArea(s, tab) != NoView
    ensures s.rowDetailRow.None? ==>
      MainArea(s, tab) == match tab
        case Metadata => MetadataView
        case Schema => SchemaView
        case RowGroups => RowGroupsView
        case Visualize => VisualizeView
        case Sql => SqlView
  {
  }

  /** The title of the Visualize table: the filtered row count while a filter
      is active. */
  function VisualizeTitle(s: Snapshot, sample: ParquetSampleData): Option<nat> {
    if s.searchFilter.Some? then Some(VisualizeData(s, sample).totalRows) else None
  }

  /** In a consistent state the Visualize tab shows the filtered data exactly
      when a filter is active, and its title counts those rows. */
  lemma VisualizeShowsFilteredWhenFiltering(s: Snapshot, sample: ParquetSampleData)
    requires s.Consistent()
    ensures s.searchFilter.Some? ==>
      && VisualizeData(s, sample) == s.filteredSampleData.value
      && VisualizeTitle(s, sample) == Some(s.filteredSampleData.value.totalRows)
    ensures s.searchFilter.None? ==> VisualizeData(s, sample) == sample && VisualizeTitle(s, sample).None?
  {
  }

  datatype SqlPanel = ResultTable(data: ParquetSampleData) | ErrorPanel(message: string) | Hint

  /** The result area of the SQL tab: the result table, the error message
      verbatim, or the hint when nothing has run. */
  function SqlResultPanel(s: Snapshot): (p: SqlPanel)
    ensures p.ErrorPanel? <==> s.sqlResult.Some? && s.sqlResult.value.Err?
    ensures p.ErrorPanel? ==> p.message == s.sqlResult.value.message
    ensures p.ResultTable? ==> s.sqlResult == Some(Ok(p.data))
    ensures p.Hint? <==> s.sqlResult.None?
  {
    match s.sqlResult
    case Some(Ok(data)) => ResultTable(data)
    case Some(Err(msg)) => ErrorPanel(msg)
    case None => Hint
  }
}
