# parqeye navigation core, modelled in Dafny

parqeye is a terminal explorer for Parquet files. It has five tabs: Metadata, Schema, Row Groups, Visualize and SQL.
This project models the part that decides what is selected and what is visible, and how a key press changes that:

- the navigation record `AppState`: cursor, scrolls, search, SQL buffer and result, and the row-detail overlay;
- the three-mode input router `App::handle_key_event`: row-detail overlay, then search entry, then normal keys;
- the SQL tab's key handler;
- the pure viewport and precedence rules inside the renderer;
- the local logic of `run_sql`: the empty-query guard, the early return on the first engine error, and the conversion of a result frame into a rectangular table of strings.

Modules, one per source file or component:

- `Options` (Options.dfy): `Option`, and a result with a string error.
- `Keys` (Keys.dfy): key codes and the Ctrl modifier.
- `SampleData` (SampleData.dfy): the result-set record and its rectangular shape.
- `FileSql` (FileSql.dfy): src/file/sql.rs.
- `State` (State.dfy): `AppState` in src/app.rs, as a class with the real fields, plus `Snapshot`, its value.
- `SqlTab` (SqlTab.dfy): src/tabs/sql.rs.
- `Tabs` (Tabs.dfy): the five tabs, their labels and tab cycling.
- `Ui` (Ui.dfy): the pure helpers of src/ui.rs.
- `App` (App.dfy): `App` and `handle_key_event` in src/app.rs.

Every method that changes the state is proved against a pure function of the old value.
`State.AppState.PageDown` ensures `Model() == old(Model()).PageDown(...)`.
`App.App.HandleKeyEvent` ensures `Model() == Step(ctx, old(Model()), key)`.
The source's promises are then proved as lemmas about those functions.

Collaborators whose code is not in this model are parameters of `App.Context`:

- the sample rows and `filter_rows`;
- the query engine's three steps (scan, execute with the scan registered as table `parquet`, collect), each of which may fail with a message;
- the key handler of the four tabs other than SQL.

That handler returns only the navigation fields (`App.Nav`). So, in this model, only the router and the SQL tab change the search and SQL fields.

Behaviour of the code worth noting, which the model keeps:

- In search entry, Ctrl+X is typed into the query as 'x'. It does not quit.
- The tree window rule (`calculate_scroll_to_show_item`) is not clamped to the number of entries.
- The SQL tab's `v` key and the row-detail overlay use the selection directly as a 0-based row index.

## Model

| member | source | states |
|---|---|---|
| `FileSql.Trim` | src/file/sql.rs:18 | `str::trim`: Unicode White_Space stripped at both ends; empty exactly for blank text (`FileSql.TrimmedEmptyIffBlank`) |
| `FileSql.TrimStartEmpty` | src/file/sql.rs:18 | stripping leading whitespace leaves nothing exactly when the text is blank |
| `FileSql.TrimEndEmpty` | src/file/sql.rs:18 | stripping trailing whitespace leaves nothing exactly when the text is blank |
| `FileSql.TrimStartHead` | src/file/sql.rs:18 | after stripping leading whitespace, the first character left is not whitespace |
| `FileSql.TrimmedEmptyIffBlank` | src/file/sql.rs:18 | `query.trim().is_empty()` holds exactly when every character is Unicode whitespace (the empty query included) |
| `FileSql.BlankQueryNeverReachesEngine` | src/file/sql.rs:18-20 | a blank query gives `Err("Empty query")` whatever the engine would do, so the engine is never consulted |
| `FileSql.RunSql` | src/file/sql.rs:17-38 | `run_sql`: a blank query is answered `Err("Empty query")`; every `Ok` holds a rectangular result set |
| `FileSql.RunSqlStopsAtFirstFailure` | src/file/sql.rs:21-34 | on a non-blank query, a failing scan, execute (after a good scan) or collect (after a good execute) ends with `Err` of that step's own message |
| `FileSql.ScanFailureSkipsLaterSteps` | src/file/sql.rs:21-24 | after a failed scan the execute and collect steps are never consulted: engines that fail the scan alike give the same answer |
| `FileSql.ExecuteFailureSkipsCollect` | src/file/sql.rs:25-30 | after a failed execute the collect step is never consulted |
| `FileSql.RunSqlErrorOrigin` | src/file/sql.rs:17-38 | every `Err` is either the blank-query message or, word for word, the message of the first engine step (scan, execute, collect) that failed |
| `FileSql.RunSqlOkIsNormalisedFrame` | src/file/sql.rs:31-37 | an `Ok` comes only from a non-blank query whose scan, execute and collect all succeeded, and holds exactly the normal form of the frame collect returned, which is rectangular |
| `FileSql.GetValueAsString` | src/file/sql.rs:64-75 | a cell as shown: "NULL" for a null value or a row the column lacks, else the value's display string (stated cell by cell in `FileSql.FrameToSampleDataShape`) |
| `FileSql.FrameToSampleData` | src/file/sql.rs:40-62 | the result set a frame converts to; its shape is stated in `FileSql.FrameToSampleDataShape` and the loops are proved equal to it in `FileSql.DataframeToSampleData` |
| `FileSql.DataframeToSampleData` | src/file/sql.rs:40-62 | the nested loops return `Ok` with exactly the normal form of the frame: one row per frame row, one cell per column |
| `FileSql.FrameToSampleDataShape` | src/file/sql.rs:41-75 | normal form: total_columns = number of columns, total_rows = frame height = number of rows, every row has total_columns cells, names kept in frame order, a cell is the value's display string, or "NULL" for a null or missing value |
| `State.Pop` | src/app.rs:292 | `String::pop`: the empty string stays empty, otherwise the last character is removed |
| `State.VisibleDataRows` | src/app.rs:215 | exactly max(1, height − 7): one row for a terminal of 8 lines or fewer, the height minus 7 from 8 lines up |
| `State.PageDownOffset` | src/app.rs:169-170 | page-down selection moves exactly one page when that stays at or before max_rows − 1, and is clamped to exactly max_rows − 1 (0 for no rows) otherwise; it never passes that row, and never moves up from a row at or before max_rows − 1 |
| `State.PageUpOffset` | src/app.rs:162 | page-up selection moves up exactly one page, or stops at 0 |
| `State.AdjustScroll` | src/app.rs:175-188 | the data window start is at most max_rows − visible (saturating); when v < max_rows and visible ≥ 1 the window contains v; a window that already contains v and is in range is kept; a selection above the window moves it to min(v, max_rows − visible), even with no visible row; a selection past the last row, not already shown in range, gives the last window max_rows − visible |
| `State.AdjustScrollMovesLeast` | src/app.rs:177-187 | of all in-range windows that show the selection, the chosen one is nearest to the current window: a selection above moves the window up to it, one below moves it just far enough down |
| `State.PageDownThenUpRestores` | src/app.rs:160-173 | page down then page up with the same arguments restores the selection when v + visible ≤ max_rows − 1 |
| `State.FivePageDownsFromInitial` | src/app.rs:77-94 | from a new state, five `page_down(10, 100)` give selection 50 and window start 41 |
| `State.RunLoopPagingIsDefined` | src/app.rs:182 | with the visible-row count the run loop computes, paging never reaches the `visible_rows - 1` underflow |
| `State.Snapshot.Reset` | src/app.rs:96-101 | reset zeroes the four base offsets; the search, SQL, overlay and visible-rows fields are kept, and so are both invariants |
| `State.Snapshot.ClearSearchFilter` | src/app.rs:103-106 | the filter and the filtered data are cleared together and nothing else changes |
| `State.Snapshot.Down` | src/app.rs:116-118 | only the selection changes, by exactly +1, with no upper clamp |
| `State.Snapshot.Up` | src/app.rs:120-122 | only the selection changes: −1, saturating at 0 |
| `State.Snapshot.Right` | src/app.rs:124-126 | only the horizontal offset changes, by exactly +1 |
| `State.Snapshot.Left` | src/app.rs:128-130 | only the horizontal offset changes: −1, saturating at 0 |
| `State.Snapshot.TreeScrollUp` | src/app.rs:136-138 | only the tree scroll changes: −1, saturating at 0 |
| `State.Snapshot.TreeScrollDown` | src/app.rs:140-142 | only the tree scroll changes, by exactly +1 |
| `State.Snapshot.AdjustScrollToSelection` | src/app.rs:175-188 | only the data scroll changes, to the window `AdjustScroll` chooses; it stays within range, shows the selection when the selection is a row, and is kept when the selection is already shown in an in-range window |
| `State.Snapshot.PageUp` | src/app.rs:160-165 | only the selection and the data scroll change: the page-up selection, then the adjusted window |
| `State.Snapshot.PageDown` | src/app.rs:167-173 | only the selection and the data scroll change: the page-down selection, then the adjusted window |
| `State.AppState.constructor` | src/app.rs:77-94 | `AppState::new`: every offset 0, 20 visible rows, no search, filter, SQL text, result or overlay; both invariants hold |
| `State.AppState.Reset` | src/app.rs:96-101 | the new value is the old value reset |
| `State.AppState.ClearSearchFilter` | src/app.rs:103-106 | the new value is the old value with the filter cleared |
| `State.AppState.Down` | src/app.rs:116-118 | in-place `down` |
| `State.AppState.Up` | src/app.rs:120-122 | in-place `up` |
| `State.AppState.Right` | src/app.rs:124-126 | in-place `right` |
| `State.AppState.Left` | src/app.rs:128-130 | in-place `left` |
| `State.AppState.TreeScrollUp` | src/app.rs:136-138 | in-place `tree_scroll_up` |
| `State.AppState.TreeScrollDown` | src/app.rs:140-142 | in-place `tree_scroll_down` |
| `State.AppState.SetDataVerticalScroll` | src/app.rs:148-150 | sets the data scroll and nothing else |
| `State.AppState.SetVisibleDataRows` | src/app.rs:156-158 | sets the visible-row count and nothing else |
| `State.AppState.PageUp` | src/app.rs:160-165 | in-place `page_up`; requires that its adjust step cannot underflow |
| `State.AppState.PageDown` | src/app.rs:167-173 | in-place `page_down`; requires that its adjust step cannot underflow |
| `State.AppState.AdjustScrollToSelection` | src/app.rs:175-188 | in-place adjust; requires visible ≥ 1 unless the selection is above the window (the `visible_rows - 1` underflow) |
| `SqlTab.OnEventModel` | src/tabs/sql.rs:24-42 | only the SQL text and the overlay fields can change; the overlay changes only by opening on the selected row, only by 'v'/'V' and only over an `Ok` result; the text loses its last character, gains the typed one, or stays; outside search mode both invariants are kept |
| `SqlTab.BackspacePopsQuery` | src/tabs/sql.rs:26-28 | Backspace removes the last character of the SQL text and changes nothing else; empty text stays empty |
| `SqlTab.DetailKeyOpensOverlayOnlyOverOk` | src/tabs/sql.rs:29-35 | 'v'/'V' over an `Ok` result opens the overlay at the selection with both detail scrolls at 0; otherwise it changes nothing; it is never typed into the SQL text |
| `SqlTab.OtherCharAppended` | src/tabs/sql.rs:36-38 | any other character is appended to the SQL text |
| `SqlTab.OtherKeysInert` | src/tabs/sql.rs:39 | any other key leaves the state unchanged |
| `SqlTab.OnEvent` | src/tabs/sql.rs:24-42 | changes the state as `OnEventModel` says and always returns `Ok` |
| `SqlTab.ToString` | src/tabs/sql.rs:57-59 | the SQL tab's label "SQL"; that it identifies the SQL tab is `Tabs.LabelsIdentifyTabs` |
| `Tabs.Tab.Label` | src/tabs/sql.rs:57-59 | each tab's `to_string`, the SQL one taken from `SqlTab.ToString`; distinct per tab (`Tabs.LabelsIdentifyTabs`) |
| `Tabs.Tab.Next` | src/app.rs:327-330 | the tab Tab moves to, wrapping from SQL to Metadata; undone by `Prev` (`Tabs.NextPrevInverse`) |
| `Tabs.Tab.Prev` | src/app.rs:331-334 | the tab BackTab moves to, wrapping from Metadata to SQL; undone by `Next` (`Tabs.NextPrevInverse`) |
| `Tabs.LabelsIdentifyTabs` | src/tabs/sql.rs:57-59 | tab labels are distinct, so a label equal to "SQL" (the SQL tab's `to_string`) means exactly the SQL tab |
| `Tabs.NextPrevInverse` | src/app.rs:327-334 | BackTab undoes Tab and vice versa |
| `Ui.AsU16` | src/ui.rs:422 | the `as u16` cast keeps values below 2^16 unchanged |
| `Ui.CountPrimitivesAppend` | src/ui.rs:35-45 | the number of primitive entries in a concatenation is the sum of the numbers in its parts |
| `Ui.PrimitivesFrom` | src/ui.rs:35-45 | the primitive-to-schema map holds in-range indices of primitive entries, strictly increasing |
| `Ui.PrimitivesFromLength` | src/ui.rs:35-45 | the primitive-to-schema map has one element per primitive entry |
| `Ui.PrimitivesFromComplete` | src/ui.rs:35-45 | the map holds the index of every primitive entry |
| `Ui.PrimitivesFromRank` | src/ui.rs:35-45 | the map's i-th element has exactly i primitive entries before it |
| `Ui.SelectedTreeIndex` | src/ui.rs:30-48 | selection 0 gives None; selection k ≥ 1 gives the schema index of the k-th primitive, or None exactly when there are fewer than k primitives |
| `Ui.SelectedTreeIndexIncreasing` | src/ui.rs:47 | a larger selection, if it resolves, resolves to a later schema index, and every smaller positive selection resolves too |
| `Ui.ScrollToShowItem` | src/ui.rs:51-70 | None keeps the scroll; for Some(idx) with visible ≥ 1 the result r satisfies r ≤ idx < r + visible; an item already visible keeps the scroll; there is no clamp against the total; an item above the window becomes its start, even with no visible item |
| `Ui.ScrollToShowItemMovesLeast` | src/ui.rs:57-67 | of all windows that show the item, the chosen one is nearest to the current window |
| `Ui.ScrollToShowItemExample` | src/ui.rs:62-63 | item 9, scroll 0, 5 visible gives a window start of 5 |
| `Ui.ShortPanelUnderflows` | src/ui.rs:63 | a panel of height ≤ 2 leaves 0 items visible (`height.saturating_sub(2)`), and then a selected item at or below the window start breaks the `visible_items - 1` precondition |
| `Ui.VisibleTreeItems` | src/ui.rs:196 | a tree panel of h lines shows h − 2 entries (two lines of border), 0 for h ≤ 2, and the count fits in u16 |
| `Ui.AdjustedScrollOffset` | src/ui.rs:73-81 | the tree window for the current selection: kept when nothing is selected, and contains the selected entry when at least one is visible |
| `Ui.TreeWidth` | src/ui.rs:84-90 | the schema tree width: +2 with a scrollbar, +1 without; defined exactly where the u16 addition does not overflow (stated in `Ui.TreeWidthsAgreeWithLayout`) |
| `Ui.TreeWidthForRowGroups` | src/ui.rs:93-99 | the row-groups tree width: +2 with a scrollbar, unchanged without; only the scrollbar case can overflow (stated in `Ui.TreeWidthsAgreeWithLayout`) |
| `Ui.TreeWidthsAgreeWithLayout` | src/ui.rs:84-99 | with a scrollbar both widths are tree_width + 2, which is the tree area (+1) plus the 1-column scrollbar laid out at line 115; without one the schema view is tree_width + 1 and the row-groups view tree_width |
| `Ui.RowDetailLines` | src/ui.rs:431-437 | min(number of columns, row length) lines; line i is "columns[i]: row[i]" |
| `Ui.VisualizeData` | src/ui.rs:277-282 | the data Visualize and its overlay show: the filtered rows if present, else the sample (`Ui.VisualizeShowsFilteredWhenFiltering`) |
| `Ui.RowLines` | src/ui.rs:371-380 | a row in range gives its "name: value" lines and the title "Row N" with N one more than the index; past the end, "Row out of range" under the plain "Row detail" title (stated in `Ui.RowDetailShowsCoveredRow`) |
| `Ui.RowDetailContent` | src/ui.rs:360-405 | the overlay's lines and title, chosen by the active tab's label (stated in `Ui.RowDetailShowsCoveredRow`) |
| `Ui.RowDetailShowsCoveredRow` | src/ui.rs:360-405 | the overlay shows the selected row of the table it covers: on Visualize, the filtered data when a filter is active, else the sample; on SQL, the `Ok` result. In range, on both tabs, the title is "Row N (Visualize)" or "Row N (SQL result)" with N = index + 1, line j is "name_j: cell_j", and a rectangular set gives one line per column. A row past the end gives "Row out of range", SQL without `Ok` gives "No result data" and other tabs give "No data", each alone under the plain "Row detail" title |
| `Ui.ClampScroll` | src/ui.rs:418-425 | the applied scroll is at most the stored one and at most content − viewport (saturating), and is one of the two |
| `Ui.ClampScrollShowsLastScreen` | src/ui.rs:418-425 | a stored scroll already in range is applied unchanged; one past the end shows the last full screen |
| `Ui.MaxLineWidth` | src/ui.rs:423 | the widest line's width: at least every line's width, equal to one of them, 0 for no lines |
| `Ui.DetailScroll` | src/ui.rs:418-425 | the (vertical, horizontal) paragraph scroll is the clamp of the two detail scrolls against the line count and the widest line, when these fit in u16 |
| `Ui.NatToString` | src/ui.rs:179 | the decimal digits `format!` writes for the filtered-row count: "0" for zero, no leading zero otherwise, and read back they denote the count (`Ui.NatToStringDenotes`) |
| `Ui.NatToStringDenotes` | src/ui.rs:179 | the rendered count reads back as the count |
| `Ui.Footer` | src/ui.rs:153-186 | the footer line, chosen by search mode and the filter (stated in `Ui.FooterPrecedence`) |
| `Ui.FooterPrecedence` | src/ui.rs:158-185 | while searching, the prompt "Search: <query>\|" with its key hint; else, while a filter is active, the active tab's instruction spans, " - " when there are any, then "<n> rows filtered" and " (Esc to show all)", where n is the filtered data's `total_rows`; else the tab's instructions |
| `Ui.MainArea` | src/ui.rs:454-465 | which view fills the main area (stated in `Ui.MainAreaPrecedence`) |
| `Ui.MainAreaPrecedence` | src/ui.rs:454-465 | an open overlay replaces every tab view; otherwise each tab gets its own view, and the fall-through arm is never reached |
| `Ui.VisualizeTitle` | src/ui.rs:287-292 | the row count in the Visualize title, present only while a filter is active (stated in `Ui.VisualizeShowsFilteredWhenFiltering`) |
| `Ui.VisualizeShowsFilteredWhenFiltering` | src/ui.rs:276-292 | Visualize shows `filtered_sample_data` when a filter is active, and its title counts those rows; otherwise it shows the sample data with no title count |
| `Ui.SqlResultPanel` | src/ui.rs:322-357 | the SQL result area shows a table for `Ok`, the error message unchanged for `Err`, and the hint when no query has run |
| `App.DetailStep` | src/app.rs:237-274 | the overlay's keys on values (stated in `App.OverlayCapturesInput`) |
| `App.SearchStep` | src/app.rs:277-300 | the search-entry keys on values (stated in `App.SearchEntryCapturesInput`) |
| `App.TabOnEvent` | src/app.rs:335-340 | the active tab's handler: the SQL tab's `on_event`, or another tab's navigation update; every key normal mode does not claim reaches it (`App.UnclaimedKeyGoesToTab`, `App.SqlTabKeysReachTab`, `App.OverlayOpensOnlyFromTab`) |
| `App.NormalStep` | src/app.rs:302-341 | the normal-mode keys on values, in the source's arm order (stated in `App.NormalEscPriority`, `App.SlashStartsSearch`, `App.SqlEnterRunsQuery`, `App.TabSwitchResets`, `App.NormalQuitExits`, and the fall-through in `App.UnclaimedKeyGoesToTab`) |
| `App.Step` | src/app.rs:235-342 | `handle_key_event` on values: the overlay first, then search entry, then normal mode (its invariant is `App.StepKeepsConsistent`) |
| `App.StepKeepsConsistent` | src/app.rs:235-342 | every key keeps both invariants: filter present ⇔ filtered data present, and never search entry and the overlay together |
| `App.OverlayCapturesInput` | src/app.rs:237-274 | with the overlay open, only Esc, ↑/↓ (±1, saturating), PgUp/PgDn (±10), ←/→ (±1) and Ctrl+X do anything. Esc only closes the overlay; ↑/↓/PgUp/PgDn change only the vertical detail scroll and ←/→ only the horizontal one; only Ctrl+X sets the quit flag. Offsets, search and SQL fields and the tab are unchanged |
| `App.SearchEntryCapturesInput` | src/app.rs:277-300 | in search entry, characters (even with Ctrl held) are appended and Backspace pops. Esc leaves search and clears the text, leaving the filter alone. Enter sets the filter and the filtered data together, resets the four offsets and leaves search, keeping every other field (the search text included). Other keys do nothing. The tab and the quit flag never change |
| `App.NormalEscPriority` | src/app.rs:308-318 | Esc clears the filter and its data and resets the offsets, changing nothing else; else, on the SQL tab, clears the SQL text and result; else resets the offsets |
| `App.SlashStartsSearch` | src/app.rs:319-322 | '/' in normal mode enters search with an empty text and changes nothing else |
| `App.TabSwitchResets` | src/app.rs:327-334 | Tab/BackTab move to the next/previous tab and reset the offsets; the search, SQL, overlay and visible-row fields and the quit flag are unchanged |
| `App.SqlEnterRunsQuery` | src/app.rs:323-326 | Enter on the SQL tab stores the result of running the SQL text and changes nothing else (tab, quit flag and every other field kept); blank text stores `Err("Empty query")` |
| `App.NormalQuitExits` | src/app.rs:303-307 | Ctrl+X in normal mode sets the quit flag and changes nothing else |
| `App.UnclaimedKeyGoesToTab` | src/app.rs:335-340 | in normal mode, every key other than Ctrl+X, Esc, '/', Enter on the SQL tab, Tab and BackTab is handed to the active tab's handler, and only its state change is applied |
| `App.SqlTabKeysReachTab` | src/app.rs:335-340 | on the SQL tab in normal mode, 'v'/'V' over an `Ok` result opens the overlay on the selected row with both detail scrolls at 0, and any other character except 'x' with Ctrl and '/' is appended to the SQL text |
| `App.OverlayOpensOnlyFromTab` | src/app.rs:335-340 | the overlay opens only in normal mode, through the active tab's handler; on the SQL tab only by 'v'/'V' over an `Ok` result |
| `App.OtherTabOnEvent` | src/app.rs:335-340 | another tab's handler writes back only the navigation fields it returns |
| `App.App.constructor` | src/app.rs:192-208 | a new app starts on the first tab with a new state, not exiting |
| `App.App.Exit` | src/app.rs:344-346 | sets the quit flag and nothing else |
| `App.App.HandleKeyEvent` | src/app.rs:235-342 | the new app value is the router step applied to the old value and the key; both invariants are kept |
| `App.App.HandleDetailKey` | src/app.rs:237-274 | in-place overlay keys |
| `App.App.HandleSearchKey` | src/app.rs:277-300 | in-place search-entry keys |
| `App.App.HandleNormalKey` | src/app.rs:302-341 | in-place normal-mode keys, tried in the source's order |

## Left out

- Drawing: ratatui blocks, layouts, paragraphs and widgets, the component renderers, and the cursor cell written by the SQL view. These only paint the terminal.
- The run loop, `event::read`, `terminal.size()` and the filter to key-press events (src/app.rs:210-233). These are blocking I/O. Only the visible-row formula is kept, as `State.VisibleDataRows`.
- The polars engine (`scan_parquet`, `SQLContext`, `collect`) and `AnyValue`'s display. The engine is three caller-supplied functions; a cell is `Null` or a value with an opaque display string.
- `filter_rows`, `ParquetCtx` construction and the key handlers of the Metadata, Schema, Row Groups and Visualize tabs. Their sources are not part of this model. They are parameters, and those handlers can write only the navigation fields.
- `TabManager`: its source is not part of this model. The model assumes it starts on Metadata and that next/prev cycle through the five tabs in order.
- The `.unwrap()` on a tab handler's result (src/app.rs:339). The SQL tab always returns `Ok`; the other handlers are not shown, so a panic on their `Err` is not modelled.
- The unchecked indexing of row groups and column metadata in the row-groups view (src/ui.rs:261-262). Its bounds depend on tab handlers that are not shown.
- Display width of a line (`Line::width`): a caller-supplied function in `Ui.MaxLineWidth`.
- The overlay titles ("Row N (Visualize)", "Row N (SQL result)", "Row detail"): kept as a structure (row number and origin, or the plain title), not as formatted strings.
- Lifetimes and borrowing in `AppRenderView`: they have no behaviour.
- State.Snapshot.Down: `usize` offsets are unbounded `nat`s, so the overflow of `+= 1`, `+= 10` and `+ visible_rows` at 2^64 is not modelled (this also applies to Right, TreeScrollDown and the overlay keys).
- State.AdjustScroll: `visible_rows - 1` at src/app.rs:182 (and `visible_items - 1` at src/ui.rs:63) is a precondition, as in a debug build where the underflow panics. A release build would wrap instead, which is not modelled.
- Ui.TreeWidth: each u16 addition is a precondition of its own branch (tree_width + 2 or + 1 below 2^16; none for the row-groups view without a scrollbar), as in a debug build where overflow panics. A release build would wrap instead, which is not modelled. The u16 truncation of `schema.tree_width()` happens before these functions and is not modelled.
- Ui.Footer: the tab's instruction spans are a parameter (the other tabs' `instructions` are not part of this model), spans are plain strings without their colours, and the title beside the footer is not modelled.
