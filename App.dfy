/** The application (src/app.rs, `App`): the active tab, the quit flag and
    the navigation state, and the input router `handle_key_event`. The router
    has three modes, tried in order: the row-detail overlay, search entry, and
    normal navigation, where a key the router does not claim goes to the
    active tab.

    Collaborators whose code is not part of this model are parameters of a
    `Context`: the file's sample rows and `filter_rows`, the query engine, and
    the key handler of the four tabs other than SQL. Those handlers may only
    move the cursor, the scrolls and the row-detail overlay (the `Nav`
    fields). */
module App {
  import opened Options
  import opened Keys
  import opened SampleData
  import opened FileSql
  import opened State
  import SqlTab
  import T = Tabs

  /** The fields a tab's key handler may write. */
  datatype Nav = Nav(
    horizontalOffset: nat,
    verticalOffset: nat,
    treeScrollOffset: nat,
    dataVerticalScroll: nat,
    rowDetailRow: Option<nat>,
    detailScrollOffset: nat,
    detailScrollHorizontal: nat)

  function WithNav(s: Snapshot, n: Nav): Snapshot {
    s.(horizontalOffset := n.horizontalOffset, verticalOffset := n.verticalOffset,
       treeScrollOffset := n.treeScrollOffset, dataVerticalScroll := n.dataVerticalScroll,
       rowDetailRow := n.rowDetailRow, detailScrollOffset := n.detailScrollOffset,
       detailScrollHorizontal := n.detailScrollHorizontal)
  }

  datatype Context<!L> = Context(
    filePath: string,
    sampleData: ParquetSampleData,
    filterRows: (ParquetSampleData, string) -> ParquetSampleData,
    engine: Engine<L>,
    otherTabOnEvent: (T.Tab, KeyEvent, Snapshot) -> Nav)

  /** Lines moved by PageUp and PageDown in the row-detail overlay. */
  const DetailPageSize: nat := 10

  /** The value of the application: active tab, navigation state, quit flag. */
  datatype AppModel = AppModel(tab: T.Tab, state: Snapshot, exit: bool)

  // ---------------------------------------------------------------------------
  // The router on values.

  /** A key while the row-detail overlay is open. */
  function DetailStep(m: AppModel, key: KeyEvent): AppModel {
    var s := m.state;
    match key.code
    case Esc => m.(state := s.(rowDetailRow := None))
    case Up => m.(state := s.(detailScrollOffset := SaturatingSub(s.detailScrollOffset, 1)))
    case Down => m.(state := s.(detailScrollOffset := s.detailScrollOffset + 1))
    case PageUp => m.(state := s.(detailScrollOffset := SaturatingSub(s.detailScrollOffset, DetailPageSize)))
    case PageDown => m.(state := s.(detailScrollOffset := s.detailScrollOffset + DetailPageSize))
    case Left => m.(state := s.(detailScrollHorizontal := SaturatingSub(s.detailScrollHorizontal, 1)))
    case Right => m.(state := s.(detailScrollHorizontal := s.detailScrollHorizontal + 1))
    case _ => if key.IsQuit() then m.(exit := true) else m
  }

  /** A key while a search query is being typed. */
  function SearchStep<L>(ctx: Context<L>, s: Snapshot, key: KeyEvent): Snapshot {
    match key.code
    case Esc => s.(searchMode := false, searchQuery := "")
    case Enter =>
      var query := s.searchQuery;
      var filtered := ctx.filterRows(ctx.sampleData, query);
      s.(searchFilter := Some(query), filteredSampleData := Some(filtered)).Reset().(searchMode := false)
    case Backspace => s.(searchQuery := Pop(s.searchQuery))
    case Char(c) => s.(searchQuery := s.searchQuery + [c])
    case _ => s
  }

  /** The active tab's on_event. */
  function TabOnEvent<L>(ctx: Context<L>, tab: T.Tab, s: Snapshot, key: KeyEvent): Snapshot {
    if tab == T.Sql then SqlTab.OnEventModel(s, key)
    else WithNav(s, ctx.otherTabOnEvent(tab, key, s))
  }

  /** A key in normal mode, the arms tried in the source's order. */
  function NormalStep<L>(ctx: Context<L>, m: AppModel, key: KeyEvent): AppModel {
    var s := m.state;
    if key.IsQuit() then
      m.(exit := true)
    else if key.code == Esc then
      if s.searchFilter.Some? then m.(state := s.ClearSearchFilter().Reset())
      else if m.tab.Label() == "SQL" then m.(state := s.(sqlQuery := "", sqlResult := None))
      else m.(state := s.Reset())
    else if key.code == Char('/') then
      m.(state := s.(searchMode := true, searchQuery := ""))
    else if key.code == Enter && m.tab.Label() == "SQL" then
      m.(state := s.(sqlResult := Some(RunSql(ctx.filePath, s.sqlQuery, ctx.engine))))
    else if key.code == KeyCode.Tab then
      m.(tab := m.tab.Next(), state := s.Reset())
    else if key.code == BackTab then
      m.(tab := m.tab.Prev(), state := s.Reset())
    else
      m.(state := TabOnEvent(ctx, m.tab, s, key))
  }

  /** handle_key_event on values. */
  function Step<L>(ctx: Context<L>, m: AppModel, key: KeyEvent): AppModel {
    if m.state.rowDetailRow.Some? then DetailStep(m, key)
    else if m.state.searchMode then m.(state := SearchStep(ctx, m.state, key))
    else NormalStep(ctx, m, key)
  }

  // ---------------------------------------------------------------------------
  // Properties of the router.

  /** Every key keeps both invariants: filter present exactly when filtered
      data is, and search entry never together with the overlay. */
  lemma StepKeepsConsistent<L>(ctx: Context<L>, m: AppModel, key: KeyEvent)
    requires m.state.Consistent()
    ensures Step(ctx, m, key).state.Consistent()
  {
    if m.state.rowDetailRow.None? && !m.state.searchMode && !key.IsQuit() && key.code != Esc
       && key.code != Char('/') && !(key.code == Enter && m.tab.Label() == "SQL")
       && key.code != KeyCode.Tab && key.code != BackTab
    {
      assert Step(ctx, m, key).state == TabOnEvent(ctx, m.tab, m.state, key);
    }
  }

  /** While the overlay is open, only Esc, the arrows, PgUp/PgDn and Ctrl+X
      do anything; they touch the overlay's own fields (or the quit flag)
      and nothing else. */
  lemma OverlayCapturesInput<L>(ctx: Context<L>, m: AppModel, key: KeyEvent)
    requires m.state.rowDetailRow.Some?
    ensures var t := Step(ctx, m, key);
      && t.tab == m.tab
      && t.state == m.state.(rowDetailRow := t.state.rowDetailRow, detailScrollOffset := t.state.detailScrollOffset,
                             detailScrollHorizontal := t.state.detailScrollHorizontal)
      && (key.code == Esc ==> t.state.rowDetailRow.None? && t.exit == m.exit)
      && (key.code != Esc ==> t.state.rowDetailRow == m.state.rowDetailRow)
      && (key.code == Esc ==> t == m.(state := m.state.(rowDetailRow := None)))
      && (key.code in {Up, Down, PageUp, PageDown} ==>
            t.state == m.state.(detailScrollOffset := t.state.detailScrollOffset))
      && (key.code in {Left, Right} ==>
            t.state == m.state.(detailScrollHorizontal := t.state.detailScrollHorizontal))
      && (key.code == Up ==> t.state.detailScrollOffset == SaturatingSub(m.state.detailScrollOffset, 1))
      && (key.code == Down ==> t.state.detailScrollOffset == m.state.detailScrollOffset + 1)
      && (key.code == PageUp ==> t.state.detailScrollOffset == SaturatingSub(m.state.detailScrollOffset, 10))
      && (key.code == PageDown ==> t.state.detailScrollOffset == m.state.detailScrollOffset + 10)
      && (key.code == Left ==> t.state.detailScrollHorizontal == SaturatingSub(m.state.detailScrollHorizontal, 1))
      && (key.code == Right ==> t.state.detailScrollHorizontal == m.state.detailScrollHorizontal + 1)
      && (key.IsQuit() ==> t == m.(exit := true))
      && (!key.IsQuit() ==> t.exit == m.exit)
      && (key.code !in {Esc, Up, Down, PageUp, PageDown, Left, Right} && !key.IsQuit() ==> t == m)
  {
  }

  /** In search entry every key stays in the search fields: characters (even
      with Ctrl held) are typed, Backspace erases, Esc cancels without
      touching the filter, and Enter applies the query as filter and filtered
      data together and resets the offsets. */
  lemma SearchEntryCapturesInput<L>(ctx: Context<L>, m: AppModel, key: KeyEvent)
    requires m.state.rowDetailRow.None? && m.state.searchMode
    ensures var t := Step(ctx, m, key);
      var s := m.state;
      && t.tab == m.tab && t.exit == m.exit
      && t.state.rowDetailRow.None?
      && (key.code.Char? ==> t.state == s.(searchQuery := s.searchQuery + [key.code.ch]))
      && (key.code == Backspace ==> t.state == s.(searchQuery := Pop(s.searchQuery)))
      && (key.code == Esc ==> t.state == s.(searchMode := false, searchQuery := ""))
      && (key.code == Enter ==>
            t.state == s.(searchFilter := Some(s.searchQuery),
                          filteredSampleData := Some(ctx.filterRows(ctx.sampleData, s.searchQuery)),
                          searchMode := false,
                          horizontalOffset := 0, verticalOffset := 0, treeScrollOffset := 0, dataVerticalScroll := 0))
      && (!key.code.Char? && key.code !in {Backspace, Esc, Enter} ==> t == m)
  {
  }

  /** Esc in normal mode: first clears the filter (with its data) and resets
      the offsets; else, on the SQL tab, clears the query and its result;
      else resets the offsets. */
  lemma NormalEscPriority<L>(ctx: Context<L>, m: AppModel, key: KeyEvent)
    requires m.state.rowDetailRow.None? && !m.state.searchMode
    requires key.code == Esc
    ensures var t := Step(ctx, m, key);
      var s := m.state;
      && t.tab == m.tab && t.exit == m.exit
      && (s.searchFilter.Some? ==>
            t.state == s.(searchFilter := None, filteredSampleData := None,
                          horizontalOffset := 0, verticalOffset := 0, treeScrollOffset := 0, dataVerticalScroll := 0))
      && (s.searchFilter.None? && m.tab == T.Sql ==> t.state == s.(sqlQuery := "", sqlResult := None))
      && (s.searchFilter.None? && m.tab != T.Sql ==> t.state == s.Reset())
  {
    T.LabelsIdentifyTabs(m.tab, T.Sql);
  }

  /** '/' in normal mode opens search entry with an empty buffer (the
      overlay is necessarily closed). */
  lemma SlashStartsSearch<L>(ctx: Context<L>, m: AppModel, key: KeyEvent)
    requires m.state.rowDetailRow.None? && !m.state.searchMode
    requires key.code == Char('/')
    ensures Step(ctx, m, key) == m.(state := m.state.(searchMode := true, searchQuery := ""))
  {
  }

  /** Ctrl+X in normal mode only sets the quit flag. */
  lemma NormalQuitExits<L>(ctx: Context<L>, m: AppModel, key: KeyEvent)
    requires m.state.rowDetailRow.None? && !m.state.searchMode
    requires key.IsQuit()
    ensures Step(ctx, m, key) == m.(exit := true)
  {
  }

  /** Tab and BackTab cycle the active tab and always reset the offsets,
      leaving the other fields alone. */
  lemma TabSwitchResets<L>(ctx: Context<L>, m: AppModel, key: KeyEvent)
    requires m.state.rowDetailRow.None? && !m.state.searchMode
    requires key.code == KeyCode.Tab || key.code == BackTab
    ensures Step(ctx, m, key)
      == m.(tab := if key.code == KeyCode.Tab then m.tab.Next() else m.tab.Prev(),
            state := m.state.(horizontalOffset := 0, verticalOffset := 0, treeScrollOffset := 0, dataVerticalScroll := 0))
  {
  }

  /** Enter on the SQL tab runs the buffer as a query; a blank buffer is
      answered "Empty query" without consulting the engine. */
  lemma SqlEnterRunsQuery<L>(ctx: Context<L>, m: AppModel, key: KeyEvent)
    requires m.state.rowDetailRow.None? && !m.state.searchMode
    requires key.code == Enter && m.tab == T.Sql
    ensures var t := Step(ctx, m, key);
      && t == m.(state := m.state.(sqlResult := Some(RunSql(ctx.filePath, m.state.sqlQuery, ctx.engine))))
      && (IsBlank(m.state.sqlQuery) ==> t.state.sqlResult == Some(Err(EmptyQueryMessage)))
  {
    TrimmedEmptyIffBlank(m.state.sqlQuery);
  }

  /** Every key normal mode does not claim itself goes to the active tab's
      handler. */
  lemma UnclaimedKeyGoesToTab<L>(ctx: Context<L>, m: AppModel, key: KeyEvent)
    requires m.state.rowDetailRow.None? && !m.state.searchMode
    requires !key.IsQuit() && key.code != Esc && key.code != Char('/')
    requires !(key.code == Enter && m.tab == T.Sql) && key.code != KeyCode.Tab && key.code != BackTab
    ensures Step(ctx, m, key) == m.(state := TabOnEvent(ctx, m.tab, m.state, key))
  {
    T.LabelsIdentifyTabs(m.tab, T.Sql);
  }

  /** On the SQL tab in normal mode, 'v' over an Ok result opens the overlay
      on the selected row, and any other character is typed into the query. */
  lemma SqlTabKeysReachTab<L>(ctx: Context<L>, m: AppModel, key: KeyEvent)
    requires m.state.rowDetailRow.None? && !m.state.searchMode && m.tab == T.Sql
    ensures SqlTab.IsDetailKey(key) && SqlTab.HasOkResult(m.state) ==>
      Step(ctx, m, key).state
      == m.state.(rowDetailRow := Some(m.state.verticalOffset), detailScrollOffset := 0, detailScrollHorizontal := 0)
    ensures key.code.Char? && !SqlTab.IsDetailKey(key) && !key.IsQuit() && key.code != Char('/') ==>
      Step(ctx, m, key).state == m.state.(sqlQuery := m.state.sqlQuery + [key.code.ch])
  {
    T.LabelsIdentifyTabs(m.tab, T.Sql);
  }

  /** The overlay opens only from normal mode, by a key the router hands to
      the active tab; on the SQL tab, only by 'v' over an Ok result. */
  lemma OverlayOpensOnlyFromTab<L>(ctx: Context<L>, m: AppModel, key: KeyEvent)
    requires m.state.rowDetailRow.None? && Step(ctx, m, key).state.rowDetailRow.Some?
    ensures !m.state.searchMode
    ensures Step(ctx, m, key) == m.(state := TabOnEvent(ctx, m.tab, m.state, key))
    ensures m.tab == T.Sql ==> SqlTab.IsDetailKey(key) && SqlTab.HasOkResult(m.state)
  {
    T.LabelsIdentifyTabs(m.tab, T.Sql);
  }

  // ---------------------------------------------------------------------------
  // The mutable application.

  /** The key handler of a tab other than SQL writes the navigation fields. */
  method OtherTabOnEvent<L>(ctx: Context<L>, tab: T.Tab, key: KeyEvent, state: AppState)
    modifies state
    ensures state.Model() == WithNav(old(state.Model()), ctx.otherTabOnEvent(tab, key, old(state.Model())))
  {
    var n := ctx.otherTabOnEvent(tab, key, state.Model());
    state.horizontalOffset := n.horizontalOffset;
    state.verticalOffset := n.verticalOffset;
    state.treeScrollOffset := n.treeScrollOffset;
    state.dataVerticalScroll := n.dataVerticalScroll;
    state.rowDetailRow := n.rowDetailRow;
    state.detailScrollOffset := n.detailScrollOffset;
    state.detailScrollHorizontal := n.detailScrollHorizontal;
  }

  class App<L> {
    const ctx: Context<L>
    var tab: T.Tab
    var exit: bool
    const state: AppState

    function Model(): AppModel
      reads this, state
    {
      AppModel(tab, state.Model(), exit)
    }

    predicate Valid()
      reads this, state
    {
      state.Valid()
    }

    /** App::new: a fresh state on the first tab, not exiting. */
    constructor (ctx: Context<L>)
      ensures this.ctx == ctx && fresh(state)
      ensures Model() == AppModel(T.Metadata, Initial, false) && Valid()
    {
      this.ctx := ctx;
      tab := T.Metadata;
      exit := false;
      state := new AppState();
    }

    method Exit()
      modifies this
      ensures exit && tab == old(tab)
    {
      exit := true;
    }

    /** handle_key_event: the overlay first, then search entry, then normal
        navigation. */
    method HandleKeyEvent(key: KeyEvent)
      requires Valid()
      modifies this, state
      ensures Valid()
      ensures Model() == Step(ctx, old(Model()), key)
    {
      StepKeepsConsistent(ctx, Model(), key);
      if state.rowDetailRow.Some? {
        HandleDetailKey(key);
        return;
      }
      if state.searchMode {
        HandleSearchKey(key);
        return;
      }
      HandleNormalKey(key);
    }

    method HandleDetailKey(key: KeyEvent)
      modifies this, state
      ensures Model() == DetailStep(old(Model()), key)
    {
      match key.code {
        case Esc => state.rowDetailRow := None;
        case Up => state.detailScrollOffset := SaturatingSub(state.detailScrollOffset, 1);
        case Down => state.detailScrollOffset := state.detailScrollOffset + 1;
        case PageUp => state.detailScrollOffset := SaturatingSub(state.detailScrollOffset, DetailPageSize);
        case PageDown => state.detailScrollOffset := state.detailScrollOffset + DetailPageSize;
        case Left => state.detailScrollHorizontal := SaturatingSub(state.detailScrollHorizontal, 1);
        case Right => state.detailScrollHorizontal := state.detailScrollHorizontal + 1;
        case Char(_) => if key.IsQuit() { Exit(); }
        case _ =>
      }
    }

    method HandleSearchKey(key: KeyEvent)
      modifies state
      ensures Model() == old(Model()).(state := SearchStep(ctx, old(state.Model()), key))
    {
      match key.code {
        case Esc =>
          state.searchMode := false;
          state.searchQuery := "";
        case Enter =>
          var query := state.searchQuery;
          var filtered := ctx.filterRows(ctx.sampleData, query);
          state.searchFilter := Some(query);
          state.filteredSampleData := Some(filtered);
          state.Reset();
          state.searchMode := false;
        case Backspace => state.searchQuery := Pop(state.searchQuery);
        case Char(c) => state.searchQuery := state.searchQuery + [c];
        case _ =>
      }
    }

    method HandleNormalKey(key: KeyEvent)
      modifies this, state
      ensures Model() == NormalStep(ctx, old(Model()), key)
    {
      if key.IsQuit() {
        Exit();
      } else if key.code == Esc {
        if state.searchFilter.Some? {
          state.ClearSearchFilter();
          state.Reset();
        } else if tab.Label() == "SQL" {
          state.sqlQuery := "";
          state.sqlResult := None;
        } else {
          state.Reset();
        }
      } else if key.code == Char('/') {
        state.searchMode := true;
        state.searchQuery := "";
      } else if key.code == Enter && tab.Label() == "SQL" {
        state.sqlResult := Some(RunSql(ctx.filePath, state.sqlQuery, ctx.engine));
      } else if key.code == KeyCode.Tab {
        tab := tab.Next();
        state.Reset();
      } else if key.code == BackTab {
        tab := tab.Prev();
        state.Reset();
      } else if tab == T.Sql {
        var r := SqlTab.OnEvent(key, state);
      } else {
        OtherTabOnEvent(ctx, tab, key, state);
      }
    }
  }
}
