/** The SQL tab (src/tabs/sql.rs): typing edits the query buffer, and 'v'
    opens the row-detail overlay on the selected row of a successful result. */
module SqlTab {
  import opened Options
  import opened Keys
  import opened FileSql
  import opened State

  /** The tab's label, which the router compares against to recognise the
      SQL tab. */
  function ToString(): string {
    "SQL"
  }

  predicate HasOkResult(s: Snapshot) {
    s.sqlResult.Some? && s.sqlResult.value.Ok?
  }

  predicate IsDetailKey(key: KeyEvent) {
    key.code.Char? && (key.code.ch == 'v' || key.code.ch == 'V')
  }

  /** on_event on the value of the state. */
  function OnEventModel(s: Snapshot, key: KeyEvent): (t: Snapshot)
    // only the SQL buffer and the overlay fields can change
    ensures t == s.(sqlQuery := t.sqlQuery, rowDetailRow := t.rowDetailRow,
                    detailScrollOffset := t.detailScrollOffset, detailScrollHorizontal := t.detailScrollHorizontal)
    // the overlay changes only by opening on the selected row of an Ok result
    ensures t.rowDetailRow != s.rowDetailRow ==>
      IsDetailKey(key) && HasOkResult(s) && t.rowDetailRow == Some(s.verticalOffset)
    // the buffer loses its last character, gains the typed one, or stays
    ensures || t.sqlQuery == s.sqlQuery
            || (key.code == Backspace && t.sqlQuery == Pop(s.sqlQuery))
            || (key.code.Char? && !IsDetailKey(key) && t.sqlQuery == s.sqlQuery + [key.code.ch])
    // opening the overlay outside search mode keeps the state consistent
    ensures s.Consistent() && !s.searchMode ==> t.Consistent()
  {
    match key.code
    case Backspace => s.(sqlQuery := Pop(s.sqlQuery))
    case Char(c) =>
      if c == 'v' || c == 'V' then
        if HasOkResult(s) then
          s.(rowDetailRow := Some(s.verticalOffset), detailScrollOffset := 0, detailScrollHorizontal := 0)
        else
          s
      else
        s.(sqlQuery := s.sqlQuery + [c])
    case _ => s
  }

  /** Backspace removes the last character of the buffer; an empty buffer
      stays empty. */
  lemma BackspacePopsQuery(s: Snapshot, key: KeyEvent)
    requires key.code == Backspace
    ensures var t := OnEventModel(s, key);
      && t == s.(sqlQuery := t.sqlQuery)
      && (s.sqlQuery == [] ==> t.sqlQuery == [])
      && (s.sqlQuery != [] ==> t.sqlQuery + [s.sqlQuery[|s.sqlQuery| - 1]] == s.sqlQuery)
  {
  }

  /** 'v' or 'V' over an Ok result opens the overlay at the selection with
      both detail scrolls at zero; otherwise it changes nothing. Either way it
      is never typed into the buffer. */
  lemma DetailKeyOpensOverlayOnlyOverOk(s: Snapshot, key: KeyEvent)
    requires IsDetailKey(key)
    ensures var t := OnEventModel(s, key);
      && t.sqlQuery == s.sqlQuery
      && (HasOkResult(s) ==>
            t == s.(rowDetailRow := Some(s.verticalOffset), detailScrollOffset := 0, detailScrollHorizontal := 0))
      && (!HasOkResult(s) ==> t == s)
  {
  }

  /** Any other character is appended to the end of the buffer. */
  lemma OtherCharAppended(s: Snapshot, key: KeyEvent)
    requires key.code.Char? && !IsDetailKey(key)
    ensures OnEventModel(s, key) == s.(sqlQuery := s.sqlQuery + [key.code.ch])
  {
  }

  /** Keys that are neither characters nor Backspace leave the state alone. */
  lemma OtherKeysInert(s: Snapshot, key: KeyEvent)
    requires !key.code.Char? && key.code != Backspace
    ensures OnEventModel(s, key) == s
  {
  }

  /** on_event: updates the state in place and always reports success. */
  method OnEvent(key: KeyEvent, state: AppState) returns (r: Result<()>)
    modifies state
    ensures state.Model() == OnEventModel(old(state.Model()), key)
    ensures r == Success(())
  {
    match key.code {
      case Backspace =>
        state.sqlQuery := Pop(state.sqlQuery);
      case Char(c) =>
        if c == 'v' || c == 'V' {
          if state.sqlResult.Some? && state.sqlResult.value.Ok? {
            state.rowDetailRow := Some(state.verticalOffset);
            state.detailScrollOffset := 0;
            state.detailScrollHorizontal := 0;
          }
        } else {
          state.sqlQuery := state.sqlQuery + [c];
        }
      case _ =>
    }
    r := Success(());
  }
}
