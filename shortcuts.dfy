/** The global keyboard shortcuts: which handler a keydown event fires. */
module KeyboardShortcuts {
  import opened Wrappers

  /** The parts of a `KeyboardEvent` the handler reads. */
  datatype KeyEvent = KeyEvent(key: string, metaKey: bool, ctrlKey: bool, shiftKey: bool)

  /** The four handlers: `onNewFile`, `onNewFolder`, `onForceSave`, `onOpenSettings`. */
  datatype Action = NewFile | NewFolder | ForceSave | OpenSettings

  /** What one keydown does: the handler it calls, if any, and whether it calls `preventDefault`. */
  datatype Outcome = Outcome(fired: Option<Action>, preventDefault: bool)

  /**
   * `handleKeyDown`: with Cmd or Ctrl held, `n`/`N` opens a new file (a new
   * folder with Shift), `s`/`S` saves, `,` opens the settings. At most one
   * handler fires, `preventDefault` is called exactly when one does, and
   * nothing happens without Cmd or Ctrl or for any other key.
   */
  function HandleKeyDown(e: KeyEvent): (r: Outcome)
    ensures r.preventDefault <==> r.fired.Some?
    ensures !(e.metaKey || e.ctrlKey) ==> r.fired == None
    ensures r.fired == Some(NewFile) <==> (e.metaKey || e.ctrlKey) && e.key in {"n", "N"} && !e.shiftKey
    ensures r.fired == Some(NewFolder) <==> (e.metaKey || e.ctrlKey) && e.key in {"n", "N"} && e.shiftKey
    ensures r.fired == Some(ForceSave) <==> (e.metaKey || e.ctrlKey) && e.key in {"s", "S"}
    ensures r.fired == Some(OpenSettings) <==> (e.metaKey || e.ctrlKey) && e.key == ","
    ensures e.key !in {"n", "N", "s", "S", ","} ==> r == Outcome(None, false)
  {
    var meta := e.metaKey || e.ctrlKey;
    if !meta then Outcome(None, false)
    else if e.key == "n" || e.key == "N" then
      Outcome(Some(if e.shiftKey then NewFolder else NewFile), true)
    else if e.key == "s" || e.key == "S" then Outcome(Some(ForceSave), true)
    else if e.key == "," then Outcome(Some(OpenSettings), true)
    else Outcome(None, false)
  }

  /**
   * The shortcut table documented beside the hook (Cmd+N, Cmd+Shift+N,
   * Cmd+S, Cmd+,) written as a set of chords (key, shift).
   */
  function DocumentedAction(key: string, shift: bool): Option<Action> {
    if key == "n" && !shift then Some(NewFile)
    else if key == "n" && shift then Some(NewFolder)
    else if key == "s" then Some(ForceSave)
    else if key == "," then Some(OpenSettings)
    else None
  }

  /** The letter keys as the table writes them: `N` and `S` (what Shift produces) read as `n` and `s`. */
  function TableKey(key: string): string {
    if key == "N" then "n" else if key == "S" then "s" else key
  }

  /**
   * With Cmd or Ctrl held, the handler fires exactly the table's action for
   * the key, read case-insensitively for the letters; and Ctrl stands in for Cmd.
   */
  lemma {:induction false} MatchesDocumentedTable(e: KeyEvent)
    ensures e.metaKey || e.ctrlKey ==> HandleKeyDown(e).fired == DocumentedAction(TableKey(e.key), e.shiftKey)
    ensures HandleKeyDown(e) == HandleKeyDown(KeyEvent(e.key, e.metaKey || e.ctrlKey, false, e.shiftKey))
  {
    if e.key !in {"n", "N", "s", "S", ","} {
      assert TableKey(e.key) == e.key;
      assert e.key != "n" && e.key != "s" && e.key != ",";
    }
  }
}
