/** The persisted user settings: defaults, loading from storage, and patch updates. */
module SettingsContext {
  import opened Wrappers

  datatype Theme = Dark | Light
  datatype EditorFont = Mono | Sans

  datatype Settings = Settings(theme: Theme, fontSize: int, editorFont: EditorFont, autoSave: bool, vaultPath: string)

  /** A `Partial<Settings>`: every field may be absent. */
  datatype Patch = Patch(theme: Option<Theme>, fontSize: Option<int>, editorFont: Option<EditorFont>,
                         autoSave: Option<bool>, vaultPath: Option<string>)

  /** `defaultSettings`: dark theme, 14px, the monospace font, auto-save on and no vault path. */
  function DefaultSettings(): Settings {
    Settings(Dark, 14, Mono, true, "")
  }

  /** `{ ...base, ...patch }`: the patch's fields where present, the base's elsewhere. */
  function Merge(base: Settings, patch: Patch): (r: Settings)
    ensures patch.theme.Some? ==> r.theme == patch.theme.value
    ensures patch.theme.None? ==> r.theme == base.theme
    ensures patch.fontSize.Some? ==> r.fontSize == patch.fontSize.value
    ensures patch.fontSize.None? ==> r.fontSize == base.fontSize
    ensures patch.editorFont.Some? ==> r.editorFont == patch.editorFont.value
    ensures patch.editorFont.None? ==> r.editorFont == base.editorFont
    ensures patch.autoSave.Some? ==> r.autoSave == patch.autoSave.value
    ensures patch.autoSave.None? ==> r.autoSave == base.autoSave
    ensures patch.vaultPath.Some? ==> r.vaultPath == patch.vaultPath.value
    ensures patch.vaultPath.None? ==> r.vaultPath == base.vaultPath
  {
    Settings(patch.theme.GetOr(base.theme), patch.fontSize.GetOr(base.fontSize),
             patch.editorFont.GetOr(base.editorFont), patch.autoSave.GetOr(base.autoSave),
             patch.vaultPath.GetOr(base.vaultPath))
  }

  /** Applying the same patch twice is the same as applying it once. */
  lemma {:induction false} MergeIdempotent(s: Settings, patch: Patch)
    ensures Merge(Merge(s, patch), patch) == Merge(s, patch)
  {
  }

  const EmptyPatch: Patch := Patch(None, None, None, None, None)

  /** A patch with every field present, as `JSON.stringify` writes a whole `Settings`. */
  function AsPatch(s: Settings): (p: Patch)
    ensures forall base :: Merge(base, p) == s
  {
    Patch(Some(s.theme), Some(s.fontSize), Some(s.editorFont), Some(s.autoSave), Some(s.vaultPath))
  }

  /**
   * What `localStorage.getItem` and `JSON.parse` give back: nothing stored,
   * a read that throws, or a stored text whose parse either throws (`None`;
   * this includes the empty text, which is also skipped as falsy) or gives
   * the object's settings fields.
   */
  datatype Stored = NotStored | ReadFails | StoredText(parsed: Option<Patch>)

  /** `loadSettings`: the stored fields over the defaults, or the defaults when nothing usable is stored. */
  function LoadSettings(stored: Stored): (r: Settings)
    ensures !(stored.StoredText? && stored.parsed.Some?) ==> r == DefaultSettings()
    ensures stored.StoredText? && stored.parsed.Some? ==> r == Merge(DefaultSettings(), stored.parsed.value)
  {
    match stored
    case StoredText(Some(patch)) => Merge(DefaultSettings(), patch)
    case _ => DefaultSettings()
  }

  /** `saveSettings`: the whole settings object is written. */
  function SaveSettings(s: Settings): Stored {
    StoredText(Some(AsPatch(s)))
  }

  /** What was saved loads back unchanged. */
  lemma {:induction false} LoadSaved(s: Settings)
    ensures LoadSettings(SaveSettings(s)) == s
  {
    assert Merge(DefaultSettings(), AsPatch(s)) == s;
  }

  /** A stored object with no settings fields loads as the defaults. */
  lemma {:induction false} LoadEmptyObject()
    ensures LoadSettings(StoredText(Some(EmptyPatch))) == DefaultSettings()
  {
  }

  /** The settings provider: the current settings and what storage holds. */
  class SettingsStore {
    var settings: Settings
    var storage: Stored

    /** The initial state is loaded from storage. */
    constructor(storage: Stored)
      ensures settings == LoadSettings(storage) && this.storage == storage
    {
      settings := LoadSettings(storage);
      this.storage := storage;
    }

    /**
     * `updateSettings`: merges the patch into the current settings, which
     * become the new state; `saveSettings` writes them, unless `setItem`
     * throws (`writeOk` false), which it swallows, leaving storage as it was.
     */
    method UpdateSettings(patch: Patch, writeOk: bool)
      modifies this
      ensures settings == Merge(old(settings), patch)
      ensures writeOk ==> storage == SaveSettings(settings) && LoadSettings(storage) == settings
      ensures !writeOk ==> storage == old(storage)
    {
      var next := Merge(settings, patch);
      if writeOk {
        storage := SaveSettings(next);
        LoadSaved(next);
      }
      settings := next;
    }
  }
}
