/** The settings store: a three-field record with defaults, a shallow-merge
    update that persists and applies the theme, a reset, and the load on mount. */
module Settings {
  import opened Storage

  const SettingsKey := "resonance-app-settings"

  const Defaults: AppSettings := AppSettings(darkMode := true, volume := 80, visualizerEnabled := true)

  /** Partial<AppSettings>: each field either present with a value or absent. */
  datatype Partial = Partial(darkMode: Option<bool>, volume: Option<int>, visualizerEnabled: Option<bool>)

  function VolumeOnly(v: int): Partial {
    Partial(None, Some(v), None)
  }

  /** A partial holding all three fields of a record. */
  function Whole(a: AppSettings): Partial {
    Partial(Some(a.darkMode), Some(a.volume), Some(a.visualizerEnabled))
  }

  function Pick<T>(o: Option<T>, otherwise: T): T {
    match o
    case Some(v) => v
    case None => otherwise
  }

  /** `{ ...prev, ...p }`: present fields take the new value, absent ones keep the old. */
  function Merge(prev: AppSettings, p: Partial): (r: AppSettings)
    ensures p.darkMode == Some(r.darkMode) || (p.darkMode.None? && r.darkMode == prev.darkMode)
    ensures p.volume == Some(r.volume) || (p.volume.None? && r.volume == prev.volume)
    ensures p.visualizerEnabled == Some(r.visualizerEnabled)
            || (p.visualizerEnabled.None? && r.visualizerEnabled == prev.visualizerEnabled)
  {
    AppSettings(Pick(p.darkMode, prev.darkMode), Pick(p.volume, prev.volume),
                Pick(p.visualizerEnabled, prev.visualizerEnabled))
  }

  /** `{ ...p, ...q }`: the partial that q's present fields override p's. */
  function Overlay(p: Partial, q: Partial): Partial {
    Partial(if q.darkMode.Some? then q.darkMode else p.darkMode,
            if q.volume.Some? then q.volume else p.volume,
            if q.visualizerEnabled.Some? then q.visualizerEnabled else p.visualizerEnabled)
  }

  /** Applying the same partial twice gives the record applying it once gives. */
  lemma MergeIdempotent(s: AppSettings, p: Partial)
    ensures Merge(Merge(s, p), p) == Merge(s, p)
  {
  }

  /** Two updates in a row are one update with the overlaid partial. */
  lemma MergeSequence(s: AppSettings, p: Partial, q: Partial)
    ensures Merge(Merge(s, p), q) == Merge(s, Overlay(p, q))
  {
  }

  /** A whole record replaces the state; the empty partial keeps it. */
  lemma MergeWholeAndEmpty(s: AppSettings, a: AppSettings)
    ensures Merge(s, Whole(a)) == a
    ensures Merge(s, Partial(None, None, None)) == s
  {
  }

  /** The player's volume write changes the volume and nothing else. */
  lemma MergeVolumeOnly(s: AppSettings, v: int)
    ensures Merge(s, VolumeOnly(v)) == s.(volume := v)
  {
  }

  /** What the load effect does to the current record: a stored settings record
      replaces it whole (no per-field default filling); nothing stored, and text
      that does not parse (the parse error is caught), leave it as it is. */
  function Loaded(items: map<string, Entry>, current: AppSettings): (r: AppSettings)
    ensures (SettingsKey in items && items[SettingsKey] == SettingsEntry(r)) || r == current
    ensures (SettingsKey in items && items[SettingsKey].SettingsEntry?) ==> r == items[SettingsKey].settings
  {
    match Stored(items, SettingsKey)
    case Some(SettingsEntry(a)) => a
    case _ => current
  }

  /** A record written by update or reset is what the next load finds. */
  lemma PersistThenLoad(items: map<string, Entry>, a: AppSettings, current: AppSettings)
    ensures Loaded(items[SettingsKey := SettingsEntry(a)], current) == a
  {
  }

  /** The provider's state and the two theme classes on the document element. */
  class SettingsStore {
    const storage: LocalStorage
    var settings: AppSettings
    var darkClass: bool
    var lightClass: bool

    /** The provider's first render: state at the defaults; the document's
        classes are whatever the page was served with. */
    constructor (storage: LocalStorage, darkClass: bool, lightClass: bool)
      ensures this.storage == storage && settings == Defaults
      ensures this.darkClass == darkClass && this.lightClass == lightClass
    {
      this.storage := storage;
      settings := Defaults;
      this.darkClass := darkClass;
      this.lightClass := lightClass;
    }

    /** Exactly one of the two classes is set, and it names the record's theme. */
    predicate ThemeApplied()
      reads this
    {
      darkClass == settings.darkMode && lightClass == !settings.darkMode
    }

    /** The load effect. */
    method LoadEffect()
      modifies this
      ensures settings == Loaded(storage.items, old(settings))
      ensures darkClass == old(darkClass) && lightClass == old(lightClass)
    {
      var saved := Stored(storage.items, SettingsKey);
      if saved.Some? {
        match saved.value
        case SettingsEntry(a) => settings := a;
        case _ =>
      }
    }

    /** The theme effect: classList.toggle('dark', d) and toggle('light', !d). */
    method ApplyThemeEffect()
      modifies this
      ensures settings == old(settings) && ThemeApplied()
    {
      darkClass := settings.darkMode;
      lightClass := !settings.darkMode;
    }

    /** Mount: the load effect, then the theme effect, in declaration order. */
    method Mount()
      modifies this
      ensures settings == Loaded(storage.items, old(settings)) && ThemeApplied()
    {
      LoadEffect();
      ApplyThemeEffect();
    }

    /** updateSettings: merge, persist the merged record, and set the theme
        classes only when the partial names darkMode. */
    method UpdateSettings(p: Partial)
      modifies this, storage
      ensures settings == Merge(old(settings), p)
      ensures storage.items == old(storage.items)[SettingsKey := SettingsEntry(settings)]
      ensures p.darkMode.Some? ==> ThemeApplied()
      ensures p.darkMode.None? ==> darkClass == old(darkClass) && lightClass == old(lightClass)
    {
      var updated := Merge(settings, p);
      storage.SetItem(SettingsKey, SettingsEntry(updated));
      if p.darkMode.Some? {
        darkClass := updated.darkMode;
        lightClass := !updated.darkMode;
      }
      settings := updated;
    }

    /** resetSettings: the defaults, persisted, with the dark theme applied. */
    method ResetSettings()
      modifies this, storage
      ensures settings == Defaults
      ensures storage.items == old(storage.items)[SettingsKey := SettingsEntry(Defaults)]
      ensures ThemeApplied() && darkClass && !lightClass
    {
      settings := Defaults;
      storage.SetItem(SettingsKey, SettingsEntry(Defaults));
      darkClass := Defaults.darkMode;
      lightClass := !Defaults.darkMode;
    }
  }

  /** useSettings: the provider's store, or the error thrown outside one. */
  function UseSettings(context: Option<SettingsStore>): (r: Result<SettingsStore>)
    ensures r.Err? <==> context.None?
    ensures context.Some? ==> r.value == context.value
    ensures r.Err? ==> r.message == "useSettings must be used within a SettingsProvider"
  {
    match context
    case Some(store) => Ok(store)
    case None => Err("useSettings must be used within a SettingsProvider")
  }
}
