/** The settings page: local copies of the three settings and of the user's
    name, edited freely and written back to the two providers on save. */
module SettingsPage {
  import opened Storage
  import Text
  import Settings
  import Auth
  import Fingerprint

  /** handleSave's rename test: the name differs from the user's (or there is no
      user), and it is not empty once trimmed. */
  predicate ShouldRename(user: Option<UserData>, name: string)
    ensures ShouldRename(user, name) ==> name != "" && (user.Some? ==> user.value.name != name)
  {
    (user.None? || user.value.name != name) && Text.Trim(name) != ""
  }

  /** The trim test rejects exactly the names made only of white space, so a
      rename happens iff the name is new and has a visible character. */
  lemma ShouldRenameIff(user: Option<UserData>, name: string)
    ensures ShouldRename(user, name) <==> (user.None? || user.value.name != name) && !Text.IsBlank(name)
  {
    Text.TrimEmptyIffBlank(name);
  }

  /** Saving twice renames at most once: after the rename the user carries the
      name, so the second save leaves the user alone. */
  lemma RenameOnce(name: string, now: int)
    ensures !ShouldRename(Some(UserData(name, now)), name)
  {
  }

  /** The name field's starting text: the user's name, or the empty string. */
  function InitialName(user: Option<UserData>): (n: string)
    ensures user.Some? ==> n == user.value.name
    ensures user.None? ==> n == ""
  {
    match user
    case Some(u) => u.name
    case None => ""
  }

  class SettingsView {
    const store: Settings.SettingsStore
    const auth: Auth.AuthProvider
    var darkMode: bool
    var visualizerEnabled: bool
    var volume: int
    var name: string
    var isSaving: bool

    /** The record the three local fields would save. */
    function Local(): AppSettings
      reads this
    {
      AppSettings(darkMode, volume, visualizerEnabled)
    }

    /** The local fields show what the store holds. */
    predicate InSync()
      reads this, store
    {
      Local() == store.settings
    }

    /** First render: the fields start from the store and from the user. */
    constructor (store: Settings.SettingsStore, auth: Auth.AuthProvider)
      ensures this.store == store && this.auth == auth
      ensures InSync() && name == InitialName(auth.user) && !isSaving
    {
      this.store := store;
      this.auth := auth;
      darkMode := store.settings.darkMode;
      visualizerEnabled := store.settings.visualizerEnabled;
      volume := store.settings.volume;
      name := InitialName(auth.user);
      isSaving := false;
    }

    /** The effect on `settings`: copy the store's record into the fields. */
    method SyncFromSettings()
      modifies this
      ensures InSync() && name == old(name) && isSaving == old(isSaving)
    {
      darkMode := store.settings.darkMode;
      visualizerEnabled := store.settings.visualizerEnabled;
      volume := store.settings.volume;
    }

    /** The effect on `user`: take the user's name when it is non-empty. */
    method SyncName()
      modifies this
      ensures auth.user.Some? && auth.user.value.name != "" ==> name == auth.user.value.name
      ensures !(auth.user.Some? && auth.user.value.name != "") ==> name == old(name)
      ensures Local() == old(Local()) && isSaving == old(isSaving)
    {
      if auth.user.Some? && auth.user.value.name != "" {
        name := auth.user.value.name;
      }
    }

    /** The theme switch. */
    method SetDarkMode(checked: bool)
      modifies this
      ensures darkMode == checked && visualizerEnabled == old(visualizerEnabled)
      ensures volume == old(volume) && name == old(name) && isSaving == old(isSaving)
    {
      darkMode := checked;
    }

    /** The visualizer switch. */
    method SetVisualizerEnabled(checked: bool)
      modifies this
      ensures visualizerEnabled == checked && darkMode == old(darkMode)
      ensures volume == old(volume) && name == old(name) && isSaving == old(isSaving)
    {
      visualizerEnabled := checked;
    }

    /** The volume slider. */
    method SetVolume(value: int)
      modifies this
      ensures volume == value && darkMode == old(darkMode)
      ensures visualizerEnabled == old(visualizerEnabled) && name == old(name) && isSaving == old(isSaving)
    {
      volume := value;
    }

    /** The name input, kept as typed (untrimmed). */
    method SetName(text: string)
      modifies this
      ensures name == text && Local() == old(Local()) && isSaving == old(isSaving)
    {
      name := text;
    }

    /** handleSave: all three fields go to the store as one update; then, if
        ShouldRename holds for the user seen at the time, the name as typed is
        saved through setUser. */
    method HandleSave(d: Fingerprint.Device, savedAt: int, now: int)
      requires store.storage == auth.storage
      modifies this, store, auth, store.storage
      ensures Local() == old(Local()) && name == old(name) && isSaving
      ensures store.settings == old(Local()) && InSync()
      ensures var written := old(store.storage.items)[Settings.SettingsKey := SettingsEntry(old(Local()))];
              store.storage.items == (if ShouldRename(old(auth.user), name)
                                      then Fingerprint.SaveUserData(written, d, name, savedAt)
                                      else written)
      ensures auth.user == (if ShouldRename(old(auth.user), name) then Some(UserData(name, now)) else old(auth.user))
      ensures auth.isLoading == old(auth.isLoading)
      ensures store.ThemeApplied() && store.darkClass == darkMode
    {
      isSaving := true;
      store.UpdateSettings(Settings.Whole(Local()));
      Settings.MergeWholeAndEmpty(old(store.settings), Local());
      if ShouldRename(auth.user, name) {
        auth.SetUser(d, name, savedAt, now);
      }
    }

    /** The timer handleSave starts: clears the saving flag. */
    method SavingDone()
      modifies this
      ensures !isSaving && Local() == old(Local()) && name == old(name)
    {
      isSaving := false;
    }

    /** handleReset: the store back to the defaults, and the fields to the
        same values. */
    method HandleReset()
      modifies this, store, store.storage
      ensures store.settings == Settings.Defaults && InSync()
      ensures store.storage.items == old(store.storage.items)[Settings.SettingsKey := SettingsEntry(Settings.Defaults)]
      ensures store.ThemeApplied() && store.darkClass && !store.lightClass
      ensures name == old(name) && isSaving == old(isSaving)
    {
      store.ResetSettings();
      darkMode := true;
      visualizerEnabled := true;
      volume := 80;
    }
  }
}
