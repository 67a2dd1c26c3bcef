/** The auth provider: the user record of this device, loaded on mount, and
    setUser, which persists a name before showing it. */
module Auth {
  import opened Storage
  import opened Fingerprint

  class AuthProvider {
    const storage: LocalStorage
    var user: Option<UserData>
    var isLoading: bool

    /** First render: no user yet, loading. */
    constructor (storage: LocalStorage)
      ensures this.storage == storage && user.None? && isLoading
    {
      this.storage := storage;
      user := None;
      isLoading := true;
    }

    /** The load effect (client side only): set loading, read the record, keep
        it only if there is one, and clear loading whatever happened. */
    method LoadEffect(d: Device)
      modifies this
      ensures !d.hasWindow ==> user == old(user) && isLoading == old(isLoading)
      ensures d.hasWindow ==> !isLoading
      ensures d.hasWindow ==> user == match GetUserData(storage.items, d)
                                     case Some(u) => Some(u)
                                     case None => old(user)
    {
      if d.hasWindow {
        isLoading := true;
        var userData := GetUserData(storage.items, d);
        if userData.Some? {
          user := userData;
        }
        isLoading := false;
      }
    }

    /** setUser: saveUserData first (stamped `savedAt`), then the in-memory
        record (stamped by a second clock reading, `now`). */
    method SetUser(d: Device, name: string, savedAt: int, now: int)
      modifies this, storage
      ensures storage.items == SaveUserData(old(storage.items), d, name, savedAt)
      ensures user == Some(UserData(name, now)) && isLoading == old(isLoading)
    {
      SaveUser(storage, d, name, savedAt);
      user := Some(UserData(name, now));
    }
  }

  /** useAuth: the provider, or the error thrown outside one. */
  function UseAuth(context: Option<AuthProvider>): (r: Result<AuthProvider>)
    ensures r.Err? <==> context.None?
    ensures context.Some? ==> r.value == context.value
    ensures r.Err? ==> r.message == "useAuth must be used within an AuthProvider"
  {
    match context
    case Some(provider) => Ok(provider)
    case None => Err("useAuth must be used within an AuthProvider")
  }

  /** A name set in one visit is the user of the next: a fresh provider over the
      same storage, on the same device, loads it. */
  method NameSurvivesReload(d: Device, initial: map<string, Entry>, name: string, savedAt: int, now: int)
    returns (reloaded: Option<UserData>, loading: bool)
    requires d.hasWindow
    ensures reloaded == Some(UserData(name, savedAt)) && !loading
  {
    var storage := new LocalStorage(initial);
    var first := new AuthProvider(storage);
    first.LoadEffect(d);
    first.SetUser(d, name, savedAt, now);
    var second := new AuthProvider(storage);
    second.LoadEffect(d);
    SaveThenGet(first.storage.items, d, name, savedAt);
    reloaded, loading := second.user, second.isLoading;
  }

  /** A device with no stored record stays signed out after loading, and is no
      longer loading. */
  method FirstVisitHasNoUser(d: Device, initial: map<string, Entry>)
    returns (user: Option<UserData>, loading: bool)
    requires d.hasWindow && UserKey(GetFingerprint(d)) !in initial
    ensures user.None? && !loading
  {
    var storage := new LocalStorage(initial);
    var provider := new AuthProvider(storage);
    provider.LoadEffect(d);
    GetAbsent(initial, d);
    user, loading := provider.user, provider.isLoading;
  }
}
