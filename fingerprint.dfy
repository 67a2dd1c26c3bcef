/** The identity store: a best-effort device fingerprint, and the user record
    kept in local storage under a key derived from it. */
module Fingerprint {
  import opened Storage
  import PlayerCore
  import Settings

  const UserKeyPrefix := "resonance-user-"

  /** What the fingerprint library's load().get() yields: a visitor id, or an error. */
  datatype LibraryOutcome = VisitorId(id: string) | LibraryError

  /** The environment a call runs in: whether `window` exists, and what the
      library would answer there. */
  datatype Device = Device(hasWindow: bool, library: LibraryOutcome)

  /** getFingerprint: never fails; falls back to fixed placeholders. */
  function GetFingerprint(d: Device): (fp: string)
    ensures !d.hasWindow ==> fp == "server-side"
    ensures d.hasWindow && d.library.LibraryError? ==> fp == "unknown-device"
    ensures d.hasWindow && d.library.VisitorId? ==> fp == d.library.id
  {
    if !d.hasWindow then "server-side"
    else match d.library
      case VisitorId(id) => id
      case LibraryError => "unknown-device"
  }

  /** The storage key of a fingerprint's user record. */
  function UserKey(fp: string): (k: string)
    ensures |k| == |UserKeyPrefix| + |fp|
    ensures k[..|UserKeyPrefix|] == UserKeyPrefix && k[|UserKeyPrefix|..] == fp
  {
    UserKeyPrefix + fp
  }

  /** Distinct fingerprints never share a key. */
  lemma UserKeyInjective(a: string, b: string)
    ensures UserKey(a) == UserKey(b) <==> a == b
  {
    if UserKey(a) == UserKey(b) {
      assert a == UserKey(a)[|UserKeyPrefix|..];
    }
  }

  /** No user key collides with the player's or the settings store's key. */
  lemma KeysDistinct(fp: string)
    ensures UserKey(fp) != PlayerCore.PlayerKey
    ensures UserKey(fp) != Settings.SettingsKey
  {
    var k := UserKey(fp);
    assert k[10] == 'u';
    assert Settings.SettingsKey[10] == 'a';
    assert |PlayerCore.PlayerKey| < |k|;
  }

  // ---------------------------------------------------------------------------
  // The storage wrapper: reads null and ignores writes when there is no window.

  function StorageGet(items: map<string, Entry>, hasWindow: bool, key: string): (r: Option<Entry>)
    ensures !hasWindow ==> r.None?
    ensures hasWindow ==> r == (if key in items then Some(items[key]) else None)
  {
    if !hasWindow then None else if key in items then Some(items[key]) else None
  }

  function StorageSet(items: map<string, Entry>, hasWindow: bool, key: string, value: Entry): (r: map<string, Entry>)
    ensures !hasWindow ==> r == items
    ensures hasWindow ==> r == items[key := value]
  {
    if !hasWindow then items else items[key := value]
  }

  /** saveUserData: a fresh record {name, createdAt: now} under the device's key. */
  function SaveUserData(items: map<string, Entry>, d: Device, name: string, now: int): (r: map<string, Entry>)
    ensures !d.hasWindow ==> r == items
    ensures d.hasWindow ==> r.Keys == items.Keys + {UserKey(GetFingerprint(d))}
                            && r[UserKey(GetFingerprint(d))] == UserEntry(UserData(name, now))
    ensures forall k | k in items && k != UserKey(GetFingerprint(d)) :: r[k] == items[k]
  {
    StorageSet(items, d.hasWindow, UserKey(GetFingerprint(d)), UserEntry(UserData(name, now)))
  }

  /** getUserData: the record under the device's key; null when nothing is stored,
      and null when the stored text does not parse (the error is caught). */
  function GetUserData(items: map<string, Entry>, d: Device): (r: Option<UserData>)
    ensures var key := UserKey(GetFingerprint(d));
            r.Some? <==> d.hasWindow && key in items && items[key].UserEntry?
    ensures r.Some? ==> items[UserKey(GetFingerprint(d))] == UserEntry(r.value)
  {
    match StorageGet(items, d.hasWindow, UserKey(GetFingerprint(d)))
    case Some(UserEntry(u)) => Some(u)
    case _ => None
  }

  /** Save then get on the same device gives back the name, with the new
      timestamp; without a window neither call touches storage. */
  lemma SaveThenGet(items: map<string, Entry>, d: Device, name: string, now: int)
    ensures d.hasWindow ==> GetUserData(SaveUserData(items, d, name, now), d) == Some(UserData(name, now))
    ensures !d.hasWindow ==> SaveUserData(items, d, name, now) == items
    ensures !d.hasWindow ==> GetUserData(items, d).None?
  {
  }

  /** A save always writes a fresh createdAt: any earlier record is replaced whole. */
  lemma SaveReplacesCreatedAt(items: map<string, Entry>, d: Device, earlier: UserData, name: string, now: int)
    requires d.hasWindow && GetUserData(items, d) == Some(earlier)
    ensures GetUserData(SaveUserData(items, d, name, now), d).value.createdAt == now
    ensures now != earlier.createdAt ==> GetUserData(SaveUserData(items, d, name, now), d) != Some(earlier)
  {
  }

  /** With nothing under the device's key, get gives null. */
  lemma GetAbsent(items: map<string, Entry>, d: Device)
    requires UserKey(GetFingerprint(d)) !in items
    ensures GetUserData(items, d).None?
  {
  }

  /** A save on one device leaves every other fingerprint's record, and the
      player and settings entries, as they were. */
  lemma SaveIsolation(items: map<string, Entry>, d: Device, e: Device, name: string, now: int)
    requires GetFingerprint(d) != GetFingerprint(e) && e.hasWindow
    ensures GetUserData(SaveUserData(items, d, name, now), e) == GetUserData(items, e)
    ensures var r := SaveUserData(items, d, name, now);
            (PlayerCore.PlayerKey in r <==> PlayerCore.PlayerKey in items)
            && (PlayerCore.PlayerKey in items ==> r[PlayerCore.PlayerKey] == items[PlayerCore.PlayerKey])
            && (Settings.SettingsKey in r <==> Settings.SettingsKey in items)
            && (Settings.SettingsKey in items ==> r[Settings.SettingsKey] == items[Settings.SettingsKey])
  {
    UserKeyInjective(GetFingerprint(d), GetFingerprint(e));
    KeysDistinct(GetFingerprint(d));
  }

  /** Every device whose library fails shares the one placeholder identity. */
  lemma FailingDevicesShareIdentity(d: Device, e: Device)
    requires d.hasWindow && e.hasWindow && d.library.LibraryError? && e.library.LibraryError?
    ensures UserKey(GetFingerprint(d)) == UserKey(GetFingerprint(e)) == "resonance-user-unknown-device"
  {
  }

  /** saveUserData applied to the browser's storage. */
  method SaveUser(storage: LocalStorage, d: Device, name: string, now: int)
    modifies storage
    ensures storage.items == SaveUserData(old(storage.items), d, name, now)
  {
    var fingerprint := GetFingerprint(d);
    if d.hasWindow {
      storage.SetItem(UserKey(fingerprint), UserEntry(UserData(name, now)));
    }
  }
}
