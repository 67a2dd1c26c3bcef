/** The records the application persists in the browser's local storage, and the
    storage itself: one string-keyed map shared by every view and store. */
module Storage {

  datatype Option<T> = None | Some(value: T)

  /** What a React context hook hands back: the context, or the error it throws. */
  datatype Result<T> = Ok(value: T) | Err(message: string)

  /** The three visualizer variants of the player. */
  datatype Visualizer = Bars | Lottie | Animated

  /** The nine fields of a player session, which are also the nine fields of the
      snapshot written under the key "playerState". */
  datatype Session = Session(
    isPlaying: bool,
    progress: int,
    volume: int,
    isMuted: bool,
    isFavorite: bool,
    isShuffleOn: bool,
    isRepeatOn: bool,
    visualizerType: Visualizer,
    previousVolume: int)

  /** The settings record written under "resonance-app-settings". */
  datatype AppSettings = AppSettings(darkMode: bool, volume: int, visualizerEnabled: bool)

  /** The identity record written under "resonance-user-" followed by the fingerprint. */
  datatype UserData = UserData(name: string, createdAt: int)

  /** A stored value: the text of one of the three records, or any other text,
      which the readers of this core cannot parse as the record they expect. */
  datatype Entry =
    | PlayerEntry(session: Session)
    | SettingsEntry(settings: AppSettings)
    | UserEntry(user: UserData)
    | Text(text: string)

  /** getItem followed by the callers' truthiness test: a missing key and the
      empty string both read as "nothing stored". */
  function Stored(items: map<string, Entry>, key: string): (r: Option<Entry>)
    ensures r.None? <==> key !in items || items[key] == Text("")
    ensures r.Some? ==> key in items && r.value == items[key]
  {
    if key in items && items[key] != Text("") then Some(items[key]) else None
  }

  /** window.localStorage. */
  class LocalStorage {
    var items: map<string, Entry>

    constructor (initial: map<string, Entry>)
      ensures items == initial
    {
      items := initial;
    }

    method SetItem(key: string, value: Entry)
      modifies this
      ensures items == old(items)[key := value]
    {
      items := items[key := value];
    }
  }
}
