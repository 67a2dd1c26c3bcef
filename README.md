# Resonance: playback, settings and identity state

Resonance is a Next.js music-player front end. Outside its presentation code it holds three small pieces of state, and each one lives in the browser's local storage:

- **The player session.** Nine fields: playing, progress, volume, muted, favourite, shuffle, repeat, visualizer type and the volume saved before muting. They change through button handlers, clicks on the seek and volume bars, and an interval that adds one second at a time. The session is written under `playerState` on the full-screen page (`src/app/player/page.tsx`, a 213-second track) and in the docked mini player (`src/components/MusicPlayer.tsx`, 180 seconds).
- **The settings record.** `{darkMode, volume, visualizerEnabled}` with defaults `{true, 80, true}`. The provider merges partial updates into it, stores it under `resonance-app-settings` and mirrors `darkMode` onto the document's `dark` and `light` classes (`src/lib/settings-context.tsx`). A settings page edits local copies and writes them back on save (`src/app/settings/page.tsx`).
- **The identity record.** `{name, createdAt}` is stored under `resonance-user-<fingerprint>`. A fingerprint library computes the fingerprint, with fallbacks when it fails (`src/lib/fingerprint.ts`). An auth provider tracks the current user and a loading flag (`src/lib/auth-context.tsx`).

## Modules

| file | module | contents |
|---|---|---|
| `storage.dfy` | `Storage` | record shapes; how a stored entry is read; the `LocalStorage` class, whose `items` map the other classes write |
| `text.dfy` | `Text` | decimal rendering, `padStart(2, "0")`, `trim` with the ECMAScript white-space set, and their round trips |
| `player_core.dfy` | `PlayerCore` | the session transitions both player views share, as functions on a `Session` value; lemmas about them |
| `player_page.dfy` | `PlayerPage` | the full-screen page: class `Player`, whose effects and handlers are methods tied to the core functions; a mount sequence |
| `mini_player.dfy` | `MiniPlayer` | the mini player: class `MusicPlayer`, its different volume handler and its mount sequence |
| `settings_store.dfy` | `Settings` | merge, load, and the class `SettingsStore` with update, reset and theme effects |
| `fingerprint.dfy` | `Fingerprint` | fingerprint fallbacks, key construction, save and get over the storage map |
| `auth.dfy` | `Auth` | class `AuthProvider` with its load effect and `setUser` |
| `settings_page.dfy` | `SettingsPage` | class `SettingsView` with save, reset and the two resync effects |

A React state setter is modelled as a field assignment, and an effect as a method the caller invokes. A mount is the component's effects run in the order they are declared. Local storage is a `map<string, Entry>`. An entry is one of the three records, or text that does not parse as one of them. The empty string counts as "nothing stored", as in JavaScript's `if (saved)` test. Time values (`Date.now()`) and the fingerprint library's answer are parameters. On the bars, a click is an integer offset `x` into a bar of integer `width` with `0 <= x <= width`, and the handlers compute `floor(scale * x / width)`.

## Model

| member | source | states |
|---|---|---|
| Storage.Stored | src/app/player/page.tsx:65-66 | a read gives nothing exactly when the key is absent or holds the empty string; otherwise it gives the stored entry |
| Storage.LocalStorage.constructor | src/app/player/page.tsx:65 | the storage holds exactly the entries it was opened with |
| Storage.LocalStorage.SetItem | src/app/player/page.tsx:95 | the key now maps to the value; every other key keeps its entry |
| Text.DecimalString | src/app/player/page.tsx:207 | `minutes`/`seconds.toString()` is a non-empty digit string, one digit exactly below 10, and has no leading zero |
| Text.DecimalRoundTrip | src/app/player/page.tsx:207 | reading the decimal digits back gives the number |
| Text.PadStart2 | src/app/player/page.tsx:207 | `padStart(2, "0")` leaves strings of length two or more alone; shorter ones get zeros in front up to length two |
| Text.LeadingZerosValue | src/app/player/page.tsx:207 | padding does not change the value of a digit string |
| Text.LeadingBlanks | src/app/settings/page.tsx:69 | the count of leading characters is at most the length; each counted character is white space, and the one right after them is not |
| Text.TrailingBlanks | src/app/settings/page.tsx:69 | the count of trailing characters is at most the length; each counted character is white space, and the one right before them is not |
| Text.TrimStart | src/app/settings/page.tsx:69 | the result is a suffix of the input; everything cut off is white space, and the result does not start with white space |
| Text.TrimEnd | src/app/settings/page.tsx:69 | the result is a prefix of the input; everything cut off is white space, and the result does not end with white space |
| Text.Trim | src/app/settings/page.tsx:69 | `name.trim()` is TrimEnd after TrimStart and is never longer than the name; its placement and ends are stated by TrimIsInfix and TrimEnds |
| Text.TrimIsInfix | src/app/settings/page.tsx:69 | `name.trim()` is the infix of the name that starts where the leading white space ends and is followed by white space only |
| Text.TrimEnds | src/app/settings/page.tsx:69 | `name.trim()` neither starts nor ends with white space |
| Text.TrimEmptyIffBlank | src/app/settings/page.tsx:69 | `name.trim() == ""` exactly when every character of the name is white space |
| PlayerCore.TogglePlay | src/app/player/page.tsx:112-114 | `isPlaying` flips and no other field changes |
| PlayerCore.ToggleFavorite | src/app/player/page.tsx:117-119 | `isFavorite` flips and no other field changes |
| PlayerCore.ToggleShuffle | src/app/player/page.tsx:136-138 | `isShuffleOn` flips and no other field changes |
| PlayerCore.ToggleRepeat | src/app/player/page.tsx:141-143 | `isRepeatOn` flips and no other field changes |
| PlayerCore.TogglesAreInvolutions | src/components/MusicPlayer.tsx:131-158 | each flag toggle applied twice gives back the session |
| PlayerCore.NextVisualizer | src/app/player/page.tsx:147-151 | the updater never returns the type it was given |
| PlayerCore.ToggleVisualizerType | src/app/player/page.tsx:146-152 | only the visualizer type changes, to the next one in the cycle |
| PlayerCore.VisualizerCycle | src/components/MusicPlayer.tsx:160-166 | bars goes to lottie, lottie to animated and animated to bars; so three calls give back the session and visit all three types |
| PlayerCore.ToggleMute | src/app/player/page.tsx:122-133 | muting saves the volume in `previousVolume` and sets volume 0; unmuting restores `previousVolume`; nothing else changes |
| PlayerCore.MuteRoundTrip | src/components/MusicPlayer.tsx:139-150 | from unmuted, mute then unmute restores the volume and clears the flag, and the one field left changed is `previousVolume`, which now holds that volume; from muted, the round trip is the identity exactly when the volume is 0 |
| PlayerCore.Skip | src/app/player/page.tsx:177-189 | progress becomes 0, playing becomes true, and the other fields are kept |
| PlayerCore.SkipIdempotent | src/components/MusicPlayer.tsx:169-181 | skipping twice is the same as skipping once |
| PlayerCore.Tick | src/app/player/page.tsx:236-248 | a stopped session is unchanged; below the end the tick adds one; at or past the end it resets to 0; playing stops exactly when repeat is off and the end was reached |
| PlayerCore.TicksAdvance | src/app/player/page.tsx:247 | k ticks from progress p with p + k within the track give progress p + k, still playing |
| PlayerCore.PlaysToEndThenStops | src/app/player/page.tsx:238-245 | with repeat off, from p ≤ D, D − p ticks reach D still playing; one more tick gives 0 and stopped |
| PlayerCore.RepeatLoops | src/components/MusicPlayer.tsx:107-117 | with repeat on, D − p + 1 ticks reach 0 still playing; from 0, D + 1 ticks give back the session |
| PlayerCore.PastEndResets | src/app/player/page.tsx:238-245 | a progress beyond the end, such as a restored one, resets to 0 on the next tick, and playing continues iff repeat is on |
| PlayerCore.StoppedIsIdle | src/app/player/page.tsx:234-235 | while stopped, any number of ticks changes nothing |
| PlayerCore.ClickPosition | src/app/player/page.tsx:214-216 | `floor(scale * x / width)` lies in [0, scale] and is the largest r with r · width ≤ scale · x |
| PlayerCore.ClickPositionEnds | src/app/player/page.tsx:211-217 | a click at the left edge gives 0 and one at the right edge gives the full scale |
| PlayerCore.ClickPositionMonotone | src/app/player/page.tsx:211-217 | a click further right never gives a smaller value |
| PlayerCore.ExitSnapshot | src/app/player/page.tsx:357-367 | the snapshot is the session, but with volume 0 when muted |
| PlayerCore.ExitSnapshotOfMuted | src/components/MusicPlayer.tsx:235-245 | if a muted session already has volume 0, its snapshot is the session itself |
| PlayerCore.ReadSnapshot | src/app/player/page.tsx:65-67 | nothing stored gives no snapshot; a stored session gives that session; anything else is unparsable |
| PlayerCore.SaveThenRead | src/app/player/page.tsx:82-97 | what the save effect writes, the load effect reads back field for field |
| PlayerCore.TransitionsKeepRange | src/app/player/page.tsx:112-248 | the toggles, skip, mute, the tick and the exit snapshot keep progress within [0, D] and both volumes within [0, 100]; the volume clicks and the mount paths, which depend on the bar and the settings volume, are in each view's ClickAndMountKeepRange |
| PlayerCore.FormatTime | src/components/MusicPlayer.tsx:205-209 | the text is minutes, a colon, and two digits; the digits read as seconds mod 60, which is below 60; the minutes read as seconds / 60 and are written exactly as `minutes.toString()` |
| PlayerCore.MinutesWithoutLeadingZero | src/components/MusicPlayer.tsx:205-209 | a time text longer than `m:ss` does not start with '0': the minutes carry no leading zero |
| PlayerCore.FormatTimeRoundTrip | src/app/player/page.tsx:204-208 | reading the `m:ss` text back gives the number of seconds |
| PlayerCore.FormatTimeInjective | src/app/player/page.tsx:204-208 | two durations format to the same text exactly when they are equal |
| PlayerPage.Initial | src/app/player/page.tsx:47-55 | first render: stopped at 0, not muted, both volumes equal to the settings volume, flags off, lottie |
| PlayerPage.VolumeClick | src/app/player/page.tsx:221-231 | volume becomes `floor(100x/width)` in [0, 100]; muted stays set only for a click at x = 0; `previousVolume` takes the new volume only when muted and x > 0 |
| PlayerPage.UnmutingClickThenMuteRoundTrip | src/app/player/page.tsx:221-231 | after a click that unmutes, muting and unmuting again gives back the clicked volume |
| PlayerPage.ClickAndMountKeepRange | src/app/player/page.tsx:62-109 | with a settings volume in [0, 100] and any stored session in range, the volume click, the load's `previousVolume` fallback and the whole mount give a session within [0, 213] and [0, 100] |
| PlayerPage.NearLeftEdgeUnmutesSilently | src/app/player/page.tsx:225-230 | a click at x = 1 on a 200-wide bar unmutes with volume 0 |
| PlayerPage.Restore | src/app/player/page.tsx:68-76 | the load copies all nine fields, but a `previousVolume` of 0 is replaced by the settings volume |
| PlayerPage.RestoreRoundTrip | src/app/player/page.tsx:68-76 | loading gives back the saved session exactly when its `previousVolume` is non-zero or the settings volume is 0 |
| PlayerPage.MountResult | src/app/player/page.tsx:62-109 | the mount throws exactly when the stored text does not parse, and then keeps the first render; with nothing stored it keeps the first render; a stored session is restored through `Restore`; the volume always ends equal to the settings volume; unless it threw, the resulting session is stored back |
| PlayerPage.MountResumes | src/app/player/page.tsx:62-79 | over a stored session the page mounts without error and restores every field, except the volume, which is synced from the settings, and a `previousVolume` of 0, which falls back |
| PlayerPage.ResumesBarSnapshot | src/components/MusicPlayer.tsx:233-246 | a snapshot written by the mini player's full-screen button is resumed by the page |
| PlayerPage.EndOfTrackScenario | src/app/player/page.tsx:233-259 | from 210 of 213 with repeat off, three ticks reach 213 still playing, and the fourth tick stops at 0 |
| PlayerPage.MuteWritesZeroToSettings | src/app/player/page.tsx:105-109 | muting from unmuted sends volume 0 to the settings store |
| PlayerPage.Player.constructor | src/app/player/page.tsx:47-55 | the fields start at `Initial` for the settings volume |
| PlayerPage.Player.TogglePlay | src/app/player/page.tsx:112-114 | the new session is `PlayerCore.TogglePlay` of the old one |
| PlayerPage.Player.ToggleFavorite | src/app/player/page.tsx:117-119 | the new session is `PlayerCore.ToggleFavorite` of the old one |
| PlayerPage.Player.ToggleMute | src/app/player/page.tsx:122-133 | the new session is `PlayerCore.ToggleMute` of the old one |
| PlayerPage.Player.ToggleShuffle | src/app/player/page.tsx:136-138 | the new session is `PlayerCore.ToggleShuffle` of the old one |
| PlayerPage.Player.ToggleRepeat | src/app/player/page.tsx:141-143 | the new session is `PlayerCore.ToggleRepeat` of the old one |
| PlayerPage.Player.ToggleVisualizerType | src/app/player/page.tsx:146-152 | the new session is the visualizer step of the old one |
| PlayerPage.Player.SkipPrevious | src/app/player/page.tsx:177-182 | the new session is `Skip` of the old one |
| PlayerPage.Player.SkipNext | src/app/player/page.tsx:184-189 | the new session is `Skip` of the old one |
| PlayerPage.Player.HandleProgressClick | src/app/player/page.tsx:211-217 | progress becomes `floor(213x/width)`, which lies in [0, 213]; nothing else changes |
| PlayerPage.Player.HandleVolumeClick | src/app/player/page.tsx:221-231 | the new session is `VolumeClick` of the old one |
| PlayerPage.Player.Tick | src/app/player/page.tsx:236-248 | the new session is `PlayerCore.Tick` of the old one with the 213-second track |
| PlayerPage.Player.LoadEffect | src/app/player/page.tsx:62-79 | the effect throws exactly on unparsable text; with nothing stored, and on a throw, the fields are unchanged; a stored session is restored through `Restore` |
| PlayerPage.Player.SaveEffect | src/app/player/page.tsx:81-97 | `playerState` now holds the current nine fields and nothing else in storage changes |
| PlayerPage.Player.SyncVolumeFromSettings | src/app/player/page.tsx:99-102 | the volume takes the settings volume and nothing else changes |
| PlayerPage.Player.SaveVolumeToSettings | src/app/player/page.tsx:104-109 | afterwards the settings volume equals the player volume, and a differing volume was merged in and persisted |
| PlayerPage.Player.Mount | src/app/player/page.tsx:62-109 | the effects run in declaration order; the storage and session that result are `MountResult` of the storage before; the settings record and the theme classes are unchanged |
| PlayerPage.Player.HandleBackClick | src/app/player/page.tsx:355-368 | `playerState` is overwritten with `ExitSnapshot` of the session |
| MiniPlayer.Initial | src/components/MusicPlayer.tsx:39-49 | first render: stopped at 30, not muted, both volumes equal to the settings volume, flags off, lottie |
| MiniPlayer.VolumeChange | src/components/MusicPlayer.tsx:221-228 | volume becomes `floor(100x/width)` in [0, 100]; muted stays set only for x = 0; `previousVolume` is never touched |
| MiniPlayer.ClickAndMountKeepRange | src/components/MusicPlayer.tsx:53-100 | with a settings volume in [0, 100] and any stored session in range, the volume handler and both mount orders give a session within [0, 180] and [0, 100] |
| MiniPlayer.ClickThenMuteRoundTrip | src/components/MusicPlayer.tsx:221-228 | a click that unmutes leaves `previousVolume` as it was; a mute round trip after the click comes back to the clicked volume |
| MiniPlayer.EndOfTrackScenario | src/components/MusicPlayer.tsx:102-129 | from 177 of 180 with repeat off, three ticks reach 180 still playing, and the fourth stops at 0 |
| MiniPlayer.MountAsWritten | src/components/MusicPlayer.tsx:53-100 | the mount as written never throws |
| MiniPlayer.MountDiscardsSaved | src/components/MusicPlayer.tsx:53-88 | whatever was stored, the mount ends at the first render and overwrites `playerState` with it |
| MiniPlayer.MountDiscardsExample | src/components/MusicPlayer.tsx:53-88 | a concrete saved session (playing at 100, volume 50) is lost on mount |
| MiniPlayer.MountLoadFirst | src/components/MusicPlayer.tsx:71-100 | with the load effect first, an unparsable entry leaves storage as it was; otherwise storage holds the resulting session, whose volume is the settings volume |
| MiniPlayer.MountLoadFirstResumes | src/components/MusicPlayer.tsx:71-88 | with the load effect first, a stored session is resumed field for field, except the synced volume |
| MiniPlayer.MountLoadFirstResumesPageSnapshot | src/app/player/page.tsx:355-368 | with the load effect first, the snapshot the page's back button writes is resumed |
| MiniPlayer.MusicPlayer.constructor | src/components/MusicPlayer.tsx:39-49 | the fields start at `MiniPlayer.Initial` |
| MiniPlayer.MusicPlayer.TogglePlay | src/components/MusicPlayer.tsx:131-133 | the new session is `PlayerCore.TogglePlay` of the old one |
| MiniPlayer.MusicPlayer.ToggleFavorite | src/components/MusicPlayer.tsx:135-137 | the new session is `PlayerCore.ToggleFavorite` of the old one |
| MiniPlayer.MusicPlayer.ToggleMute | src/components/MusicPlayer.tsx:139-150 | the new session is `PlayerCore.ToggleMute` of the old one |
| MiniPlayer.MusicPlayer.ToggleShuffle | src/components/MusicPlayer.tsx:152-154 | the new session is `PlayerCore.ToggleShuffle` of the old one |
| MiniPlayer.MusicPlayer.ToggleRepeat | src/components/MusicPlayer.tsx:156-158 | the new session is `PlayerCore.ToggleRepeat` of the old one |
| MiniPlayer.MusicPlayer.ToggleVisualizerType | src/components/MusicPlayer.tsx:160-166 | the new session is the visualizer step of the old one |
| MiniPlayer.MusicPlayer.SkipPrevious | src/components/MusicPlayer.tsx:169-174 | the new session is `Skip` of the old one |
| MiniPlayer.MusicPlayer.SkipNext | src/components/MusicPlayer.tsx:176-181 | the new session is `Skip` of the old one |
| MiniPlayer.MusicPlayer.HandleProgressClick | src/components/MusicPlayer.tsx:212-219 | progress becomes `floor(180x/width)`, which lies in [0, 180]; nothing else changes |
| MiniPlayer.MusicPlayer.HandleVolumeChange | src/components/MusicPlayer.tsx:221-228 | the new session is `VolumeChange` of the old one |
| MiniPlayer.MusicPlayer.Tick | src/components/MusicPlayer.tsx:103-122 | the new session is `PlayerCore.Tick` of the old one with the 180-second track |
| MiniPlayer.MusicPlayer.SaveEffect | src/components/MusicPlayer.tsx:53-69 | `playerState` now holds the current nine fields |
| MiniPlayer.MusicPlayer.LoadEffect | src/components/MusicPlayer.tsx:71-88 | the effect throws exactly on unparsable text; a stored session replaces all nine fields with no fallback |
| MiniPlayer.MusicPlayer.SyncVolumeFromSettings | src/components/MusicPlayer.tsx:90-93 | the volume takes the settings volume |
| MiniPlayer.MusicPlayer.SaveVolumeToSettings | src/components/MusicPlayer.tsx:95-100 | afterwards the settings volume equals the player volume |
| MiniPlayer.MusicPlayer.Mount | src/components/MusicPlayer.tsx:53-100 | the effects run in declaration order (save first); the result is `MountAsWritten` of the storage before; the settings record and the theme classes are unchanged |
| MiniPlayer.MusicPlayer.ToggleFullscreen | src/components/MusicPlayer.tsx:231-256 | entering full screen writes `ExitSnapshot` under `playerState`; leaving it writes nothing |
| Settings.Merge | src/lib/settings-context.tsx:61-63 | each field named by the partial takes the new value; each absent field keeps the old one |
| Settings.MergeIdempotent | src/lib/settings-context.tsx:63 | applying a partial twice gives what applying it once gives |
| Settings.MergeSequence | src/lib/settings-context.tsx:63 | two updates in a row are one update with the second partial laid over the first |
| Settings.MergeWholeAndEmpty | src/lib/settings-context.tsx:63 | a partial with all three fields replaces the record; the empty partial keeps it |
| Settings.MergeVolumeOnly | src/lib/settings-context.tsx:63 | `{volume}` changes the volume and nothing else |
| Settings.Loaded | src/lib/settings-context.tsx:43-58 | a stored record replaces the state whole; nothing stored, or text that does not parse, keeps the state |
| Settings.PersistThenLoad | src/lib/settings-context.tsx:63-68 | the record an update or a reset persists is what the next load reads |
| Settings.SettingsStore.constructor | src/lib/settings-context.tsx:20-24 | the state starts at `{true, 80, true}` |
| Settings.SettingsStore.LoadEffect | src/lib/settings-context.tsx:43-58 | the state becomes `Loaded` of the storage, and the theme classes are untouched |
| Settings.SettingsStore.ThemeApplied | src/lib/settings-context.tsx:93-94 | the document's classes show the record's theme: `dark` exactly when `darkMode`, and `light` exactly when not |
| Settings.SettingsStore.ApplyThemeEffect | src/lib/settings-context.tsx:91-96 | exactly one of `dark` and `light` is set, matching `darkMode` |
| Settings.SettingsStore.Mount | src/lib/settings-context.tsx:43-96 | after the load, the theme matches the loaded record |
| Settings.SettingsStore.UpdateSettings | src/lib/settings-context.tsx:61-79 | the state is the merge; the same record is persisted; the classes follow `darkMode` only when the partial names it, and are untouched otherwise |
| Settings.SettingsStore.ResetSettings | src/lib/settings-context.tsx:81-88 | the state and the stored record are the defaults, with the dark theme applied |
| Settings.UseSettings | src/lib/settings-context.tsx:105-110 | outside a provider the hook fails with the provider message; inside one it gives the provider |
| Fingerprint.GetFingerprint | src/lib/fingerprint.ts:4-18 | `server-side` without a window, `unknown-device` when the library fails, the visitor id otherwise |
| Fingerprint.UserKey | src/lib/fingerprint.ts:46 | the key is the prefix `resonance-user-` followed by the fingerprint |
| Fingerprint.UserKeyInjective | src/lib/fingerprint.ts:46-56 | two fingerprints share a key exactly when they are equal |
| Fingerprint.KeysDistinct | src/lib/fingerprint.ts:46 | no user key equals `playerState` or `resonance-app-settings` |
| Fingerprint.StorageGet | src/lib/fingerprint.ts:28-31 | without a window the wrapper reads nothing; with one it reads the map |
| Fingerprint.StorageSet | src/lib/fingerprint.ts:32-35 | without a window the write is ignored; with one the key is set |
| Fingerprint.SaveUserData | src/lib/fingerprint.ts:39-50 | without a window storage is unchanged; with one the key of this device now holds `{name, now}`; every other key keeps its entry |
| Fingerprint.GetUserData | src/lib/fingerprint.ts:53-66 | a record comes back exactly when there is a window and the key of this device holds a user record, and it is that record; otherwise the result is null |
| Fingerprint.SaveThenGet | src/lib/fingerprint.ts:39-66 | with a window, get after save on the same device gives the saved name and timestamp; without one, the save writes nothing and the get gives null |
| Fingerprint.SaveReplacesCreatedAt | src/lib/fingerprint.ts:42-46 | a save over an earlier record carries the new timestamp, so (unless the clocks agree) the earlier record is not what the next get returns |
| Fingerprint.GetAbsent | src/lib/fingerprint.ts:58-61 | with nothing under the key, get gives null |
| Fingerprint.SaveIsolation | src/lib/fingerprint.ts:39-66 | a save leaves other fingerprints' records and the player and settings entries untouched |
| Fingerprint.FailingDevicesShareIdentity | src/lib/fingerprint.ts:15-17 | all devices whose library fails share the `resonance-user-unknown-device` record |
| Fingerprint.SaveUser | src/lib/fingerprint.ts:39-50 | the storage becomes `SaveUserData` of the storage before |
| Auth.AuthProvider.constructor | src/lib/auth-context.tsx:15-16 | there is no user yet, and the provider is loading |
| Auth.AuthProvider.LoadEffect | src/lib/auth-context.tsx:18-37 | client side only: afterwards the provider is not loading, and the user is the stored record if there is one, else unchanged; without a window nothing changes |
| Auth.AuthProvider.SetUser | src/lib/auth-context.tsx:39-45 | the record is persisted first (first timestamp), then the user becomes `{name, now}` (second timestamp) |
| Auth.UseAuth | src/lib/auth-context.tsx:54-60 | outside a provider the hook fails with the provider message; inside one it gives the provider |
| Auth.NameSurvivesReload | src/lib/auth-context.tsx:18-45 | a name set in one visit is the user a fresh provider loads on the next visit, with loading finished |
| Auth.FirstVisitHasNoUser | src/lib/auth-context.tsx:22-29 | on a device with no record, loading ends with no user |
| SettingsPage.ShouldRename | src/app/settings/page.tsx:69 | a rename requires a non-empty name that differs from the current user's |
| SettingsPage.ShouldRenameIff | src/app/settings/page.tsx:69 | a rename happens exactly when the name differs from the user's (or there is no user) and has a non-white-space character |
| SettingsPage.RenameOnce | src/app/settings/page.tsx:69-71 | once the user carries the name, saving again does not rename |
| SettingsPage.InitialName | src/app/settings/page.tsx:40 | the field starts at the user's name, or at the empty string when there is no user |
| SettingsPage.SettingsView.constructor | src/app/settings/page.tsx:37-41 | the local fields start equal to the store's record and the user's name |
| SettingsPage.SettingsView.SyncFromSettings | src/app/settings/page.tsx:44-48 | the three local fields take the store's values |
| SettingsPage.SettingsView.SyncName | src/app/settings/page.tsx:51-55 | the name takes the user's name only when that name is non-empty |
| SettingsPage.SettingsView.SetDarkMode | src/app/settings/page.tsx:165 | the switch sets the local `darkMode` only |
| SettingsPage.SettingsView.SetVisualizerEnabled | src/app/settings/page.tsx:191 | the switch sets the local `visualizerEnabled` only |
| SettingsPage.SettingsView.SetVolume | src/app/settings/page.tsx:214 | the slider sets the local `volume` only |
| SettingsPage.SettingsView.SetName | src/app/settings/page.tsx:232 | the input sets the local name, as typed |
| SettingsPage.SettingsView.HandleSave | src/app/settings/page.tsx:58-76 | the store gets all three local fields, persisted, and agrees with them afterwards; the theme classes follow the local `darkMode`; when the rename test holds, the untrimmed name is saved and becomes the user; otherwise the user and the identity records are untouched; the auth loading flag is kept |
| SettingsPage.SettingsView.SavingDone | src/app/settings/page.tsx:73-75 | the timer clears the saving flag |
| SettingsPage.SettingsView.HandleReset | src/app/settings/page.tsx:79-84 | the store is reset to the defaults and persisted, with the dark theme applied, and the local fields equal the defaults |

## Where the code and the intended behaviour differ

The model follows the code in each of these cases:

- **Ticks to stop.** The intended behaviour is that a track playing from p stops after D − p ticks, so 210 stops after 3 ticks at D = 213. In the code, progress stays at D for one tick: D − p ticks reach D still playing, and tick D − p + 1 stops (`PlayerCore.PlaysToEndThenStops`, `PlayerPage.EndOfTrackScenario`). With repeat on, too, progress returns to 0 one tick later (`PlayerCore.RepeatLoops`).
- **No clamping.** The intended behaviour clamps the seek and volume percentages and rounds the seek position. The code does neither: it uses `Math.floor`. The click range is therefore a precondition, and the result is a floor.
- **createdAt.** The intended behaviour keeps the original `createdAt` on rename. The code's `saveUserData` always writes a fresh one (`Fingerprint.SaveReplacesCreatedAt`).
- **Settings load.** The intended behaviour fills missing fields with defaults on load. The code replaces the record whole with what it parsed (`Settings.Loaded`).
- **Player load can throw.** The intended behaviour is that corrupt storage never raises. The player load effects call `JSON.parse` with no `try`, so unparsable text under `playerState` throws out of the effect (`PlayerPage.Player.LoadEffect`).
- **Reload round trip.** The intended behaviour is that a reload resumes the last snapshot. On the page, a `previousVolume` of 0 is replaced by the settings volume and the volume is re-synced from the settings (`PlayerPage.RestoreRoundTrip`). The mini player discards the snapshot altogether (see Findings).
- **Muting writes 0 into settings.** The intended behaviour is that the settings volume only ever holds the unmuted volume, never the 0 forced by muting. In the code, `toggleMute` sets the volume to 0 (src/app/player/page.tsx:122-133), and the volume-to-settings effect (src/app/player/page.tsx:104-109) then stores that 0 (`PlayerPage.MuteWritesZeroToSettings`).
- **Settings volume re-sync.** The intended behaviour copies the settings volume into the player only when the player state is created. The code re-syncs it on every change of `settings.volume` (src/app/player/page.tsx:99-102, src/components/MusicPlayer.tsx:90-93), so a later settings change overrides the playing volume (`PlayerPage.Player.SyncVolumeFromSettings`, `MiniPlayer.MusicPlayer.SyncVolumeFromSettings`).

## Findings

| source | as written | input that shows it | evidently intended | confidence | as-written member | corrected member |
|---|---|---|---|---|---|---|
| src/components/MusicPlayer.tsx:53-88 | The save effect is declared before the load effect. On mount it writes the first-render defaults under `playerState`, and the load effect then reads those defaults back. | A stored session `{playing, progress 100, volume 50, favourite, shuffle, repeat, bars}`: after mounting the mini player, the session is the first render (stopped at 30), and the stored session is overwritten. | Load the stored session first, as `src/app/player/page.tsx:62-97` does, so the mini player resumes where the user left off. | not executed | MiniPlayer.MountDiscardsSaved | MiniPlayer.MountLoadFirstResumes |

`MiniPlayer.MusicPlayer.Mount` models the code as written. `MiniPlayer.MountLoadFirst` is the corrected order, and `MiniPlayer.MountLoadFirstResumesPageSnapshot` shows that it resumes what the page's back button saved.

## Left out

- Animation, the visualizer components, colours, the background and the not-found page: presentation only, with floating point and randomness.
- The Fullscreen API and the `fullscreenchange` listener. The page's `toggleFullscreen` (src/app/player/page.tsx:160-174) only calls that API, so it has no member. The mini player's fullscreen handler is modelled up to the storage write; its `inFullscreen` parameter stands for `document.fullscreenElement`.
- Routing (`router.push`, `router.back`, `goToSettings`, `goToPlayerPage`, re-onboarding): navigation only.
- `setTimeout` delays: the page's exit animation, and the settings page's saving flag, which `SettingsPage.SettingsView.SavingDone` clears when the caller invokes it.
- The real `setInterval` lifecycle. The tick is a method that the caller invokes once per second. Starting and stopping the interval is represented only by `isPlaying`.
- JSON serialisation and the fingerprint library: the storage holds typed entries, and the library's answer is a `Device` parameter.
- An entry of one record kind stored under another kind's key: such an entry is read as text that does not parse. The code never writes one, because the keys differ (`Fingerprint.KeysDistinct`).
- A parsed player or settings record with missing or ill-typed fields, such as `undefined` volumes: the model's entries are always whole records.
- Float arithmetic: the click handlers compute `percent = x / width` in floating point before `Math.floor`. The model uses exact integer floor division, which can differ from it on rounding at a boundary.
- Pixel geometry: `getBoundingClientRect` is replaced by the integer offset and width.
- `PlayerCore.FormatTime`: takes a natural number. The negative or fractional seconds that `Math.floor` would also accept are not modelled.
- React scheduling: re-renders, batched state updates, how the effects re-run when their dependencies change, and the order between the providers' mount effects and a view's mount. Each mount is the component's own effects in declaration order. The page's mount runs the save effect a second time, because the load effect's setters changed the nine fields it depends on.
- Window guards in the settings store and the player effects: these are modelled as on the client, where `window` exists. The identity store's guards are modelled, through `Device.hasWindow`.
- Local storage quota errors and other exceptions from `setItem`.
- `Auth.AuthProvider.LoadEffect`: a failure inside `getUserData` is caught there and returns null, so the provider's own `catch` branch is unreachable and is not modelled separately.
- The `async` gaps in `setUser` and `saveUserData`: the model runs their steps in sequence, without interleaving.
- Onboarding, the home page, the sidebar and the layout wrappers: presentation and routing outside this model.
