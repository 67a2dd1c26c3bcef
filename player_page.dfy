/** The full-page player (route /player): a track of 213 seconds, the shared
    transitions, a volume bar that also records the clicked volume as the one to
    restore, a load effect declared before the save effect, and the snapshot
    written by the back button. */
module PlayerPage {
  import opened Storage
  import opened PlayerCore
  import Settings

  /** mockCurrentSong.duration: 3:33. */
  const Duration := 213

  /** The useState initial values, with volume and previousVolume from settings. */
  function Initial(settingsVolume: int): (s: Session)
    ensures !s.isPlaying && s.progress == 0 && !s.isMuted
    ensures s.volume == settingsVolume && s.previousVolume == settingsVolume
    ensures !s.isFavorite && !s.isShuffleOn && !s.isRepeatOn && s.visualizerType == Lottie
  {
    Session(false, 0, settingsVolume, false, false, false, false, Lottie, settingsVolume)
  }

  /** handleVolumeClick at offset x of a bar of the given width: the volume is
      always the clicked percentage; only a click right of the left edge while
      muted unmutes, and then the clicked volume also becomes previousVolume. */
  function VolumeClick(s: Session, x: int, width: int): (r: Session)
    requires 0 <= x <= width && width > 0
    ensures r.volume == ClickPosition(100, x, width) && 0 <= r.volume <= 100
    ensures r.isMuted <==> s.isMuted && x == 0
    ensures r.previousVolume == (if s.isMuted && x > 0 then r.volume else s.previousVolume)
    ensures r.(volume := s.volume, isMuted := s.isMuted, previousVolume := s.previousVolume) == s
  {
    var v := ClickPosition(100, x, width);
    if x > 0 && s.isMuted then s.(volume := v, isMuted := false, previousVolume := v)
    else s.(volume := v)
  }

  /** A click that unmutes makes the clicked volume the one a later mute round
      trip comes back to. */
  lemma UnmutingClickThenMuteRoundTrip(s: Session, x: int, width: int)
    requires 0 < x <= width && s.isMuted
    ensures var c := VolumeClick(s, x, width);
            !c.isMuted && ToggleMute(ToggleMute(c)) == c
  {
  }

  /** A click far enough left while muted unmutes at volume 0 and records 0 as
      the volume to restore: a later unmute stays silent. */
  lemma NearLeftEdgeUnmutesSilently(s: Session)
    requires s.isMuted
    ensures var c := VolumeClick(s, 1, 200);
            !c.isMuted && c.volume == 0 && c.previousVolume == 0
            && ToggleMute(ToggleMute(c)).volume == 0
  {
    assert ClickPosition(100, 1, 200) == 0;
  }

  /** The load effect's copy of a saved snapshot: every field as saved, except
      that a falsy previousVolume (0) falls back to the settings volume. */
  function Restore(saved: Session, settingsVolume: int): (r: Session)
    ensures r.(previousVolume := saved.previousVolume) == saved
    ensures r.previousVolume == (if saved.previousVolume == 0 then settingsVolume else saved.previousVolume)
  {
    saved.(previousVolume := if saved.previousVolume != 0 then saved.previousVolume else settingsVolume)
  }

  /** Save then load reproduces the snapshot exactly when the fallback does not
      apply, or applies with a settings volume of 0. */
  lemma RestoreRoundTrip(s: Session, settingsVolume: int)
    ensures Restore(s, settingsVolume) == s <==> s.previousVolume != 0 || settingsVolume == 0
  {
    if Restore(s, settingsVolume) == s {
      assert Restore(s, settingsVolume).previousVolume == s.previousVolume;
    }
  }

  /** What mounting the page does, given the storage contents and the settings
      volume at that moment. */
  datatype Mounted = Mounted(threw: bool, session: Session, items: map<string, Entry>)

  /** The effects in declaration order: load (which throws on text that is not
      JSON, and then nothing else runs); save; the settings-to-player volume sync;
      the player-to-settings volume sync (a no-op, the volumes being equal); and
      the save effect again, since the loaded fields changed its dependencies. */
  function MountResult(items: map<string, Entry>, settingsVolume: int): (r: Mounted)
    ensures r.threw <==> ReadSnapshot(items).Unparsable?
    ensures r.threw ==> r.session == Initial(settingsVolume) && r.items == items
    ensures !r.threw ==> r.items == items[PlayerKey := PlayerEntry(r.session)]
    ensures r.session.volume == settingsVolume
    ensures ReadSnapshot(items).NoSnapshot? ==> r.session == Initial(settingsVolume)
    ensures ReadSnapshot(items).Saved? ==> r.session == Restore(ReadSnapshot(items).session, settingsVolume).(volume := settingsVolume)
  {
    match ReadSnapshot(items)
    case Unparsable => Mounted(true, Initial(settingsVolume), items)
    case NoSnapshot => Mounted(false, Initial(settingsVolume), items[PlayerKey := PlayerEntry(Initial(settingsVolume))])
    case Saved(s) =>
      var st := Restore(s, settingsVolume).(volume := settingsVolume);
      Mounted(false, st, items[PlayerKey := PlayerEntry(st)])
  }

  /** Mounting resumes the saved session: every field but the volume, which the
      settings volume overrides, and previousVolume, which falls back to it when 0. */
  lemma MountResumes(items: map<string, Entry>, s: Session, settingsVolume: int)
    requires PlayerKey in items && items[PlayerKey] == PlayerEntry(s)
    ensures !MountResult(items, settingsVolume).threw
    ensures MountResult(items, settingsVolume).session
            == Restore(s, settingsVolume).(volume := settingsVolume)
  {
  }

  /** The volume bar and the reload path keep a session in range as well, given a
      settings volume in [0, 100]: the click gives a percentage, and the fallbacks
      and the re-sync take the settings volume. */
  lemma ClickAndMountKeepRange(s: Session, x: int, width: int, items: map<string, Entry>, settingsVolume: int)
    requires InRange(s, Duration) && 0 <= x <= width && width > 0
    requires 0 <= settingsVolume <= 100
    requires ReadSnapshot(items).Saved? ==> InRange(ReadSnapshot(items).session, Duration)
    ensures InRange(VolumeClick(s, x, width), Duration)
    ensures InRange(Restore(s, settingsVolume), Duration)
    ensures InRange(MountResult(items, settingsVolume).session, Duration)
  {
  }

  /** Hence a snapshot written by the bar's fullscreen button is resumed on the
      page, flags and position included. */
  lemma ResumesBarSnapshot(items: map<string, Entry>, m: Session, settingsVolume: int)
    ensures var r := MountResult(items[PlayerKey := PlayerEntry(ExitSnapshot(m))], settingsVolume).session;
            r.isPlaying == m.isPlaying && r.progress == m.progress && r.isMuted == m.isMuted
            && r.isFavorite == m.isFavorite && r.isShuffleOn == m.isShuffleOn
            && r.isRepeatOn == m.isRepeatOn && r.visualizerType == m.visualizerType
  {
    MountResumes(items[PlayerKey := PlayerEntry(ExitSnapshot(m))], ExitSnapshot(m), settingsVolume);
  }

  /** From 3:30, playing without repeat: three ticks reach 3:33 still playing,
      the fourth stops the player at 0:00. */
  lemma EndOfTrackScenario(s: Session)
    requires s.isPlaying && !s.isRepeatOn && s.progress == 210
    ensures Ticks(s, 3, Duration).progress == 213 && Ticks(s, 3, Duration).isPlaying
    ensures Ticks(s, 4, Duration).progress == 0 && !Ticks(s, 4, Duration).isPlaying
  {
    PlaysToEndThenStops(s, Duration);
  }

  /** Muting, once synced to the settings store, writes volume 0 into the settings. */
  lemma MuteWritesZeroToSettings(s: Session, a: AppSettings)
    requires !s.isMuted
    ensures Settings.Merge(a, Settings.VolumeOnly(ToggleMute(s).volume)).volume == 0
  {
  }

  class Player {
    const storage: LocalStorage
    const settings: Settings.SettingsStore

    var isPlaying: bool
    var progress: int
    var volume: int
    var isMuted: bool
    var isFavorite: bool
    var isShuffleOn: bool
    var isRepeatOn: bool
    var visualizerType: Visualizer
    var previousVolume: int

    /** The nine fields as one session value. */
    function Current(): Session
      reads this
    {
      Session(isPlaying, progress, volume, isMuted, isFavorite, isShuffleOn, isRepeatOn,
              visualizerType, previousVolume)
    }

    constructor (storage: LocalStorage, settings: Settings.SettingsStore)
      ensures this.storage == storage && this.settings == settings
      ensures Current() == Initial(settings.settings.volume)
    {
      this.storage := storage;
      this.settings := settings;
      isPlaying, progress, volume, isMuted := false, 0, settings.settings.volume, false;
      isFavorite, isShuffleOn, isRepeatOn := false, false, false;
      visualizerType, previousVolume := Lottie, settings.settings.volume;
    }

    method TogglePlay()
      modifies this
      ensures Current() == PlayerCore.TogglePlay(old(Current()))
    {
      isPlaying := !isPlaying;
    }

    method ToggleFavorite()
      modifies this
      ensures Current() == PlayerCore.ToggleFavorite(old(Current()))
    {
      isFavorite := !isFavorite;
    }

    method ToggleMute()
      modifies this
      ensures Current() == PlayerCore.ToggleMute(old(Current()))
    {
      if isMuted {
        isMuted := false;
        volume := previousVolume;
      } else {
        previousVolume := volume;
        isMuted := true;
        volume := 0;
      }
    }

    method ToggleShuffle()
      modifies this
      ensures Current() == PlayerCore.ToggleShuffle(old(Current()))
    {
      isShuffleOn := !isShuffleOn;
    }

    method ToggleRepeat()
      modifies this
      ensures Current() == PlayerCore.ToggleRepeat(old(Current()))
    {
      isRepeatOn := !isRepeatOn;
    }

    method ToggleVisualizerType()
      modifies this
      ensures Current() == PlayerCore.ToggleVisualizerType(old(Current()))
    {
      visualizerType := NextVisualizer(visualizerType);
    }

    method SkipPrevious()
      modifies this
      ensures Current() == Skip(old(Current()))
    {
      progress := 0;
      if !isPlaying {
        isPlaying := true;
      }
    }

    method SkipNext()
      modifies this
      ensures Current() == Skip(old(Current()))
    {
      progress := 0;
      if !isPlaying {
        isPlaying := true;
      }
    }

    /** handleProgressClick: seek to the clicked fraction of the 213 seconds. */
    method HandleProgressClick(x: int, width: int)
      requires 0 <= x <= width && width > 0
      modifies this
      ensures Current() == old(Current()).(progress := ClickPosition(Duration, x, width))
      ensures 0 <= progress <= Duration
    {
      progress := ClickPosition(Duration, x, width);
    }

    method HandleVolumeClick(x: int, width: int)
      requires 0 <= x <= width && width > 0
      modifies this
      ensures Current() == VolumeClick(old(Current()), x, width)
    {
      var v := ClickPosition(100, x, width);
      volume := v;
      if x > 0 && isMuted {
        isMuted := false;
        previousVolume := v;
      }
    }

    /** One firing of the one-second interval. */
    method Tick()
      modifies this
      ensures Current() == PlayerCore.Tick(old(Current()), Duration)
    {
      if isPlaying {
        if progress >= Duration {
          if isRepeatOn {
            progress := 0;
          } else {
            isPlaying := false;
            progress := 0;
          }
        } else {
          progress := progress + 1;
        }
      }
    }

    /** Load effect: copy a saved snapshot into the fields; JSON.parse throws on
        text that is not a snapshot, and the fields stay as they are. */
    method LoadEffect() returns (threw: bool)
      modifies this
      ensures threw <==> ReadSnapshot(storage.items).Unparsable?
      ensures Current() == match ReadSnapshot(storage.items)
                           case Saved(s) => Restore(s, settings.settings.volume)
                           case _ => old(Current())
    {
      threw := false;
      match ReadSnapshot(storage.items)
      case Unparsable => threw := true;
      case NoSnapshot =>
      case Saved(s) =>
        isPlaying, progress, volume, isMuted := s.isPlaying, s.progress, s.volume, s.isMuted;
        isFavorite, isShuffleOn, isRepeatOn := s.isFavorite, s.isShuffleOn, s.isRepeatOn;
        visualizerType := s.visualizerType;
        previousVolume := if s.previousVolume != 0 then s.previousVolume else settings.settings.volume;
    }

    /** Save effect: write the nine fields under "playerState". */
    method SaveEffect()
      modifies storage
      ensures storage.items == old(storage.items)[PlayerKey := PlayerEntry(Current())]
    {
      storage.SetItem(PlayerKey, PlayerEntry(Current()));
    }

    /** A change of the settings volume overwrites the player's volume. */
    method SyncVolumeFromSettings()
      modifies this
      ensures Current() == old(Current()).(volume := settings.settings.volume)
    {
      volume := settings.settings.volume;
    }

    /** A player volume that differs from the settings volume is written into
        the settings (muted or not), so that afterwards the two agree. */
    method SaveVolumeToSettings()
      modifies settings, settings.storage
      ensures settings.settings == old(settings.settings).(volume := volume)
      ensures settings.storage.items
              == if old(settings.settings.volume) == volume then old(settings.storage.items)
                 else old(settings.storage.items)[Settings.SettingsKey := SettingsEntry(settings.settings)]
      ensures settings.darkClass == old(settings.darkClass) && settings.lightClass == old(settings.lightClass)
    {
      if volume != settings.settings.volume {
        settings.UpdateSettings(Settings.VolumeOnly(volume));
      }
    }

    /** The page's mount: its effects in declaration order, and the save effect
        once more because the first ones changed what it depends on. */
    method Mount() returns (threw: bool)
      requires settings.storage == storage
      requires Current() == Initial(settings.settings.volume)
      modifies this, storage, settings
      ensures var m := MountResult(old(storage.items), old(settings.settings.volume));
              threw == m.threw && Current() == m.session && storage.items == m.items
      ensures settings.settings == old(settings.settings)
      ensures settings.darkClass == old(settings.darkClass) && settings.lightClass == old(settings.lightClass)
    {
      threw := LoadEffect();
      if threw {
        return;
      }
      SaveEffect();
      SyncVolumeFromSettings();
      SaveVolumeToSettings();
      SaveEffect();
    }

    /** handleBackClick: the exit snapshot, written just before navigating back. */
    method HandleBackClick()
      modifies storage
      ensures storage.items == old(storage.items)[PlayerKey := PlayerEntry(ExitSnapshot(Current()))]
    {
      storage.SetItem(PlayerKey, PlayerEntry(ExitSnapshot(Current())));
    }
  }
}
