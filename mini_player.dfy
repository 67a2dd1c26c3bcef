/** The inline player bar: a track of 180 seconds starting at 0:30, the shared
    transitions, a volume handler that does not touch previousVolume, a save
    effect declared before the load effect, and the snapshot written by the
    fullscreen button before it opens the full-page player. */
module MiniPlayer {
  import opened Storage
  import opened PlayerCore
  import Settings

  /** The bar's hard-coded track length. */
  const Duration := 180

  /** The useState initial values: position 0:30, volumes from settings. */
  function Initial(settingsVolume: int): (s: Session)
    ensures !s.isPlaying && s.progress == 30 && !s.isMuted
    ensures s.volume == settingsVolume && s.previousVolume == settingsVolume
    ensures !s.isFavorite && !s.isShuffleOn && !s.isRepeatOn && s.visualizerType == Lottie
  {
    Session(false, 30, settingsVolume, false, false, false, false, Lottie, settingsVolume)
  }

  /** handleVolumeChange: the clicked percentage, unmuting on a click right of
      the left edge; previousVolume is left as it was. */
  function VolumeChange(s: Session, x: int, width: int): (r: Session)
    requires 0 <= x <= width && width > 0
    ensures r.volume == ClickPosition(100, x, width) && 0 <= r.volume <= 100
    ensures r.isMuted <==> s.isMuted && x == 0
    ensures r.(volume := s.volume, isMuted := s.isMuted) == s
  {
    var v := ClickPosition(100, x, width);
    if x > 0 && s.isMuted then s.(volume := v, isMuted := false) else s.(volume := v)
  }

  /** Because previousVolume is kept, a mute round trip after an unmuting click
      returns to the clicked volume, not to the volume saved by the earlier mute. */
  lemma ClickThenMuteRoundTrip(s: Session, x: int, width: int)
    requires 0 < x <= width && s.isMuted
    ensures var c := VolumeChange(s, x, width);
            ToggleMute(ToggleMute(c)).volume == c.volume
            && ToggleMute(ToggleMute(c)).previousVolume == c.volume
            && c.previousVolume == s.previousVolume
  {
  }

  /** The volume handler and both mount orders keep a session in range, given a
      settings volume in [0, 100]. */
  lemma ClickAndMountKeepRange(s: Session, x: int, width: int, items: map<string, Entry>, settingsVolume: int)
    requires InRange(s, Duration) && 0 <= x <= width && width > 0
    requires 0 <= settingsVolume <= 100
    requires ReadSnapshot(items).Saved? ==> InRange(ReadSnapshot(items).session, Duration)
    ensures InRange(VolumeChange(s, x, width), Duration)
    ensures InRange(MountAsWritten(items, settingsVolume).session, Duration)
    ensures InRange(MountLoadFirst(items, settingsVolume).session, Duration)
  {
  }

  /** From 2:57 playing without repeat: three ticks to 3:00, the fourth stops. */
  lemma EndOfTrackScenario(s: Session)
    requires s.isPlaying && !s.isRepeatOn && s.progress == 177
    ensures Ticks(s, 3, Duration).progress == 180 && Ticks(s, 3, Duration).isPlaying
    ensures Ticks(s, 4, Duration).progress == 0 && !Ticks(s, 4, Duration).isPlaying
  {
    PlaysToEndThenStops(s, Duration);
  }

  datatype Mounted = Mounted(threw: bool, session: Session, items: map<string, Entry>)

  /** The bar's mount as written: save (the initial fields), then load (which
      reads back what save just wrote), then the two volume syncs (no-ops, the
      volumes being equal). */
  function MountAsWritten(items: map<string, Entry>, settingsVolume: int): (r: Mounted)
    ensures !r.threw
  {
    var written := items[PlayerKey := PlayerEntry(Initial(settingsVolume))];
    SaveThenRead(items, Initial(settingsVolume));
    var loaded := ReadSnapshot(written).session;
    Mounted(false, loaded.(volume := settingsVolume), written)
  }

  /** As written, mounting never resumes anything: whatever was stored, the bar
      ends in its initial state, and the stored snapshot is overwritten by it. */
  lemma MountDiscardsSaved(items: map<string, Entry>, settingsVolume: int)
    ensures MountAsWritten(items, settingsVolume).session == Initial(settingsVolume)
    ensures MountAsWritten(items, settingsVolume).items
            == items[PlayerKey := PlayerEntry(Initial(settingsVolume))]
  {
    SaveThenRead(items, Initial(settingsVolume));
  }

  /** A concrete instance: a session saved at 1:40, playing and on repeat,
      comes back as a stopped player at 0:30. */
  lemma MountDiscardsExample()
    ensures var saved := Session(true, 100, 50, false, true, true, true, Bars, 50);
            var m := MountAsWritten(map[PlayerKey := PlayerEntry(saved)], 50);
            m.session.progress == 30 && !m.session.isPlaying && m.session != saved
  {
    MountDiscardsSaved(map[PlayerKey := PlayerEntry(Session(true, 100, 50, false, true, true, true, Bars, 50))], 50);
  }

  /** The evidently intended mount: load before save, as the full-page player
      declares them; JSON.parse throws on text that is not a snapshot. */
  function MountLoadFirst(items: map<string, Entry>, settingsVolume: int): (r: Mounted)
    ensures r.threw ==> r.items == items
    ensures !r.threw ==> r.items == items[PlayerKey := PlayerEntry(r.session)]
    ensures r.session.volume == settingsVolume
  {
    match ReadSnapshot(items)
    case Unparsable => Mounted(true, Initial(settingsVolume), items)
    case NoSnapshot =>
      Mounted(false, Initial(settingsVolume), items[PlayerKey := PlayerEntry(Initial(settingsVolume))])
    case Saved(s) =>
      var st := s.(volume := settingsVolume);
      Mounted(false, st, items[PlayerKey := PlayerEntry(st)])
  }

  /** Loading first resumes a saved session in every field but the volume, which
      the settings volume overrides; with nothing saved it keeps the initial
      state; and it persists what it resumed. */
  lemma MountLoadFirstResumes(items: map<string, Entry>, settingsVolume: int)
    ensures var m := MountLoadFirst(items, settingsVolume);
            (m.threw <==> ReadSnapshot(items).Unparsable?)
            && (ReadSnapshot(items).Saved? ==> m.session == ReadSnapshot(items).session.(volume := settingsVolume))
            && (ReadSnapshot(items).NoSnapshot? ==> m.session == Initial(settingsVolume))
            && (!m.threw ==> m.items == items[PlayerKey := PlayerEntry(m.session)])
  {
  }

  /** In particular the page's exit snapshot is resumed by the corrected bar,
      all fields but the volume intact. */
  lemma MountLoadFirstResumesPageSnapshot(items: map<string, Entry>, s: Session, settingsVolume: int)
    ensures MountLoadFirst(items[PlayerKey := PlayerEntry(ExitSnapshot(s))], settingsVolume).session
            == s.(volume := settingsVolume)
  {
  }

  class MusicPlayer {
    const storage: LocalStorage
    const settings: Settings.SettingsStore

    var isPlaying: bool
    var progress: int
    var volume: int
    var isMuted: bool
    var isFavorite: bool
    var isShuffleOn: bool
    var isRepeatOn: bool
    var visualizerType: Visualizer
    var previousVolume: int

    /** The nine fields as one session value. */
    function Current(): Session
      reads this
    {
      Session(isPlaying, progress, volume, isMuted, isFavorite, isShuffleOn, isRepeatOn,
              visualizerType, previousVolume)
    }

    constructor (storage: LocalStorage, settings: Settings.SettingsStore)
      ensures this.storage == storage && this.settings == settings
      ensures Current() == Initial(settings.settings.volume)
    {
      this.storage := storage;
      this.settings := settings;
      isPlaying, volume, isMuted, progress := false, settings.settings.volume, false, 30;
      isFavorite, isShuffleOn, isRepeatOn := false, false, false;
      visualizerType, previousVolume := Lottie, settings.settings.volume;
    }

    method TogglePlay()
      modifies this
      ensures Current() == PlayerCore.TogglePlay(old(Current()))
    {
      isPlaying := !isPlaying;
    }

    method ToggleFavorite()
      modifies this
      ensures Current() == PlayerCore.ToggleFavorite(old(Current()))
    {
      isFavorite := !isFavorite;
    }

    method ToggleMute()
      modifies this
      ensures Current() == PlayerCore.ToggleMute(old(Current()))
    {
      if isMuted {
        isMuted := false;
        volume := previousVolume;
      } else {
        previousVolume := volume;
        isMuted := true;
        volume := 0;
      }
    }

    method ToggleShuffle()
      modifies this
      ensures Current() == PlayerCore.ToggleShuffle(old(Current()))
    {
      isShuffleOn := !isShuffleOn;
    }

    method ToggleRepeat()
      modifies this
      ensures Current() == PlayerCore.ToggleRepeat(old(Current()))
    {
      isRepeatOn := !isRepeatOn;
    }

    method ToggleVisualizerType()
      modifies this
      ensures Current() == PlayerCore.ToggleVisualizerType(old(Current()))
    {
      visualizerType := NextVisualizer(visualizerType);
    }

    method SkipPrevious()
      modifies this
      ensures Current() == Skip(old(Current()))
    {
      progress := 0;
      if !isPlaying {
        isPlaying := true;
      }
    }

    method SkipNext()
      modifies this
      ensures Current() == Skip(old(Current()))
    {
      progress := 0;
      if !isPlaying {
        isPlaying := true;
      }
    }

    /** handleProgressClick (defined, though no element of the bar calls it). */
    method HandleProgressClick(x: int, width: int)
      requires 0 <= x <= width && width > 0
      modifies this
      ensures Current() == old(Current()).(progress := ClickPosition(Duration, x, width))
      ensures 0 <= progress <= Duration
    {
      progress := ClickPosition(Duration, x, width);
    }

    /** handleVolumeChange (defined, though no element of the bar calls it). */
    method HandleVolumeChange(x: int, width: int)
      requires 0 <= x <= width && width > 0
      modifies this
      ensures Current() == VolumeChange(old(Current()), x, width)
    {
      volume := ClickPosition(100, x, width);
      if x > 0 && isMuted {
        isMuted := false;
      }
    }

    /** One firing of the one-second interval. */
    method Tick()
      modifies this
      ensures Current() == PlayerCore.Tick(old(Current()), Duration)
    {
      if isPlaying {
        if progress >= 180 {
          if isRepeatOn {
            progress := 0;
          } else {
            isPlaying := false;
            progress := 0;
          }
        } else {
          progress := progress + 1;
        }
      }
    }

    /** Save effect: write the nine fields under "playerState". */
    method SaveEffect()
      modifies storage
      ensures storage.items == old(storage.items)[PlayerKey := PlayerEntry(Current())]
    {
      storage.SetItem(PlayerKey, PlayerEntry(Current()));
    }

    /** Load effect: copy a saved snapshot into the fields, previousVolume
        included and without fallback; JSON.parse throws on other text. */
    method LoadEffect() returns (threw: bool)
      modifies this
      ensures threw <==> ReadSnapshot(storage.items).Unparsable?
      ensures Current() == match ReadSnapshot(storage.items)
                           case Saved(s) => s
                           case _ => old(Current())
    {
      threw := false;
      match ReadSnapshot(storage.items)
      case Unparsable => threw := true;
      case NoSnapshot =>
      case Saved(s) =>
        isPlaying, progress, volume, isMuted := s.isPlaying, s.progress, s.volume, s.isMuted;
        isFavorite, isShuffleOn, isRepeatOn := s.isFavorite, s.isShuffleOn, s.isRepeatOn;
        visualizerType, previousVolume := s.visualizerType, s.previousVolume;
    }

    /** A change of the settings volume overwrites the player's volume. */
    method SyncVolumeFromSettings()
      modifies this
      ensures Current() == old(Current()).(volume := settings.settings.volume)
    {
      volume := settings.settings.volume;
    }

    /** A player volume that differs from the settings volume is written into
        the settings, so that afterwards the two agree. */
    method SaveVolumeToSettings()
      modifies settings, settings.storage
      ensures settings.settings == old(settings.settings).(volume := volume)
      ensures settings.storage.items
              == if old(settings.settings.volume) == volume then old(settings.storage.items)
                 else old(settings.storage.items)[Settings.SettingsKey := SettingsEntry(settings.settings)]
      ensures settings.darkClass == old(settings.darkClass) && settings.lightClass == old(settings.lightClass)
    {
      if volume != settings.settings.volume {
        settings.UpdateSettings(Settings.VolumeOnly(volume));
      }
    }

    /** The bar's mount: its effects in declaration order, save first. */
    method Mount()
      requires settings.storage == storage
      requires Current() == Initial(settings.settings.volume)
      modifies this, storage, settings
      ensures var m := MountAsWritten(old(storage.items), old(settings.settings.volume));
              Current() == m.session && storage.items == m.items
      ensures settings.settings == old(settings.settings)
      ensures settings.darkClass == old(settings.darkClass) && settings.lightClass == old(settings.lightClass)
    {
      SaveEffect();
      var threw := LoadEffect();
      SyncVolumeFromSettings();
      SaveVolumeToSettings();
    }

    /** toggleFullscreen: when not yet fullscreen, write the exit snapshot before
        opening the full-page player; when fullscreen, only leave fullscreen. */
    method ToggleFullscreen(inFullscreen: bool)
      modifies storage
      ensures storage.items == if inFullscreen then old(storage.items)
                               else old(storage.items)[PlayerKey := PlayerEntry(ExitSnapshot(Current()))]
    {
      if !inFullscreen {
        storage.SetItem(PlayerKey, PlayerEntry(ExitSnapshot(Current())));
      }
    }
  }
}
