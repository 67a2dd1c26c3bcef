/** The transitions of a player session that the full-page player and the inline
    player bar share word for word: the flag toggles, mute, the visualizer cycle,
    skip, the once-per-second tick, click-to-position arithmetic, the exit snapshot,
    reading the "playerState" entry and the m:ss time format. Each view's class
    applies these to its own nine fields. */
module PlayerCore {
  import opened Storage
  import Text

  const PlayerKey := "playerState"

  // ---------------------------------------------------------------------------
  // Flag toggles: each flips one field and leaves the other eight alone.

  function TogglePlay(s: Session): (r: Session)
    ensures r.isPlaying != s.isPlaying && r.(isPlaying := s.isPlaying) == s
  {
    s.(isPlaying := !s.isPlaying)
  }

  function ToggleFavorite(s: Session): (r: Session)
    ensures r.isFavorite != s.isFavorite && r.(isFavorite := s.isFavorite) == s
  {
    s.(isFavorite := !s.isFavorite)
  }

  function ToggleShuffle(s: Session): (r: Session)
    ensures r.isShuffleOn != s.isShuffleOn && r.(isShuffleOn := s.isShuffleOn) == s
  {
    s.(isShuffleOn := !s.isShuffleOn)
  }

  function ToggleRepeat(s: Session): (r: Session)
    ensures r.isRepeatOn != s.isRepeatOn && r.(isRepeatOn := s.isRepeatOn) == s
  {
    s.(isRepeatOn := !s.isRepeatOn)
  }

  /** Pressing any of the four flag buttons twice changes nothing. */
  lemma TogglesAreInvolutions(s: Session)
    ensures TogglePlay(TogglePlay(s)) == s
    ensures ToggleFavorite(ToggleFavorite(s)) == s
    ensures ToggleShuffle(ToggleShuffle(s)) == s
    ensures ToggleRepeat(ToggleRepeat(s)) == s
  {
  }

  // ---------------------------------------------------------------------------
  // Visualizer cycle.

  /** The functional updater passed to setVisualizerType. */
  function NextVisualizer(v: Visualizer): (r: Visualizer)
    ensures r != v
  {
    match v
    case Bars => Lottie
    case Lottie => Animated
    case Animated => Bars
  }

  function ToggleVisualizerType(s: Session): (r: Session)
    ensures r.visualizerType == NextVisualizer(s.visualizerType)
    ensures r.(visualizerType := s.visualizerType) == s
  {
    s.(visualizerType := NextVisualizer(s.visualizerType))
  }

  /** bars, lottie, animated, bars: three presses visit every variant once and
      return to the start. */
  lemma VisualizerCycle(s: Session)
    ensures var s1 := ToggleVisualizerType(s);
            var s2 := ToggleVisualizerType(s1);
            ToggleVisualizerType(s2) == s
            && {s.visualizerType, s1.visualizerType, s2.visualizerType} == {Bars, Lottie, Animated}
    ensures s.visualizerType == Bars ==> ToggleVisualizerType(s).visualizerType == Lottie
    ensures s.visualizerType == Lottie ==> ToggleVisualizerType(s).visualizerType == Animated
    ensures s.visualizerType == Animated ==> ToggleVisualizerType(s).visualizerType == Bars
  {
  }

  // ---------------------------------------------------------------------------
  // Mute.

  /** Muting saves the volume in previousVolume and silences; unmuting restores it. */
  function ToggleMute(s: Session): (r: Session)
    ensures r.isMuted != s.isMuted
    ensures r.isMuted ==> r.volume == 0 && r.previousVolume == s.volume
    ensures !r.isMuted ==> r.volume == s.previousVolume && r.previousVolume == s.previousVolume
    ensures r.(isMuted := s.isMuted, volume := s.volume, previousVolume := s.previousVolume) == s
  {
    if s.isMuted then s.(isMuted := false, volume := s.previousVolume)
    else s.(previousVolume := s.volume, isMuted := true, volume := 0)
  }

  /** Mute then unmute gives back the volume exactly, unmuted, with that volume
      recorded as previousVolume; unmute then mute is the identity exactly when
      the muted volume was 0. */
  lemma MuteRoundTrip(s: Session)
    ensures !s.isMuted ==> ToggleMute(ToggleMute(s)) == s.(previousVolume := s.volume)
    ensures s.isMuted ==> (ToggleMute(ToggleMute(s)) == s <==> s.volume == 0)
  {
  }

  // ---------------------------------------------------------------------------
  // Skip (simulated: there is no track list).

  /** skipPrevious and skipNext: restart the track and play. */
  function Skip(s: Session): (r: Session)
    ensures r.progress == 0 && r.isPlaying
    ensures r.(progress := s.progress, isPlaying := s.isPlaying) == s
  {
    if !s.isPlaying then s.(progress := 0, isPlaying := true) else s.(progress := 0)
  }

  /** Skipping twice is the same as skipping once. */
  lemma SkipIdempotent(s: Session)
    ensures Skip(Skip(s)) == Skip(s)
  {
  }

  // ---------------------------------------------------------------------------
  // The once-per-second tick.

  /** The body of the interval callback. The interval exists only while playing,
      so a tick while stopped changes nothing. */
  function Tick(s: Session, duration: int): (r: Session)
    ensures r.(progress := s.progress, isPlaying := s.isPlaying) == s
    ensures !s.isPlaying ==> r == s
    ensures s.isPlaying && s.progress < duration ==> r.progress == s.progress + 1
    ensures s.isPlaying && s.progress >= duration ==> r.progress == 0
    ensures r.isPlaying != s.isPlaying <==> s.isPlaying && !s.isRepeatOn && s.progress >= duration
  {
    if !s.isPlaying then s
    else if s.progress >= duration then
      (if s.isRepeatOn then s.(progress := 0) else s.(isPlaying := false, progress := 0))
    else s.(progress := s.progress + 1)
  }

  /** The session after n ticks. */
  function Ticks(s: Session, n: nat, duration: int): Session
  {
    if n == 0 then s else Tick(Ticks(s, n - 1, duration), duration)
  }

  /** While below the end, each tick adds one second and nothing else changes. */
  lemma {:induction false} TicksAdvance(s: Session, k: nat, duration: int)
    requires s.isPlaying && s.progress + k <= duration
    ensures Ticks(s, k, duration) == s.(progress := s.progress + k)
  {
    if k > 0 {
      TicksAdvance(s, k - 1, duration);
    }
  }

  /** Without repeat: from p <= duration the track plays to exactly `duration`
      after duration - p ticks, still playing, and the next tick stops it at 0. */
  lemma PlaysToEndThenStops(s: Session, duration: int)
    requires s.isPlaying && !s.isRepeatOn && 0 <= s.progress <= duration
    ensures Ticks(s, duration - s.progress, duration) == s.(progress := duration)
    ensures Ticks(s, duration - s.progress + 1, duration) == s.(progress := 0, isPlaying := false)
  {
    TicksAdvance(s, duration - s.progress, duration);
  }

  /** With repeat: the same run ends at 0 still playing, and from 0 the session
      comes back to itself every duration + 1 ticks. */
  lemma RepeatLoops(s: Session, duration: int)
    requires s.isPlaying && s.isRepeatOn && 0 <= s.progress <= duration
    ensures Ticks(s, duration - s.progress + 1, duration) == s.(progress := 0)
    ensures s.progress == 0 ==> Ticks(s, duration + 1, duration) == s
  {
    TicksAdvance(s, duration - s.progress, duration);
  }

  /** A playing position already past the end (a snapshot taken by a view whose
      track is longer) is reset by the very next tick. */
  lemma PastEndResets(s: Session, duration: int)
    requires s.isPlaying && s.progress > duration
    ensures Tick(s, duration).progress == 0
    ensures Tick(s, duration).isPlaying == s.isRepeatOn
  {
  }

  /** No number of ticks moves a stopped session. */
  lemma {:induction false} StoppedIsIdle(s: Session, n: nat, duration: int)
    requires !s.isPlaying
    ensures Ticks(s, n, duration) == s
  {
    if n > 0 {
      StoppedIsIdle(s, n - 1, duration);
    }
  }

  // ---------------------------------------------------------------------------
  // Click position: `Math.floor(scale * (x / width))` for the click offset x
  // inside a bar of width `width`.

  lemma FloorBounds(scale: nat, x: int, width: int)
    requires 0 <= x <= width && width > 0
    ensures 0 <= scale * x / width <= scale
  {
    var q := scale * x / width;
    assert 0 <= scale * x <= scale * width by {
      assert scale * width - scale * x == scale * (width - x);
    }
    assert q * width <= scale * x;
    assert (q - scale) * width <= 0 by {
      assert (q - scale) * width == q * width - scale * width;
    }
  }

  function ClickPosition(scale: nat, x: int, width: int): (r: int)
    requires 0 <= x <= width && width > 0
    ensures 0 <= r <= scale
    ensures r * width <= scale * x < (r + 1) * width
  {
    FloorBounds(scale, x, width);
    scale * x / width
  }

  lemma MulCancel(a: int, b: int, w: int)
    requires w > 0
    ensures a * w < b * w ==> a < b
    ensures a * w <= b * w ==> a <= b
  {
  }

  lemma MulMonotone(a: int, b: int, w: int)
    requires a <= b && w >= 0
    ensures w * a <= w * b
  {
  }

  /** The two ends of the bar give the two ends of the scale. */
  lemma ClickPositionEnds(scale: nat, width: int)
    requires width > 0
    ensures ClickPosition(scale, 0, width) == 0
    ensures ClickPosition(scale, width, width) == scale
  {
    var r := ClickPosition(scale, width, width);
    MulCancel(r, scale, width);
    MulCancel(scale, r + 1, width);
  }

  /** Clicking further right never gives an earlier position. */
  lemma ClickPositionMonotone(scale: nat, x: int, y: int, width: int)
    requires 0 <= x <= y <= width && width > 0
    ensures ClickPosition(scale, x, width) <= ClickPosition(scale, y, width)
  {
    var a, b := ClickPosition(scale, x, width), ClickPosition(scale, y, width);
    MulMonotone(x, y, scale);
    MulCancel(a, b + 1, width);
  }

  // ---------------------------------------------------------------------------
  // Snapshots.

  /** The snapshot a view writes just before handing over to the other view:
      the live state, except that a muted player records volume 0. */
  function ExitSnapshot(s: Session): (r: Session)
    ensures r.volume == (if s.isMuted then 0 else s.volume)
    ensures r.(volume := s.volume) == s
  {
    s.(volume := if s.isMuted then 0 else s.volume)
  }

  /** Once a player is muted its volume is already 0, so then the exit snapshot
      is the plain snapshot. */
  lemma ExitSnapshotOfMuted(s: Session)
    requires s.isMuted ==> s.volume == 0
    ensures ExitSnapshot(s) == s
  {
  }

  /** What the load effects find under "playerState". */
  datatype Snapshot = NoSnapshot | Unparsable | Saved(session: Session)

  function ReadSnapshot(items: map<string, Entry>): (r: Snapshot)
    ensures r.NoSnapshot? <==> Stored(items, PlayerKey).None?
    ensures r.Saved? <==> PlayerKey in items && items[PlayerKey].PlayerEntry?
    ensures r.Saved? ==> items[PlayerKey] == PlayerEntry(r.session)
  {
    match Stored(items, PlayerKey)
    case None => NoSnapshot
    case Some(PlayerEntry(s)) => Saved(s)
    case Some(_) => Unparsable
  }

  /** The save effect's write is read back by the next load, field for field. */
  lemma SaveThenRead(items: map<string, Entry>, s: Session)
    ensures ReadSnapshot(items[PlayerKey := PlayerEntry(s)]) == Saved(s)
  {
  }

  // ---------------------------------------------------------------------------
  // A well-formed session.

  /** Position within the track, volumes within the bar's 0..100. */
  predicate InRange(s: Session, duration: int) {
    0 <= s.progress <= duration && 0 <= s.volume <= 100 && 0 <= s.previousVolume <= 100
  }

  /** Every handler and the tick keep a session in range. */
  lemma TransitionsKeepRange(s: Session, duration: nat)
    requires InRange(s, duration)
    ensures InRange(TogglePlay(s), duration) && InRange(ToggleFavorite(s), duration)
    ensures InRange(ToggleShuffle(s), duration) && InRange(ToggleRepeat(s), duration)
    ensures InRange(ToggleVisualizerType(s), duration) && InRange(ToggleMute(s), duration)
    ensures InRange(Skip(s), duration) && InRange(Tick(s, duration), duration)
    ensures InRange(ExitSnapshot(s), duration)
  {
  }

  // ---------------------------------------------------------------------------
  // Time display.

  /** The seconds field: always two digits, and they read back as the value. */
  lemma PaddedSeconds(n: nat)
    requires n < 60
    ensures var ss := Text.PadStart2(Text.DecimalString(n));
            |ss| == 2 && Text.IsDigits(ss) && Text.DigitsValue(ss) == n
  {
    Text.DecimalRoundTrip(n);
    Text.LeadingZerosValue(Text.DecimalString(n));
  }

  lemma SplitAtColon(m: string, ss: string)
    requires |ss| == 2
    ensures var t := m + ":" + ss;
            |t| == |m| + 3 && t[..|t| - 3] == m && t[|t| - 3] == ':' && t[|t| - 2..] == ss
  {
  }

  /** formatTime: minutes, a colon, and the seconds padded to two digits. */
  function FormatTime(seconds: nat): (t: string)
    ensures |t| >= 4 && t[|t| - 3] == ':'
    ensures Text.IsDigits(t[..|t| - 3]) && Text.IsDigits(t[|t| - 2..])
    ensures Text.DigitsValue(t[|t| - 2..]) == seconds % 60 < 60
    ensures Text.DigitsValue(t[..|t| - 3]) == seconds / 60
    ensures t[..|t| - 3] == Text.DecimalString(seconds / 60)
  {
    var m := Text.DecimalString(seconds / 60);
    var ss := Text.PadStart2(Text.DecimalString(seconds % 60));
    Text.DecimalRoundTrip(seconds / 60);
    PaddedSeconds(seconds % 60);
    SplitAtColon(m, ss);
    m + ":" + ss
  }

  /** The minutes carry no leading zero: only a single minute digit may be '0'. */
  lemma MinutesWithoutLeadingZero(seconds: nat)
    ensures var t := FormatTime(seconds);
            |t| > 4 ==> t[0] != '0'
  {
    var t := FormatTime(seconds);
    if |t| > 4 {
      assert t[0] == t[..|t| - 3][0];
    }
  }

  /** Reads "m:ss" back into seconds; None for text of another shape. */
  function ParseTime(t: string): (r: Option<nat>)
    ensures r.Some? ==> |t| >= 4 && t[|t| - 3] == ':'
  {
    if |t| >= 4 && t[|t| - 3] == ':' && Text.IsDigits(t[..|t| - 3]) && Text.IsDigits(t[|t| - 2..])
       && Text.DigitsValue(t[|t| - 2..]) < 60
    then Some(Text.DigitsValue(t[..|t| - 3]) * 60 + Text.DigitsValue(t[|t| - 2..]))
    else None
  }

  /** The displayed time determines the position: formatTime loses nothing. */
  lemma FormatTimeRoundTrip(seconds: nat)
    ensures ParseTime(FormatTime(seconds)) == Some(seconds)
  {
  }

  /** Hence distinct positions are displayed differently. */
  lemma FormatTimeInjective(a: nat, b: nat)
    ensures FormatTime(a) == FormatTime(b) <==> a == b
  {
    FormatTimeRoundTrip(a);
    FormatTimeRoundTrip(b);
  }
}
