/** frontend/src/components/uploadForm/AudioPlayer.jsx: the player's state
    and the audio element it drives, its event handlers, and the clock
    text of formatTime. */
module AudioPlayer {
  import opened Decimal

  /** A JavaScript number as formatTime may receive it. */
  datatype Num = NaN | PosInf | NegInf | Finite(value: real)

  /** JavaScript's x % 60: the remainder of truncating division, with the
      sign of x. */
  function Rem60(x: real): (r: real)
    ensures x >= 0.0 ==> 0.0 <= r < 60.0
    ensures x < 0.0 ==> -60.0 < r <= 0.0
  {
    x - 60.0 * Trunc(x / 60.0) as real
  }

  /** formatTime(time): "0:00" for NaN and +Infinity, otherwise
      `${Math.floor(t / 60)}:${String(Math.floor(t % 60)).padStart(2, "0")}`. */
  function FormatTime(t: Num): string
  {
    match t
    case NaN => "0:00"
    case PosInf => "0:00"
    // Math.floor(-Infinity / 60) is -Infinity and -Infinity % 60 is NaN
    case NegInf => "-Infinity:NaN"
    case Finite(x) => IntToDecimal((x / 60.0).Floor) + ":" + PadStart2(IntToDecimal(Rem60(x).Floor))
  }

  /** For a time that is not negative, the two fields are whole minutes and
      the seconds 0..59 left over, together the whole seconds elapsed. */
  lemma ClockParts(x: real)
    requires x >= 0.0
    ensures var m, s := (x / 60.0).Floor, Rem60(x).Floor;
      && m >= 0 && 0 <= s < 60 && 60 * m + s == x.Floor
  {
    var q := (x / 60.0).Floor;
    assert Trunc(x / 60.0) == q;
    var r := Rem60(x);
    assert r == x - 60.0 * q as real;
    var f := x.Floor;
    assert (f - 60 * q) as real <= r < (f - 60 * q) as real + 1.0;
  }

  /** Reads "<minutes>:<two digits>" back as a number of seconds. */
  function ParseClock(s: string): Option<nat>
  {
    if |s| >= 4 && s[|s| - 3] == ':' && AllDigits(s[..|s| - 3]) && AllDigits(s[|s| - 2..])
    then Some(DecimalToNat(s[..|s| - 3]) * 60 + DecimalToNat(s[|s| - 2..]))
    else None
  }

  lemma PadSecondsValue(n: nat)
    requires n < 60
    ensures |PadStart2(NatToDecimal(n))| == 2 && AllDigits(PadStart2(NatToDecimal(n)))
    ensures DecimalToNat(PadStart2(NatToDecimal(n))) == n
  {
    NatToDecimalDigits(n);
    DecimalRoundTrip(n);
    var d := NatToDecimal(n);
    if n < 10 {
      var p := PadStart2(d);
      assert p == ['0'] + d;
      assert p[..1] == ['0'];
      assert DecimalToNat(['0']) == 0 by { assert ['0'][..0] == []; }
      assert d == [d[0]];
      assert DecimalToNat(d) == DigitValue(d[0]) by { assert d[..0] == []; }
    } else {
      NatToDecimalDigits(n / 10);
      assert |d| == 2;
    }
  }

  lemma ParseClockOf(mt: string, st: string)
    requires |mt| >= 1 && AllDigits(mt) && |st| == 2 && AllDigits(st)
    ensures ParseClock(mt + ":" + st) == Some(DecimalToNat(mt) * 60 + DecimalToNat(st))
  {
    var t := mt + ":" + st;
    assert |t| == |mt| + 3 && t[|t| - 3] == ':';
    assert t[..|t| - 3] == mt;
    assert t[|t| - 2..] == st;
  }

  /** "<m>:<ss>" reads back as 60 m + s. */
  lemma ClockTextValue(m: nat, sec: nat)
    requires sec < 60
    ensures ParseClock(NatToDecimal(m) + ":" + PadStart2(NatToDecimal(sec))) == Some(60 * m + sec)
  {
    NatToDecimalDigits(m);
    DecimalRoundTrip(m);
    PadSecondsValue(sec);
    ParseClockOf(NatToDecimal(m), PadStart2(NatToDecimal(sec)));
  }

  /** The clock text of a time that is not negative reads back as its whole
      seconds: formatTime loses only the fraction. */
  lemma FormatTimeRoundTrip(x: real)
    requires x >= 0.0
    ensures ParseClock(FormatTime(Finite(x))) == Some(x.Floor)
  {
    ClockParts(x);
    var m, sec := (x / 60.0).Floor, Rem60(x).Floor;
    assert FormatTime(Finite(x)) == NatToDecimal(m) + ":" + PadStart2(NatToDecimal(sec));
    ClockTextValue(m, sec);
  }

  /** Different whole seconds are shown differently. */
  lemma FormatTimeDistinguishes(x: real, y: real)
    requires x >= 0.0 && y >= 0.0 && x.Floor != y.Floor
    ensures FormatTime(Finite(x)) != FormatTime(Finite(y))
  {
    FormatTimeRoundTrip(x);
    FormatTimeRoundTrip(y);
  }

  /** An unknown or unbounded time reads like zero. */
  lemma FormatTimeNotFinite()
    ensures FormatTime(NaN) == FormatTime(PosInf) == FormatTime(Finite(0.0)) == "0:00"
  {
    assert FormatTime(Finite(0.0)) == "0" + ":" + "00" by {
      assert Rem60(0.0) == 0.0;
    }
  }

  /** The component's React state and the state of its <audio> element
      (pause flag, playback position, output volume). */
  datatype State = State(
    src: string,
    isPlaying: bool,
    currentTime: real,
    duration: real,
    volume: real,
    isMuted: bool,
    elementPaused: bool,
    elementTime: real,
    elementVolume: real)

  /** The state right after mounting with src; the reset effect that runs
      at mount finds everything already reset. */
  function Initial(src: string): State
  {
    State(src, false, 0.0, 0.0, 1.0, false, true, 0.0, 1.0)
  }

  /** What the handlers keep: the element is muted exactly when the player
      says so and otherwise plays at the stored volume, the volume lies in
      0..1, the element is paused whenever the button offers Play, and
      times are not negative. */
  predicate Inv(s: State)
  {
    && s.elementVolume == (if s.isMuted then 0.0 else s.volume)
    && 0.0 <= s.volume <= 1.0
    && (!s.isPlaying ==> s.elementPaused)
    && s.duration >= 0.0 && s.currentTime >= 0.0
  }

  /** The value the volume slider shows: isMuted ? 0 : volume. */
  function SliderVolume(s: State): real
  {
    if s.isMuted then 0.0 else s.volume
  }

  /** togglePlay; playSucceeds says whether the element's play() promise
      resolves (a rejection is only logged). */
  function PlayToggled(s: State, playSucceeds: bool): State
  {
    if s.src == [] then s
    else if s.isPlaying then s.(elementPaused := true, isPlaying := false)
    else s.(elementPaused := !playSucceeds, isPlaying := true)
  }

  /** handleTimeSliderChange for a click at offsetX in a slider width wide. */
  function SliderChange(s: State, offsetX: real, width: real): State
    requires width > 0.0
  {
    if s.duration == 0.0 then s
    else
      var time := (offsetX / width) * s.duration;
      s.(elementTime := time, currentTime := time)
  }

  /** handleVolumeChange with the slider's parsed value. */
  function VolumeChange(s: State, v: real): State
  {
    s.(volume := v, elementVolume := v, isMuted := v == 0.0)
  }

  /** toggleMute */
  function MuteToggled(s: State): State
  {
    if s.isMuted then s.(elementVolume := s.volume, isMuted := false)
    else s.(elementVolume := 0.0, isMuted := true)
  }

  /** The effect on [src]: with an element present (a non-empty src
      renders one) it is paused and reloaded and the state is reset. */
  function SrcChanged(s: State, newSrc: string): State
  {
    var t := s.(src := newSrc);
    if newSrc == [] then t
    else t.(elementPaused := true, elementTime := 0.0, isPlaying := false, currentTime := 0.0, duration := 0.0)
  }

  /** handleLoadedMetadata: a zero duration is falsy and ignored. */
  function LoadedMetadata(s: State, elementDuration: real): State
  {
    if elementDuration != 0.0 then s.(duration := elementDuration) else s
  }

  /** Playback moves the element to t and fires timeupdate; handleTimeUpdate
      ignores a zero (falsy) time. */
  function TimeUpdate(s: State, t: real): State
  {
    var moved := s.(elementTime := t);
    if t != 0.0 then moved.(currentTime := t) else moved
  }

  lemma InitialInv(src: string)
    ensures Inv(Initial(src)) && SliderVolume(Initial(src)) == 1.0
  {
  }

  /** The volume slider always shows the element's actual volume. */
  lemma SliderShowsElementVolume(s: State)
    requires Inv(s)
    ensures SliderVolume(s) == s.elementVolume
  {
  }

  /** With no source the button does nothing; with one it flips isPlaying,
      pauses the element when it was playing, and touches nothing else. */
  lemma TogglePlayEffect(s: State, playSucceeds: bool)
    ensures s.src == [] ==> PlayToggled(s, playSucceeds) == s
    ensures s.src != [] ==>
      var t := PlayToggled(s, playSucceeds);
      && t.isPlaying == !s.isPlaying
      && (s.isPlaying ==> t.elementPaused)
      && (!s.isPlaying ==> t.elementPaused == !playSucceeds)
      && t.(isPlaying := s.isPlaying, elementPaused := s.elementPaused) == s
  {
  }

  /** Two presses with a successful play() restore a consistent state. */
  lemma TogglePlayTwice(s: State)
    requires s.elementPaused == !s.isPlaying
    ensures PlayToggled(PlayToggled(s, true), true) == s
  {
  }

  /** A rejected play() leaves the button showing Pause over a paused
      element: isPlaying is flipped without waiting for the promise. */
  lemma TogglePlayRejected(s: State)
    requires s.src != [] && !s.isPlaying
    ensures PlayToggled(s, false).isPlaying && PlayToggled(s, false).elementPaused
  {
  }

  /** A seek is ignored while the duration is 0; otherwise a click inside
      the slider moves the player and the element to the same time, within
      0..duration and proportional to the click's offset. */
  lemma SliderChangeEffect(s: State, offsetX: real, width: real)
    requires width > 0.0
    ensures s.duration == 0.0 ==> SliderChange(s, offsetX, width) == s
    ensures s.duration > 0.0 && 0.0 <= offsetX <= width ==>
      var t := SliderChange(s, offsetX, width);
      && t.currentTime == t.elementTime
      && 0.0 <= t.currentTime <= s.duration
      && t.currentTime * width == offsetX * s.duration
      && t.(currentTime := s.currentTime, elementTime := s.elementTime) == s
  {
    if s.duration > 0.0 && 0.0 <= offsetX <= width {
      var f := offsetX / width;
      assert 0.0 <= f <= 1.0;
      MulBetween(s.duration, f);
    }
  }

  lemma MulBetween(d: real, f: real)
    requires d > 0.0 && 0.0 <= f <= 1.0
    ensures 0.0 <= f * d <= d
  {
    assert d - f * d == (1.0 - f) * d;
  }

  /** The new volume goes to both the state and the element, and the
      player is muted exactly when it is 0. */
  lemma VolumeChangeEffect(s: State, v: real)
    ensures var t := VolumeChange(s, v);
      && t.volume == v && t.elementVolume == v
      && (t.isMuted <==> v == 0.0)
      && t.(volume := s.volume, elementVolume := s.elementVolume, isMuted := s.isMuted) == s
  {
  }

  /** Muting silences the element, unmuting restores the stored volume, and
      neither changes the stored volume. */
  lemma ToggleMuteEffect(s: State)
    ensures MuteToggled(s).volume == s.volume
    ensures MuteToggled(s).isMuted == !s.isMuted
    ensures s.isMuted ==> MuteToggled(s).elementVolume == s.volume
    ensures !s.isMuted ==> MuteToggled(s).elementVolume == 0.0
  {
  }

  /** Muting and unmuting again returns to where the player was. */
  lemma ToggleMuteTwice(s: State)
    requires Inv(s)
    ensures MuteToggled(MuteToggled(s)) == s
  {
  }

  /** After sliding the volume to 0, unmuting keeps the element silent:
      the stored volume is the 0 that was slid to. */
  lemma UnmuteAfterSlidingToZero(s: State)
    ensures MuteToggled(VolumeChange(s, 0.0)).elementVolume == 0.0
    ensures !MuteToggled(VolumeChange(s, 0.0)).isMuted
  {
  }

  /** A new source stops playback and clears the position and duration
      while keeping the volume settings. */
  lemma SrcChangedEffect(s: State, newSrc: string)
    requires newSrc != []
    ensures var t := SrcChanged(s, newSrc);
      && t.src == newSrc && !t.isPlaying && t.elementPaused
      && t.currentTime == 0.0 && t.duration == 0.0 && t.elementTime == 0.0
      && t.volume == s.volume && t.isMuted == s.isMuted && t.elementVolume == s.elementVolume
  {
  }

  /** Metadata or playback at time zero leave the displayed values alone;
      any other value is taken over. */
  lemma EventsEffect(s: State, d: real, t: real)
    ensures LoadedMetadata(s, d).duration == (if d != 0.0 then d else s.duration)
    ensures LoadedMetadata(s, d).(duration := s.duration) == s
    ensures TimeUpdate(s, t).currentTime == (if t != 0.0 then t else s.currentTime)
    ensures TimeUpdate(s, t).elementTime == t
  {
  }

  /** Every handler keeps the invariant, for the values the controls and
      the element can produce. */
  lemma StepsKeepInv(s: State, playSucceeds: bool, offsetX: real, width: real, v: real, newSrc: string,
                     d: real, t: real)
    requires Inv(s)
    requires width > 0.0 && 0.0 <= offsetX <= width
    requires 0.0 <= v <= 1.0 && d >= 0.0 && t >= 0.0
    ensures Inv(PlayToggled(s, playSucceeds))
    ensures Inv(SliderChange(s, offsetX, width))
    ensures Inv(VolumeChange(s, v))
    ensures Inv(MuteToggled(s))
    ensures Inv(SrcChanged(s, newSrc))
    ensures Inv(LoadedMetadata(s, d))
    ensures Inv(TimeUpdate(s, t))
  {
    SliderChangeEffect(s, offsetX, width);
  }

  /** The mounted component: its state hooks and the element behind
      audioRef, updated in place by the handlers. */
  class Player {
    var src: string
    var isPlaying: bool
    var currentTime: real
    var duration: real
    var volume: real
    var isMuted: bool
    var elementPaused: bool
    var elementTime: real
    var elementVolume: real

    function Snapshot(): State
      reads this
    {
      State(src, isPlaying, currentTime, duration, volume, isMuted, elementPaused, elementTime, elementVolume)
    }

    constructor (source: string)
      ensures Snapshot() == Initial(source)
    {
      src, isPlaying, currentTime, duration := source, false, 0.0, 0.0;
      volume, isMuted := 1.0, false;
      elementPaused, elementTime, elementVolume := true, 0.0, 1.0;
    }

    method TogglePlay(playSucceeds: bool)
      modifies this
      ensures Snapshot() == PlayToggled(old(Snapshot()), playSucceeds)
    {
      if src == [] {
        return;
      }
      if isPlaying {
        elementPaused := true;
      } else {
        elementPaused := !playSucceeds;
      }
      isPlaying := !isPlaying;
    }

    method HandleTimeSliderChange(offsetX: real, width: real)
      requires width > 0.0
      modifies this
      ensures Snapshot() == SliderChange(old(Snapshot()), offsetX, width)
    {
      if duration == 0.0 {
        return;
      }
      var time := (offsetX / width) * duration;
      elementTime := time;
      currentTime := time;
    }

    method HandleVolumeChange(newVolume: real)
      modifies this
      ensures Snapshot() == VolumeChange(old(Snapshot()), newVolume)
    {
      volume := newVolume;
      elementVolume := newVolume;
      isMuted := newVolume == 0.0;
    }

    method ToggleMute()
      modifies this
      ensures Snapshot() == MuteToggled(old(Snapshot()))
    {
      if isMuted {
        elementVolume := volume;
        isMuted := false;
      } else {
        elementVolume := 0.0;
        isMuted := true;
      }
    }

    method SetSrc(newSrc: string)
      modifies this
      ensures Snapshot() == SrcChanged(old(Snapshot()), newSrc)
    {
      src := newSrc;
      if newSrc != [] {
        elementPaused := true;
        elementTime := 0.0;
        isPlaying := false;
        currentTime := 0.0;
        duration := 0.0;
      }
    }

    method HandleLoadedMetadata(elementDuration: real)
      modifies this
      ensures Snapshot() == LoadedMetadata(old(Snapshot()), elementDuration)
    {
      if elementDuration != 0.0 {
        duration := elementDuration;
      }
    }

    method HandleTimeUpdate(t: real)
      modifies this
      ensures Snapshot() == TimeUpdate(old(Snapshot()), t)
    {
      elementTime := t;
      if elementTime != 0.0 {
        currentTime := elementTime;
      }
    }
  }
}
