/**
 * The recording studio screen: the elapsed-time display and the state the
 * screen's controls change (recording flag and timer, camera, microphone and
 * screen-share flags).
 */
module Studio {
  import opened Wrappers

  // ------------------------------------------------------------- formatTime

  predicate IsDigit(c: char) { '0' <= c <= '9' }

  predicate AllDigits(s: string) { forall i :: 0 <= i < |s| ==> IsDigit(s[i]) }

  function DigitChar(d: nat): char
    requires d < 10
  {
    "0123456789"[d]
  }

  function DigitValue(c: char): nat
    requires IsDigit(c)
  {
    (c as int - '0' as int) as nat
  }

  /** `n.toString()` for a non-negative integer: decimal, no leading zeros. */
  function Decimal(n: nat): (r: string)
    ensures 1 <= |r| && AllDigits(r)
    ensures n < 10 <==> |r| == 1
    ensures n < 100 ==> |r| <= 2
    ensures |r| > 1 ==> r[0] != '0'
  {
    if n < 10 then [DigitChar(n)] else Decimal(n / 10) + [DigitChar(n % 10)]
  }

  /** The value of a string of decimal digits (leading zeros allowed). */
  function DecimalValue(s: string): nat
    requires AllDigits(s)
  {
    if s == [] then 0 else DecimalValue(s[..|s| - 1]) * 10 + DigitValue(s[|s| - 1])
  }

  /** Reading back a printed number gives the number. */
  lemma {:induction false} DecimalRoundTrip(n: nat)
    ensures DecimalValue(Decimal(n)) == n
  {
    if n >= 10 {
      var s := Decimal(n);
      assert s[..|s| - 1] == Decimal(n / 10);
      DecimalRoundTrip(n / 10);
    }
  }

  /** `padStart(2, '0')`: zeros in front up to length 2; a longer string is kept whole. */
  function PadStart2(s: string): (r: string)
    ensures |r| == if |s| >= 2 then |s| else 2
    ensures AllDigits(s) ==> AllDigits(r)
  {
    if |s| >= 2 then s else if |s| == 1 then "0" + s else "00"
  }

  /** Padding only ever adds zeros in front: the text padded is kept whole at the end. */
  lemma PadKeepsText(s: string)
    ensures var r := PadStart2(s);
      && r[|r| - |s|..] == s
      && forall i :: 0 <= i < |r| - |s| ==> r[i] == '0'
  {
  }

  function Hours(seconds: nat): nat { seconds / 3600 }
  function Minutes(seconds: nat): nat { (seconds % 3600) / 60 }
  function Secs(seconds: nat): nat { seconds % 60 }

  /** Three fields, each padded to two digits, joined by colons. */
  function Clock(h: nat, m: nat, s: nat): string {
    PadStart2(Decimal(h)) + (":" + PadStart2(Decimal(m)) + ":" + PadStart2(Decimal(s)))
  }

  /** The timer text `HH:MM:SS`. */
  function FormatTime(seconds: nat): (r: string)
    ensures |r| >= 8
    ensures seconds < 360000 ==> |r| == 8
  {
    FieldsDecompose(seconds);
    Clock(Hours(seconds), Minutes(seconds), Secs(seconds))
  }

  /** The three fields are a base-60 decomposition of the seconds. */
  lemma FieldsDecompose(seconds: nat)
    ensures Minutes(seconds) < 60 && Secs(seconds) < 60
    ensures Hours(seconds) * 3600 + Minutes(seconds) * 60 + Secs(seconds) == seconds
    ensures seconds < 360000 <==> Hours(seconds) < 100
  {
  }

  lemma ClockShape(h: nat, m: nat, s: nat)
    requires h < 100 && m < 60 && s < 60
    ensures var r := Clock(h, m, s);
      && |r| == 8 && r[2] == ':' && r[5] == ':'
      && forall i :: 0 <= i < 8 && i != 2 && i != 5 ==> IsDigit(r[i])
  {
    var hs, ms, ss := PadStart2(Decimal(h)), PadStart2(Decimal(m)), PadStart2(Decimal(s));
    assert Clock(h, m, s) == hs + (":" + ms + ":" + ss);
  }

  /**
   * Under 100 hours the text is exactly `HH:MM:SS`: eight characters, digits
   * everywhere but the two colons.
   */
  lemma FormatTimeShape(seconds: nat)
    requires seconds < 360000
    ensures var r := FormatTime(seconds);
      && |r| == 8 && r[2] == ':' && r[5] == ':'
      && forall i :: 0 <= i < 8 && i != 2 && i != 5 ==> IsDigit(r[i])
  {
    FieldsDecompose(seconds);
    ClockShape(Hours(seconds), Minutes(seconds), Secs(seconds));
  }

  /** Padding never truncates: from 100 hours on the hour field is wider than two. */
  lemma FormatTimeWideHours(seconds: nat)
    requires seconds >= 360000
    ensures |FormatTime(seconds)| == |Decimal(Hours(seconds))| + 6 > 8
  {
    FieldsDecompose(seconds);
    var h, m, s := Hours(seconds), Minutes(seconds), Secs(seconds);
    assert |PadStart2(Decimal(m))| == 2 && |PadStart2(Decimal(s))| == 2;
    assert |Decimal(h)| > 2 by {
      assert h >= 10;
      assert Decimal(h) == Decimal(h / 10) + [DigitChar(h % 10)];
      assert h / 10 >= 10;
    }
  }

  /** Leading zeros do not change a decimal value. */
  lemma PadKeepsValue(s: string)
    requires AllDigits(s)
    ensures DecimalValue(PadStart2(s)) == DecimalValue(s)
  {
    if |s| == 1 {
      ZeroPrefixValue(s);
    } else if |s| == 0 {
      ZeroPrefixValue("0");
    }
  }

  lemma {:induction false} ZeroPrefixValue(s: string)
    requires AllDigits(s)
    ensures DecimalValue("0" + s) == DecimalValue(s)
  {
    if s != [] {
      var z := "0" + s;
      assert z[..|z| - 1] == "0" + s[..|s| - 1];
      ZeroPrefixValue(s[..|s| - 1]);
    }
  }

  function TwoDigitValue(a: char, b: char): nat
    requires IsDigit(a) && IsDigit(b)
  {
    DigitValue(a) * 10 + DigitValue(b)
  }

  /**
   * Reading `H:MM:SS` back: the last two colons split the text; the hour
   * field is any run of digits, the other two are two digits each.
   */
  function ParseClock(t: string): (r: Option<nat>)
    ensures r.Some? ==> |t| >= 7
  {
    var n := |t|;
    if n < 7 || t[n - 3] != ':' || t[n - 6] != ':' then None
    else if AllDigits(t[..n - 6]) && IsDigit(t[n - 5]) && IsDigit(t[n - 4]) && IsDigit(t[n - 2]) && IsDigit(t[n - 1])
    then Some(DecimalValue(t[..n - 6]) * 3600 + TwoDigitValue(t[n - 5], t[n - 4]) * 60
              + TwoDigitValue(t[n - 2], t[n - 1]))
    else None
  }

  /** A field below 100 pads to exactly two digits that read back as the field. */
  lemma PaddedField(x: nat)
    requires x < 100
    ensures var p := PadStart2(Decimal(x));
      |p| == 2 && IsDigit(p[0]) && IsDigit(p[1]) && TwoDigitValue(p[0], p[1]) == x
  {
    if x >= 10 {
      assert Decimal(x) == Decimal(x / 10) + [DigitChar(x % 10)];
    }
  }

  /** ParseClock on any text made of an hour field, a colon, two digits, a colon and two digits. */
  lemma ParseClockFields(t: string, hs: string, ms: string, ss: string)
    requires 1 <= |hs| && AllDigits(hs) && |t| == |hs| + 6 && t[..|hs|] == hs
    requires |ms| == 2 && IsDigit(ms[0]) && IsDigit(ms[1])
    requires |ss| == 2 && IsDigit(ss[0]) && IsDigit(ss[1])
    requires t[|hs|] == ':' && t[|hs| + 1] == ms[0] && t[|hs| + 2] == ms[1]
    requires t[|hs| + 3] == ':' && t[|hs| + 4] == ss[0] && t[|hs| + 5] == ss[1]
    ensures ParseClock(t)
         == Some(DecimalValue(hs) * 3600 + TwoDigitValue(ms[0], ms[1]) * 60 + TwoDigitValue(ss[0], ss[1]))
  {
  }

  lemma JoinedFields(hs: string, ms: string, ss: string)
    requires |ms| == 2 && |ss| == 2
    ensures var t := hs + (":" + ms + ":" + ss);
      && |t| == |hs| + 6 && t[..|hs|] == hs
      && t[|hs|] == ':' && t[|hs| + 1] == ms[0] && t[|hs| + 2] == ms[1]
      && t[|hs| + 3] == ':' && t[|hs| + 4] == ss[0] && t[|hs| + 5] == ss[1]
  {
    assert ":" + ms + ":" + ss == [':', ms[0], ms[1], ':', ss[0], ss[1]];
  }

  lemma ClockRoundTrip(h: nat, m: nat, s: nat)
    requires m < 60 && s < 60
    ensures ParseClock(Clock(h, m, s)) == Some(h * 3600 + m * 60 + s)
  {
    var hd := Decimal(h);
    var hs, ms, ss := PadStart2(hd), PadStart2(Decimal(m)), PadStart2(Decimal(s));
    assert DecimalValue(hs) == h by {
      PadKeepsValue(hd);
      DecimalRoundTrip(h);
    }
    PaddedField(m);
    PaddedField(s);
    JoinedFields(hs, ms, ss);
    ParseClockFields(Clock(h, m, s), hs, ms, ss);
  }

  /** The timer text determines the elapsed seconds: distinct times never display alike. */
  lemma FormatTimeRoundTrip(seconds: nat)
    ensures ParseClock(FormatTime(seconds)) == Some(seconds)
  {
    var h, m, s := Hours(seconds), Minutes(seconds), Secs(seconds);
    assert m < 60 && s < 60 && h * 3600 + m * 60 + s == seconds by {
      FieldsDecompose(seconds);
    }
    ClockRoundTrip(h, m, s);
  }

  // ------------------------------------------------------------ screen state

  datatype StudioState = StudioState(
    isRecording: bool,
    recordingTime: nat,
    videoEnabled: bool,
    audioEnabled: bool,
    screenShare: bool,
    volume: int)

  const Initial := StudioState(false, 0, true, true, false, 75)

  /** A control pressed, or one second of the recording interval elapsed. */
  datatype Event = ToggleRecording | Tick | ToggleCamera | ToggleMic | ToggleScreen

  function Step(s: StudioState, e: Event): (r: StudioState)
    ensures Idle(s) ==> Idle(r)
  {
    match e
    case ToggleRecording =>
      if s.isRecording then s.(isRecording := false, recordingTime := 0) else s.(isRecording := true)
    case Tick => if s.isRecording then s.(recordingTime := s.recordingTime + 1) else s
    case ToggleCamera => s.(videoEnabled := !s.videoEnabled)
    case ToggleMic => s.(audioEnabled := !s.audioEnabled)
    case ToggleScreen => s.(screenShare := !s.screenShare)
  }

  function Run(s: StudioState, events: seq<Event>): StudioState
    decreases |events|
  {
    if events == [] then s else Run(Step(s, events[0]), events[1..])
  }

  function Ticks(n: nat): (r: seq<Event>)
    ensures |r| == n && forall i :: 0 <= i < n ==> r[i] == Tick
  {
    if n == 0 then [] else [Tick] + Ticks(n - 1)
  }

  /** The timer is zero whenever the studio is not recording. */
  ghost predicate Idle(s: StudioState) {
    !s.isRecording ==> s.recordingTime == 0
  }

  /** Every state reachable from the initial one keeps the timer at zero while idle. */
  lemma {:induction false} RunKeepsIdle(s: StudioState, events: seq<Event>)
    requires Idle(s)
    ensures Idle(Run(s, events))
    decreases |events|
  {
    if events != [] {
      RunKeepsIdle(Step(s, events[0]), events[1..]);
    }
  }

  /** n seconds while recording add n to the timer; while idle they change nothing. */
  lemma {:induction false} TicksCount(s: StudioState, n: nat)
    ensures s.isRecording ==> Run(s, Ticks(n)) == s.(recordingTime := s.recordingTime + n)
    ensures !s.isRecording ==> Run(s, Ticks(n)) == s
    decreases n
  {
    if n > 0 {
      assert Ticks(n)[1..] == Ticks(n - 1);
      TicksCount(Step(s, Tick), n - 1);
    }
  }

  /**
   * From any idle state, starting and then n seconds show n on the timer;
   * stopping afterwards clears it.
   */
  lemma StartTicksStop(s: StudioState, n: nat)
    requires Idle(s) && !s.isRecording
    ensures Run(s, [ToggleRecording] + Ticks(n)).recordingTime == n
    ensures Run(s, [ToggleRecording] + Ticks(n) + [ToggleRecording]) == s
  {
    var started := Step(s, ToggleRecording);
    assert ([ToggleRecording] + Ticks(n))[1..] == Ticks(n);
    TicksCount(started, n);
    RunAppend(s, [ToggleRecording] + Ticks(n), [ToggleRecording]);
  }

  lemma {:induction false} RunAppend(s: StudioState, a: seq<Event>, b: seq<Event>)
    ensures Run(s, a + b) == Run(Run(s, a), b)
    decreases |a|
  {
    if a != [] {
      assert (a + b)[1..] == a[1..] + b;
      RunAppend(Step(s, a[0]), a[1..], b);
    } else {
      assert a + b == b;
    }
  }

  /**
   * Each device button flips its own flag and nothing else, so two presses
   * restore the state; no event touches the volume.
   */
  lemma DeviceTogglesFlipOnlyOwnFlag(s: StudioState, e: Event)
    requires e == ToggleCamera || e == ToggleMic || e == ToggleScreen
    ensures Step(Step(s, e), e) == s
    ensures var r := Step(s, e);
      && r.isRecording == s.isRecording && r.recordingTime == s.recordingTime && r.volume == s.volume
      && (r.videoEnabled != s.videoEnabled <==> e == ToggleCamera)
      && (r.audioEnabled != s.audioEnabled <==> e == ToggleMic)
      && (r.screenShare != s.screenShare <==> e == ToggleScreen)
  {
  }

  /** The volume set by the slider survives every other event. */
  lemma {:induction false} RunKeepsVolume(s: StudioState, events: seq<Event>)
    ensures Run(s, events).volume == s.volume
    decreases |events|
  {
    if events != [] {
      RunKeepsVolume(Step(s, events[0]), events[1..]);
    }
  }

  // ------------------------------------------------------- the screen's state

  /** The `useState` fields of the studio screen. */
  class StudioScreen {
    var isRecording: bool
    var recordingTime: nat
    var videoEnabled: bool
    var audioEnabled: bool
    var screenShare: bool
    var volume: int

    function State(): StudioState
      reads this
    {
      StudioState(isRecording, recordingTime, videoEnabled, audioEnabled, screenShare, volume)
    }

    ghost predicate Valid()
      reads this
    {
      Idle(State())
    }

    constructor ()
      ensures Valid() && State() == Initial
    {
      isRecording, recordingTime := false, 0;
      videoEnabled, audioEnabled, screenShare := true, true, false;
      volume := 75;
    }

    /** toggleRecording: stop and clear the timer, or start it where it is. */
    method ToggleRecording()
      requires Valid()
      modifies this
      ensures Valid() && State() == Step(old(State()), Event.ToggleRecording)
      ensures old(isRecording) ==> !isRecording && recordingTime == 0
      ensures !old(isRecording) ==> isRecording && recordingTime == old(recordingTime) == 0
    {
      if isRecording {
        isRecording := false;
        recordingTime := 0;
      } else {
        isRecording := true;
      }
    }

    /** One second of the interval that runs only while recording. */
    method Tick()
      requires Valid()
      modifies this
      ensures Valid() && State() == Step(old(State()), Event.Tick)
      ensures recordingTime == if old(isRecording) then old(recordingTime) + 1 else old(recordingTime)
    {
      if isRecording {
        recordingTime := recordingTime + 1;
      }
    }

    method ToggleCamera()
      requires Valid()
      modifies this
      ensures Valid() && State() == Step(old(State()), Event.ToggleCamera)
    {
      videoEnabled := !videoEnabled;
    }

    method ToggleMic()
      requires Valid()
      modifies this
      ensures Valid() && State() == Step(old(State()), Event.ToggleMic)
    {
      audioEnabled := !audioEnabled;
    }

    method ToggleScreen()
      requires Valid()
      modifies this
      ensures Valid() && State() == Step(old(State()), Event.ToggleScreen)
    {
      screenShare := !screenShare;
    }

    /** The timer text shown in the top bar. */
    method TimerText() returns (t: string)
      ensures ParseClock(t) == Some(recordingTime)
      ensures recordingTime < 360000 ==> |t| == 8
    {
      t := FormatTime(recordingTime);
      FormatTimeRoundTrip(recordingTime);
      if recordingTime < 360000 {
        FormatTimeShape(recordingTime);
      }
    }
  }
}
