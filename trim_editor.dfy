/** The trim editor: the `m:ss` clock, the start/end markers kept apart by
    a one-second minimum span, the playback wrap at the end marker, and the
    timestamp schedule of the timeline thumbnail strip. Times are exact
    `real` seconds. */
module TrimEditor {
  import opened Wrappers
  import opened Text

  // ---------------------------------------------------------------------
  // formatTime

  /** `Math.trunc`, which JavaScript's `%` uses for its quotient. */
  function Trunc(x: real): (n: int)
    ensures x >= 0.0 ==> n as real <= x < n as real + 1.0
    ensures x < 0.0 ==> n as real - 1.0 < x <= n as real
  {
    if x >= 0.0 then x.Floor else -((-x).Floor)
  }

  /** `s.padStart(2, '0')`. */
  function PadStart2(s: string): string {
    if |s| >= 2 then s else if |s| == 1 then "0" + s else "00"
  }

  /** The padded text ends with the original, is at least two characters
      long, and is filled with zeros only. */
  lemma PadStartFills(s: string)
    ensures var p := PadStart2(s);
            && |p| == (if |s| >= 2 then |s| else 2)
            && p[|p| - |s|..] == s
            && forall k :: 0 <= k < |p| - |s| ==> p[k] == '0'
  {
  }

  /** `formatTime`: `Math.floor(seconds / 60)`, a colon, and
      `Math.floor(seconds % 60)` padded to two characters, where `%` is
      JavaScript's truncating remainder. Defined for every input, negative
      ones included. */
  function FormatTime(seconds: real): (t: string)
    ensures seconds >= 0.0 ==> |t| >= 4 && t[|t| - 3] == ':'
  {
    var mins := (seconds / 60.0).Floor;
    var secs := (seconds - 60.0 * Trunc(seconds / 60.0) as real).Floor;
    var text := IntToString(mins) + ":" + PadStart2(IntToString(secs));
    FloorSplit(seconds);
    if seconds >= 0.0 then PaddedSeconds(secs); text else text
  }

  /** Reads an `m:ss` clock back into whole seconds: digits, a colon, two
      digits below 60. */
  function ParseClock(t: string): Option<nat> {
    if |t| < 4 || t[|t| - 3] != ':' then None
    else
      var m := t[..|t| - 3];
      var s := t[|t| - 2..];
      if AllDigits(m) && AllDigits(s) && ParseNat(s) < 60 then Some(ParseNat(m) * 60 + ParseNat(s))
      else None
  }

  /** For a non-negative time the minutes and seconds fields are the
      quotient and remainder of the whole seconds by 60. */
  lemma FloorSplit(s: real)
    ensures s >= 0.0 ==> (s / 60.0).Floor == s.Floor / 60
    ensures s >= 0.0 ==> Trunc(s / 60.0) == s.Floor / 60
    ensures s >= 0.0 ==> (s - 60.0 * Trunc(s / 60.0) as real).Floor == s.Floor % 60
  {
    if s >= 0.0 {
      var n := s.Floor;
      var q := n / 60;
      assert n as real <= s < n as real + 1.0;
      assert q * 60 <= n < q * 60 + 60;
      assert q as real <= s / 60.0 < q as real + 1.0;
      assert (s / 60.0).Floor == q;
      var rem := s - 60.0 * q as real;
      assert (n - q * 60) as real <= rem < (n - q * 60) as real + 1.0;
    }
  }

  lemma PaddedSeconds(secs: nat)
    requires secs < 60
    ensures var p := PadStart2(IntToString(secs));
            |p| == 2 && AllDigits(p) && ParseNat(p) == secs
  {
    var d := NatToString(secs);
    ParseNatToString(secs);
    if secs < 10 {
      var p := "0" + d;
      assert p[..1] == "0";
      assert ParseNat(p[..1]) == ParseNat(p[..1][..0]) * 10 + DigitValue('0');
      assert ParseNat(p) == ParseNat(p[..1]) * 10 + DigitValue(d[0]);
    } else {
      assert NatToString(secs / 10) == [DigitChar(secs / 10)];
    }
  }

  /** The clock of a non-negative time reads back as its whole seconds; the
      seconds field is always two digits and below 60. For example 125.0
      shows as "2:05". */
  lemma FormatTimeReadsBack(seconds: real)
    requires seconds >= 0.0
    ensures ParseClock(FormatTime(seconds)) == Some(seconds.Floor)
  {
    FloorSplit(seconds);
    var n := seconds.Floor;
    var mins := NatToString(n / 60);
    var pad := PadStart2(IntToString(n % 60));
    PaddedSeconds(n % 60);
    ParseNatToString(n / 60);
    var t := FormatTime(seconds);
    assert t == mins + ":" + pad;
    assert t[..|t| - 3] == mins;
    assert t[|t| - 2..] == pad;
  }

  lemma FormatTimeExample()
    ensures FormatTime(125.0) == "2:05"
  {
    FloorSplit(125.0);
    assert NatToString(2) == "2";
    assert NatToString(5) == "5";
  }

  // ---------------------------------------------------------------------
  // The trim range

  /** The minimum distance the sliders keep between start and end. */
  const MinSpan: real := 1.0

  datatype TrimRange = TrimRange(duration: real, start: real, end: real)

  /** `0 <= start <= end - 1 <= duration`. */
  predicate Ordered(r: TrimRange) {
    0.0 <= r.start && r.start <= r.end - MinSpan && r.end <= r.duration
  }

  /** The range before the video's metadata is known. */
  const Unloaded: TrimRange := TrimRange(0.0, 0.0, 0.0)

  /** `handleLoadedMetadata`: duration and end both become the probed duration. */
  function MetadataLoaded(r: TrimRange, d: real): (r': TrimRange)
    ensures r'.start == r.start && r'.duration == d && r'.end == d
    ensures r.start == 0.0 && d >= MinSpan ==> Ordered(r')
  {
    r.(duration := d, end := d)
  }

  /** `Math.min(val, endTime - 1)`. */
  function ClampStart(value: real, end: real): (s: real)
    ensures s <= value && s <= end - MinSpan
    ensures s == value || s == end - MinSpan
  {
    if value <= end - MinSpan then value else end - MinSpan
  }

  /** `Math.max(val, startTime + 1)`. */
  function ClampEnd(value: real, start: real): (e: real)
    ensures e >= value && e >= start + MinSpan
    ensures e == value || e == start + MinSpan
  {
    if value >= start + MinSpan then value else start + MinSpan
  }

  /** A change event of one of the two range sliders, with the slider's value. */
  datatype SliderInput = StartSlider(value: real) | EndSlider(value: real)

  /** A slider value lies on the slider's track `[0, duration]`. */
  predicate OnTrack(input: SliderInput, duration: real) {
    0.0 <= input.value <= duration
  }

  /** The new range after one slider change: only the moved marker changes,
      and an ordered range stays ordered. */
  function ApplyInput(r: TrimRange, input: SliderInput): (r': TrimRange)
    ensures r'.duration == r.duration
    ensures input.StartSlider? ==> r'.end == r.end
    ensures input.EndSlider? ==> r'.start == r.start
    ensures Ordered(r) && OnTrack(input, r.duration) ==> Ordered(r')
  {
    match input
    case StartSlider(v) => r.(start := ClampStart(v, r.end))
    case EndSlider(v) => r.(end := ClampEnd(v, r.start))
  }

  /** The range after a series of slider changes, applied in order. */
  function ApplyInputs(r: TrimRange, inputs: seq<SliderInput>): (r': TrimRange)
    ensures r'.duration == r.duration
    ensures (forall i :: 0 <= i < |inputs| ==> inputs[i].StartSlider?) ==> r'.end == r.end
    ensures (forall i :: 0 <= i < |inputs| ==> inputs[i].EndSlider?) ==> r'.start == r.start
    decreases |inputs|
  {
    if inputs == [] then r else ApplyInputs(ApplyInput(r, inputs[0]), inputs[1..])
  }

  /** Any sequence of slider changes with values on the track keeps an
      ordered range ordered, over the same duration. */
  lemma {:induction false} InputsKeepOrdered(r: TrimRange, inputs: seq<SliderInput>)
    requires Ordered(r)
    requires forall i :: 0 <= i < |inputs| ==> OnTrack(inputs[i], r.duration)
    ensures Ordered(ApplyInputs(r, inputs)) && ApplyInputs(r, inputs).duration == r.duration
    decreases |inputs|
  {
    if inputs != [] {
      InputsKeepOrdered(ApplyInput(r, inputs[0]), inputs[1..]);
    }
  }

  /** From the initial `[0, 120]` range of a 120-second video, moving the
      start slider to 119.7 gives `[119, 120]`. */
  lemma ClampExample()
    ensures ApplyInput(MetadataLoaded(Unloaded, 120.0), StartSlider(119.7)) == TrimRange(120.0, 119.0, 120.0)
  {
  }

  /** For a clip shorter than the minimum span the start clamp goes below
      zero: the range of a half-second clip does not stay ordered. */
  lemma ShortClipStartGoesNegative()
    ensures ApplyInput(MetadataLoaded(Unloaded, 0.5), StartSlider(0.2)).start == -0.5
  {
  }

  // ---------------------------------------------------------------------
  // Playback

  /** Where the video element's playhead rests after a time update at
      `time`: reaching the end marker sends it back to the start marker,
      so it never rests at or past a non-empty range's end. */
  function WrapPlayhead(time: real, start: real, end: real): (p: real)
    ensures start < end ==> p < end
    ensures time < end ==> p == time
    ensures time >= end ==> p == start
  {
    if time >= end then start else time
  }

  /** The editor's state: the React state of the component and the two
      facts it drives of the `<video>` element (its position and whether
      it is paused). */
  class TrimEditor {
    var duration: real
    var startTime: real
    var endTime: real
    var currentTime: real
    var isPlaying: bool
    var videoTime: real
    var videoPaused: bool

    ghost function Range(): TrimRange
      reads this
    {
      TrimRange(duration, startTime, endTime)
    }

    constructor()
      ensures Range() == Unloaded
      ensures currentTime == 0.0 && !isPlaying && videoTime == 0.0 && videoPaused
    {
      duration, startTime, endTime := 0.0, 0.0, 0.0;
      currentTime, isPlaying := 0.0, false;
      videoTime, videoPaused := 0.0, true;
    }

    /** `handleLoadedMetadata` with the element's duration `d`. */
    method LoadedMetadata(d: real)
      modifies this
      ensures Range() == MetadataLoaded(old(Range()), d)
      ensures currentTime == old(currentTime) && isPlaying == old(isPlaying)
      ensures videoTime == old(videoTime) && videoPaused == old(videoPaused)
    {
      duration := d;
      endTime := d;
    }

    /** The start slider's `onChange`: the marker is clamped, the video
      seeks to the unclamped value. */
    method StartChanged(value: real)
      modifies this
      ensures Range() == ApplyInput(old(Range()), StartSlider(value))
      ensures videoTime == value
      ensures currentTime == old(currentTime) && isPlaying == old(isPlaying) && videoPaused == old(videoPaused)
    {
      startTime := ClampStart(value, endTime);
      videoTime := value;
    }

    /** The end slider's `onChange`. */
    method EndChanged(value: real)
      modifies this
      ensures Range() == ApplyInput(old(Range()), EndSlider(value))
      ensures videoTime == value
      ensures currentTime == old(currentTime) && isPlaying == old(isPlaying) && videoPaused == old(videoPaused)
    {
      endTime := ClampEnd(value, startTime);
      videoTime := value;
    }

    /** `handleTimeUpdate` when the element reports position `time`. */
    method TimeUpdate(time: real)
      modifies this
      ensures currentTime == time
      ensures videoTime == WrapPlayhead(time, startTime, endTime)
      ensures time >= endTime ==> !isPlaying && videoPaused
      ensures time < endTime ==> isPlaying == old(isPlaying) && videoPaused == old(videoPaused)
      ensures Range() == old(Range())
    {
      videoTime := time;
      currentTime := time;
      if time >= endTime {
        videoPaused := true;
        isPlaying := false;
        videoTime := startTime;
      }
    }

    /** `togglePlay`: pause, or rewind to the start marker when at or past
      the end marker and play. */
    method TogglePlay()
      modifies this
      ensures isPlaying == !old(isPlaying)
      ensures videoPaused == old(isPlaying)
      ensures old(isPlaying) ==> videoTime == old(videoTime)
      ensures !old(isPlaying) ==> videoTime == (if old(videoTime) >= endTime then startTime else old(videoTime))
      ensures Range() == old(Range()) && currentTime == old(currentTime)
    {
      if isPlaying {
        videoPaused := true;
      } else {
        if videoTime >= endTime {
          videoTime := startTime;
        }
        videoPaused := false;
      }
      isPlaying := !isPlaying;
    }

    /** The Trim button: `onTrim` receives the markers as they are. */
    method TrimClicked() returns (start: real, end: real)
      ensures start == startTime && end == endTime
    {
      start, end := startTime, endTime;
    }
  }

  // ---------------------------------------------------------------------
  // Timeline thumbnails

  const ThumbnailCount: nat := 12

  /** The i-th seek target, `i * (duration / 12)`. */
  function SeekTime(i: nat, duration: real): real {
    i as real * (duration / ThumbnailCount as real)
  }

  /** For a positive duration the seek targets increase strictly and stay in
      `[0, duration)`. */
  lemma SeekTimesIncrease(duration: real, k: nat, l: nat)
    requires duration > 0.0 && k < l < ThumbnailCount
    ensures 0.0 <= SeekTime(k, duration) < SeekTime(l, duration) < duration
  {
    var interval := duration / ThumbnailCount as real;
    assert interval > 0.0;
    assert (l - k) as real * interval > 0.0;
    assert SeekTime(l, duration) - SeekTime(k, duration) == (l - k) as real * interval;
    assert (ThumbnailCount - l) as real * interval > 0.0;
    assert duration - SeekTime(l, duration) == (ThumbnailCount - l) as real * interval;
  }

  /** One captured frame of the timeline strip: the seek target and the
      image captured there. */
  datatype Thumbnail = Thumbnail(time: real, image: string)

  /** The loop of `generateThumbnails`: seek to `i * (duration / 12)` for
      i = 0..11 and capture a frame at each; `frameAt` stands for the
      seek-and-draw of the hidden video and canvas. `None` when generation
      is skipped (zero duration or no video URL). */
  method GenerateThumbnails(duration: real, videoUrl: string, frameAt: real -> string)
    returns (result: Option<seq<Thumbnail>>)
    ensures result.None? <==> duration == 0.0 || videoUrl == ""
    ensures result.Some? ==> |result.value| == ThumbnailCount
    ensures result.Some? ==> forall i :: 0 <= i < |result.value| ==>
              result.value[i] == Thumbnail(SeekTime(i, duration), frameAt(SeekTime(i, duration)))
    ensures result.Some? && duration > 0.0 ==>
              (forall i, j :: 0 <= i < j < |result.value| ==> result.value[i].time < result.value[j].time)
              && (forall i :: 0 <= i < |result.value| ==> 0.0 <= result.value[i].time < duration)
  {
    if duration == 0.0 || videoUrl == "" {
      return None;
    }
    var count := ThumbnailCount;
    var interval := duration / count as real;
    var thumbnails: seq<Thumbnail> := [];
    for i := 0 to count
      invariant |thumbnails| == i
      invariant forall k :: 0 <= k < i ==> thumbnails[k] == Thumbnail(SeekTime(k, duration), frameAt(SeekTime(k, duration)))
    {
      var time := i as real * interval;
      assert time == SeekTime(i, duration);
      thumbnails := thumbnails + [Thumbnail(time, frameAt(time))];
    }
    if duration > 0.0 {
      forall i, j | 0 <= i < j < count ensures thumbnails[i].time < thumbnails[j].time {
        SeekTimesIncrease(duration, i, j);
      }
      forall i | 0 <= i < count ensures 0.0 <= thumbnails[i].time < duration {
        if i + 1 < count {
          SeekTimesIncrease(duration, i, i + 1);
        } else {
          SeekTimesIncrease(duration, 0, i);
        }
      }
    }
    return Some(thumbnails);
  }
}
