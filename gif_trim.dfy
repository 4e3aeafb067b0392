/** The trim bar under the GIF page's video preview: two handles that pick
    the segment to convert, kept inside the video and at least a tenth of a
    second apart, the preview's play button and end-of-segment rewind, and
    the "m:ss" labels. Times are seconds as `real`. */
module GifTrim {
  import opened Wrappers
  import opened Text

  /** The least distance the handles keep between them. */
  const MinGap: real := 0.1

  function Min(a: real, b: real): real { if a <= b then a else b }

  function Max(a: real, b: real): real { if a >= b then a else b }

  /** The distance between two times. */
  function Dist(a: real, b: real): real { if a >= b then a - b else b - a }

  /** The mouse's position along the bar, `(clientX - left) / width`,
      clamped to [0, 1]: the part outside the bar counts as its ends. */
  function Fraction(ratio: real): (p: real)
    ensures 0.0 <= p <= 1.0
    ensures 0.0 <= ratio <= 1.0 ==> p == ratio
    ensures ratio < 0.0 ==> p == 0.0
    ensures ratio > 1.0 ==> p == 1.0
  {
    Max(0.0, Min(1.0, ratio))
  }

  /** Where a drag of the start handle to `time` puts it. */
  function ClampStart(time: real, end: real): real
  {
    Max(0.0, Min(time, end - MinGap))
  }

  /** Where a drag of the end handle to `time` puts it. */
  function ClampEnd(time: real, start: real, duration: real): real
  {
    Min(duration, Max(time, start + MinGap))
  }

  /** The start handle lands on the point of [0, end - 0.1] nearest the
      mouse; when that interval is empty it lands on 0. */
  lemma ClampStartNearest(time: real, end: real)
    ensures end >= MinGap ==> 0.0 <= ClampStart(time, end) <= end - MinGap
    ensures end >= MinGap ==> forall x :: 0.0 <= x <= end - MinGap ==>
      Dist(ClampStart(time, end), time) <= Dist(x, time)
    ensures end < MinGap ==> ClampStart(time, end) == 0.0
  {
    var r := ClampStart(time, end);
    forall x | 0.0 <= x <= end - MinGap
      ensures Dist(r, time) <= Dist(x, time)
    {
      if time < 0.0 {
        assert r == 0.0;
      } else if time > end - MinGap {
        assert r == end - MinGap;
      } else {
        assert r == time;
      }
    }
  }

  /** The end handle lands on the point of [start + 0.1, duration] nearest
      the mouse; when that interval is empty it lands on the duration. */
  lemma ClampEndNearest(time: real, start: real, duration: real)
    ensures start + MinGap <= duration ==> start + MinGap <= ClampEnd(time, start, duration) <= duration
    ensures start + MinGap <= duration ==> forall x :: start + MinGap <= x <= duration ==>
      Dist(ClampEnd(time, start, duration), time) <= Dist(x, time)
    ensures start + MinGap > duration ==> ClampEnd(time, start, duration) == duration
  {
    var r := ClampEnd(time, start, duration);
    forall x | start + MinGap <= x <= duration
      ensures Dist(r, time) <= Dist(x, time)
    {
      if time < start + MinGap {
        assert r == start + MinGap;
      } else if time > duration {
        assert r == duration;
      } else {
        assert r == time;
      }
    }
  }

  /** `Math.trunc`. */
  function Trunc(x: real): int
  {
    if x >= 0.0 then x.Floor else -((-x).Floor)
  }

  /** JavaScript's `%` on numbers: the remainder of the quotient truncated
      toward zero, with the sign of the dividend. */
  function JsRem(a: real, b: real): real
    requires b != 0.0
  {
    a - b * (Trunc(a / b) as real)
  }

  /** `padStart(2, '0')`. */
  function PadStart2(s: string): (r: string)
    ensures |s| >= 2 ==> r == s
    ensures |s| < 2 ==> |r| == 2 && r[2 - |s|..] == s
  {
    if |s| >= 2 then s else seq(2 - |s|, _ => '0') + s
  }

  /** `formatTime`: whole minutes, a colon, and the whole seconds of the
      remainder, padded to two characters. */
  function FormatTime(seconds: real): string
  {
    var mins := (seconds / 60.0).Floor;
    var secs := JsRem(seconds, 60.0).Floor;
    IntToString(mins) + ":" + PadStart2(IntToString(secs))
  }

  /** The clock reading of a whole number of seconds: minutes, then the
      seconds within the minute as exactly two digits. */
  function Clock(total: nat): string
  {
    var s := total % 60;
    NatToString(total / 60) + ":" + [DigitChar(s / 10), DigitChar(s % 10)]
  }

  /** Minutes and the remainder's whole seconds of a non-negative time add
      up to its whole seconds, with the seconds under a minute. */
  lemma FormatTimeParts(seconds: real)
    requires seconds >= 0.0
    ensures var m := (seconds / 60.0).Floor;
      var s := JsRem(seconds, 60.0).Floor;
      m >= 0 && 0 <= s < 60 && 60 * m + s == seconds.Floor
  {
    var q := (seconds / 60.0).Floor;
    assert Trunc(seconds / 60.0) == q;
    var r := JsRem(seconds, 60.0);
    assert r == seconds - 60.0 * (q as real);
    assert 0.0 <= r < 60.0;
    assert (r.Floor + 60 * q) as real <= seconds < (r.Floor + 60 * q + 1) as real;
  }

  /** A non-negative time reads as the clock of its whole seconds. */
  lemma FormatTimeIsClock(seconds: real)
    requires seconds >= 0.0
    ensures FormatTime(seconds) == Clock(seconds.Floor)
  {
    FormatTimeParts(seconds);
    var total := seconds.Floor;
    var m := (seconds / 60.0).Floor;
    var s := JsRem(seconds, 60.0).Floor;
    assert m == total / 60 && s == total % 60;
    if s < 10 {
      assert IntToString(s) == [DigitChar(s)];
      assert PadStart2(IntToString(s)) == ['0', DigitChar(s)];
      assert DigitChar(s / 10) == '0';
    } else {
      assert NatToString(s) == NatToString(s / 10) + [DigitChar(s % 10)];
      assert NatToString(s / 10) == [DigitChar(s / 10)];
    }
  }

  /** A negative time, which the selection label can show when the handles
      cross, reads with two minus signs. */
  lemma NegativeTimeText()
    ensures FormatTime(-5.0) == "-1:-5"
  {
    assert (-5.0 / 60.0).Floor == -1;
    assert Trunc(-5.0 / 60.0) == 0;
    assert JsRem(-5.0, 60.0).Floor == -5;
    assert IntToString(-1) == "-1" && IntToString(-5) == "-5";
  }

  /** The two handles. */
  datatype Handle = StartHandle | EndHandle

  /** `GifFileInstruction`'s trim state: the handles, the duration it was
      given, the handle being dragged, and the preview's play state and
      position. `downStart` and `downPlaying` are the start time and play
      state the drag's listeners were created with, which the release reads. */
  class TrimBar {
    var startTime: real
    var endTime: real
    var duration: real
    var dragging: Option<Handle>
    var downStart: real
    var downPlaying: bool
    var isPlaying: bool
    var currentTime: real

    /** Both handles lie inside the video, start before end. */
    predicate InRange()
      reads this
    {
      0.0 <= startTime <= endTime <= duration
    }

    /** The handles are at least `MinGap` apart. */
    predicate Gap()
      reads this
    {
      startTime + MinGap <= endTime
    }

    /** Mounting: the selection is the whole video. */
    constructor (videoDuration: real)
      ensures startTime == 0.0 && endTime == videoDuration && duration == videoDuration
      ensures dragging == None && !isPlaying && currentTime == 0.0
      ensures videoDuration >= 0.0 ==> InRange()
      ensures videoDuration >= MinGap ==> Gap()
    {
      startTime, endTime, duration := 0.0, videoDuration, videoDuration;
      dragging, downStart, downPlaying := None, 0.0, false;
      isPlaying, currentTime := false, 0.0;
    }

    /** A new duration, then the effect that gives an unset end (0) the
        duration; any other end is kept, even past the new duration. */
    method DurationChanged(d: real)
      modifies this
      ensures duration == d
      ensures endTime == if d > 0.0 && old(endTime) == 0.0 then d else old(endTime)
      ensures old(endTime) > d ==> endTime > duration
      ensures old(InRange()) && d >= old(endTime) ==> InRange()
      ensures startTime == old(startTime) && dragging == old(dragging) && isPlaying == old(isPlaying)
      ensures currentTime == old(currentTime) && downStart == old(downStart) && downPlaying == old(downPlaying)
    {
      duration := d;
      if duration > 0.0 && endTime == 0.0 {
        endTime := duration;
      }
    }

    /** `handleMouseDown`: the drag starts, and its listeners capture the
        current start time and play state. */
    method MouseDown(h: Handle)
      modifies this
      ensures dragging == Some(h) && downStart == old(startTime) && downPlaying == old(isPlaying)
      ensures startTime == old(startTime) && endTime == old(endTime) && duration == old(duration)
      ensures isPlaying == old(isPlaying) && currentTime == old(currentTime)
    {
      dragging := Some(h);
      downStart, downPlaying := startTime, isPlaying;
    }

    /** `handleMouseMove`: the mouse's clamped fraction of the duration is
        the wanted time; the dragged handle moves there as far as the other
        handle and the video allow. Both invariants are kept. */
    method MouseMove(ratio: real)
      modifies this
      ensures var time := Fraction(ratio) * duration;
        startTime == (if dragging == Some(StartHandle) then ClampStart(time, old(endTime)) else old(startTime))
        && endTime == (if dragging == Some(EndHandle) then ClampEnd(time, old(startTime), duration) else old(endTime))
      ensures duration == old(duration) && dragging == old(dragging)
      ensures isPlaying == old(isPlaying) && currentTime == old(currentTime)
      ensures downStart == old(downStart) && downPlaying == old(downPlaying)
      ensures old(InRange()) ==> InRange()
      ensures old(InRange() && Gap()) ==> Gap()
    {
      var time := Fraction(ratio) * duration;
      match dragging
      case None =>
      case Some(StartHandle) =>
        startTime := Max(0.0, Min(time, endTime - MinGap));
      case Some(EndHandle) =>
        endTime := Min(duration, Max(time, startTime + MinGap));
    }

    /** `handleMouseUp`: after a start drag the preview seeks to the start
        the listeners captured (where the handle was when the drag began),
        and a preview that was playing then is paused; the drag ends. */
    method MouseUp()
      modifies this
      ensures dragging == None
      ensures currentTime == if old(dragging) == Some(StartHandle) then old(downStart) else old(currentTime)
      ensures isPlaying == if old(dragging).Some? && old(downPlaying) then false else old(isPlaying)
      ensures startTime == old(startTime) && endTime == old(endTime) && duration == old(duration)
      ensures downStart == old(downStart) && downPlaying == old(downPlaying)
    {
      if dragging.Some? {
        if dragging == Some(StartHandle) {
          currentTime := downStart;
        }
        if downPlaying {
          isPlaying := false;
        }
      }
      dragging := None;
    }

    /** `handleVideoTimeUpdate`: playback reaching the end handle pauses
        and rewinds to the start handle, so the preview never rests at or
        past the end while the handles keep their gap. */
    method TimeUpdate(t: real)
      modifies this
      ensures currentTime == if t >= endTime then startTime else t
      ensures isPlaying == if t >= endTime then false else old(isPlaying)
      ensures Gap() ==> currentTime < endTime
      ensures startTime == old(startTime) && endTime == old(endTime) && duration == old(duration)
      ensures dragging == old(dragging) && downStart == old(downStart) && downPlaying == old(downPlaying)
    {
      currentTime := t;
      if currentTime >= endTime {
        isPlaying := false;
        currentTime := startTime;
      }
    }

    /** `handleVideoPlay`, ignored during a drag: pause, or seek to the
        start handle and play; `played` is whether `play()` succeeds. */
    method PlayPressed(played: bool)
      modifies this
      ensures old(dragging).Some? ==> isPlaying == old(isPlaying) && currentTime == old(currentTime)
      ensures old(dragging).None? && old(isPlaying) ==> !isPlaying && currentTime == old(currentTime)
      ensures old(dragging).None? && !old(isPlaying) ==> isPlaying == played && currentTime == startTime
      ensures startTime == old(startTime) && endTime == old(endTime) && duration == old(duration)
      ensures dragging == old(dragging) && downStart == old(downStart) && downPlaying == old(downPlaying)
    {
      if dragging.None? {
        if isPlaying {
          isPlaying := false;
        } else {
          currentTime := startTime;
          isPlaying := played;
        }
      }
    }
  }
}
