/** The trim window held by the front end's trimming hook: the video's
    duration and the chosen start and end times, in seconds, with the
    clamping its input handlers apply. Each handler is a pure function of the
    current state; the text typed into an input arrives as what `parseFloat`
    reads from it. */
module Trimming {
  import opened Common

  datatype TrimState = TrimState(duration: real, startTime: real, endTime: real)

  /** The state the hook starts in, and the one `resetTrimState` restores. */
  const Initial := TrimState(0.0, 0.0, 0.0)

  function ResetTrimState(s: TrimState): (r: TrimState)
    ensures r.duration == 0.0 && r.startTime == 0.0 && r.endTime == 0.0
  {
    Initial
  }

  /** Metadata of the video arrived; `None` when there is no video element.
      The duration is taken over; the end is moved to it when unset (0) or
      beyond it; the start is reset to 0 when it is not before it. */
  function HandleMetadataLoaded(s: TrimState, videoDuration: Option<real>): (r: TrimState)
    ensures videoDuration.None? ==> r == s
    ensures videoDuration.Some? ==>
      && r.duration == videoDuration.value
      && (s.endTime == 0.0 || s.endTime > videoDuration.value ==> r.endTime == videoDuration.value)
      && (s.endTime != 0.0 && s.endTime <= videoDuration.value ==> r.endTime == s.endTime)
      && (s.startTime >= videoDuration.value ==> r.startTime == 0.0)
      && (s.startTime < videoDuration.value ==> r.startTime == s.startTime)
  {
    match videoDuration
    case None => s
    case Some(d) =>
      var withEnd := if s.endTime == 0.0 || s.endTime > d then s.(duration := d, endTime := d) else s.(duration := d);
      if s.startTime >= d then withEnd.(startTime := 0.0) else withEnd
  }

  /** A new start time was typed. */
  function HandleStartTimeChange(s: TrimState, x: JsNumber): (r: TrimState)
    ensures r.duration == s.duration && r.endTime == s.endTime
    ensures x.Finite? && 0.0 <= x.value <= s.endTime ==> r.startTime == x.value
    ensures x.Finite? && x.value > s.endTime ==> r.startTime == s.endTime
    ensures x.Finite? && x.value < 0.0 && x.value <= s.endTime ==> r.startTime == 0.0
    ensures x.NaN? ==> r == s
  {
    match x
    case NaN => s
    case Finite(v) =>
      if v <= s.endTime && v >= 0.0 then s.(startTime := v)
      else if v > s.endTime then s.(startTime := s.endTime)
      else if v < 0.0 then s.(startTime := 0.0)
      else s
  }

  /** A new end time was typed. */
  function HandleEndTimeChange(s: TrimState, x: JsNumber): (r: TrimState)
    ensures r.duration == s.duration && r.startTime == s.startTime
    ensures x.Finite? && s.startTime <= x.value <= s.duration ==> r.endTime == x.value
    ensures x.Finite? && x.value < s.startTime ==> r.endTime == s.startTime
    ensures x.Finite? && x.value > s.duration && x.value >= s.startTime ==> r.endTime == s.duration
    ensures x.NaN? ==> r == s
  {
    match x
    case NaN => s
    case Finite(v) =>
      if v >= s.startTime && v <= s.duration then s.(endTime := v)
      else if v < s.startTime then s.(endTime := s.startTime)
      else if v > s.duration then s.(endTime := s.duration)
      else s
  }

  /** `x` clamped into `[lo, hi]`. */
  function Clamp(x: real, lo: real, hi: real): real
    requires lo <= hi
  {
    if x < lo then lo else if x > hi then hi else x
  }

  /** A typed start time is clamped into `[0, endTime]` whenever that interval
      is not empty, and a non-number keeps the old start. */
  lemma StartIsClamped(s: TrimState, x: JsNumber)
    requires s.endTime >= 0.0
    ensures x.Finite? ==> HandleStartTimeChange(s, x).startTime == Clamp(x.value, 0.0, s.endTime)
    ensures x.NaN? ==> HandleStartTimeChange(s, x).startTime == s.startTime
  {
  }

  /** A typed end time is clamped into `[startTime, duration]` whenever that
      interval is not empty, and a non-number keeps the old end. */
  lemma EndIsClamped(s: TrimState, x: JsNumber)
    requires s.startTime <= s.duration
    ensures x.Finite? ==> HandleEndTimeChange(s, x).endTime == Clamp(x.value, s.startTime, s.duration)
    ensures x.NaN? ==> HandleEndTimeChange(s, x).endTime == s.endTime
  {
  }

  /** The window is well formed: `0 <= startTime <= endTime <= duration`. */
  predicate Valid(s: TrimState) {
    0.0 <= s.startTime <= s.endTime <= s.duration
  }

  /** Every handler keeps the window well formed, given a video duration
      that is not negative. */
  lemma HandlersKeepWindowValid(s: TrimState, x: JsNumber, d: Option<real>)
    requires Valid(s)
    requires d.None? || d.value >= 0.0
    ensures Valid(ResetTrimState(s))
    ensures Valid(HandleMetadataLoaded(s, d))
    ensures Valid(HandleStartTimeChange(s, x))
    ensures Valid(HandleEndTimeChange(s, x))
  {
  }
}
