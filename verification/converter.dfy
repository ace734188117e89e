/** The pure parts of the ffmpeg wrapper: which trimming the command gets
    from the optional start and end times, the name of the output file, and
    which progress reports reach the caller. Running ffmpeg is not modelled. */
module Converter {
  import opened Common

  /** The optional trim window of a conversion, in seconds. */
  datatype ConversionOptions = ConversionOptions(startTime: Option<JsNumber>, endTime: Option<JsNumber>)

  /** The options a job starts with: no trimming requested. */
  const NoOptions := ConversionOptions(None, None)

  /** The trimming given to the ffmpeg command: an optional seek
      (`setStartTime`) and an optional duration (`setDuration`). */
  datatype TrimPlan = TrimPlan(seek: Option<JsNumber>, duration: Option<JsNumber>)

  /** JavaScript subtraction. */
  function Minus(a: JsNumber, b: JsNumber): JsNumber {
    if a.Finite? && b.Finite? then Finite(a.value - b.value) else NaN
  }

  /** JavaScript `x > 0`; false for NaN. */
  predicate Positive(x: JsNumber) {
    x.Finite? && x.value > 0.0
  }

  /** The trimming applied to the command for the given options. */
  function PlanTrim(o: ConversionOptions): (p: TrimPlan)
    // a defined start time is always a seek, and nothing else is
    ensures p.seek == o.startTime
    // both bounds: the duration is their difference when it is positive, else none
    ensures o.startTime.Some? && o.endTime.Some? ==>
      (p.duration.Some? <==> Positive(Minus(o.endTime.value, o.startTime.value)))
    ensures o.startTime.Some? && o.endTime.Some? && p.duration.Some? ==>
      p.duration.value == Minus(o.endTime.value, o.startTime.value)
    // no start time: the end time alone is taken as a duration from the beginning
    ensures o.startTime.None? ==> p.duration == o.endTime
  {
    var seek := o.startTime;
    if o.endTime.Some? && o.startTime.Some? then
      var d := Minus(o.endTime.value, o.startTime.value);
      TrimPlan(seek, if Positive(d) then Some(d) else None)
    else if o.endTime.Some? then
      TrimPlan(seek, o.endTime)
    else
      TrimPlan(seek, None)
  }

  /** The part of the input that ffmpeg keeps under a plan with finite values:
      from `from` seconds up to `to` seconds, or to the end of the input. */
  datatype Window = Window(from: real, to: Option<real>)

  function Cut(p: TrimPlan): Window
    requires p.seek.None? || p.seek.value.Finite?
    requires p.duration.None? || p.duration.value.Finite?
  {
    var from := if p.seek.Some? then p.seek.value.value else 0.0;
    Window(from, if p.duration.Some? then Some(from + p.duration.value.value) else None)
  }

  /** What the plan cuts, in terms of the requested bounds: a proper window is
      cut exactly, an end alone cuts from the beginning, an end at or before
      the start keeps everything after the start, and no bounds keep it all. */
  lemma PlanCutsRequestedWindow(o: ConversionOptions)
    requires o.startTime.None? || o.startTime.value.Finite?
    requires o.endTime.None? || o.endTime.value.Finite?
    ensures PlanTrim(o).duration.None? || PlanTrim(o).duration.value.Finite?
    ensures o.startTime.Some? && o.endTime.Some? && o.startTime.value.value < o.endTime.value.value ==>
      Cut(PlanTrim(o)) == Window(o.startTime.value.value, Some(o.endTime.value.value))
    ensures o.startTime.Some? && o.endTime.Some? && o.endTime.value.value <= o.startTime.value.value ==>
      Cut(PlanTrim(o)) == Window(o.startTime.value.value, None)
    ensures o.startTime.None? && o.endTime.Some? ==>
      Cut(PlanTrim(o)) == Window(0.0, Some(o.endTime.value.value))
    ensures o == NoOptions ==> Cut(PlanTrim(o)) == Window(0.0, None)
  {
  }

  /** The tag a bound contributes to the output file name: the formatted
      number when the bound is defined, the given word when it is not.
      `format` stands for `toFixed(2)` followed by replacing '.' with '_'. */
  function BoundTag(bound: Option<JsNumber>, word: string, format: JsNumber -> string): (t: string)
    ensures bound.None? ==> t == word
    ensures bound.Some? ==> t == format(bound.value)
  {
    match bound
    case None => word
    case Some(x) => format(x)
  }

  /** The output file name `<inputBase>_<startTag>-<endTag>.mp3`. */
  function OutputFileName(inputBase: string, o: ConversionOptions, format: JsNumber -> string): (name: string)
    ensures |name| >= |inputBase| + 6
    ensures name[..|inputBase| + 1] == inputBase + "_"
    ensures name[|name| - 4..] == ".mp3"
    ensures name[|inputBase| + 1..|name| - 4]
         == BoundTag(o.startTime, "start", format) + "-" + BoundTag(o.endTime, "end", format)
  {
    inputBase + "_" + BoundTag(o.startTime, "start", format) + "-" + BoundTag(o.endTime, "end", format) + ".mp3"
  }

  /** The two tags can be read back from a file name when the start tag
      holds no '-': so for one input, different tags give different names. */
  lemma DistinctTagsDistinctNames(inputBase: string, o1: ConversionOptions, o2: ConversionOptions,
                                  format: JsNumber -> string)
    requires '-' !in BoundTag(o1.startTime, "start", format)
    requires '-' !in BoundTag(o2.startTime, "start", format)
    requires BoundTag(o1.startTime, "start", format) != BoundTag(o2.startTime, "start", format)
          || BoundTag(o1.endTime, "end", format) != BoundTag(o2.endTime, "end", format)
    ensures OutputFileName(inputBase, o1, format) != OutputFileName(inputBase, o2, format)
  {
    var s1, e1 := BoundTag(o1.startTime, "start", format), BoundTag(o1.endTime, "end", format);
    var s2, e2 := BoundTag(o2.startTime, "start", format), BoundTag(o2.endTime, "end", format);
    if OutputFileName(inputBase, o1, format) == OutputFileName(inputBase, o2, format) {
      var m1, m2 := s1 + "-" + e1, s2 + "-" + e2;
      assert m1 == m2;
      SplitAtFirstDash(s1, e1, s2, e2);
    }
  }

  /** `s1 + "-" + e1 == s2 + "-" + e2` with no '-' in either `s` splits
      at the same place. */
  lemma SplitAtFirstDash(s1: string, e1: string, s2: string, e2: string)
    requires '-' !in s1 && '-' !in s2
    requires s1 + "-" + e1 == s2 + "-" + e2
    ensures s1 == s2 && e1 == e2
  {
    var m := s1 + "-" + e1;
    // both prefixes end at the first '-' of `m`
    assert forall k :: 0 <= k < |s1| ==> m[k] == s1[k] != '-';
    assert forall k :: 0 <= k < |s2| ==> m[k] == s2[k] != '-';
    assert m[|s1|] == '-' && m[|s2|] == '-';
    assert s1 == m[..|s1|] == s2;
    assert e1 == m[|s1| + 1..] == e2;
  }

  /** The percentage handed to the progress callback for one ffmpeg progress
      report, if any: only when a callback was given and the reported percent
      is truthy (present, not 0, not NaN). */
  function ForwardedPercent(hasCallback: bool, percent: Option<JsNumber>): (r: Option<real>)
    ensures r.Some? <==> hasCallback && percent.Some? && percent.value.Finite? && percent.value.value != 0.0
    ensures r.Some? ==> percent == Some(Finite(r.value))
  {
    if hasCallback && percent.Some? && percent.value.Finite? && percent.value.value != 0.0
    then Some(percent.value.value)
    else None
  }
}
