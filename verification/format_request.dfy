/**
 * The format request builder of the core crate: optional resolution and frame-rate ranges,
 * an optional ordered list of acceptable frame formats and an optional request kind.
 */
module FormatRequests {
  import opened Wrappers
  import opened Numeric
  import opened CoreTypes
  import opened Ranges

  /** What a custom request optimises for. */
  datatype CustomFormatRequestType = HighestFPS | HighestResolution | Closest

  /** The frame formats `with_standard_frame_formats` appends, in order. */
  const STANDARD_FRAME_FORMATS: seq<FrameFormat> := [MJpeg, Rgb8, Yuv422, Nv12]

  /**
   * The first index holding `f`, if any (`Iterator::position` with an equality test).
   */
  function Position(ffs: seq<FrameFormat>, f: FrameFormat): (r: Option<nat>)
    ensures r.None? <==> f !in ffs
    ensures r.Some? ==> r.value < |ffs| && ffs[r.value] == f && f !in ffs[..r.value]
  {
    if ffs == [] then None
    else if ffs[0] == f then Some(0)
    else match Position(ffs[1..], f)
      case None => None
      case Some(i) =>
        assert ffs[..i + 1] == [ffs[0]] + ffs[1..][..i];
        Some(i + 1)
  }

  /**
   * The bound setters the `range_set_fields` macro generates, on an optional range. When the
   * range is present only the named field changes; when it is absent a new inclusive range is
   * created holding just that bound and the type's default as preferred value.
   */
  function SetMaximumIn<T>(r: Option<Range<T>>, maximum: Option<T>, zero: T): (s: Option<Range<T>>)
    ensures s.Some? && s.value.maximum == maximum
    ensures r.Some? ==> s.value == SetMaximum(r.value, maximum)
    ensures r.None? ==> s.value.minimum.None? && s.value.preferred == zero
  {
    match r
    case Some(rng) => Some(SetMaximum(rng, maximum))
    case None => Some(RangeNew(zero, None, maximum))
  }

  function SetMinimumIn<T>(r: Option<Range<T>>, minimum: Option<T>, zero: T): (s: Option<Range<T>>)
    ensures s.Some? && s.value.minimum == minimum
    ensures r.Some? ==> s.value == SetMinimum(r.value, minimum)
    ensures r.None? ==> s.value.maximum.None? && s.value.preferred == zero
  {
    match r
    case Some(rng) => Some(SetMinimum(rng, minimum))
    case None => Some(RangeNew(zero, minimum, None))
  }

  /** `set_preferred_*`: sets the preferred value, creating an unbounded range when absent. */
  function SetPreferredIn<T>(r: Option<Range<T>>, preferred: T): (s: Option<Range<T>>)
    ensures s.Some? && s.value.preferred == preferred
    ensures r.Some? ==> s.value == SetPreferred(r.value, preferred)
    ensures r.None? ==> s.value.minimum.None? && s.value.maximum.None?
  {
    match r
    case Some(rng) => Some(SetPreferred(rng, preferred))
    case None => Some(RangeExact(preferred))
  }

  /**
   * `with_preferred_*`, as written: on an absent range it creates an unbounded range whose
   * preferred value is the type's default, dropping the argument.
   */
  function WithPreferredIn<T>(r: Option<Range<T>>, preferred: T, zero: T): (s: Option<Range<T>>)
    ensures s.Some?
    ensures r.Some? ==> s.value == SetPreferred(r.value, preferred)
    ensures r.None? ==> s.value == RangeExact(zero)
  {
    match r
    case Some(rng) => Some(SetPreferred(rng, preferred))
    case None => Some(RangeExact(zero))
  }

  /** `reset_maximum_*` / `reset_minimum_*`: clear the bound of a present range; absent stays absent. */
  function ResetMaximumIn<T>(r: Option<Range<T>>): (s: Option<Range<T>>)
    ensures s.Some? <==> r.Some?
    ensures r.Some? ==> s.value == SetMaximum(r.value, None)
  {
    match r
    case Some(rng) => Some(SetMaximum(rng, None))
    case None => None
  }

  function ResetMinimumIn<T>(r: Option<Range<T>>): (s: Option<Range<T>>)
    ensures s.Some? <==> r.Some?
    ensures r.Some? ==> s.value == SetMinimum(r.value, None)
  {
    match r
    case Some(rng) => Some(SetMinimum(rng, None))
    case None => None
  }

  /**
   * Across the bound setters: a present range keeps every field other than the one set, and
   * `with_maximum_*(v)` / `with_minimum_*(v)` are `set_maximum_*(Some(v))` / `set_minimum_*(Some(v))`.
   * Setting a bound and then resetting it leaves a present range without that bound and with
   * its other fields.
   */
  lemma BoundSettersKeepOtherFields<T>(rng: Range<T>, v: T, zero: T)
    ensures var s := SetMaximumIn(Some(rng), Some(v), zero).value;
      s.minimum == rng.minimum && s.preferred == rng.preferred
      && s.lower_inclusive == rng.lower_inclusive && s.upper_inclusive == rng.upper_inclusive
    ensures var s := SetMinimumIn(Some(rng), Some(v), zero).value;
      s.maximum == rng.maximum && s.preferred == rng.preferred
      && s.lower_inclusive == rng.lower_inclusive && s.upper_inclusive == rng.upper_inclusive
    ensures ResetMaximumIn(SetMaximumIn(Some(rng), Some(v), zero)) == Some(SetMaximum(rng, None))
    ensures ResetMinimumIn(SetMinimumIn(Some(rng), Some(v), zero)) == Some(SetMinimum(rng, None))
  {
  }

  /** The request. The `Option<Vec<_>>` of frame formats is an optional sequence. */
  class FormatRequest {
    var resolution: Option<Range<Resolution>>
    var frame_rate: Option<Range<u32>>
    var frame_format: Option<seq<FrameFormat>>
    var req_type: Option<CustomFormatRequestType>

    /** `FormatRequest::new`, the derived default: every field absent. */
    constructor ()
      ensures resolution.None? && frame_rate.None? && frame_format.None? && req_type.None?
    {
      resolution := None;
      frame_rate := None;
      frame_format := None;
      req_type := None;
    }

    /** `push_frame_format`: appends at the end, or starts a one-element list. */
    method PushFrameFormat(f: FrameFormat)
      modifies this
      ensures frame_format == Some((if old(frame_format).Some? then old(frame_format).value else []) + [f])
      ensures resolution == old(resolution) && frame_rate == old(frame_rate) && req_type == old(req_type)
    {
      match frame_format
      case Some(ffs) => frame_format := Some(ffs + [f]);
      case None =>
        assert [] + [f] == [f];
        frame_format := Some([f]);
    }

    /**
     * `remove_frame_format`: removes the first element equal to `f`, if there is one; an
     * absent list stays absent.
     */
    method RemoveFrameFormat(f: FrameFormat)
      modifies this
      ensures old(frame_format).None? ==> frame_format.None?
      ensures old(frame_format).Some? && f !in old(frame_format).value ==> frame_format == old(frame_format)
      ensures old(frame_format).Some? && f in old(frame_format).value ==>
        exists i :: 0 <= i < |old(frame_format).value| && old(frame_format).value[i] == f
          && f !in old(frame_format).value[..i]
          && frame_format == Some(old(frame_format).value[..i] + old(frame_format).value[i + 1..])
      ensures resolution == old(resolution) && frame_rate == old(frame_rate) && req_type == old(req_type)
    {
      if frame_format.Some? {
        var ffs := frame_format.value;
        match Position(ffs, f)
        case Some(idx) =>
          frame_format := Some(ffs[..idx] + ffs[idx + 1..]);
        case None =>
      }
    }

    /**
     * `append_frame_formats`: with a list present, moves the argument's elements to its end
     * and leaves the argument empty (`drained`); with none, stores a copy and leaves the
     * argument as it was.
     */
    method AppendFrameFormats(frame_formats: seq<FrameFormat>) returns (drained: seq<FrameFormat>)
      modifies this
      ensures old(frame_format).Some? ==> frame_format == Some(old(frame_format).value + frame_formats) && drained == []
      ensures old(frame_format).None? ==> frame_format == Some(frame_formats) && drained == frame_formats
      ensures resolution == old(resolution) && frame_rate == old(frame_rate) && req_type == old(req_type)
    {
      match frame_format
      case Some(ffs) =>
        frame_format := Some(ffs + frame_formats);
        drained := [];
      case None =>
        frame_format := Some(frame_formats);
        drained := frame_formats;
    }

    /** `with_standard_frame_formats`: appends MJPEG, RGB8, YUYV and NV12, in that order. */
    method WithStandardFrameFormats()
      modifies this
      ensures frame_format == Some((if old(frame_format).Some? then old(frame_format).value else []) + STANDARD_FRAME_FORMATS)
      ensures resolution == old(resolution) && frame_rate == old(frame_rate) && req_type == old(req_type)
    {
      var _ := AppendFrameFormats(STANDARD_FRAME_FORMATS);
      assert [] + STANDARD_FRAME_FORMATS == STANDARD_FRAME_FORMATS;
    }

    /** `reset_frame_formats`. */
    method ResetFrameFormats()
      modifies this
      ensures frame_format.None?
      ensures resolution == old(resolution) && frame_rate == old(frame_rate) && req_type == old(req_type)
    {
      frame_format := None;
    }

    /** `with_request_type`. */
    method WithRequestType(request_type: CustomFormatRequestType)
      modifies this
      ensures req_type == Some(request_type)
      ensures resolution == old(resolution) && frame_rate == old(frame_rate) && frame_format == old(frame_format)
    {
      req_type := Some(request_type);
    }

    /** `reset_request_type`. */
    method ResetRequestType()
      modifies this
      ensures req_type.None?
      ensures resolution == old(resolution) && frame_rate == old(frame_rate) && frame_format == old(frame_format)
    {
      req_type := None;
    }

    /** `set_maximum_resolution` (and `with_maximum_resolution` with a present bound). */
    method SetMaximumResolution(max: Option<Resolution>)
      modifies this
      ensures resolution == SetMaximumIn(old(resolution), max, DEFAULT_RESOLUTION)
      ensures frame_rate == old(frame_rate) && frame_format == old(frame_format) && req_type == old(req_type)
    {
      resolution := SetMaximumIn(resolution, max, DEFAULT_RESOLUTION);
    }

    /** `set_minimum_resolution` (and `with_minimum_resolution` with a present bound). */
    method SetMinimumResolution(min: Option<Resolution>)
      modifies this
      ensures resolution == SetMinimumIn(old(resolution), min, DEFAULT_RESOLUTION)
      ensures frame_rate == old(frame_rate) && frame_format == old(frame_format) && req_type == old(req_type)
    {
      resolution := SetMinimumIn(resolution, min, DEFAULT_RESOLUTION);
    }

    /** `set_preferred_resolution`. */
    method SetPreferredResolution(preferred: Resolution)
      modifies this
      ensures resolution == SetPreferredIn(old(resolution), preferred)
      ensures frame_rate == old(frame_rate) && frame_format == old(frame_format) && req_type == old(req_type)
    {
      resolution := SetPreferredIn(resolution, preferred);
    }

    /** `with_preferred_resolution`, as written (the argument is lost when no range exists). */
    method WithPreferredResolution(preferred: Resolution)
      modifies this
      ensures resolution == WithPreferredIn(old(resolution), preferred, DEFAULT_RESOLUTION)
      ensures frame_rate == old(frame_rate) && frame_format == old(frame_format) && req_type == old(req_type)
    {
      resolution := WithPreferredIn(resolution, preferred, DEFAULT_RESOLUTION);
    }

    /** `reset_maximum_resolution`. */
    method ResetMaximumResolution()
      modifies this
      ensures resolution == ResetMaximumIn(old(resolution))
      ensures frame_rate == old(frame_rate) && frame_format == old(frame_format) && req_type == old(req_type)
    {
      resolution := ResetMaximumIn(resolution);
    }

    /** `reset_minimum_resolution`. */
    method ResetMinimumResolution()
      modifies this
      ensures resolution == ResetMinimumIn(old(resolution))
      ensures frame_rate == old(frame_rate) && frame_format == old(frame_format) && req_type == old(req_type)
    {
      resolution := ResetMinimumIn(resolution);
    }

    /** `set_resolution_range` / `with_resolution_range`. */
    method SetResolutionRange(r: Option<Range<Resolution>>)
      modifies this
      ensures resolution == r
      ensures frame_rate == old(frame_rate) && frame_format == old(frame_format) && req_type == old(req_type)
    {
      resolution := r;
    }

    /** `set_maximum_frame_rate` (and `with_maximum_frame_rate` with a present bound). */
    method SetMaximumFrameRate(max: Option<u32>)
      modifies this
      ensures frame_rate == SetMaximumIn(old(frame_rate), max, 0)
      ensures resolution == old(resolution) && frame_format == old(frame_format) && req_type == old(req_type)
    {
      frame_rate := SetMaximumIn(frame_rate, max, 0);
    }

    /** `set_minimum_frame_rate` (and `with_minimum_frame_rate` with a present bound). */
    method SetMinimumFrameRate(min: Option<u32>)
      modifies this
      ensures frame_rate == SetMinimumIn(old(frame_rate), min, 0)
      ensures resolution == old(resolution) && frame_format == old(frame_format) && req_type == old(req_type)
    {
      frame_rate := SetMinimumIn(frame_rate, min, 0);
    }

    /** `set_preferred_frame_rate`. */
    method SetPreferredFrameRate(preferred: u32)
      modifies this
      ensures frame_rate == SetPreferredIn(old(frame_rate), preferred)
      ensures resolution == old(resolution) && frame_format == old(frame_format) && req_type == old(req_type)
    {
      frame_rate := SetPreferredIn(frame_rate, preferred);
    }

    /** `with_preferred_frame_rate`, as written (the argument is lost when no range exists). */
    method WithPreferredFrameRate(preferred: u32)
      modifies this
      ensures frame_rate == WithPreferredIn(old(frame_rate), preferred, 0)
      ensures resolution == old(resolution) && frame_format == old(frame_format) && req_type == old(req_type)
    {
      frame_rate := WithPreferredIn(frame_rate, preferred, 0);
    }

    /** `reset_maximum_frame_rate`. */
    method ResetMaximumFrameRate()
      modifies this
      ensures frame_rate == ResetMaximumIn(old(frame_rate))
      ensures resolution == old(resolution) && frame_format == old(frame_format) && req_type == old(req_type)
    {
      frame_rate := ResetMaximumIn(frame_rate);
    }

    /** `reset_minimum_frame_rate`. */
    method ResetMinimumFrameRate()
      modifies this
      ensures frame_rate == ResetMinimumIn(old(frame_rate))
      ensures resolution == old(resolution) && frame_format == old(frame_format) && req_type == old(req_type)
    {
      frame_rate := ResetMinimumIn(frame_rate);
    }

    /** `set_frame_rate_range` / `with_frame_rate_range`. */
    method SetFrameRateRange(r: Option<Range<u32>>)
      modifies this
      ensures frame_rate == r
      ensures resolution == old(resolution) && frame_format == old(frame_format) && req_type == old(req_type)
    {
      frame_rate := r;
    }
  }

  /** `FormatRequest::new().with_standard_frame_formats()`: exactly the four standard formats. */
  method StandardRequest() returns (req: FormatRequest)
    ensures fresh(req)
    ensures req.frame_format == Some(STANDARD_FRAME_FORMATS)
    ensures req.resolution.None? && req.frame_rate.None? && req.req_type.None?
  {
    req := new FormatRequest();
    req.WithStandardFrameFormats();
    assert [] + STANDARD_FRAME_FORMATS == STANDARD_FRAME_FORMATS;
  }
}
