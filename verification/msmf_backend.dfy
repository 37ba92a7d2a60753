/**
 * The Media Foundation capture backend: the conversions between the crate's formats and
 * controls and the bindings' ones, the listing of frame rates by resolution and of frame
 * formats, the supported controls, the control flag mapping, and the format setters, all on
 * top of a bindings `MediaFoundationDevice`. Binding errors become crate errors through
 * `From<BindingError>`.
 */
module MsmfBackend {
  import opened Wrappers
  import opened Numeric
  import opened LegacyTypes
  import CoreTypes
  import MfBindings
  import Errors

  // ---------------------------------------------------------------------------------------
  // Conversions
  // ---------------------------------------------------------------------------------------

  /** `From<MFCameraFormat> for CameraFormat`: field by field. */
  function FromMFFormat(m: MfBindings.MFCameraFormat): (f: CameraFormat)
    ensures f.resolution.width_x == m.resolution.width_x && f.resolution.height_y == m.resolution.height_y
    ensures f.format == (if m.format.MJPEG? then MJPEG else YUYV) && f.frame_rate == m.frame_rate
  {
    var format := match m.format case MJPEG => MJPEG case YUYV => YUYV;
    CameraFormat(CoreTypes.Resolution(m.resolution.width_x, m.resolution.height_y), format, m.frame_rate)
  }

  /** `From<CameraFormat> for MFCameraFormat`: field by field. */
  function ToMFFormat(f: CameraFormat): (m: MfBindings.MFCameraFormat)
    ensures m.resolution.width_x == f.resolution.width_x && m.resolution.height_y == f.resolution.height_y
    ensures m.format == (if f.format.MJPEG? then MfBindings.MJPEG else MfBindings.YUYV) && m.frame_rate == f.frame_rate
  {
    var format := match f.format case MJPEG => MfBindings.MJPEG case YUYV => MfBindings.YUYV;
    MfBindings.MFCameraFormat(MfBindings.MFResolution(f.resolution.width_x, f.resolution.height_y), format, f.frame_rate)
  }

  /** The two format conversions are inverse to each other. */
  lemma FormatConversionRoundTrip(f: CameraFormat, m: MfBindings.MFCameraFormat)
    ensures FromMFFormat(ToMFFormat(f)) == f
    ensures ToMFFormat(FromMFFormat(m)) == m
  {
  }

  /** The bindings' control for each crate control, as the backend's matches give it. */
  function ToMFControl(c: KnownCameraControls): (m: MfBindings.MediaFoundationControls)
  {
    match c
    case Brightness => MfBindings.Brightness
    case Contrast => MfBindings.Contrast
    case Hue => MfBindings.Hue
    case Saturation => MfBindings.Saturation
    case Sharpness => MfBindings.Sharpness
    case Gamma => MfBindings.Gamma
    case ColorEnable => MfBindings.ColorEnable
    case WhiteBalance => MfBindings.WhiteBalance
    case BacklightComp => MfBindings.BacklightComp
    case Gain => MfBindings.Gain
    case Pan => MfBindings.Pan
    case Tilt => MfBindings.Tilt
    case Roll => MfBindings.Roll
    case Zoom => MfBindings.Zoom
    case Exposure => MfBindings.Exposure
    case Iris => MfBindings.Iris
    case Focus => MfBindings.Focus
  }

  /** `From<MediaFoundationControls> for KnownCameraControls`: each control to its namesake. */
  function FromMFControl(m: MfBindings.MediaFoundationControls): (c: KnownCameraControls)
  {
    match m
    case Brightness => Brightness
    case Contrast => Contrast
    case Hue => Hue
    case Saturation => Saturation
    case Sharpness => Sharpness
    case Gamma => Gamma
    case ColorEnable => ColorEnable
    case WhiteBalance => WhiteBalance
    case BacklightComp => BacklightComp
    case Gain => Gain
    case Pan => Pan
    case Tilt => Tilt
    case Roll => Roll
    case Zoom => Zoom
    case Exposure => Exposure
    case Iris => Iris
    case Focus => Focus
  }

  /** The two control conversions are inverse to each other, so both are one-to-one. */
  lemma ControlConversionRoundTrip(c: KnownCameraControls, m: MfBindings.MediaFoundationControls)
    ensures FromMFControl(ToMFControl(c)) == c
    ensures ToMFControl(FromMFControl(m)) == m
  {
  }

  /** The crate flag for the bindings' manual setting. */
  function FlagOf(manual: bool): (flag: KnownCameraControlFlag)
    ensures flag == Manual <==> manual
  {
    if manual then Manual else Automatic
  }

  /** The bindings' manual setting for a crate flag. */
  function ManualOf(flag: KnownCameraControlFlag): (manual: bool)
    ensures manual <==> flag == Manual
  {
    match flag
    case Automatic => false
    case Manual => true
  }

  /** Reading and writing a control's flag are inverse: the flag survives a write and a read. */
  lemma FlagMappingRoundTrip(flag: KnownCameraControlFlag, manual: bool)
    ensures FlagOf(ManualOf(flag)) == flag
    ensures ManualOf(FlagOf(manual)) == manual
  {
  }

  // ---------------------------------------------------------------------------------------
  // Listings
  // ---------------------------------------------------------------------------------------

  /** The crate formats of a list of bindings formats. */
  function FromMFFormats(ms: seq<MfBindings.MFCameraFormat>): (fs: seq<CameraFormat>)
    ensures |fs| == |ms| && forall k :: 0 <= k < |ms| ==> fs[k] == FromMFFormat(ms[k])
  {
    seq(|ms|, k requires 0 <= k < |ms| => FromMFFormat(ms[k]))
  }

  /** The frame rates, in order, of the formats with the given fourcc and resolution. */
  function RatesFor(fs: seq<CameraFormat>, fourcc: FrameFormat, res: Resolution): (rates: seq<u32>)
  {
    if fs == [] then []
    else
      var last := fs[|fs| - 1];
      RatesFor(fs[..|fs| - 1], fourcc, res) + (if last.format == fourcc && last.resolution == res then [last.frame_rate] else [])
  }

  /** One more format adds its rate to its own resolution's rates, and nothing to the others'. */
  lemma RatesForStep(fs: seq<CameraFormat>, i: nat, fourcc: FrameFormat)
    requires i < |fs|
    ensures forall res ::
      RatesFor(fs[..i + 1], fourcc, res) ==
      RatesFor(fs[..i], fourcc, res) + (if fs[i].format == fourcc && fs[i].resolution == res then [fs[i].frame_rate] else [])
  {
    assert fs[..i + 1][..i] == fs[..i];
  }

  /** The map `compatible_list_by_resolution` builds, one format at a time. */
  function GroupRates(fs: seq<CameraFormat>, fourcc: FrameFormat): map<Resolution, seq<u32>>
  {
    if fs == [] then map[]
    else
      var m := GroupRates(fs[..|fs| - 1], fourcc);
      var last := fs[|fs| - 1];
      if last.format != fourcc then m
      else if last.resolution in m then m[last.resolution := m[last.resolution] + [last.frame_rate]]
      else m[last.resolution := [last.frame_rate]]
  }

  /** The grouped map holds exactly the resolutions with rates, each with its rates in order. */
  lemma {:induction false} GroupRatesKeys(fs: seq<CameraFormat>, fourcc: FrameFormat)
    ensures forall res :: res in GroupRates(fs, fourcc) <==> RatesFor(fs, fourcc, res) != []
    ensures forall res :: res in GroupRates(fs, fourcc) ==> GroupRates(fs, fourcc)[res] == RatesFor(fs, fourcc, res)
  {
    if fs != [] {
      var n := |fs| - 1;
      GroupRatesKeys(fs[..n], fourcc);
      RatesForStep(fs, n, fourcc);
      assert fs[..n + 1] == fs;
    }
  }

  /**
   * A resolution has frame rates exactly when some format has the fourcc and that
   * resolution, and each of its rates is the rate of such a format.
   */
  lemma {:induction false} RatesForContents(fs: seq<CameraFormat>, fourcc: FrameFormat, res: Resolution)
    ensures RatesFor(fs, fourcc, res) != [] <==> exists k :: 0 <= k < |fs| && fs[k].format == fourcc && fs[k].resolution == res
    ensures forall rate :: rate in RatesFor(fs, fourcc, res) ==>
      exists k :: 0 <= k < |fs| && fs[k].format == fourcc && fs[k].resolution == res && fs[k].frame_rate == rate
  {
    if fs != [] {
      var init := fs[..|fs| - 1];
      RatesForContents(init, fourcc, res);
      if exists k :: 0 <= k < |init| && init[k].format == fourcc && init[k].resolution == res {
        var k :| 0 <= k < |init| && init[k].format == fourcc && init[k].resolution == res;
        assert fs[k] == init[k];
      }
      if exists k :: 0 <= k < |fs| && fs[k].format == fourcc && fs[k].resolution == res {
        var k :| 0 <= k < |fs| && fs[k].format == fourcc && fs[k].resolution == res;
        if k < |init| {
          assert fs[k] == init[k];
        }
      }
      forall rate | rate in RatesFor(fs, fourcc, res)
        ensures exists k :: 0 <= k < |fs| && fs[k].format == fourcc && fs[k].resolution == res && fs[k].frame_rate == rate
      {
        if rate in RatesFor(init, fourcc, res) {
          var k :| 0 <= k < |init| && init[k].format == fourcc && init[k].resolution == res && init[k].frame_rate == rate;
          assert fs[k] == init[k];
        }
      }
    }
  }

  /** The distinct frame formats of a list of formats, in order of first appearance. */
  function DistinctFormats(fs: seq<CameraFormat>): (ffs: seq<FrameFormat>)
  {
    if fs == [] then []
    else
      var seen := DistinctFormats(fs[..|fs| - 1]);
      if fs[|fs| - 1].format in seen then seen else seen + [fs[|fs| - 1].format]
  }

  /**
   * The distinct formats hold no duplicate, at most two entries, and exactly the formats
   * that occur; the first one is the first format's.
   */
  lemma {:induction false} DistinctFormatsContents(fs: seq<CameraFormat>)
    ensures forall i, j :: 0 <= i < j < |DistinctFormats(fs)| ==> DistinctFormats(fs)[i] != DistinctFormats(fs)[j]
    ensures |DistinctFormats(fs)| <= 2
    ensures forall f :: f in DistinctFormats(fs) <==> exists k :: 0 <= k < |fs| && fs[k].format == f
    ensures fs != [] ==> DistinctFormats(fs)[0] == fs[0].format
  {
    if fs != [] {
      var init := fs[..|fs| - 1];
      DistinctFormatsContents(init);
      forall f ensures f in DistinctFormats(fs) <==> exists k :: 0 <= k < |fs| && fs[k].format == f {
        if exists k :: 0 <= k < |init| && init[k].format == f {
          var k :| 0 <= k < |init| && init[k].format == f;
          assert fs[k] == init[k];
        }
        if exists k :: 0 <= k < |fs| && fs[k].format == f {
          var k :| 0 <= k < |fs| && fs[k].format == f;
          if k < |init| {
            assert fs[k] == init[k];
          }
        }
      }
      if |init| > 0 {
        assert init[0] == fs[0];
      }
      var seen := DistinctFormats(init);
      if |seen| == 2 {
        TwoFormatsCoverAll(seen, fs[|fs| - 1].format);
      }
    }
  }

  /** Two distinct frame formats are all of them. */
  lemma TwoFormatsCoverAll(d: seq<FrameFormat>, f: FrameFormat)
    requires |d| == 2 && d[0] != d[1]
    ensures f in d
  {
    match f
    case MJPEG => if d[0] != MJPEG { assert d[1] == MJPEG; }
    case YUYV => if d[0] != YUYV { assert d[1] == YUYV; }
  }

  /** Once both formats have been seen, no later format changes the distinct list. */
  lemma {:induction false} DistinctFormatsSaturated(fs: seq<CameraFormat>, i: nat, j: nat)
    requires i <= j <= |fs| && |DistinctFormats(fs[..i])| == 2
    ensures DistinctFormats(fs[..j]) == DistinctFormats(fs[..i])
    decreases j
  {
    if j > i {
      DistinctFormatsSaturated(fs, i, j - 1);
      DistinctFormatsContents(fs[..i]);
      var d := DistinctFormats(fs[..i]);
      assert fs[..j][..j - 1] == fs[..j - 1];
      TwoFormatsCoverAll(d, fs[..j][j - 1].format);
    }
  }

  /** What the device answers when one control is read: the calls `control()` makes, in order. */
  datatype ControlAnswers = ControlAnswers(camera_control: Result<Unit, string>, video_proc_amp: Result<Unit, string>,
                                           range: Result<MfBindings.RangeAnswer, string>, value: Result<(MfBindings.i32, MfBindings.i32), string>)

  /** The read of a control through the bindings. */
  function ReadKnownControl(c: KnownCameraControls, a: ControlAnswers): (r: Result<MfBindings.MFControl, MfBindings.BindingError>)
  {
    MfBindings.ReadControl(ToMFControl(c), a.camera_control, a.video_proc_amp, a.range, a.value)
  }

  /** The controls of `cs` whose read succeeds, in order, each as the control read reports. */
  function SupportedControls(cs: seq<KnownCameraControls>, answers: KnownCameraControls -> ControlAnswers): (supported: seq<KnownCameraControls>)
  {
    if cs == [] then []
    else
      var last := cs[|cs| - 1];
      var read := ReadKnownControl(last, answers(last));
      SupportedControls(cs[..|cs| - 1], answers) + (if read.Ok? then [FromMFControl(read.value.control)] else [])
  }

  /**
   * The supported controls are the controls of the list whose read succeeds, in the list's
   * order: a subsequence of it.
   */
  lemma {:induction false} SupportedControlsSubsequence(cs: seq<KnownCameraControls>, answers: KnownCameraControls -> ControlAnswers)
    ensures SupportedControls(cs, answers) == Subsequence(cs, answers)
  {
    if cs != [] {
      var last := cs[|cs| - 1];
      SupportedControlsSubsequence(cs[..|cs| - 1], answers);
      var read := ReadKnownControl(last, answers(last));
      if read.Ok? {
        ControlConversionRoundTrip(last, read.value.control);
      }
    }
  }

  /** The controls of `cs` whose read succeeds, in order. */
  function Subsequence(cs: seq<KnownCameraControls>, answers: KnownCameraControls -> ControlAnswers): (sub: seq<KnownCameraControls>)
    ensures forall c :: c in sub <==> c in cs && ReadKnownControl(c, answers(c)).Ok?
    ensures |sub| <= |cs|
  {
    if cs == [] then []
    else Subsequence(cs[..|cs| - 1], answers) + (if ReadKnownControl(cs[|cs| - 1], answers(cs[|cs| - 1])).Ok? then [cs[|cs| - 1]] else [])
  }

  // ---------------------------------------------------------------------------------------
  // The capture device
  // ---------------------------------------------------------------------------------------

  /** The message of an image too short for the format's size. */
  const IMAGE_TOO_SMALL: string := "Imagebuffer is not large enough! This is probably a bug, please report it!"

  /** A `MediaFoundationCaptureDevice`: a bindings device and its description. */
  class MediaFoundationCaptureDevice {
    const inner: MfBindings.MediaFoundationDevice
    const info: CameraInfo

    /** A capture device over an opened bindings device. */
    constructor (inner: MfBindings.MediaFoundationDevice, info: CameraInfo)
      ensures this.inner == inner && this.info == info
    {
      this.inner := inner;
      this.info := info;
    }

    /** `backend`. */
    function Backend(): (b: CaptureAPIBackend)
      ensures b == MediaFoundation
    {
      MediaFoundation
    }

    /** `camera_format`: the bindings device's format, converted. */
    function Format(): (f: CameraFormat)
      reads inner
      ensures ToMFFormat(f) == inner.device_format
    {
      FormatConversionRoundTrip(DEFAULT_CAMERA_FORMAT, inner.device_format);
      FromMFFormat(inner.device_format)
    }

    /** `is_stream_open`. */
    function IsStreamOpen(): (open: bool)
      reads inner
      ensures open == inner.is_open
    {
      inner.is_open
    }

    /**
     * `set_camera_format`: the bindings' `set_format` with the converted format; on success
     * the device's format is the new one, on failure it is unchanged and the binding error
     * is converted.
     */
    method SetCameraFormat(new_fmt: CameraFormat, answer: MfBindings.SetStep -> Option<string>, subtype_text: string, media_type_text: string)
      returns (r: Result<Unit, NokhwaError>)
      modifies inner
      ensures var outcome := MfBindings.SetFormatFrom(0, ToMFFormat(new_fmt), answer, subtype_text, media_type_text);
        (r.Ok? <==> outcome.Ok?) && (r.Err? ==> r.error == Errors.FromBindingError(outcome.error))
      ensures r.Ok? ==> Format() == new_fmt
      ensures r.Err? ==> Format() == old(Format())
      ensures inner.is_open == old(inner.is_open)
    {
      var outcome := inner.SetFormat(ToMFFormat(new_fmt), answer, subtype_text, media_type_text);
      if outcome.Err? {
        return Err(Errors.FromBindingError(outcome.error));
      }
      FormatConversionRoundTrip(new_fmt, inner.device_format);
      return Ok(Unit);
    }

    /** `set_resolution`: only the resolution of the current format changes, on success. */
    method SetResolution(new_res: Resolution, answer: MfBindings.SetStep -> Option<string>, subtype_text: string, media_type_text: string)
      returns (r: Result<Unit, NokhwaError>)
      modifies inner
      ensures var outcome := MfBindings.SetFormatFrom(0, ToMFFormat(old(Format()).(resolution := new_res)), answer, subtype_text, media_type_text);
        (r.Ok? <==> outcome.Ok?) && (r.Err? ==> r.error == Errors.FromBindingError(outcome.error))
      ensures r.Ok? ==> Format() == old(Format()).(resolution := new_res)
      ensures r.Err? ==> Format() == old(Format())
      ensures inner.is_open == old(inner.is_open)
    {
      r := SetCameraFormat(Format().(resolution := new_res), answer, subtype_text, media_type_text);
    }

    /** `set_frame_rate`: only the frame rate of the current format changes, on success. */
    method SetFrameRate(new_fps: u32, answer: MfBindings.SetStep -> Option<string>, subtype_text: string, media_type_text: string)
      returns (r: Result<Unit, NokhwaError>)
      modifies inner
      ensures var outcome := MfBindings.SetFormatFrom(0, ToMFFormat(old(Format()).(frame_rate := new_fps)), answer, subtype_text, media_type_text);
        (r.Ok? <==> outcome.Ok?) && (r.Err? ==> r.error == Errors.FromBindingError(outcome.error))
      ensures r.Ok? ==> Format() == old(Format()).(frame_rate := new_fps)
      ensures r.Err? ==> Format() == old(Format())
      ensures inner.is_open == old(inner.is_open)
    {
      r := SetCameraFormat(Format().(frame_rate := new_fps), answer, subtype_text, media_type_text);
    }

    /** `set_frame_format`: only the frame format of the current format changes, on success. */
    method SetFrameFormat(fourcc: FrameFormat, answer: MfBindings.SetStep -> Option<string>, subtype_text: string, media_type_text: string)
      returns (r: Result<Unit, NokhwaError>)
      modifies inner
      ensures var outcome := MfBindings.SetFormatFrom(0, ToMFFormat(old(Format()).(format := fourcc)), answer, subtype_text, media_type_text);
        (r.Ok? <==> outcome.Ok?) && (r.Err? ==> r.error == Errors.FromBindingError(outcome.error))
      ensures r.Ok? ==> Format() == old(Format()).(format := fourcc)
      ensures r.Err? ==> Format() == old(Format())
      ensures inner.is_open == old(inner.is_open)
    {
      r := SetCameraFormat(Format().(format := fourcc), answer, subtype_text, media_type_text);
    }

    /**
     * `compatible_list_by_resolution`: from the device's format list, the formats with the
     * fourcc grouped by resolution. The keys are exactly the resolutions of such formats and
     * each maps to their frame rates in list order.
     */
    method CompatibleListByResolution(fourcc: FrameFormat, mts: seq<MfBindings.MediaType>, end: MfBindings.ReadFailure)
      returns (r: Result<map<Resolution, seq<u32>>, NokhwaError>)
      ensures MfBindings.FormatList(mts, end).Err? ==> r == Err(Errors.FromBindingError(MfBindings.FormatList(mts, end).error))
      ensures MfBindings.FormatList(mts, end).Ok? ==> r.Ok?
      ensures r.Ok? ==> var fs := FromMFFormats(MfBindings.FormatList(mts, end).value);
        (forall res :: res in r.value <==> RatesFor(fs, fourcc, res) != [])
        && (forall res :: res in r.value ==> r.value[res] == RatesFor(fs, fourcc, res))
    {
      var mf_camera_format_list := inner.CompatibleFormatList(mts, end);
      if mf_camera_format_list.Err? {
        return Err(Errors.FromBindingError(mf_camera_format_list.error));
      }
      var fs := FromMFFormats(mf_camera_format_list.value);
      var resolution_map: map<Resolution, seq<u32>> := map[];
      for i := 0 to |fs|
        invariant resolution_map == GroupRates(fs[..i], fourcc)
      {
        assert fs[..i + 1][..i] == fs[..i];
        var camera_format := fs[i];
        if camera_format.format == fourcc {
          var res := camera_format.resolution;
          if res in resolution_map {
            resolution_map := resolution_map[res := resolution_map[res] + [camera_format.frame_rate]];
          } else {
            resolution_map := resolution_map[res := [camera_format.frame_rate]];
          }
        }
      }
      assert fs[..|fs|] == fs;
      GroupRatesKeys(fs, fourcc);
      return Ok(resolution_map);
    }

    /**
     * `compatible_fourcc`: the distinct frame formats of the device's format list, in order
     * of first appearance; the scan stops once two have been found.
     */
    method CompatibleFourcc(mts: seq<MfBindings.MediaType>, end: MfBindings.ReadFailure) returns (r: Result<seq<FrameFormat>, NokhwaError>)
      ensures MfBindings.FormatList(mts, end).Err? ==> r == Err(Errors.FromBindingError(MfBindings.FormatList(mts, end).error))
      ensures MfBindings.FormatList(mts, end).Ok? ==> r == Ok(DistinctFormats(FromMFFormats(MfBindings.FormatList(mts, end).value)))
    {
      var mf_camera_format_list := inner.CompatibleFormatList(mts, end);
      if mf_camera_format_list.Err? {
        return Err(Errors.FromBindingError(mf_camera_format_list.error));
      }
      var frame_format_list := ScanDistinctFormats(FromMFFormats(mf_camera_format_list.value));
      return Ok(frame_format_list);
    }

    /** The scan of `compatible_fourcc`: formats in order of first appearance, stopping at two. */
    static method ScanDistinctFormats(fs: seq<CameraFormat>) returns (frame_format_list: seq<FrameFormat>)
      ensures frame_format_list == DistinctFormats(fs)
    {
      frame_format_list := [];
      var i := 0;
      while i < |fs|
        invariant 0 <= i <= |fs|
        invariant frame_format_list == DistinctFormats(fs[..i])
      {
        assert fs[..i + 1][..i] == fs[..i];
        if fs[i].format !in frame_format_list {
          frame_format_list := frame_format_list + [fs[i].format];
        }
        i := i + 1;
        if |frame_format_list| == 2 {
          DistinctFormatsSaturated(fs, i, |fs|);
          assert fs[..|fs|] == fs;
          return;
        }
      }
      assert fs[..|fs|] == fs;
    }

    /**
     * `supported_camera_controls`: the known controls, in declaration order, whose read
     * succeeds; `answers` gives the device's answers for each control.
     */
    method SupportedCameraControls(answers: KnownCameraControls -> ControlAnswers) returns (r: Result<seq<KnownCameraControls>, NokhwaError>)
      ensures r == Ok(SupportedControls(ALL_KNOWN_CAMERA_CONTROLS, answers))
    {
      var supported_camera_controls := SupportedAmong(ALL_KNOWN_CAMERA_CONTROLS, answers);
      return Ok(supported_camera_controls);
    }

    /** The loop of `supported_camera_controls` over a list of controls, keeping those whose read succeeds. */
    static method SupportedAmong(all: seq<KnownCameraControls>, answers: KnownCameraControls -> ControlAnswers)
      returns (supported_camera_controls: seq<KnownCameraControls>)
      ensures supported_camera_controls == SupportedControls(all, answers)
    {
      supported_camera_controls := [];
      for i := 0 to |all|
        invariant supported_camera_controls == SupportedControls(all[..i], answers)
      {
        assert all[..i + 1][..i] == all[..i];
        var camera_control := all[i];
        var supported := ReadKnownControl(camera_control, answers(camera_control));
        if supported.Ok? {
          supported_camera_controls := supported_camera_controls + [FromMFControl(supported.value.control)];
        }
      }
      assert all[..|all|] == all;
    }

    /**
     * `camera_control`: the control read through the bindings, with the flag for its manual
     * setting, checked by `CameraControl::new`.
     */
    method CameraControlOf(control: KnownCameraControls, answers: ControlAnswers) returns (r: Result<CameraControl, NokhwaError>)
      requires ReadKnownControl(control, answers).Ok? ==>
        var c := ReadKnownControl(control, answers).value;
        c.min < c.current < c.max ==> c.step != 0
      ensures ReadKnownControl(control, answers).Err? ==> r == Err(Errors.FromBindingError(ReadKnownControl(control, answers).error))
      ensures ReadKnownControl(control, answers).Ok? ==>
        var c := ReadKnownControl(control, answers).value;
        r == CameraControlNew(control, c.min, c.max, c.current, c.step, c.default, FlagOf(c.manual), c.active)
      ensures r.Ok? ==> r.value.control == control && r.value.active
    {
      var ctrl := ReadKnownControl(control, answers);
      if ctrl.Err? {
        return Err(Errors.FromBindingError(ctrl.error));
      }
      var c := ctrl.value;
      var flag := FlagOf(c.manual);
      return CameraControlNew(control, c.min, c.max, c.current, c.step, c.default, flag, c.active);
    }

    /**
     * `set_camera_control`: the control's value and flag are written through the bindings'
     * `set_control`, the flag as the manual setting.
     */
    method SetCameraControl(control: CameraControl, camera_control: Result<Unit, string>, video_proc_amp: Result<Unit, string>,
                            send: (MfBindings.i32, MfBindings.i32) -> Result<Unit, string>) returns (r: Result<Unit, NokhwaError>)
      ensures var ctl := MfBindings.MFControl(ToMFControl(control.control), control.min, control.max, control.step,
                                              control.value, control.default, ManualOf(control.flag), control.active);
        var w := MfBindings.WriteControl(ctl, camera_control, video_proc_amp, send);
        (r.Ok? <==> w.Ok?) && (r.Err? ==> r.error == Errors.FromBindingError(w.error))
    {
      var flag := ManualOf(control.flag);
      var msmf_camera_control := MfBindings.MFControl(ToMFControl(control.control), control.min, control.max, control.step,
                                                      control.value, control.default, flag, control.active);
      var written := MfBindings.WriteControl(msmf_camera_control, camera_control, video_proc_amp, send);
      if written.Err? {
        return Err(Errors.FromBindingError(written.error));
      }
      return Ok(Unit);
    }

    /** `open_stream`: the bindings' `start_stream`, which cannot fail. */
    method OpenStream() returns (r: Result<Unit, NokhwaError>)
      modifies inner
      ensures r == Ok(Unit) && inner.is_open
      ensures inner.device_format == old(inner.device_format)
    {
      var started := inner.StartStream();
      return Ok(Unit);
    }

    /** `stop_stream`: the bindings' `stop_stream`; always Ok. */
    method StopStream() returns (r: Result<Unit, NokhwaError>)
      modifies inner
      ensures r == Ok(Unit) && !inner.is_open
      ensures inner.device_format == old(inner.device_format)
    {
      inner.StopStream();
      return Ok(Unit);
    }

    /** `frame_raw`: the bindings' `raw_bytes`, its error converted. */
    method FrameRaw(raw_bytes: Result<seq<u8>, MfBindings.BindingError>) returns (r: Result<seq<u8>, NokhwaError>)
      ensures raw_bytes.Ok? ==> r == Ok(raw_bytes.value)
      ensures raw_bytes.Err? ==> r == Err(Errors.FromBindingError(raw_bytes.error))
    {
      if raw_bytes.Err? {
        return Err(Errors.FromBindingError(raw_bytes.error));
      }
      return Ok(raw_bytes.value);
    }

    /**
     * `frame`: the raw frame decoded by the format's decoder into an image of the format's
     * size, which fails when the decoded data is too short for that size.
     */
    method Frame(raw_bytes: Result<seq<u8>, MfBindings.BindingError>, decode: (FrameFormat, seq<u8>) -> Result<seq<u8>, NokhwaError>)
      returns (r: Result<RgbImage, NokhwaError>)
      ensures r.Ok? ==> raw_bytes.Ok? && decode(Format().format, raw_bytes.value) == Ok(r.value.data)
      ensures r.Ok? ==> r.value.width == Format().resolution.width_x && r.value.height == Format().resolution.height_y
      ensures r.Ok? ==> |r.value.data| >= Format().resolution.width_x * Format().resolution.height_y * 3
      ensures raw_bytes.Err? ==> r == Err(Errors.FromBindingError(raw_bytes.error))
      ensures raw_bytes.Ok? && decode(Format().format, raw_bytes.value).Ok? && r.Err? ==> r.error == ReadFrameError(IMAGE_TOO_SMALL)
      ensures raw_bytes.Ok? && decode(Format().format, raw_bytes.value).Err? ==> r == Err(decode(Format().format, raw_bytes.value).error)
      ensures raw_bytes.Ok? && decode(Format().format, raw_bytes.value).Ok? &&
              |decode(Format().format, raw_bytes.value).value| >= Format().resolution.width_x * Format().resolution.height_y * 3 ==>
        r == Ok(RgbImage(Format().resolution.width_x, Format().resolution.height_y, decode(Format().format, raw_bytes.value).value))
    {
      var camera_format := Format();
      var raw_data := FrameRaw(raw_bytes);
      if raw_data.Err? {
        return Err(raw_data.error);
      }
      var conv := decode(camera_format.format, raw_data.value);
      if conv.Err? {
        return Err(conv.error);
      }
      var width, height := camera_format.resolution.width_x, camera_format.resolution.height_y;
      if |conv.value| < (width as int) * (height as int) * 3 {
        return Err(ReadFrameError(IMAGE_TOO_SMALL));
      }
      return Ok(RgbImage(width, height, conv.value));
    }
  }
}
