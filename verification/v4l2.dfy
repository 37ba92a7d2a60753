/**
 * The Video4Linux capture device of the top-level crate: the tables between camera controls
 * and V4L2 control IDs, the conversion of a V4L2 control description into a
 * `CameraControl`, the listing of resolutions, frame rates and fourccs, and the state a
 * `V4LCaptureDevice` keeps (its camera format and whether a stream is open). Every device
 * call (ioctl) is a parameter: its answer, a value or the text of its error, is given.
 */
module V4l2Capture {
  import opened Wrappers
  import opened Numeric
  import opened LegacyTypes
  import CoreTypes
  import LegacyConvert

  type i64 = x: int | I64_MIN <= x <= I64_MAX

  // ---------------------------------------------------------------------------------------
  // Control IDs
  // ---------------------------------------------------------------------------------------

  /** The tilt ID the Video4Linux tables use as written, and so the one this model uses. */
  const TILT_ID_AS_WRITTEN: u32 := 100_948_530
  /** The V4L2 ID of relative tilt, which the crate's `TryFrom<Description>` uses; the corrected tables use it. */
  const TILT_ID: u32 := 10_094_853

  /** The control-to-ID table, with the ID given for Tilt. ColorEnable and Roll have no ID. */
  function ControlToId(c: KnownCameraControls, tilt: u32): (id: Option<u32>)
    ensures id.None? <==> c == ColorEnable || c == Roll
    ensures c == Tilt ==> id == Some(tilt)
  {
    match c
    case Brightness => Some(9_963_776)
    case Contrast => Some(9_963_777)
    case Hue => Some(9_963_779)
    case Saturation => Some(9_963_778)
    case Sharpness => Some(9_963_803)
    case Gamma => Some(9_963_792)
    case WhiteBalance => Some(9_963_802)
    case BacklightComp => Some(9_963_804)
    case Gain => Some(9_963_795)
    case Pan => Some(10_094_852)
    case Tilt => Some(tilt)
    case Zoom => Some(10_094_862)
    case Exposure => Some(10_094_850)
    case Iris => Some(10_094_866)
    case Focus => Some(10_094_859)
    case _ => None
  }

  /** The ID-to-control table, with the ID given for Tilt; any other ID is unknown. */
  function IdToControl(id: u32, tilt: u32): (c: Option<KnownCameraControls>)
    ensures id == tilt ==> c == Some(Tilt)
  {
    if id == tilt then Some(Tilt)
    else match id
      case 9_963_776 => Some(Brightness)
      case 9_963_777 => Some(Contrast)
      case 9_963_779 => Some(Hue)
      case 9_963_778 => Some(Saturation)
      case 9_963_803 => Some(Sharpness)
      case 9_963_792 => Some(Gamma)
      case 9_963_802 => Some(WhiteBalance)
      case 9_963_804 => Some(BacklightComp)
      case 9_963_795 => Some(Gain)
      case 10_094_852 => Some(Pan)
      case 10_094_862 => Some(Zoom)
      case 10_094_850 => Some(Exposure)
      case 10_094_866 => Some(Iris)
      case 10_094_859 => Some(Focus)
      case _ => None
  }

  /** A tilt ID that no other control uses. */
  predicate TiltIdFree(tilt: u32)
  {
    tilt !in {9_963_776, 9_963_777, 9_963_779, 9_963_778, 9_963_803, 9_963_792, 9_963_802,
              9_963_804, 9_963_795, 10_094_852, 10_094_862, 10_094_850, 10_094_866, 10_094_859}
  }

  /**
   * With a tilt ID that no other control uses, the two tables are inverse: a control with an
   * ID maps back to itself, and an ID that names a control is that control's ID. So the
   * control-to-ID table is one-to-one.
   */
  lemma ControlIdRoundTrip(c: KnownCameraControls, id: u32, tilt: u32)
    requires TiltIdFree(tilt)
    ensures ControlToId(c, tilt).Some? ==> IdToControl(ControlToId(c, tilt).value, tilt) == Some(c)
    ensures IdToControl(id, tilt).Some? ==> ControlToId(IdToControl(id, tilt).value, tilt) == Some(id)
  {
  }

  /** Both tilt IDs leave the tables one-to-one. */
  lemma TiltIdsFree()
    ensures TiltIdFree(TILT_ID) && TiltIdFree(TILT_ID_AS_WRITTEN)
  {
  }

  /** `try_known_camera_control_to_id` as written. */
  function TryKnownCameraControlToIdAsWritten(c: KnownCameraControls): (id: Option<u32>)
    ensures id == ControlToId(c, TILT_ID_AS_WRITTEN)
  {
    ControlToId(c, TILT_ID_AS_WRITTEN)
  }

  /** `try_id_to_known_camera_control` as written. */
  function TryIdToKnownCameraControlAsWritten(id: u32): (c: Option<KnownCameraControls>)
    ensures c == IdToControl(id, TILT_ID_AS_WRITTEN)
  {
    IdToControl(id, TILT_ID_AS_WRITTEN)
  }

  /** `try_known_camera_control_to_id` corrected to the V4L2 relative-tilt ID. */
  function TryKnownCameraControlToId(c: KnownCameraControls): (id: Option<u32>)
    ensures id == ControlToId(c, TILT_ID)
  {
    ControlToId(c, TILT_ID)
  }

  /** `try_id_to_known_camera_control` corrected to the V4L2 relative-tilt ID. */
  function TryIdToKnownCameraControl(id: u32): (c: Option<KnownCameraControls>)
    ensures c == IdToControl(id, TILT_ID)
  {
    IdToControl(id, TILT_ID)
  }

  /**
   * `TryFrom<Description> for KnownCameraControls`, on the description's ID: the fifteen
   * controls with an ID, relative tilt at 10 094 853; any other ID is not implemented.
   */
  function DescriptionToKnown(id: u32): (r: Result<KnownCameraControls, NokhwaError>)
    ensures r.Err? ==> r.error == NotImplementedError("Control not implemented!")
  {
    match id
    case 9_963_776 => Ok(Brightness)
    case 9_963_777 => Ok(Contrast)
    case 9_963_779 => Ok(Hue)
    case 9_963_778 => Ok(Saturation)
    case 9_963_803 => Ok(Sharpness)
    case 9_963_792 => Ok(Gamma)
    case 9_963_802 => Ok(WhiteBalance)
    case 9_963_804 => Ok(BacklightComp)
    case 9_963_795 => Ok(Gain)
    case 10_094_852 => Ok(Pan)
    case 10_094_853 => Ok(Tilt)
    case 10_094_862 => Ok(Zoom)
    case 10_094_850 => Ok(Exposure)
    case 10_094_866 => Ok(Iris)
    case 10_094_859 => Ok(Focus)
    case _ => Err(NotImplementedError("Control not implemented!"))
  }

  /** With the V4L2 tilt ID, the capture device's table and `TryFrom<Description>` agree on every ID. */
  lemma DescriptionToKnownAgrees(id: u32)
    ensures DescriptionToKnown(id).Ok? <==> TryIdToKnownCameraControl(id).Some?
    ensures DescriptionToKnown(id).Ok? ==> TryIdToKnownCameraControl(id) == Some(DescriptionToKnown(id).value)
  {
  }

  /**
   * As written, the capture device's tilt ID is not a V4L2 ID: `TryFrom<Description>` does
   * not recognise the ID the device table gives Tilt, and the device table does not
   * recognise the tilt ID a V4L2 driver reports.
   */
  lemma TiltIdAsWrittenMismatch()
    ensures TryKnownCameraControlToIdAsWritten(Tilt) == Some(100_948_530)
    ensures DescriptionToKnown(100_948_530).Err?
    ensures DescriptionToKnown(10_094_853) == Ok(Tilt) && TryIdToKnownCameraControlAsWritten(10_094_853) == None
  {
  }

  // ---------------------------------------------------------------------------------------
  // Control descriptions
  // ---------------------------------------------------------------------------------------

  /** V4L2 control flags (`V4L2_CTRL_FLAG_*`). */
  const FLAG_DISABLED: bv32 := 0x0001
  const FLAG_INACTIVE: bv32 := 0x0010
  const FLAG_WRITE_ONLY: bv32 := 0x0040

  /** A V4L2 control description. */
  datatype Description = Description(id: u32, minimum: i32, maximum: i32, step: i32, default: i32, flags: bv32)

  /** The value a control read returns. */
  datatype ControlValue = Value(v: i32) | Value64(v64: i64) | StringValue(s: string)

  /** `v64 as i32`: the low 32 bits, read as a signed number. */
  function TruncateToI32(v: i64): (r: i32)
    ensures I32_MIN <= v <= I32_MAX ==> r == v
    ensures (r - v) % U32_LIMIT == 0
  {
    if I32_MIN <= v <= I32_MAX then v else (v - I32_MIN) % U32_LIMIT + I32_MIN
  }

  /** The error property naming a control ID. */
  function ControlIdProperty(id: u32): string
  {
    "Control V4L2ID: " + NatToString(id)
  }

  /**
   * The current value of a control, from the answer to the control read: a 32-bit value as
   * is, a 64-bit one truncated when at most `i32::MAX`, and an error for a larger value, a
   * string value, or a failed read.
   */
  function CurrentValue(id: u32, read: Result<ControlValue, string>): (r: Result<i32, NokhwaError>)
    ensures r.Ok? <==> read.Ok? && (read.value.Value? || (read.value.Value64? && read.value.v64 <= I32_MAX))
    ensures read.Ok? && read.value.Value? ==> r == Ok(read.value.v)
    ensures read.Ok? && read.value.Value64? && read.value.v64 > I32_MAX ==> r == Err(GetPropertyError(ControlIdProperty(id), "Too large!"))
    ensures read.Ok? && read.value.StringValue? ==> r == Err(GetPropertyError(ControlIdProperty(id), "Unsupported Type String"))
    ensures read.Err? ==> r == Err(GetPropertyError(ControlIdProperty(id), read.error))
  {
    match read
    case Err(why) => Err(GetPropertyError(ControlIdProperty(id), why))
    case Ok(Value(v)) => Ok(v)
    case Ok(Value64(v64)) =>
      if v64 <= I32_MAX then Ok(TruncateToI32(v64))
      else Err(GetPropertyError(ControlIdProperty(id), "Too large!"))
    case Ok(StringValue(_)) => Err(GetPropertyError(ControlIdProperty(id), "Unsupported Type String"))
  }

  /** The step is only divided by when the value lies strictly inside the bounds. */
  predicate StepUsable(desc: Description, read: Result<ControlValue, string>)
  {
    CurrentValue(desc.id, read).Ok? && desc.minimum < CurrentValue(desc.id, read).value < desc.maximum ==> desc.step != 0
  }

  /**
   * `to_camera_control`: a write-only control is rejected first, then an unknown ID, then a
   * failed or unusable read; the rest goes through `CameraControl::new` with a manual flag.
   * The control is marked active when the disabled or the inactive flag is set.
   */
  function ToCameraControl(desc: Description, read: Result<ControlValue, string>): (r: Result<CameraControl, NokhwaError>)
    requires StepUsable(desc, read)
    ensures desc.flags & FLAG_WRITE_ONLY != 0 ==> r == Err(NotImplementedError("Control Write Only!"))
    ensures desc.flags & FLAG_WRITE_ONLY == 0 && TryIdToKnownCameraControlAsWritten(desc.id).None? ==>
      r == Err(StructureError("KnownCameraControl", "Unsupported V4L2 ID"))
    ensures CurrentValue(desc.id, read).Err? ==> r.Err?
    ensures r.Ok? ==> desc.flags & FLAG_WRITE_ONLY == 0 && TryIdToKnownCameraControlAsWritten(desc.id) == Some(r.value.control)
    ensures r.Ok? ==> CurrentValue(desc.id, read) == Ok(r.value.value)
    ensures r.Ok? ==> r.value.min == desc.minimum && r.value.max == desc.maximum && r.value.step == desc.step
    ensures r.Ok? ==> r.value.default == desc.default && r.value.flag == Manual
    ensures r.Ok? ==> (r.value.active <==> desc.flags & FLAG_DISABLED != 0 || desc.flags & FLAG_INACTIVE != 0)
    ensures r.Ok? ==> Accepts(desc.minimum, desc.maximum, desc.step, r.value.value)
  {
    if desc.flags & FLAG_WRITE_ONLY != 0 then Err(NotImplementedError("Control Write Only!"))
    else match TryIdToKnownCameraControlAsWritten(desc.id)
      case None => Err(StructureError("KnownCameraControl", "Unsupported V4L2 ID"))
      case Some(control) => (
        match CurrentValue(desc.id, read)
        case Err(e) => Err(e)
        case Ok(current_value) =>
          var active := desc.flags & FLAG_DISABLED != 0 || desc.flags & FLAG_INACTIVE != 0;
          CameraControlNew(control, desc.minimum, desc.maximum, current_value, desc.step, desc.default, Manual, active))
  }

  /** The controls whose description converts, in query order. */
  function SupportedControls(descs: seq<(Description, Result<ControlValue, string>)>): (cs: seq<KnownCameraControls>)
    requires forall k :: 0 <= k < |descs| ==> StepUsable(descs[k].0, descs[k].1)
  {
    if descs == [] then []
    else
      var last := descs[|descs| - 1];
      SupportedControls(descs[..|descs| - 1]) +
        (if ToCameraControl(last.0, last.1).Ok? then [ToCameraControl(last.0, last.1).value.control] else [])
  }

  /**
   * The supported controls are those of the descriptions that convert, in order: at most one
   * per description, each one known by its description's ID.
   */
  lemma {:induction false} SupportedControlsContents(descs: seq<(Description, Result<ControlValue, string>)>)
    requires forall k :: 0 <= k < |descs| ==> StepUsable(descs[k].0, descs[k].1)
    ensures |SupportedControls(descs)| <= |descs|
    ensures forall c :: c in SupportedControls(descs) ==>
      exists k :: 0 <= k < |descs| && ToCameraControl(descs[k].0, descs[k].1).Ok? && TryIdToKnownCameraControlAsWritten(descs[k].0.id) == Some(c)
    ensures forall k :: 0 <= k < |descs| && ToCameraControl(descs[k].0, descs[k].1).Ok? ==>
      ToCameraControl(descs[k].0, descs[k].1).value.control in SupportedControls(descs)
  {
    SupportedControlsLength(descs);
    SupportedControlsSound(descs);
    SupportedControlsComplete(descs);
  }

  lemma {:induction false} SupportedControlsLength(descs: seq<(Description, Result<ControlValue, string>)>)
    requires forall k :: 0 <= k < |descs| ==> StepUsable(descs[k].0, descs[k].1)
    ensures |SupportedControls(descs)| <= |descs|
  {
    if descs != [] {
      SupportedControlsLength(descs[..|descs| - 1]);
    }
  }

  lemma {:induction false} SupportedControlsSound(descs: seq<(Description, Result<ControlValue, string>)>)
    requires forall k :: 0 <= k < |descs| ==> StepUsable(descs[k].0, descs[k].1)
    ensures forall c :: c in SupportedControls(descs) ==>
      exists k :: 0 <= k < |descs| && ToCameraControl(descs[k].0, descs[k].1).Ok? && TryIdToKnownCameraControlAsWritten(descs[k].0.id) == Some(c)
  {
    if descs != [] {
      var init := descs[..|descs| - 1];
      SupportedControlsSound(init);
      forall c | c in SupportedControls(descs)
        ensures exists k :: 0 <= k < |descs| && ToCameraControl(descs[k].0, descs[k].1).Ok? && TryIdToKnownCameraControlAsWritten(descs[k].0.id) == Some(c)
      {
        if c in SupportedControls(init) {
          var k :| 0 <= k < |init| && ToCameraControl(init[k].0, init[k].1).Ok? && TryIdToKnownCameraControlAsWritten(init[k].0.id) == Some(c);
          assert init[k] == descs[k];
        } else {
          assert descs[|descs| - 1] == descs[|init|];
        }
      }
    }
  }

  lemma {:induction false} SupportedControlsComplete(descs: seq<(Description, Result<ControlValue, string>)>)
    requires forall k :: 0 <= k < |descs| ==> StepUsable(descs[k].0, descs[k].1)
    ensures forall k :: 0 <= k < |descs| && ToCameraControl(descs[k].0, descs[k].1).Ok? ==>
      ToCameraControl(descs[k].0, descs[k].1).value.control in SupportedControls(descs)
  {
    if descs != [] {
      var init := descs[..|descs| - 1];
      SupportedControlsComplete(init);
      forall k | 0 <= k < |descs| && ToCameraControl(descs[k].0, descs[k].1).Ok?
        ensures ToCameraControl(descs[k].0, descs[k].1).value.control in SupportedControls(descs)
      {
        if k < |init| {
          assert init[k] == descs[k];
        }
      }
    }
  }

  /** The first description with ID `id` that converts to a control carrying that ID. */
  function FirstControlWithId(descs: seq<(Description, Result<ControlValue, string>)>, id: u32): (r: Option<CameraControl>)
    requires forall k :: 0 <= k < |descs| ==> StepUsable(descs[k].0, descs[k].1)
  {
    if descs == [] then None
    else if descs[0].0.id == id && ToCameraControl(descs[0].0, descs[0].1).Ok?
         && Some(id) == TryKnownCameraControlToIdAsWritten(ToCameraControl(descs[0].0, descs[0].1).value.control)
    then Some(ToCameraControl(descs[0].0, descs[0].1).value)
    else FirstControlWithId(descs[1..], id)
  }

  /** A control found for the ID of `control` is that control. */
  lemma {:induction false} FirstControlWithIdIsControl(descs: seq<(Description, Result<ControlValue, string>)>, control: KnownCameraControls)
    requires forall k :: 0 <= k < |descs| ==> StepUsable(descs[k].0, descs[k].1)
    requires TryKnownCameraControlToIdAsWritten(control).Some?
    ensures FirstControlWithId(descs, TryKnownCameraControlToIdAsWritten(control).value).Some? ==>
      FirstControlWithId(descs, TryKnownCameraControlToIdAsWritten(control).value).value.control == control
  {
    var id := TryKnownCameraControlToIdAsWritten(control).value;
    TiltIdsFree();
    ControlIdRoundTrip(control, id, TILT_ID_AS_WRITTEN);
    if descs != [] {
      FirstControlWithIdIsControl(descs[1..], control);
    }
  }

  // ---------------------------------------------------------------------------------------
  // Format listing
  // ---------------------------------------------------------------------------------------

  /** A frame size the driver reports: one size, or a stepwise range of sizes. */
  datatype FrameSize = DiscreteSize(size: Resolution) | StepwiseSize(min_size: Resolution, max_size: Resolution)

  /** A frame interval the driver reports, by the denominators of its fractions. */
  datatype FrameInterval = DiscreteInterval(denominator: u32) | StepwiseInterval(min_denominator: u32, max_denominator: u32)

  /** The resolutions one frame size contributes: the size, or the minimum then the maximum. */
  function SizeResolutions(fs: FrameSize): (rs: seq<Resolution>)
  {
    match fs
    case DiscreteSize(size) => [size]
    case StepwiseSize(min_size, max_size) => [min_size, max_size]
  }

  /** The resolutions of a list of frame sizes, in order. */
  function Resolutions(sizes: seq<FrameSize>): (rs: seq<Resolution>)
  {
    if sizes == [] then [] else Resolutions(sizes[..|sizes| - 1]) + SizeResolutions(sizes[|sizes| - 1])
  }

  /** The number of stepwise entries. */
  function CountStepwise(sizes: seq<FrameSize>): nat
  {
    if sizes == [] then 0 else CountStepwise(sizes[..|sizes| - 1]) + (if sizes[|sizes| - 1].StepwiseSize? then 1 else 0)
  }

  /** A discrete size gives one resolution and a stepwise one two: #discrete + 2 * #stepwise in all. */
  lemma {:induction false} ResolutionsLength(sizes: seq<FrameSize>)
    ensures |Resolutions(sizes)| == |sizes| + CountStepwise(sizes)
  {
    if sizes != [] {
      ResolutionsLength(sizes[..|sizes| - 1]);
    }
  }

  /** The frame rates one interval contributes: the denominator, or the minimum's then the maximum's. */
  function IntervalRates(iv: FrameInterval): (fps: seq<u32>)
  {
    match iv
    case DiscreteInterval(d) => [d]
    case StepwiseInterval(lo, hi) => [lo, hi]
  }

  /** The frame rates of a list of intervals, in order. */
  function FrameRates(ivs: seq<FrameInterval>): (fps: seq<u32>)
  {
    if ivs == [] then [] else FrameRates(ivs[..|ivs| - 1]) + IntervalRates(ivs[|ivs| - 1])
  }

  /** Every listed resolution's interval query succeeds. */
  predicate AllAnswered(rs: seq<Resolution>, intervals: Resolution -> Result<seq<FrameInterval>, string>)
  {
    forall k :: 0 <= k < |rs| ==> intervals(rs[k]).Ok?
  }

  /** The map `compatible_list_by_resolution` builds: each resolution, in order, to the rates of its intervals. */
  function RatesByResolution(rs: seq<Resolution>, intervals: Resolution -> Result<seq<FrameInterval>, string>): map<Resolution, seq<u32>>
    requires AllAnswered(rs, intervals)
  {
    if rs == [] then map[]
    else
      var last := rs[|rs| - 1];
      RatesByResolution(rs[..|rs| - 1], intervals)[last := FrameRates(intervals(last).value)]
  }

  /** The map's keys are the listed resolutions, and each maps to the rates of its intervals. */
  lemma {:induction false} RatesByResolutionContents(rs: seq<Resolution>, intervals: Resolution -> Result<seq<FrameInterval>, string>)
    requires AllAnswered(rs, intervals)
    ensures RatesByResolution(rs, intervals).Keys == set res | res in rs
    ensures forall res :: res in RatesByResolution(rs, intervals) ==> RatesByResolution(rs, intervals)[res] == FrameRates(intervals(res).value)
  {
    if rs != [] {
      var init := rs[..|rs| - 1];
      assert rs == init + [rs[|rs| - 1]];
      RatesByResolutionContents(init, intervals);
    }
  }

  /** Every listed rate is a denominator of some interval, and each interval's rates appear. */
  lemma {:induction false} FrameRatesContents(ivs: seq<FrameInterval>)
    ensures forall f :: f in FrameRates(ivs) <==> exists k :: 0 <= k < |ivs| && f in IntervalRates(ivs[k])
  {
    if ivs != [] {
      var init := ivs[..|ivs| - 1];
      FrameRatesContents(init);
      forall f | f in FrameRates(ivs)
        ensures exists k :: 0 <= k < |ivs| && f in IntervalRates(ivs[k])
      {
        if f in FrameRates(init) {
          var k :| 0 <= k < |init| && f in IntervalRates(init[k]);
          assert init[k] == ivs[k];
        }
      }
      forall f | exists k :: 0 <= k < |ivs| && f in IntervalRates(ivs[k])
        ensures f in FrameRates(ivs)
      {
        var k :| 0 <= k < |ivs| && f in IntervalRates(ivs[k]);
        if k < |init| {
          assert init[k] == ivs[k];
        }
      }
    }
  }

  /** The frame format a fourcc text stands for; other fourccs are ignored. */
  function FourccFormat(s: string): (f: Option<FrameFormat>)
    ensures f == Some(YUYV) <==> s == "YUYV"
    ensures f == Some(MJPEG) <==> s == "MJPG"
  {
    if s == "YUYV" then Some(YUYV) else if s == "MJPG" then Some(MJPEG) else None
  }

  /** The recognised formats of a list of fourcc texts, in order. */
  function Recognised(fccs: seq<string>): (fs: seq<FrameFormat>)
  {
    if fccs == [] then []
    else
      var last := fccs[|fccs| - 1];
      Recognised(fccs[..|fccs| - 1]) + (if FourccFormat(last).Some? then [FourccFormat(last).value] else [])
  }

  /** A format is recognised exactly when its fourcc occurs. */
  lemma {:induction false} RecognisedContents(fccs: seq<string>, f: FrameFormat)
    ensures f in Recognised(fccs) <==> exists k :: 0 <= k < |fccs| && FourccFormat(fccs[k]) == Some(f)
  {
    if fccs != [] {
      var init := fccs[..|fccs| - 1];
      RecognisedContents(init, f);
      if exists k :: 0 <= k < |init| && FourccFormat(init[k]) == Some(f) {
        var k :| 0 <= k < |init| && FourccFormat(init[k]) == Some(f);
        assert fccs[k] == init[k];
      }
      if exists k :: 0 <= k < |fccs| && FourccFormat(fccs[k]) == Some(f) {
        var k :| 0 <= k < |fccs| && FourccFormat(fccs[k]) == Some(f);
        if k < |init| {
          assert fccs[k] == init[k];
        }
      }
    }
  }

  /** The derived order of the legacy frame formats: MJPEG before YUYV. */
  predicate FormatBefore(a: FrameFormat, b: FrameFormat)
  {
    a == MJPEG && b == YUYV
  }

  /**
   * `sort` then `dedup` of a list of frame formats: strictly ascending, with exactly the
   * formats of the list.
   */
  function SortDedup(fs: seq<FrameFormat>): (sd: seq<FrameFormat>)
    ensures forall f :: f in sd <==> f in fs
    ensures forall i, j :: 0 <= i < j < |sd| ==> FormatBefore(sd[i], sd[j])
    ensures |sd| <= 2
  {
    assert forall f :: f in fs ==> f == MJPEG || f == YUYV;
    (if MJPEG in fs then [MJPEG] else []) + (if YUYV in fs then [YUYV] else [])
  }

  // ---------------------------------------------------------------------------------------
  // The capture device
  // ---------------------------------------------------------------------------------------

  /** The answers of the device to the calls `set_camera_format` makes, in order. */
  datatype FormatAnswers = FormatAnswers(
    get_format: Result<Unit, string>, get_params: Result<Unit, string>,
    set_format: Result<Unit, string>, set_params: Result<Unit, string>,
    reopen: Result<Unit, string>, undo_format: Result<Unit, string>, undo_params: Result<Unit, string>)

  /** The display texts of the V4L2 format and parameters, new and previous. */
  datatype FormatTexts = FormatTexts(format: string, params: string, prev_format: string, prev_params: string)

  /** The text of an undo failure's property. */
  function UndoProperty(why: string, what: string): string
  {
    "Attempt undo due to stream acquisition failure with error " + why + ". " + what
  }

  /**
   * The outcome of `set_camera_format`. Reading the current format and parameters, then
   * setting the new ones, fail with the property concerned. With an open stream, the stream
   * is reopened; if that fails, the previous format and parameters are restored and the
   * reopening error is returned (or the error of a failed restore).
   */
  function SetCameraFormatOutcome(answers: FormatAnswers, texts: FormatTexts, stream_open: bool): (r: Result<Unit, NokhwaError>)
    ensures r.Ok? <==> (answers.get_format.Ok? && answers.get_params.Ok? && answers.set_format.Ok? && answers.set_params.Ok?
                        && (stream_open ==> answers.reopen.Ok?))
    ensures answers.get_format.Err? ==> r == Err(GetPropertyError("Resolution, FrameFormat", answers.get_format.error))
    ensures answers.get_format.Ok? && answers.get_params.Ok? && answers.set_format.Err? ==>
      r == Err(SetPropertyError("Resolution, FrameFormat", texts.format, answers.set_format.error))
    ensures stream_open && answers.reopen.Err? && answers.undo_format.Ok? && answers.undo_params.Ok? && r.Err? ==>
      r == Err(OpenStreamError(answers.reopen.error)) ||
      !(answers.get_format.Ok? && answers.get_params.Ok? && answers.set_format.Ok? && answers.set_params.Ok?)
  {
    if answers.get_format.Err? then Err(GetPropertyError("Resolution, FrameFormat", answers.get_format.error))
    else if answers.get_params.Err? then Err(GetPropertyError("Frame rate", answers.get_params.error))
    else if answers.set_format.Err? then Err(SetPropertyError("Resolution, FrameFormat", texts.format, answers.set_format.error))
    else if answers.set_params.Err? then Err(SetPropertyError("Frame rate", texts.params, answers.set_params.error))
    else if !stream_open || answers.reopen.Ok? then Ok(Unit)
    else if answers.undo_format.Err? then
      var why := answers.undo_format.error;
      Err(SetPropertyError(UndoProperty(why, "Resolution, FrameFormat"), texts.prev_format, why))
    else if answers.undo_params.Err? then
      var why := answers.undo_params.error;
      Err(SetPropertyError(UndoProperty(why, "Frame rate"), texts.prev_params, why))
    else Err(OpenStreamError(answers.reopen.error))
  }

  // ---------------------------------------------------------------------------------------
  // Opening a device
  // ---------------------------------------------------------------------------------------

  /** The fourcc `new` asks the driver for. */
  function Fourcc(f: FrameFormat): (s: string)
    ensures FourccFormat(s) == Some(f)
  {
    match f
    case MJPEG => "MJPG"
    case YUYV => "YUYV"
  }

  /** What the capabilities query answers: the card and driver names. */
  datatype Capabilities = Capabilities(card: string, driver: string)

  /** The format the driver reports it took: its size and fourcc, which may be any text. */
  datatype TakenFormat = TakenFormat(width: u32, height: u32, fourcc: string)

  /**
   * The answers to the calls `new` makes: opening the device, the capabilities query, the
   * format set (the format taken) and the parameters set (the interval's denominator taken).
   */
  datatype OpenAnswers = OpenAnswers(device: Result<Unit, string>, caps: Result<Capabilities, string>,
                                     set_format: Result<TakenFormat, string>, set_params: Result<u32, string>)

  /** `new`'s check of the format the driver took, as written: all three components must differ to reject. */
  predicate FormatRejectedAsWritten(asked: CameraFormat, got: TakenFormat)
  {
    got.height != asked.resolution.height_y && got.width != asked.resolution.width_x && got.fourcc != Fourcc(asked.format)
  }

  /** `new`'s check as evidently intended: any differing component rejects. */
  predicate FormatRejected(asked: CameraFormat, got: TakenFormat)
  {
    got.height != asked.resolution.height_y || got.width != asked.resolution.width_x || got.fourcc != Fourcc(asked.format)
  }

  /** The intended check accepts exactly the requested size and fourcc. */
  lemma FormatCheckAcceptsOnlyRequest(asked: CameraFormat, got: TakenFormat)
    ensures !FormatRejected(asked, got) <==>
      got.width == asked.resolution.width_x && got.height == asked.resolution.height_y && FourccFormat(got.fourcc) == Some(asked.format)
  {
  }

  /** The property named by `new`'s format errors. */
  const FORMAT_PROPERTY: string := "Format(V4L Resolution, FourCC)"

  /** The property named by `new`'s frame-rate errors. */
  const FPS_PROPERTY: string := "Parameter(V4L FPS)"

  /**
   * `new`: open the device, read its capabilities, then set the requested format (or the
   * default) and its frame rate. As written, the driver's format is rejected only when its
   * width, height and fourcc all differ from the request; the frame rate is rejected when
   * the interval's denominator differs. On success, the description (the card's name, the
   * driver's name and the index) and the format the device starts with.
   */
  function NewOutcome(index: nat, cam_fmt: Option<CameraFormat>, answers: OpenAnswers, fmt_text: string)
    : (r: Result<(CameraInfo, CameraFormat), NokhwaError>)
    ensures answers.device.Err? ==> r == Err(OpenDeviceError(NatToString(index), "V4L2 Error: " + answers.device.error))
    ensures answers.device.Ok? && answers.caps.Err? ==> r == Err(GetPropertyError("Capabilities", answers.caps.error))
    ensures answers.device.Ok? && answers.caps.Ok? && answers.set_format.Err? ==>
      r == Err(SetPropertyError(FORMAT_PROPERTY, fmt_text, answers.set_format.error))
    ensures r.Ok? ==> r.value.1 == (if cam_fmt.Some? then cam_fmt.value else DEFAULT_CAMERA_FORMAT)
    ensures r.Ok? ==> r.value.0 == CameraInfo(answers.caps.value.card, "", answers.caps.value.driver, index)
    ensures r.Ok? ==> answers.set_format.Ok? && !FormatRejectedAsWritten(r.value.1, answers.set_format.value)
    ensures r.Ok? ==> answers.set_params == Ok(r.value.1.frame_rate)
    ensures answers.device.Ok? && answers.caps.Ok? && answers.set_format.Ok? && answers.set_params.Ok? ==>
      var camera_format := if cam_fmt.Some? then cam_fmt.value else DEFAULT_CAMERA_FORMAT;
      (r.Ok? <==> !FormatRejectedAsWritten(camera_format, answers.set_format.value)
                  && answers.set_params.value == camera_format.frame_rate)
    ensures answers.device.Ok? && answers.caps.Ok? && answers.set_format.Ok? && answers.set_params.Err? && r.Err? ==>
      var camera_format := if cam_fmt.Some? then cam_fmt.value else DEFAULT_CAMERA_FORMAT;
      FormatRejectedAsWritten(camera_format, answers.set_format.value) ||
      r.error == SetPropertyError(FPS_PROPERTY, NatToString(camera_format.frame_rate), answers.set_params.error)
  {
    if answers.device.Err? then Err(OpenDeviceError(NatToString(index), "V4L2 Error: " + answers.device.error))
    else if answers.caps.Err? then Err(GetPropertyError("Capabilities", answers.caps.error))
    else
      var camera_info := CameraInfo(answers.caps.value.card, "", answers.caps.value.driver, index);
      var camera_format := if cam_fmt.Some? then cam_fmt.value else DEFAULT_CAMERA_FORMAT;
      var fps_text := NatToString(camera_format.frame_rate);
      if answers.set_format.Err? then Err(SetPropertyError(FORMAT_PROPERTY, fmt_text, answers.set_format.error))
      else if FormatRejectedAsWritten(camera_format, answers.set_format.value) then
        Err(SetPropertyError(FORMAT_PROPERTY, fmt_text, "Rejected"))
      else if answers.set_params.Err? then Err(SetPropertyError(FPS_PROPERTY, fps_text, answers.set_params.error))
      else if answers.set_params.value != camera_format.frame_rate then
        Err(SetPropertyError(FPS_PROPERTY, fps_text, "Rejected"))
      else Ok((camera_info, camera_format))
  }

  /** As written, a driver that keeps the width but changes the height and fourcc is not rejected. */
  lemma NewAcceptsChangedHeightAndFourcc()
    ensures var answers := OpenAnswers(Ok(Unit), Ok(Capabilities("cam", "uvcvideo")),
                                       Ok(TakenFormat(640, 360, "YUYV")), Ok(15));
      var r := NewOutcome(0, None, answers, "");
      r.Ok? && r.value.1 == DEFAULT_CAMERA_FORMAT
  {
  }

  /** The message of reading a frame without a stream. */
  const STREAM_NOT_STARTED: string := "Stream not initialized! Please call \"open_stream()\" first!"

  const IMAGE_TOO_SMALL := "ImageBuffer is not large enough! This is probably a bug, please report it!"

  /**
   * The bytes `frame` decodes a raw buffer into: MJPEG through the given decoder, anything
   * else through `yuyv422_to_rgb888`, which refuses a buffer that is not whole 4-byte groups.
   */
  function DecodedFrame(format: FrameFormat, raw: seq<u8>, mjpeg: seq<u8> -> Result<seq<u8>, NokhwaError>): (r: Result<seq<u8>, NokhwaError>)
    ensures format != MJPEG ==> (r.Ok? <==> |raw| % 4 == 0)
    ensures format != MJPEG && r.Err? ==> r.error == LegacyConvert.NOT_422_ERROR
    ensures format != MJPEG && r.Ok? ==> r.value == LegacyConvert.Groups(raw, |raw| / 4)
    ensures format == MJPEG ==> r == mjpeg(raw)
  {
    if format == MJPEG then mjpeg(raw)
    else if |raw| % 4 != 0 then Err(LegacyConvert.NOT_422_ERROR)
    else Ok(LegacyConvert.Groups(raw, |raw| / 4))
  }

  /**
   * A `V4LCaptureDevice`: its description, its camera format, and whether it holds a stream
   * handle. The device itself is the answers given to each method.
   */
  class V4LCaptureDevice {
    const camera_info: CameraInfo
    var camera_format: CameraFormat
    var stream_open: bool

    /** The device `new` returns, from the description and format of a successful `NewOutcome`. */
    constructor (camera_info: CameraInfo, camera_format: CameraFormat)
      ensures this.camera_info == camera_info && this.camera_format == camera_format && !stream_open
    {
      this.camera_info := camera_info;
      this.camera_format := camera_format;
      stream_open := false;
    }

    /** `is_stream_open`. */
    function IsStreamOpen(): (open: bool)
      reads this
      ensures open == stream_open
    {
      stream_open
    }

    /** `backend`. */
    function Backend(): (b: CaptureAPIBackend)
      ensures b == Video4Linux
    {
      Video4Linux
    }

    /**
     * `set_camera_format`. The stored format becomes the new one only when every call
     * succeeded and no stream was open; with an open stream a successful reopening returns
     * Ok but the stored format stays as it was. Whether a stream is open does not change.
     */
    method SetCameraFormat(new_fmt: CameraFormat, answers: FormatAnswers, texts: FormatTexts) returns (r: Result<Unit, NokhwaError>)
      modifies this
      ensures r == SetCameraFormatOutcome(answers, texts, old(stream_open))
      ensures camera_format == (if r.Ok? && !old(stream_open) then new_fmt else old(camera_format))
      ensures stream_open == old(stream_open)
    {
      if answers.get_format.Err? {
        return Err(GetPropertyError("Resolution, FrameFormat", answers.get_format.error));
      }
      if answers.get_params.Err? {
        return Err(GetPropertyError("Frame rate", answers.get_params.error));
      }
      if answers.set_format.Err? {
        return Err(SetPropertyError("Resolution, FrameFormat", texts.format, answers.set_format.error));
      }
      if answers.set_params.Err? {
        return Err(SetPropertyError("Frame rate", texts.params, answers.set_params.error));
      }
      if stream_open {
        if answers.reopen.Ok? {
          return Ok(Unit);
        }
        if answers.undo_format.Err? {
          var why := answers.undo_format.error;
          return Err(SetPropertyError(UndoProperty(why, "Resolution, FrameFormat"), texts.prev_format, why));
        }
        if answers.undo_params.Err? {
          var why := answers.undo_params.error;
          return Err(SetPropertyError(UndoProperty(why, "Frame rate"), texts.prev_params, why));
        }
        return Err(OpenStreamError(answers.reopen.error));
      }
      camera_format := new_fmt;
      return Ok(Unit);
    }

    /** `set_resolution`: the current format with the new resolution, set as a whole. */
    method SetResolution(new_res: Resolution, answers: FormatAnswers, texts: FormatTexts) returns (r: Result<Unit, NokhwaError>)
      modifies this
      ensures r == SetCameraFormatOutcome(answers, texts, old(stream_open))
      ensures camera_format == (if r.Ok? && !old(stream_open) then old(camera_format).(resolution := new_res) else old(camera_format))
      ensures stream_open == old(stream_open)
    {
      r := SetCameraFormat(camera_format.(resolution := new_res), answers, texts);
    }

    /** `set_frame_rate`: the current format with the new frame rate, set as a whole. */
    method SetFrameRate(new_fps: u32, answers: FormatAnswers, texts: FormatTexts) returns (r: Result<Unit, NokhwaError>)
      modifies this
      ensures r == SetCameraFormatOutcome(answers, texts, old(stream_open))
      ensures camera_format == (if r.Ok? && !old(stream_open) then old(camera_format).(frame_rate := new_fps) else old(camera_format))
      ensures stream_open == old(stream_open)
    {
      r := SetCameraFormat(camera_format.(frame_rate := new_fps), answers, texts);
    }

    /** `set_frame_format`: the current format with the new frame format, set as a whole. */
    method SetFrameFormat(fourcc: FrameFormat, answers: FormatAnswers, texts: FormatTexts) returns (r: Result<Unit, NokhwaError>)
      modifies this
      ensures r == SetCameraFormatOutcome(answers, texts, old(stream_open))
      ensures camera_format == (if r.Ok? && !old(stream_open) then old(camera_format).(format := fourcc) else old(camera_format))
      ensures stream_open == old(stream_open)
    {
      r := SetCameraFormat(camera_format.(format := fourcc), answers, texts);
    }

    /**
     * `get_resolution_list`, given the driver's frame sizes for the fourcc: each discrete
     * size, and each stepwise range's minimum then maximum, in order.
     */
    method GetResolutionList(frame_sizes: Result<seq<FrameSize>, string>) returns (r: Result<seq<Resolution>, NokhwaError>)
      ensures frame_sizes.Err? ==> r == Err(GetPropertyError("Resolutions", frame_sizes.error))
      ensures frame_sizes.Ok? ==> r == Ok(Resolutions(frame_sizes.value))
    {
      if frame_sizes.Err? {
        return Err(GetPropertyError("Resolutions", frame_sizes.error));
      }
      var sizes := frame_sizes.value;
      var resolutions: seq<Resolution> := [];
      for i := 0 to |sizes|
        invariant resolutions == Resolutions(sizes[..i])
      {
        assert sizes[..i + 1][..i] == sizes[..i];
        match sizes[i]
        case DiscreteSize(dis) =>
          resolutions := resolutions + [dis];
        case StepwiseSize(min_size, max_size) =>
          resolutions := resolutions + [min_size];
          resolutions := resolutions + [max_size];
      }
      assert sizes[..|sizes|] == sizes;
      return Ok(resolutions);
    }

    /**
     * The inner loop of `compatible_list_by_resolution`: each discrete interval adds its
     * rate, each stepwise one its minimum's then its maximum's.
     */
    static method IntervalListRates(ivs: seq<FrameInterval>) returns (compatible_fps: seq<u32>)
      ensures compatible_fps == FrameRates(ivs)
    {
      compatible_fps := [];
      for j := 0 to |ivs|
        invariant compatible_fps == FrameRates(ivs[..j])
      {
        assert ivs[..j + 1][..j] == ivs[..j];
        match ivs[j]
        case DiscreteInterval(d) =>
          compatible_fps := compatible_fps + [d];
        case StepwiseInterval(lo, hi) =>
          compatible_fps := compatible_fps + [lo];
          compatible_fps := compatible_fps + [hi];
      }
      assert ivs[..|ivs|] == ivs;
    }

    /**
     * `compatible_list_by_resolution`, given the driver's frame sizes and, per resolution,
     * its frame intervals. The map's keys are exactly the listed resolutions, and each maps
     * to the rates of its intervals in order. The first failing interval query aborts.
     */
    method CompatibleListByResolution(frame_sizes: Result<seq<FrameSize>, string>, intervals: Resolution -> Result<seq<FrameInterval>, string>)
      returns (r: Result<map<Resolution, seq<u32>>, NokhwaError>)
      ensures frame_sizes.Err? ==> r == Err(GetPropertyError("Resolutions", frame_sizes.error))
      ensures frame_sizes.Ok? ==> (r.Ok? <==> forall res :: res in Resolutions(frame_sizes.value) ==> intervals(res).Ok?)
      ensures r.Ok? ==> frame_sizes.Ok? && r.value.Keys == set res | res in Resolutions(frame_sizes.value)
      ensures r.Ok? ==> forall res :: res in r.value ==> r.value[res] == FrameRates(intervals(res).value)
      ensures frame_sizes.Ok? && r.Err? ==>
        exists res :: res in Resolutions(frame_sizes.value) && intervals(res).Err? &&
          r.error == GetPropertyError("Frame rate", intervals(res).error)
    {
      var resolutions := GetResolutionList(frame_sizes);
      if resolutions.Err? {
        return Err(resolutions.error);
      }
      var rs := resolutions.value;
      r := RatesOfResolutions(rs, intervals);
      assert AllAnswered(rs, intervals) <==> forall res :: res in rs ==> intervals(res).Ok?;
      if r.Ok? {
        RatesByResolutionContents(rs, intervals);
      }
    }

    /**
     * The loop of `compatible_list_by_resolution` over the listed resolutions: the map of
     * each resolution to its rates, or the error of the first failing interval query.
     */
    static method RatesOfResolutions(rs: seq<Resolution>, intervals: Resolution -> Result<seq<FrameInterval>, string>)
      returns (r: Result<map<Resolution, seq<u32>>, NokhwaError>)
      ensures r.Ok? <==> AllAnswered(rs, intervals)
      ensures r.Ok? ==> r.value == RatesByResolution(rs, intervals)
      ensures r.Err? ==> exists k :: 0 <= k < |rs| && intervals(rs[k]).Err? && r.error == GetPropertyError("Frame rate", intervals(rs[k]).error)
    {
      var res_map: map<Resolution, seq<u32>> := map[];
      for i := 0 to |rs|
        invariant AllAnswered(rs[..i], intervals)
        invariant res_map == RatesByResolution(rs[..i], intervals)
      {
        var res := rs[i];
        assert rs[..i + 1] == rs[..i] + [res];
        var found := intervals(res);
        if found.Err? {
          return Err(GetPropertyError("Frame rate", found.error));
        }
        var compatible_fps := IntervalListRates(found.value);
        ghost var listed := rs[..i + 1];
        assert listed[..i] == rs[..i] && listed[i] == res;
        res_map := res_map[res := compatible_fps];
        assert res_map == RatesByResolution(listed, intervals);
      }
      assert rs[..|rs|] == rs;
      return Ok(res_map);
    }

    /**
     * `compatible_fourcc`, given the driver's formats as fourcc texts (or the error of
     * decoding one): "YUYV" and "MJPG" are kept, others ignored, and the result is sorted
     * and deduplicated.
     */
    method CompatibleFourcc(formats: Result<seq<Result<string, string>>, string>) returns (r: Result<seq<FrameFormat>, NokhwaError>)
      ensures formats.Err? ==> r == Err(GetPropertyError("FrameFormat", formats.error))
      ensures formats.Ok? ==> (r.Ok? <==> forall k :: 0 <= k < |formats.value| ==> formats.value[k].Ok?)
      ensures formats.Ok? && r.Err? ==>
        exists k :: 0 <= k < |formats.value| && formats.value[k].Err? &&
          r.error == GetPropertyError("FrameFormat", formats.value[k].error)
      ensures r.Ok? ==> formats.Ok? && r.value == SortDedup(Recognised(seq(|formats.value|, k requires 0 <= k < |formats.value| => formats.value[k].value)))
    {
      if formats.Err? {
        return Err(GetPropertyError("FrameFormat", formats.error));
      }
      var fs := formats.value;
      var frame_format_vec: seq<FrameFormat> := [];
      ghost var texts: seq<string> := [];
      for i := 0 to |fs|
        invariant forall k :: 0 <= k < i ==> fs[k].Ok?
        invariant |texts| == i && forall k :: 0 <= k < i ==> texts[k] == fs[k].value
        invariant frame_format_vec == Recognised(texts)
      {
        if fs[i].Err? {
          return Err(GetPropertyError("FrameFormat", fs[i].error));
        }
        var format_as_string := fs[i].value;
        assert (texts + [format_as_string])[..i] == texts;
        texts := texts + [format_as_string];
        if format_as_string == "YUYV" {
          frame_format_vec := frame_format_vec + [YUYV];
        } else if format_as_string == "MJPG" {
          frame_format_vec := frame_format_vec + [MJPEG];
        }
      }
      assert texts == seq(|fs|, k requires 0 <= k < |fs| => fs[k].value);
      return Ok(SortDedup(frame_format_vec));
    }

    /**
     * `supported_camera_controls`, given the control descriptions with the answer to reading
     * each control: the controls whose description converts, in order.
     */
    method SupportedCameraControls(query: Result<seq<(Description, Result<ControlValue, string>)>, string>)
      returns (r: Result<seq<KnownCameraControls>, NokhwaError>)
      requires query.Ok? ==> forall k :: 0 <= k < |query.value| ==> StepUsable(query.value[k].0, query.value[k].1)
      ensures query.Err? ==> r == Err(GetPropertyError("Controls", query.error))
      ensures query.Ok? ==> r == Ok(SupportedControls(query.value))
    {
      if query.Err? {
        return Err(GetPropertyError("Controls", query.error));
      }
      var descs := query.value;
      var camera_controls: seq<KnownCameraControls> := [];
      for i := 0 to |descs|
        invariant camera_controls == SupportedControls(descs[..i])
      {
        assert descs[..i + 1][..i] == descs[..i];
        var cam_control := ToCameraControl(descs[i].0, descs[i].1);
        if cam_control.Ok? {
          camera_controls := camera_controls + [cam_control.value.control];
        }
      }
      assert descs[..|descs|] == descs;
      return Ok(camera_controls);
    }

    /**
     * `camera_control`: a control without an ID is invalid; otherwise the control is read
     * (`probe`) and the descriptions are searched for the first one with its ID that
     * converts. The control found is always the one asked for.
     */
    method CameraControlOf(control: KnownCameraControls, probe: Result<ControlValue, string>,
                           query: Result<seq<(Description, Result<ControlValue, string>)>, string>)
      returns (r: Result<CameraControl, NokhwaError>)
      requires query.Ok? ==> forall k :: 0 <= k < |query.value| ==> StepUsable(query.value[k].0, query.value[k].1)
      ensures TryKnownCameraControlToIdAsWritten(control).None? ==> r == Err(GetPropertyError("KnownCameraControls V4L2ID", "Invalid"))
      ensures TryKnownCameraControlToIdAsWritten(control).Some? && probe.Err? ==> r == Err(GetPropertyError("Camera Control", probe.error))
      ensures TryKnownCameraControlToIdAsWritten(control).Some? && probe.Ok? && query.Err? ==> r == Err(GetPropertyError("Controls", query.error))
      ensures TryKnownCameraControlToIdAsWritten(control).Some? && probe.Ok? && query.Ok? ==>
        r == (match FirstControlWithId(query.value, TryKnownCameraControlToIdAsWritten(control).value)
              case Some(c) => Ok(c)
              case None => Err(GetPropertyError("Camera Control", "Not Found")))
      ensures r.Ok? ==> r.value.control == control
    {
      var found_id := TryKnownCameraControlToIdAsWritten(control);
      if found_id.None? {
        return Err(GetPropertyError("KnownCameraControls V4L2ID", "Invalid"));
      }
      var id := found_id.value;
      if probe.Err? {
        return Err(GetPropertyError("Camera Control", probe.error));
      }
      if query.Err? {
        return Err(GetPropertyError("Controls", query.error));
      }
      var descs := query.value;
      FirstControlWithIdIsControl(descs, control);
      var i := 0;
      while i < |descs|
        invariant 0 <= i <= |descs|
        invariant FirstControlWithId(descs, id) == FirstControlWithId(descs[i..], id)
      {
        assert descs[i..][1..] == descs[i + 1..];
        var ctrl := descs[i];
        if ctrl.0.id == id {
          var cam_control := ToCameraControl(ctrl.0, ctrl.1);
          if cam_control.Ok? && Some(ctrl.0.id) == TryKnownCameraControlToIdAsWritten(cam_control.value.control) {
            return Ok(cam_control.value);
          }
        }
        i := i + 1;
      }
      return Err(GetPropertyError("Camera Control", "Not Found"));
    }

    /**
     * `set_camera_control`: a control without an ID is invalid; otherwise its value is
     * written, and a refusal names the control and its ID.
     */
    method SetCameraControl(control: CameraControl, answer: Result<Unit, string>) returns (r: Result<Unit, NokhwaError>)
      ensures TryKnownCameraControlToIdAsWritten(control.control).None? ==> r == Err(GetPropertyError("KnownCameraControls V4L2ID", "Invalid"))
      ensures TryKnownCameraControlToIdAsWritten(control.control).Some? ==> (r.Ok? <==> answer.Ok?)
      ensures TryKnownCameraControlToIdAsWritten(control.control).Some? && answer.Err? ==>
        r == Err(SetPropertyError(ControlName(control.control) + " V4L2ID " + NatToString(TryKnownCameraControlToIdAsWritten(control.control).value),
                                  IntToString(control.value), answer.error))
    {
      var found_id := TryKnownCameraControlToIdAsWritten(control.control);
      if found_id.None? {
        return Err(GetPropertyError("KnownCameraControls V4L2ID", "Invalid"));
      }
      if answer.Err? {
        var property := ControlName(control.control) + " V4L2ID " + NatToString(found_id.value);
        return Err(SetPropertyError(property, IntToString(control.value), answer.error));
      }
      return Ok(Unit);
    }

    /** `open_stream`: on success the device holds a stream; on failure nothing changes. */
    method OpenStream(answer: Result<Unit, string>) returns (r: Result<Unit, NokhwaError>)
      modifies this
      ensures answer.Err? ==> r == Err(OpenStreamError(answer.error)) && stream_open == old(stream_open)
      ensures answer.Ok? ==> r == Ok(Unit) && stream_open
      ensures camera_format == old(camera_format)
    {
      if answer.Err? {
        return Err(OpenStreamError(answer.error));
      }
      stream_open := true;
      return Ok(Unit);
    }

    /** `stop_stream`: always succeeds and leaves no stream. */
    method StopStream() returns (r: Result<Unit, NokhwaError>)
      modifies this
      ensures r == Ok(Unit) && !stream_open
      ensures camera_format == old(camera_format)
    {
      if stream_open {
        stream_open := false;
      }
      return Ok(Unit);
    }

    /** `frame_raw`: without a stream, an error; otherwise the stream's next buffer or its error. */
    method FrameRaw(next: Result<seq<u8>, string>) returns (r: Result<seq<u8>, NokhwaError>)
      ensures !stream_open ==> r == Err(ReadFrameError(STREAM_NOT_STARTED))
      ensures stream_open && next.Ok? ==> r == Ok(next.value)
      ensures stream_open && next.Err? ==> r == Err(ReadFrameError(next.error))
    {
      if !stream_open {
        return Err(ReadFrameError(STREAM_NOT_STARTED));
      }
      if next.Err? {
        return Err(ReadFrameError(next.error));
      }
      return Ok(next.value);
    }

    /**
     * `frame`: the raw frame decoded by the format's decoder (MJPEG through `mjpeg`, YUYV
     * through `yuyv422_to_rgb888`) into an image of the format's size, which fails when the
     * decoded data is too short for that size.
     */
    method Frame(next: Result<seq<u8>, string>, mjpeg: seq<u8> -> Result<seq<u8>, NokhwaError>) returns (r: Result<RgbImage, NokhwaError>)
      ensures !stream_open ==> r == Err(ReadFrameError(STREAM_NOT_STARTED))
      ensures r.Ok? ==> stream_open && next.Ok?
      ensures r.Ok? ==> r.value.width == camera_format.resolution.width_x && r.value.height == camera_format.resolution.height_y
      ensures r.Ok? ==> |r.value.data| >= camera_format.resolution.width_x * camera_format.resolution.height_y * 3
      ensures r.Ok? && camera_format.format == YUYV ==>
        |next.value| % 4 == 0 && r.value.data == LegacyConvert.Groups(next.value, |next.value| / 4)
      ensures r.Ok? && camera_format.format == MJPEG ==> mjpeg(next.value) == Ok(r.value.data)
      ensures stream_open && next.Err? ==> r == Err(ReadFrameError(next.error))
      ensures stream_open && next.Ok? && DecodedFrame(camera_format.format, next.value, mjpeg).Err? ==>
        r == Err(DecodedFrame(camera_format.format, next.value, mjpeg).error)
      ensures stream_open && next.Ok? && DecodedFrame(camera_format.format, next.value, mjpeg).Ok? ==>
        var conv := DecodedFrame(camera_format.format, next.value, mjpeg).value;
        var w := camera_format.resolution.width_x;
        var h := camera_format.resolution.height_y;
        (r.Ok? <==> |conv| >= w * h * 3) &&
        (r.Ok? ==> r.value == RgbImage(w, h, conv)) &&
        (r.Err? ==> r.error == ReadFrameError(IMAGE_TOO_SMALL))
    {
      var cam_fmt := camera_format;
      var raw_frame := FrameRaw(next);
      if raw_frame.Err? {
        return Err(raw_frame.error);
      }
      var conv: seq<u8>;
      if cam_fmt.format == MJPEG {
        var decoded := mjpeg(raw_frame.value);
        if decoded.Err? {
          return Err(decoded.error);
        }
        conv := decoded.value;
      } else {
        var decoded := LegacyConvert.Yuyv422ToRgb888(raw_frame.value);
        if decoded.Err? {
          return Err(decoded.error);
        }
        conv := decoded.value;
      }
      r := ImageFromRaw(cam_fmt.resolution.width_x, cam_fmt.resolution.height_y, conv);
    }

    /**
     * `ImageBuffer::from_raw` as `frame` uses it: an image over the bytes when they hold at
     * least `width * height` RGB pixels, else the buffer-too-small error.
     */
    static method ImageFromRaw(width: u32, height: u32, conv: seq<u8>) returns (r: Result<RgbImage, NokhwaError>)
      ensures r.Ok? <==> |conv| >= width * height * 3
      ensures r.Ok? ==> r.value == RgbImage(width, height, conv)
      ensures r.Err? ==> r.error == ReadFrameError(IMAGE_TOO_SMALL)
    {
      if |conv| < (width as int) * (height as int) * 3 {
        return Err(ReadFrameError(IMAGE_TOO_SMALL));
      }
      return Ok(RgbImage(width, height, conv));
    }
  }
}
