/**
 * The Video4Linux backend of the newer API generation: total maps between camera controls
 * and V4L2 control IDs (unknown IDs become `Other`), the choice of a format at `init`, the
 * format check after `set_camera_format`, the assembly of camera controls from V4L2
 * descriptions, and the read-back check of `set_camera_control`. Its resolution, frame-rate
 * and fourcc listings are the same code as the capture device's and are modelled there.
 */
module V4l2Backend {
  import opened Wrappers
  import opened Numeric
  import LegacyTypes
  import CoreTypes
  import V4l2Capture

  type i64 = x: int | I64_MIN <= x <= I64_MAX

  /** The frame formats of this generation. */
  datatype FrameFormat = MJPEG | YUYV | GRAY8

  /** A capture format of this generation. */
  datatype CameraFormat = CameraFormat(resolution: LegacyTypes.Resolution, format: FrameFormat, frame_rate: u32)

  // ---------------------------------------------------------------------------------------
  // Control IDs
  // ---------------------------------------------------------------------------------------

  /** The fifteen named controls, and any other control by its number. */
  datatype KnownCameraControl =
    | Brightness | Contrast | Hue | Saturation | Sharpness | Gamma | WhiteBalance | BacklightComp
    | Gain | Pan | Tilt | Zoom | Exposure | Iris | Focus
    | Other(id: u128)

  /** `known_camera_control_to_id` with the given tilt ID: `Other` keeps the low 32 bits of its number. */
  function ControlToId(c: KnownCameraControl, tilt: u32): (id: u32)
    ensures c.Tilt? ==> id == tilt
    ensures c.Other? ==> id == c.id % U32_LIMIT
  {
    match c
    case Brightness => 9_963_776
    case Contrast => 9_963_777
    case Hue => 9_963_779
    case Saturation => 9_963_778
    case Sharpness => 9_963_803
    case Gamma => 9_963_792
    case WhiteBalance => 9_963_802
    case BacklightComp => 9_963_804
    case Gain => 9_963_795
    case Pan => 10_094_852
    case Tilt => tilt
    case Zoom => 10_094_862
    case Exposure => 10_094_850
    case Iris => 10_094_866
    case Focus => 10_094_859
    case Other(id) => id % U32_LIMIT
  }

  /** `id_to_known_camera_control` with the given tilt ID: an unknown ID becomes `Other`. */
  function IdToControl(id: u32, tilt: u32): (c: KnownCameraControl)
    ensures id == tilt ==> c == Tilt
  {
    if id == tilt then Tilt
    else match id
      case 9_963_776 => Brightness
      case 9_963_777 => Contrast
      case 9_963_779 => Hue
      case 9_963_778 => Saturation
      case 9_963_803 => Sharpness
      case 9_963_792 => Gamma
      case 9_963_802 => WhiteBalance
      case 9_963_804 => BacklightComp
      case 9_963_795 => Gain
      case 10_094_852 => Pan
      case 10_094_862 => Zoom
      case 10_094_850 => Exposure
      case 10_094_866 => Iris
      case 10_094_859 => Focus
      case _ => Other(id)
  }

  /** `known_camera_control_to_id` as written, with Tilt at 100 948 530 like the capture device's table. */
  function KnownCameraControlToId(c: KnownCameraControl): (id: u32)
    ensures id == ControlToId(c, V4l2Capture.TILT_ID_AS_WRITTEN)
  {
    ControlToId(c, V4l2Capture.TILT_ID_AS_WRITTEN)
  }

  /** `id_to_known_camera_control` as written: 100 948 530 is Tilt, the V4L2 relative-tilt ID is `Other`. */
  function IdToKnownCameraControl(id: u32): (c: KnownCameraControl)
    ensures c == IdToControl(id, V4l2Capture.TILT_ID_AS_WRITTEN)
    ensures id == V4l2Capture.TILT_ID ==> c == Other(V4l2Capture.TILT_ID)
  {
    IdToControl(id, V4l2Capture.TILT_ID_AS_WRITTEN)
  }

  /** A control that the ID map sends back to itself: a named one, or `Other` of a free 32-bit number. */
  predicate Representable(c: KnownCameraControl)
  {
    c.Other? ==> c.id < U32_LIMIT && IdToKnownCameraControl(c.id) == Other(c.id)
  }

  /** Every 32-bit ID survives the trip through a control, whatever tilt ID is used. */
  lemma IdControlRoundTrip(id: u32, tilt: u32)
    requires V4l2Capture.TiltIdFree(tilt)
    ensures ControlToId(IdToControl(id, tilt), tilt) == id
  {
  }

  /**
   * Every named control, and every `Other` of a number that is no named control's ID, survives
   * the trip through its ID; a larger `Other` number loses its high bits.
   */
  lemma ControlIdRoundTrip(c: KnownCameraControl)
    ensures Representable(c) ==> IdToKnownCameraControl(KnownCameraControlToId(c)) == c
    ensures !c.Other? ==> Representable(c)
    ensures c == Other(U32_LIMIT) ==> IdToKnownCameraControl(KnownCameraControlToId(c)) == Other(0)
  {
    V4l2Capture.TiltIdsFree();
  }

  // ---------------------------------------------------------------------------------------
  // Camera controls
  // ---------------------------------------------------------------------------------------

  /** V4L2 control flags (`V4L2_CTRL_FLAG_*`). */
  const FLAG_DISABLED: bv32 := 0x0001
  const FLAG_READ_ONLY: bv32 := 0x0004
  const FLAG_INACTIVE: bv32 := 0x0010
  const FLAG_WRITE_ONLY: bv32 := 0x0040
  const FLAG_VOLATILE: bv32 := 0x0080

  /** The control flags a description can give. */
  datatype ControlFlag = Inactive | ReadOnly | Volatile | Disabled | WriteOnly

  /** The position of each flag in the flag list. */
  function FlagRank(f: ControlFlag): nat
  {
    match f
    case Inactive => 0
    case ReadOnly => 1
    case Volatile => 2
    case Disabled => 3
    case WriteOnly => 4
  }

  /** Whether a V4L2 flag word holds the bit that stands for `f`. */
  predicate HasFlag(flags: bv32, f: ControlFlag)
  {
    match f
    case Inactive => flags & FLAG_INACTIVE != 0
    case ReadOnly => flags & FLAG_READ_ONLY != 0
    case Volatile => flags & FLAG_VOLATILE != 0
    case Disabled => flags & FLAG_DISABLED != 0
    case WriteOnly => flags & FLAG_WRITE_ONLY != 0
  }

  /** The flags in the order the flag list gives them. */
  const FLAG_ORDER: seq<ControlFlag> := [Inactive, ReadOnly, Volatile, Disabled, WriteOnly]

  /** The flags of `order` that the flag word holds, in the order of `order`. */
  function SelectFlags(order: seq<ControlFlag>, flags: bv32): (fs: seq<ControlFlag>)
    requires forall i, j :: 0 <= i < j < |order| ==> FlagRank(order[i]) < FlagRank(order[j])
    ensures forall f :: f in fs <==> f in order && HasFlag(flags, f)
    ensures forall i, j :: 0 <= i < j < |fs| ==> FlagRank(fs[i]) < FlagRank(fs[j])
  {
    if order == [] then []
    else
      var rest := SelectFlags(order[1..], flags);
      TailRanksAbove(order, rest);
      (if HasFlag(flags, order[0]) then [order[0]] else []) + rest
  }

  /** Flags drawn from the rest of an ascending order all rank above its first flag. */
  lemma TailRanksAbove(order: seq<ControlFlag>, rest: seq<ControlFlag>)
    requires order != []
    requires forall i, j :: 0 <= i < j < |order| ==> FlagRank(order[i]) < FlagRank(order[j])
    requires forall x :: x in rest ==> x in order[1..]
    ensures forall x :: x in rest ==> FlagRank(order[0]) < FlagRank(x)
  {
    forall x | x in rest
      ensures FlagRank(order[0]) < FlagRank(x)
    {
      var k :| 0 <= k < |order[1..]| && order[1..][k] == x;
      assert order[k + 1] == x;
    }
  }

  /** Every flag has its place in the order. */
  lemma FlagOrderComplete()
    ensures forall f :: f in FLAG_ORDER
  {
    forall f: ControlFlag
      ensures f in FLAG_ORDER
    {
      assert FLAG_ORDER[FlagRank(f)] == f;
    }
  }

  /**
   * The flag list of a control: exactly the flags set in the description, each once, in the
   * order inactive, read-only, volatile, disabled, write-only.
   */
  function FlagList(flags: bv32): (fs: seq<ControlFlag>)
    ensures forall f :: f in fs <==> HasFlag(flags, f)
    ensures forall i, j :: 0 <= i < j < |fs| ==> FlagRank(fs[i]) < FlagRank(fs[j])
  {
    FlagOrderComplete();
    SelectFlags(FLAG_ORDER, flags)
  }

  /** The V4L2 control types. */
  datatype ControlType =
    | IntegerType | BooleanType | MenuType | ButtonType | Integer64Type | CtrlClassType | StringType
    | BitmaskType | IntegerMenuType | U8Type | U16Type | U32Type | AreaType

  /** The types whose values are integer ranges. */
  predicate IsIntegerType(t: ControlType)
  {
    t in {IntegerType, Integer64Type, MenuType, U8Type, U16Type, U32Type, IntegerMenuType}
  }

  /** A V4L2 control value. */
  datatype V4lValue = NoValue | IntegerValue(i: i64) | BooleanValue(b: bool) | StringValue(s: string) | CompoundU8(bytes: seq<u8>)

  /** A V4L2 control description. */
  datatype Description = Description(id: u32, typ: ControlType, name: string, minimum: i64, maximum: i64,
                                     step: u64, default: i64, flags: bv32)

  /** What a camera control says about its value. */
  datatype ControlValueDescription =
    | IntegerRange(min: i64, max: i64, value: i64, step: i64, default: i64)
    | Boolean(bvalue: bool, bdefault: bool)
    | StringDescription(svalue: string)

  /** A camera control of this generation. */
  datatype CameraControl = CameraControl(control: KnownCameraControl, name: string,
                                         description: ControlValueDescription, flags: seq<ControlFlag>, active: bool)

  /** `step as i64`: a step above `i64::MAX` wraps to a negative number. */
  function StepToI64(step: u64): (s: i64)
    ensures step <= I64_MAX ==> s == step
    ensures step > I64_MAX ==> s == step - U64_LIMIT
  {
    if step <= I64_MAX then step else step - U64_LIMIT
  }

  /**
   * The value description of a control: an integer range for the integer types with an
   * integer value, a boolean for a boolean (its default is whether the description's default
   * is nonzero), a string for a string; any other pairing is unsupported.
   */
  function ValueDescription(desc: Description, current: V4lValue): (d: Option<ControlValueDescription>)
    ensures d.Some? <==> (IsIntegerType(desc.typ) && current.IntegerValue?) || (desc.typ == BooleanType && current.BooleanValue?)
                         || (desc.typ == StringType && current.StringValue?)
    ensures d.Some? && current.IntegerValue? ==>
      d.value == IntegerRange(desc.minimum, desc.maximum, current.i, StepToI64(desc.step), desc.default)
    ensures d.Some? && current.BooleanValue? ==> d.value == Boolean(current.b, desc.default != 0)
    ensures d.Some? && current.StringValue? ==> d.value == StringDescription(current.s)
  {
    if IsIntegerType(desc.typ) && current.IntegerValue? then
      Some(IntegerRange(desc.minimum, desc.maximum, current.i, StepToI64(desc.step), desc.default))
    else if desc.typ == BooleanType && current.BooleanValue? then Some(Boolean(current.b, desc.default != 0))
    else if desc.typ == StringType && current.StringValue? then Some(StringDescription(current.s))
    else None
  }

  /**
   * The camera control of one description, given the answer to reading its current value;
   * None when the read fails or the value does not fit the type, which drops the control.
   */
  function ControlOf(desc: Description, read: Result<V4lValue, string>): (c: Option<CameraControl>)
    ensures c.Some? <==> read.Ok? && ValueDescription(desc, read.value).Some?
    ensures c.Some? ==> c.value.control == IdToKnownCameraControl(desc.id) && c.value.name == desc.name
    ensures c.Some? ==> c.value.description == ValueDescription(desc, read.value).value
    ensures c.Some? ==> c.value.flags == FlagList(desc.flags)
    ensures c.Some? ==> (c.value.active <==> desc.flags & FLAG_INACTIVE == 0)
  {
    match read
    case Err(_) => None
    case Ok(current) =>
      match ValueDescription(desc, current)
      case None => None
      case Some(ctrl_value_desc) =>
        Some(CameraControl(IdToKnownCameraControl(desc.id), desc.name, ctrl_value_desc, FlagList(desc.flags),
                           desc.flags & FLAG_INACTIVE == 0))
  }

  /** The control one description contributes: its control, or nothing. */
  function Converted(d: (Description, Result<V4lValue, string>)): (cs: seq<CameraControl>)
  {
    if ControlOf(d.0, d.1).Some? then [ControlOf(d.0, d.1).value] else []
  }

  /** The pieces `f` gives for each element, joined in order. */
  function FlatMap<T, U>(xs: seq<T>, f: T -> seq<U>): (ys: seq<U>)
  {
    if xs == [] then [] else FlatMap(xs[..|xs| - 1], f) + f(xs[|xs| - 1])
  }

  /** An element of the joined pieces is an element of some piece, and conversely. */
  lemma {:induction false} FlatMapContents<T, U>(xs: seq<T>, f: T -> seq<U>)
    ensures forall y :: y in FlatMap(xs, f) ==> exists k :: 0 <= k < |xs| && y in f(xs[k])
    ensures forall k, y :: 0 <= k < |xs| && y in f(xs[k]) ==> y in FlatMap(xs, f)
  {
    if xs != [] {
      var init := xs[..|xs| - 1];
      FlatMapContents(init, f);
      forall y | y in FlatMap(xs, f)
        ensures exists k :: 0 <= k < |xs| && y in f(xs[k])
      {
        if y in FlatMap(init, f) {
          var k :| 0 <= k < |init| && y in f(init[k]);
          assert init[k] == xs[k];
        }
      }
      forall k, y | 0 <= k < |xs| && y in f(xs[k])
        ensures y in FlatMap(xs, f)
      {
        if k < |init| {
          assert init[k] == xs[k];
        }
      }
    }
  }

  /** The controls of the descriptions that convert, in order. */
  function ConvertedControls(descs: seq<(Description, Result<V4lValue, string>)>): (cs: seq<CameraControl>)
  {
    FlatMap(descs, Converted)
  }

  /**
   * `camera_controls`: a failed query is an error on "V4L2 Controls"; otherwise the controls
   * of the descriptions that convert, in order, with the others silently dropped.
   */
  function CameraControls(query: Result<seq<(Description, Result<V4lValue, string>)>, string>): (r: Result<seq<CameraControl>, LegacyTypes.NokhwaError>)
    ensures query.Err? ==> r == Err(LegacyTypes.GetPropertyError("V4L2 Controls", query.error))
    ensures query.Ok? ==> r == Ok(ConvertedControls(query.value))
  {
    match query
    case Err(why) => Err(LegacyTypes.GetPropertyError("V4L2 Controls", why))
    case Ok(descs) => Ok(ConvertedControls(descs))
  }

  /**
   * The converted controls are exactly those of the descriptions that convert: at most one
   * per description, none invented, none of the convertible ones lost.
   */
  lemma {:induction false} ConvertedControlsContents(descs: seq<(Description, Result<V4lValue, string>)>)
    ensures |ConvertedControls(descs)| <= |descs|
    ensures forall c :: c in ConvertedControls(descs) <==> exists k :: 0 <= k < |descs| && c in Converted(descs[k])
  {
    FlatMapContents(descs, Converted);
    if descs != [] {
      ConvertedControlsContents(descs[..|descs| - 1]);
    }
  }

  /** A description contributes its control exactly when it converts. */
  lemma ConvertedIsControlOf(d: (Description, Result<V4lValue, string>), c: CameraControl)
    ensures c in Converted(d) <==> ControlOf(d.0, d.1) == Some(c)
  {
  }

  /** The first control in the list that is `control`. */
  function FindControl(controls: seq<CameraControl>, control: KnownCameraControl): (r: Option<CameraControl>)
    ensures r.Some? ==> r.value.control == control && r.value in controls
    ensures r.None? <==> forall c :: c in controls ==> c.control != control
  {
    if controls == [] then None
    else if controls[0].control == control then Some(controls[0])
    else FindControl(controls[1..], control)
  }

  /** The control found is the first one that is `control`: no earlier entry is. */
  lemma {:induction false} FindControlIsFirst(controls: seq<CameraControl>, control: KnownCameraControl)
    requires FindControl(controls, control).Some?
    ensures exists k :: 0 <= k < |controls| && controls[k] == FindControl(controls, control).value
                        && forall j :: 0 <= j < k ==> controls[j].control != control
  {
    if controls[0].control != control {
      FindControlIsFirst(controls[1..], control);
      var k :| 0 <= k < |controls[1..]| && controls[1..][k] == FindControl(controls, control).value
               && forall j :: 0 <= j < k ==> controls[1..][j].control != control;
      assert controls[k + 1] == FindControl(controls, control).value;
      forall j | 0 <= j < k + 1
        ensures controls[j].control != control
      {
        if j > 0 {
          assert controls[j] == controls[1..][j - 1];
        }
      }
    }
  }

  /**
   * `camera_control`: the first of the camera controls that is `control`, or a read error
   * naming the control (`control_text` is its display text).
   */
  function CameraControlOf(control: KnownCameraControl, control_text: string,
                           query: Result<seq<(Description, Result<V4lValue, string>)>, string>): (r: Result<CameraControl, LegacyTypes.NokhwaError>)
    ensures query.Err? ==> r == Err(LegacyTypes.GetPropertyError("V4L2 Controls", query.error))
    ensures query.Ok? && FindControl(ConvertedControls(query.value), control).None? ==>
      r == Err(LegacyTypes.GetPropertyError(control_text, "not found/not supported"))
    ensures r.Ok? ==> query.Ok? && r.value.control == control && Some(r.value) == FindControl(ConvertedControls(query.value), control)
  {
    match CameraControls(query)
    case Err(e) => Err(e)
    case Ok(controls) =>
      match FindControl(controls, control)
      case Some(c) => Ok(c)
      case None => Err(LegacyTypes.GetPropertyError(control_text, "not found/not supported"))
  }

  /** The values `set_camera_control` takes. */
  datatype ControlValueSetter = SetNone | SetInteger(i: i64) | SetFloat(f: real) | SetBoolean(b: bool) | SetString(s: string) | SetBytes(bytes: seq<u8>)

  /** Whether a control read back after a write holds the written value. */
  predicate HoldsValue(d: ControlValueDescription, value: ControlValueSetter)
  {
    match value
    case SetInteger(i) => d.IntegerRange? && d.value == i
    case SetBoolean(b) => d.Boolean? && d.bvalue == b
    case SetString(s) => d.StringDescription? && d.svalue == s
    case _ => false
  }

  /**
   * `set_camera_control`: a floating-point value is refused before the device is touched;
   * otherwise the value is written to the control's ID and the control is read back
   * (`readback` is the description query after the write). The result is Ok only when the
   * write succeeded and the control read back holds the written value.
   */
  function SetCameraControl(id: KnownCameraControl, id_text: string, value: ControlValueSetter, value_text: string,
                            write: Result<Unit, string>,
                            readback: Result<seq<(Description, Result<V4lValue, string>)>, string>): (r: Result<Unit, LegacyTypes.NokhwaError>)
    ensures value.SetFloat? ==> r == Err(LegacyTypes.SetPropertyError(id_text, value_text, "not supported"))
    ensures !value.SetFloat? && write.Err? ==> r == Err(LegacyTypes.SetPropertyError(id_text, value_text, write.error))
    ensures r.Ok? <==> !value.SetFloat? && write.Ok? && CameraControlOf(id, id_text, readback).Ok?
                       && HoldsValue(CameraControlOf(id, id_text, readback).value.description, value)
    ensures !value.SetFloat? && write.Ok? && CameraControlOf(id, id_text, readback).Ok? && r.Err? ==>
      r == Err(LegacyTypes.SetPropertyError(id_text, value_text, "Rejected"))
  {
    if value.SetFloat? then Err(LegacyTypes.SetPropertyError(id_text, value_text, "not supported"))
    else if write.Err? then Err(LegacyTypes.SetPropertyError(id_text, value_text, write.error))
    else match CameraControlOf(id, id_text, readback)
      case Err(e) => Err(e)
      case Ok(control) =>
        if HoldsValue(control.description, value) then Ok(Unit)
        else Err(LegacyTypes.SetPropertyError(id_text, value_text, "Rejected"))
  }

  // ---------------------------------------------------------------------------------------
  // Formats
  // ---------------------------------------------------------------------------------------

  /** The format and interval the driver reports back: resolution, fourcc and the interval fraction. */
  datatype DriverFormat = DriverFormat(resolution: LegacyTypes.Resolution, format: FrameFormat, numerator: u32, denominator: u32)

  /** The interval `Parameters::with_fps(fps)` asks for: one over the rate. */
  function RequestedInterval(fmt: CameraFormat): (d: DriverFormat)
    ensures d.numerator == 1 && d.denominator == fmt.frame_rate
  {
    DriverFormat(fmt.resolution, fmt.format, 1, fmt.frame_rate)
  }

  /** `force_refresh_camera_format` as written: the frame rate is the interval's numerator. */
  function RefreshedFormatAsWritten(d: DriverFormat): (fmt: CameraFormat)
    ensures fmt.frame_rate == d.numerator
  {
    CameraFormat(d.resolution, d.format, d.numerator)
  }

  /**
   * As written, a driver that takes the requested format exactly is reported at a rate of
   * one frame per second, so `set_camera_format` rejects every rate but 1.
   */
  lemma RefreshAsWrittenMisreadsRate(fmt: CameraFormat)
    ensures RefreshedFormatAsWritten(RequestedInterval(fmt)).frame_rate == 1
    ensures fmt.frame_rate != 1 ==> RefreshedFormatAsWritten(RequestedInterval(fmt)) != fmt
  {
  }

  /**
   * `force_refresh_camera_format` with the rate read as the interval's denominator, as the
   * frame-interval listing of this backend reads it.
   */
  function RefreshedFormat(d: DriverFormat): (fmt: CameraFormat)
    ensures fmt.resolution == d.resolution && fmt.format == d.format && fmt.frame_rate == d.denominator
  {
    CameraFormat(d.resolution, d.format, d.denominator)
  }

  /** A driver that takes the requested format exactly is reported at that format. */
  lemma RefreshReadsBackRequest(fmt: CameraFormat)
    ensures RefreshedFormat(RequestedInterval(fmt)) == fmt
  {
  }

  /** The answers to the calls `new` makes: open, capabilities, format and parameters. */
  datatype OpenAnswers = OpenAnswers(device: Result<Unit, string>, caps: Result<LegacyTypes.CameraInfo, string>,
                                     set_format: Result<DriverFormat, string>, set_params: Result<DriverFormat, string>)

  /** `new`'s check of the format the driver took, as written: all three components must differ to reject. */
  predicate FormatRejectedAsWritten(asked: CameraFormat, got: DriverFormat)
  {
    got.resolution.height_y != asked.resolution.height_y && got.resolution.width_x != asked.resolution.width_x
    && got.format != asked.format
  }

  /** As written, a driver that changes only the resolution's height is not rejected. */
  lemma FormatCheckAsWrittenMissesChange()
    ensures var asked := CameraFormat(CoreTypes.Resolution(640, 480), MJPEG, 30);
      !FormatRejectedAsWritten(asked, DriverFormat(CoreTypes.Resolution(640, 360), MJPEG, 1, 30))
  {
  }

  /** `new`'s check as evidently intended: any differing component rejects. */
  predicate FormatRejected(asked: CameraFormat, got: DriverFormat)
  {
    got.resolution.height_y != asked.resolution.height_y || got.resolution.width_x != asked.resolution.width_x
    || got.format != asked.format
  }

  /** The intended check accepts exactly the requested resolution and fourcc. */
  lemma FormatCheckAcceptsOnlyRequest(asked: CameraFormat, got: DriverFormat)
    ensures !FormatRejected(asked, got) <==> got.resolution == asked.resolution && got.format == asked.format
  {
  }

  /** The property named by `new`'s format errors. */
  const FORMAT_PROPERTY: string := "Format(V4L Resolution, FourCC)"

  /**
   * `new`: open the device, read its capabilities, then set the requested format (or the
   * default) and its frame rate. As written, the driver's format is rejected only when its
   * width, height and fourcc all differ from the request; the frame rate is rejected when
   * the interval's denominator differs. On success, the description and the format the
   * device starts with.
   */
  function NewOutcome(index: nat, cam_fmt: Option<CameraFormat>, answers: OpenAnswers, fmt_text: string, fps_text: string)
    : (r: Result<(LegacyTypes.CameraInfo, CameraFormat), LegacyTypes.NokhwaError>)
    ensures answers.device.Err? ==> r == Err(LegacyTypes.OpenDeviceError(NatToString(index), "V4L2 Error: " + answers.device.error))
    ensures r.Ok? ==> r.value.1 == (if cam_fmt.Some? then cam_fmt.value else DEFAULT_FORMAT)
    ensures answers.device.Ok? && answers.caps.Err? ==> r == Err(LegacyTypes.GetPropertyError("Capabilities", answers.caps.error))
    ensures answers.device.Ok? && answers.caps.Ok? && answers.set_format.Err? ==>
      r == Err(LegacyTypes.SetPropertyError(FORMAT_PROPERTY, fmt_text, answers.set_format.error))
    ensures r.Ok? ==> answers.set_format.Ok? && !FormatRejectedAsWritten(r.value.1, answers.set_format.value)
    ensures r.Ok? ==> answers.set_params.Ok? && answers.set_params.value.denominator == r.value.1.frame_rate
    ensures r.Ok? ==> r.value.0 == answers.caps.value
    ensures answers.device.Ok? && answers.caps.Ok? && answers.set_format.Ok? && answers.set_params.Ok? ==>
      var camera_format := if cam_fmt.Some? then cam_fmt.value else DEFAULT_FORMAT;
      (r.Ok? <==> !FormatRejectedAsWritten(camera_format, answers.set_format.value)
                  && answers.set_params.value.denominator == camera_format.frame_rate)
  {
    if answers.device.Err? then Err(LegacyTypes.OpenDeviceError(NatToString(index), "V4L2 Error: " + answers.device.error))
    else if answers.caps.Err? then Err(LegacyTypes.GetPropertyError("Capabilities", answers.caps.error))
    else
      var camera_format := if cam_fmt.Some? then cam_fmt.value else DEFAULT_FORMAT;
      if answers.set_format.Err? then Err(LegacyTypes.SetPropertyError(FORMAT_PROPERTY, fmt_text, answers.set_format.error))
      else if FormatRejectedAsWritten(camera_format, answers.set_format.value) then
        Err(LegacyTypes.SetPropertyError(FORMAT_PROPERTY, fmt_text, "Rejected"))
      else if answers.set_params.Err? then Err(LegacyTypes.SetPropertyError("Parameter(V4L FPS)", fps_text, answers.set_params.error))
      else if answers.set_params.value.denominator != camera_format.frame_rate then
        Err(LegacyTypes.SetPropertyError("Parameter(V4L FPS)", fps_text, "Rejected"))
      else Ok((answers.caps.value, camera_format))
  }

  /**
   * The result of `set_camera_format` and the format the device then holds, from the format
   * it held, the one asked for, the device's answers and whether a stream was open.
   */
  function SetFormatEffect(current: CameraFormat, new_fmt: CameraFormat, answers: V4l2Capture.FormatAnswers, texts: V4l2Capture.FormatTexts,
                           refresh: Result<DriverFormat, string>, new_fmt_text: string, open: bool)
    : (e: (Result<Unit, LegacyTypes.NokhwaError>, CameraFormat))
    ensures e.0.Ok? && !open ==> e.1 == new_fmt
    ensures open ==> e.1 == current
  {
    var outcome := V4l2Capture.SetCameraFormatOutcome(answers, texts, open);
    if open || outcome.Err? then (outcome, current)
    else if refresh.Err? then (Err(LegacyTypes.GetPropertyError("parameters", refresh.error)), new_fmt)
    else
      var got := RefreshedFormatAsWritten(refresh.value);
      if got != new_fmt then (Err(LegacyTypes.SetPropertyError("CameraFormat", new_fmt_text, "Rejected")), got)
      else (Ok(Unit), got)
  }

  /**
   * As written, a stream-less `set_camera_format` that the driver takes exactly (the interval
   * it was asked for, one over the rate) fails with "Rejected" unless the rate is 1, and the
   * device is left at one frame per second.
   */
  lemma SetFormatAsWrittenRejectsTakenRate(current: CameraFormat, new_fmt: CameraFormat, answers: V4l2Capture.FormatAnswers,
                                           texts: V4l2Capture.FormatTexts, new_fmt_text: string)
    requires V4l2Capture.SetCameraFormatOutcome(answers, texts, false).Ok? && new_fmt.frame_rate != 1
    ensures var e := SetFormatEffect(current, new_fmt, answers, texts, Ok(RequestedInterval(new_fmt)), new_fmt_text, false);
      e.0 == Err(LegacyTypes.SetPropertyError("CameraFormat", new_fmt_text, "Rejected")) && e.1 == new_fmt.(frame_rate := 1)
  {
  }

  /** `CameraFormat::default()` of this generation: 640x480 MJPEG at 15 frames per second. */
  const DEFAULT_FORMAT: CameraFormat := CameraFormat(CoreTypes.Resolution(640, 480), MJPEG, 15)

  /** A frame: its resolution, bytes and format. */
  datatype Buffer = Buffer(resolution: LegacyTypes.Resolution, data: seq<u8>, format: FrameFormat)

  /** The message of reading a frame without a stream. */
  const STREAM_NOT_STARTED: string := "Stream not initialized! Please call \"open_stream()\" first!"

  /**
   * A `V4LCaptureDevice` of this generation: whether `init` has run, the camera format and
   * whether a stream is open. The device's answers are given to each method.
   */
  class V4LCaptureDevice {
    const camera_info: LegacyTypes.CameraInfo
    var initialized: bool
    var camera_format: CameraFormat
    var stream_open: bool

    /** The device `new` returns, from the description and format of a successful `NewOutcome`. */
    constructor (camera_info: LegacyTypes.CameraInfo, camera_format: CameraFormat)
      ensures this.camera_info == camera_info && this.camera_format == camera_format
      ensures !initialized && !stream_open
    {
      this.camera_info := camera_info;
      this.camera_format := camera_format;
      initialized := false;
      stream_open := false;
    }

    /** `backend`. */
    function Backend(): (b: LegacyTypes.CaptureAPIBackend)
      ensures b == LegacyTypes.Video4Linux
    {
      LegacyTypes.Video4Linux
    }

    /** `is_stream_open`. */
    function IsStreamOpen(): (open: bool)
      reads this
      ensures open == stream_open
    {
      stream_open
    }

    /**
     * `init`: with no compatible format an initialisation error; otherwise the current format
     * is kept when it is compatible, else the first compatible one is taken. The format
     * returned is always compatible and becomes the device's.
     */
    method Init(compatible: Result<seq<CameraFormat>, LegacyTypes.NokhwaError>) returns (r: Result<CameraFormat, LegacyTypes.NokhwaError>)
      modifies this
      ensures compatible.Err? ==> r == Err(compatible.error)
      ensures compatible.Ok? && |compatible.value| == 0 ==>
        r == Err(LegacyTypes.InitializeError(LegacyTypes.Video4Linux, "Could not find any compatible camera formats!"))
      ensures r.Err? ==> initialized == old(initialized) && camera_format == old(camera_format)
      ensures compatible.Ok? && |compatible.value| > 0 ==>
        r.Ok? && initialized && r.value in compatible.value && camera_format == r.value
        && r.value == (if old(camera_format) in compatible.value then old(camera_format) else compatible.value[0])
      ensures stream_open == old(stream_open)
    {
      var current := camera_format;
      if compatible.Err? {
        return Err(compatible.error);
      }
      var formats := compatible.value;
      if |formats| == 0 {
        return Err(LegacyTypes.InitializeError(LegacyTypes.Video4Linux, "Could not find any compatible camera formats!"));
      }
      if current in formats {
        initialized := true;
        return Ok(current);
      }
      initialized := true;
      var new_fmt := formats[0];
      camera_format := new_fmt;
      return Ok(new_fmt);
    }

    /**
     * `force_refresh_camera_format`: the device's format, with the rate read, as written, as
     * the interval's numerator; a failed read leaves the format.
     */
    method ForceRefreshCameraFormat(current: Result<DriverFormat, string>) returns (r: Result<Unit, LegacyTypes.NokhwaError>)
      modifies this
      ensures current.Err? ==> r == Err(LegacyTypes.GetPropertyError("parameters", current.error)) && camera_format == old(camera_format)
      ensures current.Ok? ==> r == Ok(Unit) && camera_format == RefreshedFormatAsWritten(current.value)
      ensures initialized == old(initialized) && stream_open == old(stream_open)
    {
      if current.Err? {
        return Err(LegacyTypes.GetPropertyError("parameters", current.error));
      }
      camera_format := RefreshedFormatAsWritten(current.value);
      return Ok(Unit);
    }

    /**
     * `set_camera_format`. With an open stream it behaves as the capture device's (the stream
     * is reopened, the format is restored on failure, the stored format is kept). Otherwise
     * the new format is stored and then refreshed from the device; a device that did not
     * take it makes the call fail with "Rejected", and the stored format is then what the
     * device reports.
     */
    method SetCameraFormat(new_fmt: CameraFormat, answers: V4l2Capture.FormatAnswers, texts: V4l2Capture.FormatTexts,
                           refresh: Result<DriverFormat, string>, new_fmt_text: string) returns (r: Result<Unit, LegacyTypes.NokhwaError>)
      modifies this
      ensures old(stream_open) ==> r == V4l2Capture.SetCameraFormatOutcome(answers, texts, true) && camera_format == old(camera_format)
      ensures V4l2Capture.SetCameraFormatOutcome(answers, texts, old(stream_open)).Err? ==>
        r == V4l2Capture.SetCameraFormatOutcome(answers, texts, old(stream_open)) && camera_format == old(camera_format)
      ensures !old(stream_open) && V4l2Capture.SetCameraFormatOutcome(answers, texts, false).Ok? ==>
        (refresh.Err? ==> r == Err(LegacyTypes.GetPropertyError("parameters", refresh.error)) && camera_format == new_fmt)
        && (refresh.Ok? ==> camera_format == RefreshedFormatAsWritten(refresh.value)
                            && (r.Ok? <==> RefreshedFormatAsWritten(refresh.value) == new_fmt)
                            && (r.Err? ==> r.error == LegacyTypes.SetPropertyError("CameraFormat", new_fmt_text, "Rejected")))
      ensures (r, camera_format) == SetFormatEffect(old(camera_format), new_fmt, answers, texts, refresh, new_fmt_text, old(stream_open))
      ensures stream_open == old(stream_open) && initialized == old(initialized)
    {
      var outcome := V4l2Capture.SetCameraFormatOutcome(answers, texts, stream_open);
      if stream_open || outcome.Err? {
        return outcome;
      }
      camera_format := new_fmt;
      var refreshed := ForceRefreshCameraFormat(refresh);
      if refreshed.Err? {
        return Err(refreshed.error);
      }
      if camera_format != new_fmt {
        return Err(LegacyTypes.SetPropertyError("CameraFormat", new_fmt_text, "Rejected"));
      }
      return Ok(Unit);
    }

    /** `set_resolution`: the current format with the new resolution, set as a whole. */
    method SetResolution(new_res: LegacyTypes.Resolution, answers: V4l2Capture.FormatAnswers, texts: V4l2Capture.FormatTexts,
                         refresh: Result<DriverFormat, string>, new_fmt_text: string) returns (r: Result<Unit, LegacyTypes.NokhwaError>)
      modifies this
      ensures old(stream_open) ==> camera_format == old(camera_format)
      ensures r.Ok? && !old(stream_open) ==> camera_format == old(camera_format).(resolution := new_res)
      ensures (r, camera_format) ==
        SetFormatEffect(old(camera_format), old(camera_format).(resolution := new_res), answers, texts, refresh, new_fmt_text, old(stream_open))
      ensures stream_open == old(stream_open) && initialized == old(initialized)
    {
      r := SetCameraFormat(camera_format.(resolution := new_res), answers, texts, refresh, new_fmt_text);
    }

    /** `set_frame_rate`: the current format with the new frame rate, set as a whole. */
    method SetFrameRate(new_fps: u32, answers: V4l2Capture.FormatAnswers, texts: V4l2Capture.FormatTexts,
                        refresh: Result<DriverFormat, string>, new_fmt_text: string) returns (r: Result<Unit, LegacyTypes.NokhwaError>)
      modifies this
      ensures old(stream_open) ==> camera_format == old(camera_format)
      ensures r.Ok? && !old(stream_open) ==> camera_format == old(camera_format).(frame_rate := new_fps)
      ensures (r, camera_format) ==
        SetFormatEffect(old(camera_format), old(camera_format).(frame_rate := new_fps), answers, texts, refresh, new_fmt_text, old(stream_open))
      ensures stream_open == old(stream_open) && initialized == old(initialized)
    {
      r := SetCameraFormat(camera_format.(frame_rate := new_fps), answers, texts, refresh, new_fmt_text);
    }

    /** `set_frame_format`: the current format with the new frame format, set as a whole. */
    method SetFrameFormat(fourcc: FrameFormat, answers: V4l2Capture.FormatAnswers, texts: V4l2Capture.FormatTexts,
                          refresh: Result<DriverFormat, string>, new_fmt_text: string) returns (r: Result<Unit, LegacyTypes.NokhwaError>)
      modifies this
      ensures old(stream_open) ==> camera_format == old(camera_format)
      ensures r.Ok? && !old(stream_open) ==> camera_format == old(camera_format).(format := fourcc)
      ensures (r, camera_format) ==
        SetFormatEffect(old(camera_format), old(camera_format).(format := fourcc), answers, texts, refresh, new_fmt_text, old(stream_open))
      ensures stream_open == old(stream_open) && initialized == old(initialized)
    {
      r := SetCameraFormat(camera_format.(format := fourcc), answers, texts, refresh, new_fmt_text);
    }

    /** `open_stream`: on success the device holds a stream; on failure nothing changes. */
    method OpenStream(answer: Result<Unit, string>) returns (r: Result<Unit, LegacyTypes.NokhwaError>)
      modifies this
      ensures answer.Err? ==> r == Err(LegacyTypes.OpenStreamError(answer.error)) && stream_open == old(stream_open)
      ensures answer.Ok? ==> r == Ok(Unit) && stream_open
      ensures camera_format == old(camera_format) && initialized == old(initialized)
    {
      if answer.Err? {
        return Err(LegacyTypes.OpenStreamError(answer.error));
      }
      stream_open := true;
      return Ok(Unit);
    }

    /** `stop_stream`: always succeeds and leaves no stream. */
    method StopStream() returns (r: Result<Unit, LegacyTypes.NokhwaError>)
      modifies this
      ensures r == Ok(Unit) && !stream_open
      ensures camera_format == old(camera_format) && initialized == old(initialized)
    {
      if stream_open {
        stream_open := false;
      }
      return Ok(Unit);
    }

    /** `frame_raw`: without a stream, an error; otherwise the stream's next buffer or its error. */
    method FrameRaw(next: Result<seq<u8>, string>) returns (r: Result<seq<u8>, LegacyTypes.NokhwaError>)
      ensures !stream_open ==> r == Err(LegacyTypes.ReadFrameError(STREAM_NOT_STARTED))
      ensures stream_open && next.Ok? ==> r == Ok(next.value)
      ensures stream_open && next.Err? ==> r == Err(LegacyTypes.ReadFrameError(next.error))
    {
      if !stream_open {
        return Err(LegacyTypes.ReadFrameError(STREAM_NOT_STARTED));
      }
      if next.Err? {
        return Err(LegacyTypes.ReadFrameError(next.error));
      }
      return Ok(next.value);
    }

    /**
     * `frame`: the raw frame decoded to RGB by the format's decoder (`decode`, for MJPEG and
     * YUYV) or, for GRAY8, kept as it is, in a buffer tagged with the device's resolution
     * and format.
     */
    method Frame(next: Result<seq<u8>, string>, decode: (FrameFormat, seq<u8>) -> Result<seq<u8>, LegacyTypes.NokhwaError>)
      returns (r: Result<Buffer, LegacyTypes.NokhwaError>)
      ensures !stream_open ==> r == Err(LegacyTypes.ReadFrameError(STREAM_NOT_STARTED))
      ensures r.Ok? ==> stream_open && next.Ok?
      ensures r.Ok? ==> r.value.resolution == camera_format.resolution && r.value.format == camera_format.format
      ensures r.Ok? && camera_format.format == GRAY8 ==> r.value.data == next.value
      ensures r.Ok? && camera_format.format != GRAY8 ==> decode(camera_format.format, next.value) == Ok(r.value.data)
      ensures stream_open && next.Ok? && camera_format.format == GRAY8 ==> r.Ok?
      ensures stream_open && next.Err? ==> r == Err(LegacyTypes.ReadFrameError(next.error))
      ensures stream_open && next.Ok? && camera_format.format != GRAY8 ==>
        (r.Ok? <==> decode(camera_format.format, next.value).Ok?)
      ensures stream_open && next.Ok? && camera_format.format != GRAY8 && decode(camera_format.format, next.value).Err? ==>
        r == Err(decode(camera_format.format, next.value).error)
    {
      var cam_fmt := camera_format;
      var raw_frame := FrameRaw(next);
      if raw_frame.Err? {
        return Err(raw_frame.error);
      }
      var conv: seq<u8>;
      if cam_fmt.format == GRAY8 {
        conv := raw_frame.value;
      } else {
        var decoded := decode(cam_fmt.format, raw_frame.value);
        if decoded.Err? {
          return Err(decoded.error);
        }
        conv := decoded.value;
      }
      return Ok(Buffer(cam_fmt.resolution, conv, cam_fmt.format));
    }
  }
}
