/**
 * The Media Foundation bindings crate: its error enum and value types, the device
 * descriptor, the 64-bit packing of frame sizes and frame rates, the expansion of the
 * native media types into capture formats, the control flag mapping, and the state a
 * `MediaFoundationDevice` keeps (open flag and current format). Every COM call is a
 * parameter: its answer (success, or the text of the error it returned) is given.
 */
module MfBindings {
  import opened Wrappers
  import opened Numeric

  type u16 = x: int | 0 <= x < 0x1_0000
  type i32 = x: int | -0x8000_0000 <= x <= I32_MAX

  /** The errors of the bindings crate. */
  datatype BindingError =
    | InitializeError(message: string)
    | DeInitializeError(message: string)
    | GUIDSetError(guid: string, value: string, error: string)
    | GUIDReadError(guid: string, error: string)
    | AttributeError(message: string)
    | EnumerateError(message: string)
    | DeviceOpenFailError(index: nat, error: string)
    | ReadFrameError(message: string)
    | NotImplementedError

  datatype MFResolution = MFResolution(width_x: u32, height_y: u32)

  datatype MFFrameFormat = MJPEG | YUYV

  datatype MFCameraFormat = MFCameraFormat(resolution: MFResolution, format: MFFrameFormat, frame_rate: u32)

  /** `MFCameraFormat::default()`: 640x480 MJPEG at 15 frames per second. */
  const DEFAULT_MF_CAMERA_FORMAT: MFCameraFormat := MFCameraFormat(MFResolution(640, 480), MJPEG, 15)

  /** A device: its index, and its name and symbolic link as UTF-16 code units. */
  datatype DeviceDescriptor = DeviceDescriptor(index: nat, name: seq<u16>, symlink: seq<u16>)

  /**
   * `MediaFoundationDeviceDescriptor::new`. A null wide string is `None`; a non-null one is the
   * `len` code units it points to. A null name is reported before a null symbolic link.
   */
  function DescriptorNew(index: nat, name: Option<seq<u16>>, symlink: Option<seq<u16>>): (r: Result<DeviceDescriptor, BindingError>)
    ensures r.Ok? <==> name.Some? && symlink.Some?
    ensures name.None? ==> r == Err(AttributeError("name nullptr"))
    ensures name.Some? && symlink.None? ==> r == Err(AttributeError("symlink nullptr"))
    ensures r.Ok? ==> r.value.index == index && r.value.name == name.value && r.value.symlink == symlink.value
  {
    if name.None? then Err(AttributeError("name nullptr"))
    else if symlink.None? then Err(AttributeError("symlink nullptr"))
    else Ok(DeviceDescriptor(index, name.value, symlink.value))
  }

  /** `Ord for MediaFoundationDeviceDescriptor`: by index only, the texts are not compared. */
  function DescriptorCmp(a: DeviceDescriptor, b: DeviceDescriptor): (o: Ordering)
    ensures o == Less <==> a.index < b.index
    ensures o == Equal <==> a.index == b.index
    ensures o == Greater <==> a.index > b.index
  {
    Compare(a.index, b.index)
  }

  /** The controls the bindings can read and write. */
  datatype MediaFoundationControls =
    | Brightness | Contrast | Hue | Saturation | Sharpness | Gamma | ColorEnable
    | WhiteBalance | BacklightComp | Gain | Pan | Tilt | Roll | Zoom | Exposure | Iris | Focus

  /** A control as read from the device. */
  datatype MFControl = MFControl(
    control: MediaFoundationControls, min: i32, max: i32, step: i32, current: i32,
    default: i32, manual: bool, active: bool)

  // ---------------------------------------------------------------------------------------
  // 64-bit attribute packing
  // ---------------------------------------------------------------------------------------

  /** `MF_MT_FRAME_SIZE` read back: the width is the high 32 bits, the height the low 32 bits. */
  function DecodeFrameSize(v: u64): (size: MFResolution)
    ensures v == size.width_x * U32_LIMIT + size.height_y
  {
    MFResolution(v / U32_LIMIT, v % U32_LIMIT)
  }

  /** `set_format`'s frame size: `(width << 32) + height`. */
  function PackFrameSize(size: MFResolution): (v: u64)
    ensures v / U32_LIMIT == size.width_x && v % U32_LIMIT == size.height_y
  {
    size.width_x * U32_LIMIT + size.height_y
  }

  /** Packing then decoding a frame size gives it back, and every 64-bit value is a packed size. */
  lemma FrameSizeRoundTrip(size: MFResolution, v: u64)
    ensures DecodeFrameSize(PackFrameSize(size)) == size
    ensures PackFrameSize(DecodeFrameSize(v)) == v
  {
  }

  /** `set_format`'s frame rate (also used for both range ends): numerator `rate`, denominator 1. */
  function PackFrameRate(rate: u32): (v: u64)
    ensures v / U32_LIMIT == rate && v % U32_LIMIT == 1
  {
    rate * U32_LIMIT + 1
  }

  /**
   * The frame-rate decode of `compatible_format_list` as written: the numerator is the high
   * 32 bits, but it is replaced by 0 whenever the denominator (the low 32 bits) is nonzero,
   * so only a ratio with denominator 0 yields a rate.
   */
  function DecodeFrameRateAsWritten(v: u64): (rate: u32)
    ensures rate != 0 ==> v % U32_LIMIT == 0 && rate == v / U32_LIMIT
    ensures v % U32_LIMIT != 0 ==> rate == 0
  {
    var numerator := v / U32_LIMIT;
    var denominator := v % U32_LIMIT;
    if denominator != 0 then 0 else numerator
  }

  /** As written, every rate `set_format` packs decodes to 0: 30 fps is read back as 0. */
  lemma FrameRateAsWrittenLosesRate(rate: u32)
    ensures DecodeFrameRateAsWritten(PackFrameRate(rate)) == 0
    ensures rate != 0 ==> DecodeFrameRateAsWritten(PackFrameRate(rate)) != rate
  {
  }

  /**
   * The evidently intended decode: the numerator divided by the denominator, 0 for a
   * zero denominator (no rate).
   */
  function DecodeFrameRate(v: u64): (rate: u32)
    ensures v % U32_LIMIT == 0 ==> rate == 0
    ensures v % U32_LIMIT == 1 ==> rate == v / U32_LIMIT
  {
    var numerator := v / U32_LIMIT;
    var denominator := v % U32_LIMIT;
    if denominator == 0 then 0
    else
      DivAtMost(numerator, denominator);
      numerator / denominator
  }

  /** With the intended decode, packing then decoding a frame rate gives it back. */
  lemma FrameRateRoundTrip(rate: u32)
    ensures DecodeFrameRate(PackFrameRate(rate)) == rate
  {
  }

  // ---------------------------------------------------------------------------------------
  // Media type enumeration
  // ---------------------------------------------------------------------------------------

  /** The `MF_MT_SUBTYPE` of a media type, as far as the bindings distinguish it. */
  datatype Subtype = SubtypeMJPEG | SubtypeYUY2 | SubtypeOther

  /**
   * A native media type: the answer to each attribute read, a value or the error text.
   * The reads happen in the order subtype, frame size, maximum rate, rate, minimum rate.
   */
  datatype MediaType = MediaType(
    subtype: Result<Subtype, string>,
    frame_size: Result<u64, string>,
    rate_max: Result<u64, string>,
    rate: Result<u64, string>,
    rate_min: Result<u64, string>)

  /** The decoded attributes of a media type. */
  datatype MediaTypeInfo = MediaTypeInfo(subtype: Subtype, size: MFResolution, rate_max: u32, rate: u32, rate_min: u32)

  /**
   * The first failing attribute read names its attribute in the error; otherwise the
   * decoded values, the three rates decoded as written (a nonzero denominator gives 0).
   */
  function ReadMediaType(mt: MediaType): (r: Result<MediaTypeInfo, BindingError>)
    ensures r.Ok? <==> mt.subtype.Ok? && mt.frame_size.Ok? && mt.rate_max.Ok? && mt.rate.Ok? && mt.rate_min.Ok?
    ensures mt.subtype.Err? ==> r == Err(GUIDReadError("MF_MT_SUBTYPE", mt.subtype.error))
    ensures mt.subtype.Ok? && mt.frame_size.Err? ==> r == Err(GUIDReadError("MF_MT_FRAME_SIZE", mt.frame_size.error))
    ensures mt.subtype.Ok? && mt.frame_size.Ok? && mt.rate_max.Err? ==>
      r == Err(GUIDReadError("MF_MT_FRAME_RATE_RANGE_MAX", mt.rate_max.error))
    ensures mt.subtype.Ok? && mt.frame_size.Ok? && mt.rate_max.Ok? && mt.rate.Err? ==>
      r == Err(GUIDReadError("MF_MT_FRAME_RATE", mt.rate.error))
    ensures mt.subtype.Ok? && mt.frame_size.Ok? && mt.rate_max.Ok? && mt.rate.Ok? && mt.rate_min.Err? ==>
      r == Err(GUIDReadError("MF_MT_FRAME_RATE_RANGE_MIN", mt.rate_min.error))
    ensures r.Ok? ==> r.value.subtype == mt.subtype.value && r.value.size == DecodeFrameSize(mt.frame_size.value)
    ensures r.Ok? ==> r.value.rate_max == DecodeFrameRateAsWritten(mt.rate_max.value)
    ensures r.Ok? ==> r.value.rate == DecodeFrameRateAsWritten(mt.rate.value)
    ensures r.Ok? ==> r.value.rate_min == DecodeFrameRateAsWritten(mt.rate_min.value)
  {
    if mt.subtype.Err? then Err(GUIDReadError("MF_MT_SUBTYPE", mt.subtype.error))
    else if mt.frame_size.Err? then Err(GUIDReadError("MF_MT_FRAME_SIZE", mt.frame_size.error))
    else if mt.rate_max.Err? then Err(GUIDReadError("MF_MT_FRAME_RATE_RANGE_MAX", mt.rate_max.error))
    else if mt.rate.Err? then Err(GUIDReadError("MF_MT_FRAME_RATE", mt.rate.error))
    else if mt.rate_min.Err? then Err(GUIDReadError("MF_MT_FRAME_RATE_RANGE_MIN", mt.rate_min.error))
    else Ok(MediaTypeInfo(
      mt.subtype.value, DecodeFrameSize(mt.frame_size.value),
      DecodeFrameRateAsWritten(mt.rate_max.value), DecodeFrameRateAsWritten(mt.rate.value),
      DecodeFrameRateAsWritten(mt.rate_min.value)))
  }

  /**
   * The capture formats one media type contributes. MJPEG and YUY2 push the minimum rate
   * when nonzero, the rate when nonzero and different from the minimum, and the maximum
   * when nonzero and different from the rate; any other subtype contributes nothing.
   */
  function Expand(info: MediaTypeInfo): (fs: seq<MFCameraFormat>)
  {
    if info.subtype == SubtypeOther then []
    else
      var format := if info.subtype == SubtypeMJPEG then MJPEG else YUYV;
      var with_min := if info.rate_min != 0 then [MFCameraFormat(info.size, format, info.rate_min)] else [];
      var with_rate := if info.rate != 0 && info.rate_min != info.rate then [MFCameraFormat(info.size, format, info.rate)] else [];
      var with_max := if info.rate_max != 0 && info.rate != info.rate_max then [MFCameraFormat(info.size, format, info.rate_max)] else [];
      with_min + with_rate + with_max
  }

  /** The frame format a supported subtype stands for. */
  function SubtypeFormat(s: Subtype): (f: MFFrameFormat)
    requires s != SubtypeOther
    ensures s == SubtypeMJPEG <==> f == MJPEG
  {
    if s == SubtypeMJPEG then MJPEG else YUYV
  }

  /**
   * What a media type contributes: nothing for another subtype; otherwise at most three
   * formats, all with its resolution and format, whose rates are exactly the nonzero values
   * among the minimum, the rate and the maximum, the minimum first when it is nonzero.
   */
  lemma ExpandContents(info: MediaTypeInfo)
    ensures info.subtype == SubtypeOther ==> Expand(info) == []
    ensures |Expand(info)| <= 3
    ensures info.subtype != SubtypeOther ==> forall f :: f in Expand(info) ==>
      f.resolution == info.size && f.format == SubtypeFormat(info.subtype)
    ensures info.subtype != SubtypeOther ==> forall x :: x in [info.rate_min, info.rate, info.rate_max] && x != 0 <==>
      exists f :: f in Expand(info) && f.frame_rate == x
    ensures info.subtype != SubtypeOther && info.rate_min != 0 ==> Expand(info)[0].frame_rate == info.rate_min
  {
    if info.subtype != SubtypeOther {
      var format := SubtypeFormat(info.subtype);
      var fs := Expand(info);
      forall x | x in [info.rate_min, info.rate, info.rate_max] && x != 0
        ensures exists f :: f in fs && f.frame_rate == x
      {
        if x == info.rate_min {
          assert MFCameraFormat(info.size, format, x) in fs;
        } else if x == info.rate {
          assert MFCameraFormat(info.size, format, x) in fs;
        } else {
          assert MFCameraFormat(info.size, format, x) in fs;
        }
      }
    }
  }

  /** A media type that reads successfully and whose three rates have a nonzero denominator. */
  predicate ReadsPackedRates(mt: MediaType)
  {
    ReadMediaType(mt).Ok? &&
    mt.rate_max.value % U32_LIMIT != 0 && mt.rate.value % U32_LIMIT != 0 && mt.rate_min.value % U32_LIMIT != 0
  }

  /**
   * As written, a media type whose three rates are packed over a nonzero denominator (as
   * `set_format` packs them, over 1) contributes no format at all.
   */
  lemma ExpandPackedRatesEmpty(mt: MediaType)
    requires ReadsPackedRates(mt)
    ensures Expand(ReadMediaType(mt).value) == []
  {
  }

  /** A minimum and maximum that agree around a zero rate are listed twice. */
  lemma ExpandMayRepeat()
    ensures Expand(MediaTypeInfo(SubtypeMJPEG, MFResolution(640, 480), 30, 0, 30)) ==
      [MFCameraFormat(MFResolution(640, 480), MJPEG, 30), MFCameraFormat(MFResolution(640, 480), MJPEG, 30)]
  {
  }

  /** A failed `GetNativeMediaType`: the HRESULT code and the error text. */
  datatype ReadFailure = ReadFailure(code: int, message: string)

  /** The code that ends the enumeration normally. */
  const NO_MORE_TYPES: int := 14009

  /**
   * `compatible_format_list` over native media types `mts` (indices 0, 1, ...) followed by
   * the failure `end` at index |mts|: the formats of each media type in enumeration order,
   * or the first error.
   */
  function FormatList(mts: seq<MediaType>, end: ReadFailure): (r: Result<seq<MFCameraFormat>, BindingError>)
  {
    if mts == [] then
      if end.code == NO_MORE_TYPES then Ok([])
      else Err(GUIDReadError("MF_SOURCE_READER_FIRST_VIDEO_STREAM", end.message))
    else
      match ReadMediaType(mts[0])
      case Err(e) => Err(e)
      case Ok(info) => (
        match FormatList(mts[1..], end)
        case Err(e) => Err(e)
        case Ok(rest) => Ok(Expand(info) + rest))
  }

  /**
   * The list fails exactly when some media type has a failing attribute read or the
   * enumeration ends with another code than 14009. A successful list has at most three
   * formats per media type, and each format comes from some media type's expansion.
   */
  lemma {:induction false} FormatListContents(mts: seq<MediaType>, end: ReadFailure)
    ensures FormatList(mts, end).Ok? <==>
      end.code == NO_MORE_TYPES && forall k :: 0 <= k < |mts| ==> ReadMediaType(mts[k]).Ok?
    ensures FormatList(mts, end).Ok? ==> |FormatList(mts, end).value| <= 3 * |mts|
    ensures FormatList(mts, end).Ok? ==> forall f :: f in FormatList(mts, end).value ==>
      exists k :: 0 <= k < |mts| && f in Expand(ReadMediaType(mts[k]).value)
  {
    if mts != [] {
      FormatListContents(mts[1..], end);
      var tail := mts[1..];
      assert forall k :: 1 <= k < |mts| ==> mts[k] == tail[k - 1];
      if ReadMediaType(mts[0]).Ok? {
        ExpandContents(ReadMediaType(mts[0]).value);
        if FormatList(mts, end).Ok? {
          forall f | f in FormatList(mts, end).value
            ensures exists k :: 0 <= k < |mts| && f in Expand(ReadMediaType(mts[k]).value)
          {
            if f !in Expand(ReadMediaType(mts[0]).value) {
              var j :| 0 <= j < |tail| && f in Expand(ReadMediaType(tail[j]).value);
              assert mts[j + 1] == tail[j];
            }
          }
        }
      }
    }
  }

  /**
   * As written, an enumeration whose media types all carry rates packed over a nonzero
   * denominator, as `set_format` packs them, lists no format at all.
   */
  lemma {:induction false} FormatListPackedRatesEmpty(mts: seq<MediaType>, end: ReadFailure)
    requires end.code == NO_MORE_TYPES
    requires forall k :: 0 <= k < |mts| ==> ReadsPackedRates(mts[k])
    ensures FormatList(mts, end).Ok? && FormatList(mts, end).value == []
  {
    if mts != [] {
      assert ReadsPackedRates(mts[0]);
      ExpandPackedRatesEmpty(mts[0]);
      var tail := mts[1..];
      assert forall k :: 0 <= k < |tail| ==> tail[k] == mts[k + 1];
      FormatListPackedRatesEmpty(tail, end);
      assert FormatList(mts, end) == Ok(Expand(ReadMediaType(mts[0]).value) + FormatList(tail, end).value);
    }
  }

  /** The step of the enumeration loop: the list so far followed by the rest of the enumeration. */
  function Prepend(acc: seq<MFCameraFormat>, r: Result<seq<MFCameraFormat>, BindingError>): (p: Result<seq<MFCameraFormat>, BindingError>)
    ensures p.Ok? <==> r.Ok?
    ensures p.Ok? ==> p.value == acc + r.value
    ensures p.Err? ==> p.error == r.error
  {
    match r
    case Ok(v) => Ok(acc + v)
    case Err(e) => Err(e)
  }

  /** One step of the enumeration: the media type at `index`, then the rest. */
  lemma FormatListStep(mts: seq<MediaType>, end: ReadFailure, acc: seq<MFCameraFormat>, index: nat)
    requires index < |mts|
    ensures ReadMediaType(mts[index]).Err? ==>
      Prepend(acc, FormatList(mts[index..], end)) == Err(ReadMediaType(mts[index]).error)
    ensures ReadMediaType(mts[index]).Ok? ==>
      Prepend(acc, FormatList(mts[index..], end)) ==
        Prepend(acc + Expand(ReadMediaType(mts[index]).value), FormatList(mts[index + 1..], end))
  {
    var rest := mts[index..];
    assert rest[0] == mts[index] && rest[1..] == mts[index + 1..];
    if ReadMediaType(mts[index]).Ok? {
      var info := ReadMediaType(mts[index]).value;
      var tail := FormatList(mts[index + 1..], end);
      if tail.Ok? {
        assert acc + (Expand(info) + tail.value) == acc + Expand(info) + tail.value;
      }
    }
  }

  /** The end of the enumeration. */
  lemma FormatListEnd(mts: seq<MediaType>, end: ReadFailure, acc: seq<MFCameraFormat>)
    ensures Prepend(acc, FormatList(mts[|mts|..], end)) ==
      if end.code == NO_MORE_TYPES then Ok(acc)
      else Err(GUIDReadError("MF_SOURCE_READER_FIRST_VIDEO_STREAM", end.message))
  {
    assert mts[|mts|..] == [];
    assert acc + [] == acc;
  }

  // ---------------------------------------------------------------------------------------
  // Controls
  // ---------------------------------------------------------------------------------------

  const CAM_CTRL_AUTO: i32 := 0x0001
  const CAM_CTRL_MANUAL: i32 := 0x0002

  /** `control()`: a control is manual exactly when the device reports `CAM_CTRL_MANUAL`. */
  function IsManual(flag: i32): (manual: bool)
    ensures manual <==> flag == CAM_CTRL_MANUAL
  {
    match flag
    case 2 => true
    case _ => false
  }

  /** `set_control`: a manual control is sent with `CAM_CTRL_MANUAL`, any other with `CAM_CTRL_AUTO`. */
  function ControlFlag(manual: bool): (flag: i32)
    ensures flag == CAM_CTRL_MANUAL || flag == CAM_CTRL_AUTO
  {
    if manual then CAM_CTRL_MANUAL else CAM_CTRL_AUTO
  }

  /** The name of the flag sent, used in the error text. */
  function ControlFlagName(manual: bool): (name: string)
    ensures name == (if ControlFlag(manual) == CAM_CTRL_MANUAL then "CAM_CTRL_MANUAL" else "CAM_CTRL_AUTO")
  {
    if manual then "CAM_CTRL_MANUAL" else "CAM_CTRL_AUTO"
  }

  /**
   * Writing a control's manual flag and reading it back gives it back; the two flag values
   * the bindings send are the only ones read back unchanged.
   */
  lemma ControlFlagRoundTrip(manual: bool, flag: i32)
    ensures IsManual(ControlFlag(manual)) == manual
    ensures ControlFlag(IsManual(flag)) == flag <==> flag == CAM_CTRL_AUTO || flag == CAM_CTRL_MANUAL
  {
  }

  /** The device property behind each control: picture controls on `IAMVideoProcAmp`, the rest on `IAMCameraControl`. */
  function ControlProperty(c: MediaFoundationControls): (name: string)
  {
    match c
    case Brightness => "VideoProcAmp_Brightness"
    case Contrast => "VideoProcAmp_Contrast"
    case Hue => "VideoProcAmp_Hue"
    case Saturation => "VideoProcAmp_Saturation"
    case Sharpness => "VideoProcAmp_Sharpness"
    case Gamma => "VideoProcAmp_Gamma"
    case ColorEnable => "VideoProcAmp_ColorEnable"
    case WhiteBalance => "VideoProcAmp_WhiteBalance"
    case BacklightComp => "VideoProcAmp_BacklightCompensation"
    case Gain => "VideoProcAmp_Gain"
    case Pan => "CameraControl_Pan"
    case Tilt => "CameraControl_Tilt"
    case Roll => "CameraControl_Roll"
    case Zoom => "CameraControl_Zoom"
    case Exposure => "CameraControl_Exposure"
    case Iris => "CameraControl_Iris"
    case Focus => "CameraControl_Focus"
  }

  /** Each control has its own property name. */
  lemma ControlPropertyDistinct(a: MediaFoundationControls, b: MediaFoundationControls)
    ensures ControlProperty(a) == ControlProperty(b) <==> a == b
  {
  }

  /** The answer to `GetRange`: minimum, maximum, step, default and flag. */
  datatype RangeAnswer = RangeAnswer(min: i32, max: i32, step: i32, default: i32, flag: i32)

  /**
   * `control()`: both interfaces are obtained first, then the range and then the value are
   * read; a failure names the interface or the property with "-Range" or "-Value". The flag
   * of the value read (which overwrites the range's) decides `manual`; the control is active.
   */
  function ReadControl(c: MediaFoundationControls, camera_control: Result<Unit, string>, video_proc_amp: Result<Unit, string>,
                       range: Result<RangeAnswer, string>, value: Result<(i32, i32), string>): (r: Result<MFControl, BindingError>)
    ensures r.Ok? <==> camera_control.Ok? && video_proc_amp.Ok? && range.Ok? && value.Ok?
    ensures camera_control.Err? ==> r == Err(GUIDReadError("IAMCameraControl", camera_control.error))
    ensures camera_control.Ok? && video_proc_amp.Err? ==> r == Err(GUIDReadError("IAMVideoProcAmp", video_proc_amp.error))
    ensures camera_control.Ok? && video_proc_amp.Ok? && range.Err? ==>
      r == Err(GUIDReadError(ControlProperty(c) + "-Range", range.error))
    ensures camera_control.Ok? && video_proc_amp.Ok? && range.Ok? && value.Err? ==>
      r == Err(GUIDReadError(ControlProperty(c) + "-Value", value.error))
    ensures r.Ok? ==> r.value.control == c && r.value.active && r.value.current == value.value.0
    ensures r.Ok? ==> r.value.min == range.value.min && r.value.max == range.value.max && r.value.step == range.value.step
    ensures r.Ok? ==> r.value.default == range.value.default && (r.value.manual <==> value.value.1 == CAM_CTRL_MANUAL)
  {
    if camera_control.Err? then Err(GUIDReadError("IAMCameraControl", camera_control.error))
    else if video_proc_amp.Err? then Err(GUIDReadError("IAMVideoProcAmp", video_proc_amp.error))
    else if range.Err? then Err(GUIDReadError(ControlProperty(c) + "-Range", range.error))
    else if value.Err? then Err(GUIDReadError(ControlProperty(c) + "-Value", value.error))
    else
      var rg := range.value;
      Ok(MFControl(c, rg.min, rg.max, rg.step, value.value.0, rg.default, IsManual(value.value.1), true))
  }

  /**
   * `set_control`: after both interfaces are obtained, the control's current value is sent
   * with the flag for its manual setting; `send` is the device's answer to that request.
   * A refusal names the property and the value and flag sent.
   */
  function WriteControl(ctl: MFControl, camera_control: Result<Unit, string>, video_proc_amp: Result<Unit, string>,
                        send: (i32, i32) -> Result<Unit, string>): (r: Result<Unit, BindingError>)
    ensures r.Ok? <==> camera_control.Ok? && video_proc_amp.Ok? && send(ctl.current, ControlFlag(ctl.manual)).Ok?
    ensures camera_control.Err? ==> r == Err(GUIDReadError("IAMCameraControl", camera_control.error))
    ensures camera_control.Ok? && video_proc_amp.Err? ==> r == Err(GUIDReadError("IAMVideoProcAmp", video_proc_amp.error))
    ensures camera_control.Ok? && video_proc_amp.Ok? && r.Err? ==>
      r == Err(GUIDSetError(ControlProperty(ctl.control), IntToString(ctl.current) + " " + ControlFlagName(ctl.manual),
                            send(ctl.current, ControlFlag(ctl.manual)).error))
  {
    if camera_control.Err? then Err(GUIDReadError("IAMCameraControl", camera_control.error))
    else if video_proc_amp.Err? then Err(GUIDReadError("IAMVideoProcAmp", video_proc_amp.error))
    else
      match send(ctl.current, ControlFlag(ctl.manual))
      case Ok(_) => Ok(Unit)
      case Err(why) => Err(GUIDSetError(ControlProperty(ctl.control), IntToString(ctl.current) + " " + ControlFlagName(ctl.manual), why))
  }

  /**
   * A control written and then read back from a device that stores what it is sent keeps
   * its value and its manual setting, and comes back active.
   */
  lemma WriteThenReadControl(ctl: MFControl, rg: RangeAnswer)
    requires rg.min == ctl.min && rg.max == ctl.max && rg.step == ctl.step && rg.default == ctl.default
    ensures ReadControl(ctl.control, Ok(Unit), Ok(Unit), Ok(rg), Ok((ctl.current, ControlFlag(ctl.manual)))) ==
      Ok(ctl.(active := true))
  {
    ControlFlagRoundTrip(ctl.manual, 0);
  }

  // ---------------------------------------------------------------------------------------
  // Format setting
  // ---------------------------------------------------------------------------------------

  /** The device calls `set_format` makes, in order. */
  datatype SetStep =
    | CreateMediaType | SetMajorType | SetSubtype | SetFrameSize | SetFrameRate
    | SetFrameRateMin | SetFrameRateMax | SetCurrentMediaType

  const SET_STEPS: seq<SetStep> := [
    CreateMediaType, SetMajorType, SetSubtype, SetFrameSize, SetFrameRate,
    SetFrameRateMin, SetFrameRateMax, SetCurrentMediaType]

  /**
   * The error for a failed step of `set_format`. The Debug texts of the subtype GUID and of
   * the media type are given as `subtype_text` and `media_type_text`; the packed frame size
   * and frame rate appear as decimal numbers.
   */
  function SetStepError(step: SetStep, format: MFCameraFormat, subtype_text: string, media_type_text: string, why: string): (e: BindingError)
    ensures step == CreateMediaType <==> e.AttributeError?
    ensures step == SetFrameSize ==> e == GUIDSetError("MF_MT_FRAME_SIZE", NatToString(PackFrameSize(format.resolution)), why)
    ensures step in {SetFrameRate, SetFrameRateMin, SetFrameRateMax} ==> e.GUIDSetError? && e.value == NatToString(PackFrameRate(format.frame_rate))
  {
    var fps := NatToString(PackFrameRate(format.frame_rate));
    match step
    case CreateMediaType => AttributeError(why)
    case SetMajorType => GUIDSetError("MF_MT_MAJOR_TYPE", "MFMediaType_Video", why)
    case SetSubtype => GUIDSetError("MF_MT_SUBTYPE", subtype_text, why)
    case SetFrameSize => GUIDSetError("MF_MT_FRAME_SIZE", NatToString(PackFrameSize(format.resolution)), why)
    case SetFrameRate => GUIDSetError("MF_MT_FRAME_RATE", fps, why)
    case SetFrameRateMin => GUIDSetError("MF_MT_FRAME_RATE_RANGE_MIN", fps, why)
    case SetFrameRateMax => GUIDSetError("MF_MT_FRAME_RATE_RANGE_MAX", fps, why)
    case SetCurrentMediaType => GUIDSetError("MF_SOURCE_READER_FIRST_VIDEO_STREAM", media_type_text, why)
  }

  /** The outcome of the steps from `i` on: the first failure's error, or success. */
  function SetFormatFrom(i: nat, format: MFCameraFormat, answer: SetStep -> Option<string>,
                         subtype_text: string, media_type_text: string): (r: Result<Unit, BindingError>)
    requires i <= |SET_STEPS|
    ensures r.Ok? <==> forall j :: i <= j < |SET_STEPS| ==> answer(SET_STEPS[j]).None?
    decreases |SET_STEPS| - i
  {
    if i == |SET_STEPS| then Ok(Unit)
    else match answer(SET_STEPS[i])
      case Some(why) => Err(SetStepError(SET_STEPS[i], format, subtype_text, media_type_text, why))
      case None => SetFormatFrom(i + 1, format, answer, subtype_text, media_type_text)
  }

  /**
   * A `MediaFoundationDevice`: whether its stream is open and the format last set. The
   * media source and source reader are the device calls given to each method.
   */
  class MediaFoundationDevice {
    const index: nat
    var is_open: bool
    var device_format: MFCameraFormat

    /** A newly opened device: stream closed, default format. */
    constructor (index: nat)
      ensures this.index == index && !is_open && device_format == DEFAULT_MF_CAMERA_FORMAT
    {
      this.index := index;
      is_open := false;
      device_format := DEFAULT_MF_CAMERA_FORMAT;
    }

    /** `is_stream_open`. */
    function IsStreamOpen(): (open: bool)
      reads this
      ensures open == is_open
    {
      is_open
    }

    /** `format`. */
    function Format(): (f: MFCameraFormat)
      reads this
      ensures f == device_format
    {
      device_format
    }

    /**
     * `set_format`: the calls are made in order and the first failure is returned; only
     * when every call succeeded is the device's format replaced. The stream flag is untouched.
     */
    method SetFormat(format: MFCameraFormat, answer: SetStep -> Option<string>, subtype_text: string, media_type_text: string)
      returns (r: Result<Unit, BindingError>)
      modifies this
      ensures r == SetFormatFrom(0, format, answer, subtype_text, media_type_text)
      ensures r.Ok? ==> device_format == format
      ensures r.Err? ==> device_format == old(device_format)
      ensures is_open == old(is_open)
    {
      var i := 0;
      while i < |SET_STEPS|
        invariant 0 <= i <= |SET_STEPS|
        invariant SetFormatFrom(0, format, answer, subtype_text, media_type_text) ==
          SetFormatFrom(i, format, answer, subtype_text, media_type_text)
      {
        var failure := answer(SET_STEPS[i]);
        if failure.Some? {
          return Err(SetStepError(SET_STEPS[i], format, subtype_text, media_type_text, failure.value));
        }
        i := i + 1;
      }
      device_format := format;
      return Ok(Unit);
    }

    /** `start_stream`: marks the stream open; it cannot fail. */
    method StartStream() returns (r: Result<Unit, BindingError>)
      modifies this
      ensures is_open && r == Ok(Unit)
      ensures device_format == old(device_format)
    {
      is_open := true;
      r := Ok(Unit);
    }

    /** `stop_stream`: marks the stream closed. */
    method StopStream()
      modifies this
      ensures !is_open
      ensures device_format == old(device_format)
    {
      is_open := false;
    }

    /**
     * `compatible_format_list`: reads native media type 0, 1, ... until the enumeration
     * fails, appending each type's formats; `mts` are the media types and `end` the failure
     * that follows them.
     */
    method CompatibleFormatList(mts: seq<MediaType>, end: ReadFailure) returns (r: Result<seq<MFCameraFormat>, BindingError>)
      ensures r == FormatList(mts, end)
    {
      var camera_format_list: seq<MFCameraFormat> := [];
      var index := 0;
      assert mts[index..] == mts;
      assert FormatList(mts, end).Ok? ==> [] + FormatList(mts, end).value == FormatList(mts, end).value;
      while index < |mts|
        invariant 0 <= index <= |mts|
        invariant FormatList(mts, end) == Prepend(camera_format_list, FormatList(mts[index..], end))
      {
        FormatListStep(mts, end, camera_format_list, index);
        var read := ReadMediaType(mts[index]);
        if read.Err? {
          return Err(read.error);
        }
        camera_format_list := camera_format_list + Expand(read.value);
        index := index + 1;
      }
      FormatListEnd(mts, end, camera_format_list);
      if end.code != NO_MORE_TYPES {
        return Err(GUIDReadError("MF_SOURCE_READER_FIRST_VIDEO_STREAM", end.message));
      }
      return Ok(camera_format_list);
    }
  }
}
