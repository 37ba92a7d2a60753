/**
 * The value types of the top-level `nokhwa` crate (the generation that predates the core
 * crate): its two-entry frame format, the capture backends, the error enum, camera formats
 * and descriptions, and the camera controls with their value checks. `Resolution` is the
 * same struct with the same ordering as in the core crate and is shared with it.
 */
module LegacyTypes {
  import opened Wrappers
  import opened Numeric
  import CoreTypes
  import CoreUtils

  const I32_MIN: int := -0x8000_0000
  type i32 = x: int | I32_MIN <= x <= I32_MAX

  type Resolution = CoreTypes.Resolution

  /** The legacy frame formats. */
  datatype FrameFormat = MJPEG | YUYV

  /**
   * The capture backends. The crate's files use two spellings of some variants (`AUTO`,
   * `V4L2` and `UVC` are `Auto`, `Video4Linux` and `UniversalVideoClass`); `Network` and
   * `Browser` are the variants the device query matches on.
   */
  datatype CaptureAPIBackend =
    | Auto | AVFoundation | Video4Linux | UniversalVideoClass | MediaFoundation
    | OpenCv | GStreamer | Network | Browser

  /** The error enum of the top-level crate. */
  datatype NokhwaError =
    | UnitializedError
    | InitializeError(backend: CaptureAPIBackend, error: string)
    | ShutdownError(backend: CaptureAPIBackend, error: string)
    | GeneralError(message: string)
    | StructureError(structure: string, error: string)
    | OpenDeviceError(device: string, error: string)
    | GetPropertyError(property: string, error: string)
    | SetPropertyError(property: string, value: string, error: string)
    | OpenStreamError(message: string)
    | ReadFrameError(message: string)
    | ProcessFrameError(src: FrameFormat, destination: string, error: string)
    | StreamShutdownError(message: string)
    | UnsupportedOperationError(api: CaptureAPIBackend)
    | NotImplementedError(message: string)

  /** A capture format with an integer frame rate. */
  datatype CameraFormat = CameraFormat(resolution: Resolution, format: FrameFormat, frame_rate: u32)

  /** `CameraFormat::default()`: 640x480 MJPEG at 15 frames per second. */
  const DEFAULT_CAMERA_FORMAT: CameraFormat := CameraFormat(CoreTypes.Resolution(640, 480), MJPEG, 15)

  /** An RGB image: width, height and the row-major bytes. */
  datatype RgbImage = RgbImage(width: u32, height: u32, data: seq<u8>)

  /** A camera description. */
  datatype CameraInfo = CameraInfo(human_name: string, description: string, misc: string, index: nat)

  /**
   * `Ord for CameraInfo`: only the index is compared, so two descriptions of the same
   * index are `Equal` whatever their texts.
   */
  function CameraInfoCmp(a: CameraInfo, b: CameraInfo): (o: Ordering)
    ensures o == Less <==> a.index < b.index
    ensures o == Equal <==> a.index == b.index
    ensures o == Greater <==> a.index > b.index
  {
    Compare(a.index, b.index)
  }

  /** The camera controls the crate knows, in declaration order. */
  datatype KnownCameraControls =
    | Brightness | Contrast | Hue | Saturation | Sharpness | Gamma | ColorEnable
    | WhiteBalance | BacklightComp | Gain | Pan | Tilt | Roll | Zoom | Exposure | Iris | Focus

  /** `all_known_camera_controls`. */
  const ALL_KNOWN_CAMERA_CONTROLS: seq<KnownCameraControls> := [
    Brightness, Contrast, Hue, Saturation, Sharpness, Gamma, ColorEnable, WhiteBalance,
    BacklightComp, Gain, Pan, Tilt, Roll, Zoom, Exposure, Iris, Focus]

  /** The position of a control in declaration order, which the derived `Ord` compares. */
  function ControlOrdinal(c: KnownCameraControls): (n: nat)
    ensures n < |ALL_KNOWN_CAMERA_CONTROLS| && ALL_KNOWN_CAMERA_CONTROLS[n] == c
  {
    match c
    case Brightness => 0 case Contrast => 1 case Hue => 2 case Saturation => 3
    case Sharpness => 4 case Gamma => 5 case ColorEnable => 6 case WhiteBalance => 7
    case BacklightComp => 8 case Gain => 9 case Pan => 10 case Tilt => 11 case Roll => 12
    case Zoom => 13 case Exposure => 14 case Iris => 15 case Focus => 16
  }

  /** The list has 17 entries, lists every control, and lists each exactly once. */
  lemma AllKnownCameraControls()
    ensures |ALL_KNOWN_CAMERA_CONTROLS| == 17
    ensures forall c: KnownCameraControls :: c in ALL_KNOWN_CAMERA_CONTROLS
    ensures forall i, j :: 0 <= i < j < |ALL_KNOWN_CAMERA_CONTROLS| ==> ALL_KNOWN_CAMERA_CONTROLS[i] != ALL_KNOWN_CAMERA_CONTROLS[j]
  {
    forall c: KnownCameraControls ensures c in ALL_KNOWN_CAMERA_CONTROLS {
      var _ := ControlOrdinal(c);
    }
    forall i, j | 0 <= i < j < |ALL_KNOWN_CAMERA_CONTROLS|
      ensures ALL_KNOWN_CAMERA_CONTROLS[i] != ALL_KNOWN_CAMERA_CONTROLS[j]
    {
      assert ControlOrdinal(ALL_KNOWN_CAMERA_CONTROLS[i]) == i;
      assert ControlOrdinal(ALL_KNOWN_CAMERA_CONTROLS[j]) == j;
    }
  }

  /** `Display for KnownCameraControls`: the variant name, as `Debug` prints it. */
  function ControlName(c: KnownCameraControls): (name: string)
    ensures |name| > 0
  {
    match c
    case Brightness => "Brightness" case Contrast => "Contrast" case Hue => "Hue"
    case Saturation => "Saturation" case Sharpness => "Sharpness" case Gamma => "Gamma"
    case ColorEnable => "ColorEnable" case WhiteBalance => "WhiteBalance"
    case BacklightComp => "BacklightComp" case Gain => "Gain" case Pan => "Pan" case Tilt => "Tilt"
    case Roll => "Roll" case Zoom => "Zoom" case Exposure => "Exposure" case Iris => "Iris"
    case Focus => "Focus"
  }

  /** Whether the OS or driver manages a control, or the program does. */
  datatype KnownCameraControlFlag = Automatic | Manual

  /** A camera control: its identity, bounds, current value, step, default, flag and activity. */
  datatype CameraControl = CameraControl(
    control: KnownCameraControls, min: i32, max: i32, value: i32, step: i32,
    default: i32, flag: KnownCameraControlFlag, active: bool)

  /** `Ord for CameraControl`: only the control is compared, in declaration order. */
  function CameraControlCmp(a: CameraControl, b: CameraControl): (o: Ordering)
    ensures o == Equal <==> a.control == b.control
    ensures o == Less <==> ControlOrdinal(a.control) < ControlOrdinal(b.control)
  {
    Compare(ControlOrdinal(a.control), ControlOrdinal(b.control))
  }

  /** A value is accepted when it lies strictly between the bounds and is a multiple of the step. */
  predicate Accepts(min: int, max: int, step: int, value: int)
  {
    min < value < max && step != 0 && value % step == 0
  }

  /**
   * The three checks shared by `new`, `set_value` and `with_value`, in their order: too
   * large (at or above the maximum), then too low (at or below the minimum), then not a
   * multiple of the step. The step is only divided by once both bounds passed, and must not
   * be zero there (Rust's `%` panics on zero).
   */
  function ValueCheck(min: i32, max: i32, step: i32, value: i32): (r: Result<Unit, NokhwaError>)
    requires min < value < max ==> step != 0
    ensures r.Ok? <==> Accepts(min, max, step, value)
    ensures value >= max ==> r == Err(StructureError("CameraControl", "Value too large"))
    ensures value < max && value <= min ==> r == Err(StructureError("CameraControl", "Value too low"))
    ensures min < value < max && value % step != 0 ==> r == Err(StructureError("CameraControl", "Not aligned with step"))
  {
    if value >= max then Err(StructureError("CameraControl", "Value too large"))
    else if value <= min then Err(StructureError("CameraControl", "Value too low"))
    else if value % step != 0 then Err(StructureError("CameraControl", "Not aligned with step"))
    else Ok(Unit)
  }

  /** `CameraControl::new`: the value is checked; on success every argument is stored. */
  function CameraControlNew(control: KnownCameraControls, minimum: i32, maximum: i32, value: i32, step: i32,
                            default: i32, flag: KnownCameraControlFlag, active: bool): (r: Result<CameraControl, NokhwaError>)
    requires minimum < value < maximum ==> step != 0
    ensures r.Ok? <==> Accepts(minimum, maximum, step, value)
    ensures r.Ok? ==> r.value == CameraControl(control, minimum, maximum, value, step, default, flag, active)
    ensures r.Err? ==> r.error == ValueCheck(minimum, maximum, step, value).error
  {
    match ValueCheck(minimum, maximum, step, value)
    case Err(e) => Err(e)
    case Ok(_) => Ok(CameraControl(control, minimum, maximum, value, step, default, flag, active))
  }

  /**
   * `with_value`: the same checks; on success a copy with the new value that is marked
   * active, every other field copied.
   */
  function WithValue(c: CameraControl, value: i32): (r: Result<CameraControl, NokhwaError>)
    requires c.min < value < c.max ==> c.step != 0
    ensures r.Ok? <==> Accepts(c.min, c.max, c.step, value)
    ensures r.Ok? ==> r.value == c.(value := value, active := true)
    ensures r.Err? ==> r.error == ValueCheck(c.min, c.max, c.step, value).error
  {
    match ValueCheck(c.min, c.max, c.step, value)
    case Err(e) => Err(e)
    case Ok(_) => Ok(c.(value := value, active := true))
  }

  /**
   * `set_value` on a control held by value: the returned control is the updated `self`.
   * On error nothing changes; on success only the value does. It fails exactly when
   * `with_value` does, with the same error, and otherwise differs from it only in `active`.
   */
  method SetValue(c: CameraControl, value: i32) returns (r: Result<Unit, NokhwaError>, c': CameraControl)
    requires c.min < value < c.max ==> c.step != 0
    ensures r.Ok? <==> Accepts(c.min, c.max, c.step, value)
    ensures r.Err? ==> c' == c && r == ValueCheck(c.min, c.max, c.step, value)
    ensures r.Ok? ==> c' == c.(value := value)
    ensures r.Err? ==> WithValue(c, value) == Err(r.error)
    ensures r.Ok? ==> WithValue(c, value) == Ok(c'.(active := true))
  {
    r := ValueCheck(c.min, c.max, c.step, value);
    if r.Ok? {
      c' := c.(value := value);
    } else {
      c' := c;
    }
  }

  /**
   * The step `valid_values` hands to `step_by`: an i32 cast to a 64-bit usize, so a
   * negative step becomes a very large one.
   */
  function UsizeStep(step: i32): (s: int)
    requires step != 0
    ensures s > 0
    ensures step > 0 ==> s == step
    ensures step < 0 ==> s > I32_MAX - I32_MIN
  {
    if step > 0 then step else step + 0x1_0000_0000_0000_0000
  }

  /**
   * `valid_values`: min, min + step, ... up to and including max. `step_by(0)` panics, so
   * the step must not be zero.
   */
  function ValidValues(c: CameraControl): (vs: seq<int>)
    requires c.step != 0
  {
    CoreUtils.Progression(c.min, c.max, UsizeStep(c.step))
  }

  /**
   * What `valid_values` lists: nothing when min > max; otherwise min first, each next value
   * one step above the previous, all within max, and the next step would pass max. For a
   * positive step there are floor((max - min) / step) + 1 values; a negative step lists
   * min alone.
   */
  lemma ValidValuesShape(c: CameraControl)
    requires c.step != 0
    ensures c.min > c.max ==> ValidValues(c) == []
    ensures c.min <= c.max ==> |ValidValues(c)| > 0 && ValidValues(c)[0] == c.min
    ensures forall i :: 0 <= i < |ValidValues(c)| ==> ValidValues(c)[i] <= c.max
    ensures c.step > 0 ==> forall i :: 0 < i < |ValidValues(c)| ==> ValidValues(c)[i] == ValidValues(c)[i - 1] + c.step
    ensures c.step > 0 && c.min <= c.max ==> |ValidValues(c)| == (c.max - c.min) / c.step + 1
    ensures c.step < 0 && c.min <= c.max ==> ValidValues(c) == [c.min]
  {
    var s := UsizeStep(c.step);
    CoreUtils.ProgressionShape(c.min, c.max, s);
    CoreUtils.ProgressionLength(c.min, c.max, s);
    if c.step < 0 && c.min <= c.max {
      assert c.min + s > c.max;
      assert CoreUtils.Progression(c.min + s, c.max, s) == [];
    }
  }
}
