/**
 * The browser camera of `js_camera.rs`: the capability, facing-mode and resize-mode names,
 * the constraints builder and its setters, the text of the constraints script that `build`
 * assembles from the builder's fields, and the state kept by a browser camera (its
 * constraints, the `<video>` node it is attached to, its measured resolution).
 *
 * The browser itself is represented by the answers it gives: running the constraints script,
 * asking for the media stream, measuring the `<video>` element and casting DOM nodes are
 * parameters. Floating-point aspect ratios are `real`, and their decimal text is given by a
 * formatting parameter.
 */
module JsCamera {
  import opened Wrappers
  import Numeric
  import opened LegacyTypes
  import CoreTypes

  // ---------------------------------------------------------------------------------------
  // Names
  // ---------------------------------------------------------------------------------------

  /** `JSCameraSupportedCapabilities`: the constrainable properties of a media track. */
  datatype Capability =
    | CapDeviceId | CapGroupId | CapAspectRatio | CapFacingMode
    | CapFrameRate | CapHeight | CapWidth | CapResizeMode

  /** The `Display` text of a capability: its name in the browser's constraint dictionary. */
  function CapabilityText(c: Capability): (s: string)
    ensures |s| > 0
  {
    match c
    case CapDeviceId => "deviceId"
    case CapGroupId => "groupId"
    case CapAspectRatio => "aspectRatio"
    case CapFacingMode => "facingMode"
    case CapFrameRate => "frameRate"
    case CapHeight => "height"
    case CapWidth => "width"
    case CapResizeMode => "resizeMode"
  }

  /** The error `TryFrom<String>` reports for a string that names no capability. */
  const NO_MATCH: NokhwaError := StructureError("JSCameraSupportedCapabilities", "No Match Str")

  /** `TryFrom<String>`: the capability a name denotes. */
  function ParseCapability(s: string): (r: Result<Capability, NokhwaError>)
    ensures r.Err? ==> r.error == NO_MATCH
  {
    if s == "deviceId" then Ok(CapDeviceId)
    else if s == "groupId" then Ok(CapGroupId)
    else if s == "aspectRatio" then Ok(CapAspectRatio)
    else if s == "facingMode" then Ok(CapFacingMode)
    else if s == "frameRate" then Ok(CapFrameRate)
    else if s == "height" then Ok(CapHeight)
    else if s == "width" then Ok(CapWidth)
    else if s == "resizeMode" then Ok(CapResizeMode)
    else Err(NO_MATCH)
  }

  /** Parsing the text of a capability gives the capability back. */
  lemma CapabilityRoundTrip(c: Capability)
    ensures ParseCapability(CapabilityText(c)) == Ok(c)
  {
  }

  /** Only the eight capability texts parse: every other string is rejected. */
  lemma ParseCapabilityOnlyTexts(s: string)
    ensures ParseCapability(s).Ok? ==> CapabilityText(ParseCapability(s).value) == s
    ensures (forall c: Capability :: CapabilityText(c) != s) ==> ParseCapability(s) == Err(NO_MATCH)
  {
    if ParseCapability(s).Ok? {
      assert CapabilityText(ParseCapability(s).value) == s;
    } else {
      assert ParseCapability(s) == Err(NO_MATCH);
    }
  }

  /** `JSCameraFacingMode`: which camera the browser should pick. */
  datatype FacingMode = AnyFacing | Environment | User | Left | Right

  /** The `Display` text of a facing mode. */
  function FacingText(m: FacingMode): (s: string)
    ensures |s| > 0
  {
    match m
    case Environment => "environment"
    case User => "user"
    case Left => "left"
    case Right => "right"
    case AnyFacing => "any"
  }

  /** Distinct facing modes have distinct texts. */
  lemma FacingTextInjective(a: FacingMode, b: FacingMode)
    ensures FacingText(a) == FacingText(b) ==> a == b
  {
    if FacingText(a) == FacingText(b) {
      match a
      case Environment => assert FacingText(a)[0] == 'e';
      case User => assert FacingText(a)[0] == 'u';
      case Left => assert FacingText(a) == "left";
      case Right => assert FacingText(a)[0] == 'r';
      case AnyFacing => assert FacingText(a)[0] == 'a';
    }
  }

  /** `JSCameraResizeMode`: whether the browser may crop or scale. */
  datatype ResizeMode = AnyResize | NoResize | CropAndScale

  /** The `Display` text of a resize mode; `Any` has the empty text. */
  function ResizeText(m: ResizeMode): (s: string)
    ensures s == "" <==> m == AnyResize
  {
    match m
    case NoResize => "none"
    case CropAndScale => "crop-and-scale"
    case AnyResize => ""
  }

  /** Distinct resize modes have distinct texts. */
  lemma ResizeTextInjective(a: ResizeMode, b: ResizeMode)
    ensures ResizeText(a) == ResizeText(b) ==> a == b
  {
    if ResizeText(a) == ResizeText(b) && a != AnyResize && b != AnyResize {
      assert ResizeText(a)[0] == ResizeText(b)[0];
    }
  }

  // ---------------------------------------------------------------------------------------
  // The constraints builder
  // ---------------------------------------------------------------------------------------

  /**
   * The twenty fields of `JSCameraConstraintsBuilder`, which `JSCameraConstraints` carries
   * as well: a resolution, an aspect ratio and a frame rate each with an optional minimum,
   * a preferred value, an optional maximum and an "exact" flag; a facing mode and a resize
   * mode; a device id and a group id, each with an "exact" flag.
   */
  datatype Settings = Settings(
    min_resolution: Option<Resolution>, preferred_resolution: Resolution,
    max_resolution: Option<Resolution>, resolution_exact: bool,
    min_aspect_ratio: Option<real>, aspect_ratio: real,
    max_aspect_ratio: Option<real>, aspect_ratio_exact: bool,
    facing_mode: FacingMode, facing_mode_exact: bool,
    min_frame_rate: Option<Numeric.u32>, frame_rate: Numeric.u32,
    max_frame_rate: Option<Numeric.u32>, frame_rate_exact: bool,
    resize_mode: ResizeMode, resize_mode_exact: bool,
    device_id: string, device_id_exact: bool,
    group_id: string, group_id_exact: bool)

  /**
   * `JSCameraConstraintsBuilder::default()` (and `new()`): 480x234 minimum, 640x360 ideal,
   * 1920x1080 maximum; aspect ratio 1 to 2, ideally 1.77777777778; 10 to 30 frames per
   * second, ideally 15; any facing mode, any resize mode, no device or group id; nothing exact.
   */
  const DEFAULT_SETTINGS: Settings := Settings(
    Some(CoreTypes.Resolution(480, 234)), CoreTypes.Resolution(640, 360),
    Some(CoreTypes.Resolution(1920, 1080)), false,
    Some(1.0), 1.77777777778, Some(2.0), false,
    AnyFacing, false,
    Some(10), 15, Some(30), false,
    AnyResize, false,
    "", false, "", false)

  /** The fields of the builder, each naming one of the twenty. */
  datatype Field =
    | MinResolutionField | PreferredResolutionField | MaxResolutionField | ResolutionExactField
    | MinAspectRatioField | AspectRatioField | MaxAspectRatioField | AspectRatioExactField
    | FacingModeField | FacingModeExactField
    | MinFrameRateField | FrameRateField | MaxFrameRateField | FrameRateExactField
    | ResizeModeField | ResizeModeExactField
    | DeviceIdField | DeviceIdExactField | GroupIdField | GroupIdExactField

  /** The value held in one field. */
  datatype FieldValue =
    | OptResolution(res: Option<Resolution>) | ResolutionValue(resolution: Resolution)
    | OptRatio(ratio: Option<real>) | RatioValue(r: real)
    | OptRate(rate: Option<Numeric.u32>) | RateValue(fps: Numeric.u32)
    | FacingValue(facing: FacingMode) | ResizeValue(resize: ResizeMode)
    | TextValue(text: string) | FlagValue(flag: bool)

  /** The value of field `f` of `b`: the getters of `JSCameraConstraints`. */
  function Get(b: Settings, f: Field): FieldValue
  {
    match f
    case MinResolutionField => OptResolution(b.min_resolution)
    case PreferredResolutionField => ResolutionValue(b.preferred_resolution)
    case MaxResolutionField => OptResolution(b.max_resolution)
    case ResolutionExactField => FlagValue(b.resolution_exact)
    case MinAspectRatioField => OptRatio(b.min_aspect_ratio)
    case AspectRatioField => RatioValue(b.aspect_ratio)
    case MaxAspectRatioField => OptRatio(b.max_aspect_ratio)
    case AspectRatioExactField => FlagValue(b.aspect_ratio_exact)
    case FacingModeField => FacingValue(b.facing_mode)
    case FacingModeExactField => FlagValue(b.facing_mode_exact)
    case MinFrameRateField => OptRate(b.min_frame_rate)
    case FrameRateField => RateValue(b.frame_rate)
    case MaxFrameRateField => OptRate(b.max_frame_rate)
    case FrameRateExactField => FlagValue(b.frame_rate_exact)
    case ResizeModeField => ResizeValue(b.resize_mode)
    case ResizeModeExactField => FlagValue(b.resize_mode_exact)
    case DeviceIdField => TextValue(b.device_id)
    case DeviceIdExactField => FlagValue(b.device_id_exact)
    case GroupIdField => TextValue(b.group_id)
    case GroupIdExactField => FlagValue(b.group_id_exact)
  }

  /** Settings with the same value in every field are the same settings. */
  lemma GetDetermines(a: Settings, b: Settings)
    requires forall f: Field :: Get(a, f) == Get(b, f)
    ensures a == b
  {
    GetDeterminesResolution(a, b);
    GetDeterminesAspectRatio(a, b);
    GetDeterminesFacingOrRate(a, b);
    GetDeterminesResizeOrId(a, b);
  }

  /** `GetDetermines` for the resolution fields. */
  lemma GetDeterminesResolution(a: Settings, b: Settings)
    requires forall f: Field :: Get(a, f) == Get(b, f)
    ensures a.min_resolution == b.min_resolution && a.preferred_resolution == b.preferred_resolution && a.max_resolution == b.max_resolution && a.resolution_exact == b.resolution_exact
  {
    assert Get(a, MinResolutionField) == Get(b, MinResolutionField);
    assert Get(a, PreferredResolutionField) == Get(b, PreferredResolutionField);
    assert Get(a, MaxResolutionField) == Get(b, MaxResolutionField);
    assert Get(a, ResolutionExactField) == Get(b, ResolutionExactField);
  }

  /** `GetDetermines` for the aspect-ratio fields. */
  lemma GetDeterminesAspectRatio(a: Settings, b: Settings)
    requires forall f: Field :: Get(a, f) == Get(b, f)
    ensures a.min_aspect_ratio == b.min_aspect_ratio && a.aspect_ratio == b.aspect_ratio && a.max_aspect_ratio == b.max_aspect_ratio && a.aspect_ratio_exact == b.aspect_ratio_exact
  {
    assert Get(a, MinAspectRatioField) == Get(b, MinAspectRatioField);
    assert Get(a, AspectRatioField) == Get(b, AspectRatioField);
    assert Get(a, MaxAspectRatioField) == Get(b, MaxAspectRatioField);
    assert Get(a, AspectRatioExactField) == Get(b, AspectRatioExactField);
  }

  /** `GetDetermines` for the facing-mode and frame-rate fields. */
  lemma GetDeterminesFacingOrRate(a: Settings, b: Settings)
    requires forall f: Field :: Get(a, f) == Get(b, f)
    ensures a.facing_mode == b.facing_mode && a.facing_mode_exact == b.facing_mode_exact && a.min_frame_rate == b.min_frame_rate && a.frame_rate == b.frame_rate && a.max_frame_rate == b.max_frame_rate && a.frame_rate_exact == b.frame_rate_exact
  {
    assert Get(a, FacingModeField) == Get(b, FacingModeField);
    assert Get(a, FacingModeExactField) == Get(b, FacingModeExactField);
    assert Get(a, MinFrameRateField) == Get(b, MinFrameRateField);
    assert Get(a, FrameRateField) == Get(b, FrameRateField);
    assert Get(a, MaxFrameRateField) == Get(b, MaxFrameRateField);
    assert Get(a, FrameRateExactField) == Get(b, FrameRateExactField);
  }

  /** `GetDetermines` for the resize-mode and identifier fields. */
  lemma GetDeterminesResizeOrId(a: Settings, b: Settings)
    requires forall f: Field :: Get(a, f) == Get(b, f)
    ensures a.resize_mode == b.resize_mode && a.resize_mode_exact == b.resize_mode_exact && a.device_id == b.device_id && a.device_id_exact == b.device_id_exact && a.group_id == b.group_id && a.group_id_exact == b.group_id_exact
  {
    assert Get(a, ResizeModeField) == Get(b, ResizeModeField);
    assert Get(a, ResizeModeExactField) == Get(b, ResizeModeExactField);
    assert Get(a, DeviceIdField) == Get(b, DeviceIdField);
    assert Get(a, DeviceIdExactField) == Get(b, DeviceIdExactField);
    assert Get(a, GroupIdField) == Get(b, GroupIdField);
    assert Get(a, GroupIdExactField) == Get(b, GroupIdExactField);
  }

  /**
   * The setters: the twenty builder methods (`min_resolution`, `resolution`, ...,
   * `group_id_exact`) and the twenty `set_*` methods of `JSCameraConstraints`, which take
   * the same arguments.
   */
  datatype Setter =
    | SetMinResolution(min_res: Resolution) | SetResolution(new_resolution: Resolution)
    | SetMaxResolution(max_res: Resolution) | SetResolutionExact(res_exact: bool)
    | SetMinAspectRatio(min_ratio: real) | SetAspectRatio(new_ratio: real)
    | SetMaxAspectRatio(max_ratio: real) | SetAspectRatioExact(ratio_exact: bool)
    | SetFacingMode(new_facing: FacingMode) | SetFacingModeExact(facing_exact: bool)
    | SetMinFrameRate(min_fps: Numeric.u32) | SetFrameRate(new_fps: Numeric.u32)
    | SetMaxFrameRate(max_fps: Numeric.u32) | SetFrameRateExact(fps_exact: bool)
    | SetResizeMode(new_resize: ResizeMode) | SetResizeModeExact(resize_exact: bool)
    | SetDeviceId(new_device: string) | SetDeviceIdExact(device_exact: bool)
    | SetGroupId(new_group: string) | SetGroupIdExact(group_exact: bool)

  /** The field a setter is named after. */
  function Target(s: Setter): Field
  {
    match s
    case SetMinResolution(_) => MinResolutionField
    case SetResolution(_) => PreferredResolutionField
    case SetMaxResolution(_) => MaxResolutionField
    case SetResolutionExact(_) => ResolutionExactField
    case SetMinAspectRatio(_) => MinAspectRatioField
    case SetAspectRatio(_) => AspectRatioField
    case SetMaxAspectRatio(_) => MaxAspectRatioField
    case SetAspectRatioExact(_) => AspectRatioExactField
    case SetFacingMode(_) => FacingModeField
    case SetFacingModeExact(_) => FacingModeExactField
    case SetMinFrameRate(_) => MinFrameRateField
    case SetFrameRate(_) => FrameRateField
    case SetMaxFrameRate(_) => MaxFrameRateField
    case SetFrameRateExact(_) => FrameRateExactField
    case SetResizeMode(_) => ResizeModeField
    case SetResizeModeExact(_) => ResizeModeExactField
    case SetDeviceId(_) => DeviceIdField
    case SetDeviceIdExact(_) => DeviceIdExactField
    case SetGroupId(_) => GroupIdField
    case SetGroupIdExact(_) => GroupIdExactField
  }

  /** The value a setter means to store: minimums and maximums are stored as present. */
  function Stored(s: Setter): FieldValue
  {
    match s
    case SetMinResolution(r) => OptResolution(Some(r))
    case SetResolution(r) => ResolutionValue(r)
    case SetMaxResolution(r) => OptResolution(Some(r))
    case SetResolutionExact(v) => FlagValue(v)
    case SetMinAspectRatio(x) => OptRatio(Some(x))
    case SetAspectRatio(x) => RatioValue(x)
    case SetMaxAspectRatio(x) => OptRatio(Some(x))
    case SetAspectRatioExact(v) => FlagValue(v)
    case SetFacingMode(m) => FacingValue(m)
    case SetFacingModeExact(v) => FlagValue(v)
    case SetMinFrameRate(n) => OptRate(Some(n))
    case SetFrameRate(n) => RateValue(n)
    case SetMaxFrameRate(n) => OptRate(Some(n))
    case SetFrameRateExact(v) => FlagValue(v)
    case SetResizeMode(m) => ResizeValue(m)
    case SetResizeModeExact(v) => FlagValue(v)
    case SetDeviceId(t) => TextValue(t)
    case SetDeviceIdExact(v) => FlagValue(v)
    case SetGroupId(t) => TextValue(t)
    case SetGroupIdExact(v) => FlagValue(v)
  }

  /**
   * A setter applied to settings: each field is assigned by its own setter, as the
   * constraints' `set_*` methods do (and as the builder's setters are meant to).
   */
  function Apply(b: Settings, s: Setter): (r: Settings)
  {
    match s
    case SetMinResolution(x) => b.(min_resolution := Some(x))
    case SetResolution(x) => b.(preferred_resolution := x)
    case SetMaxResolution(x) => b.(max_resolution := Some(x))
    case SetResolutionExact(v) => b.(resolution_exact := v)
    case SetMinAspectRatio(x) => b.(min_aspect_ratio := Some(x))
    case SetAspectRatio(x) => b.(aspect_ratio := x)
    case SetMaxAspectRatio(x) => b.(max_aspect_ratio := Some(x))
    case SetAspectRatioExact(v) => b.(aspect_ratio_exact := v)
    case SetFacingMode(m) => b.(facing_mode := m)
    case SetFacingModeExact(v) => b.(facing_mode_exact := v)
    case SetMinFrameRate(n) => b.(min_frame_rate := Some(n))
    case SetFrameRate(n) => b.(frame_rate := n)
    case SetMaxFrameRate(n) => b.(max_frame_rate := Some(n))
    case SetFrameRateExact(v) => b.(frame_rate_exact := v)
    case SetResizeMode(m) => b.(resize_mode := m)
    case SetResizeModeExact(v) => b.(resize_mode_exact := v)
    case SetDeviceId(t) => b.(device_id := t)
    case SetDeviceIdExact(v) => b.(device_id_exact := v)
    case SetGroupId(t) => b.(group_id := t)
    case SetGroupIdExact(v) => b.(group_id_exact := v)
  }

  /** Every setter stores its value in its own field and leaves the other nineteen alone. */
  lemma ApplyStoresTarget(b: Settings, s: Setter)
    ensures Get(Apply(b, s), Target(s)) == Stored(s)
    ensures forall f: Field :: f != Target(s) ==> Get(Apply(b, s), f) == Get(b, f)
  {
    if s.SetMinResolution? || s.SetResolution? || s.SetMaxResolution? || s.SetResolutionExact? {
      ApplyStoresResolution(b, s);
    } else if s.SetMinAspectRatio? || s.SetAspectRatio? || s.SetMaxAspectRatio? || s.SetAspectRatioExact? {
      ApplyStoresAspectRatio(b, s);
    } else if s.SetFacingMode? || s.SetFacingModeExact? || s.SetMinFrameRate? || s.SetFrameRate? || s.SetMaxFrameRate? || s.SetFrameRateExact? {
      ApplyStoresFacingOrRate(b, s);
    } else {
      ApplyStoresResizeOrId(b, s);
    }
  }

  /** `ApplyStoresTarget` for the resolution setters. */
  lemma ApplyStoresResolution(b: Settings, s: Setter)
    requires s.SetMinResolution? || s.SetResolution? || s.SetMaxResolution? || s.SetResolutionExact?
    ensures Get(Apply(b, s), Target(s)) == Stored(s)
    ensures forall f: Field :: f != Target(s) ==> Get(Apply(b, s), f) == Get(b, f)
  {
  }

  /** `ApplyStoresTarget` for the aspect-ratio setters. */
  lemma ApplyStoresAspectRatio(b: Settings, s: Setter)
    requires s.SetMinAspectRatio? || s.SetAspectRatio? || s.SetMaxAspectRatio? || s.SetAspectRatioExact?
    ensures Get(Apply(b, s), Target(s)) == Stored(s)
    ensures forall f: Field :: f != Target(s) ==> Get(Apply(b, s), f) == Get(b, f)
  {
  }

  /** `ApplyStoresTarget` for the facing-mode and frame-rate setters. */
  lemma ApplyStoresFacingOrRate(b: Settings, s: Setter)
    requires s.SetFacingMode? || s.SetFacingModeExact? || s.SetMinFrameRate? || s.SetFrameRate? || s.SetMaxFrameRate? || s.SetFrameRateExact?
    ensures Get(Apply(b, s), Target(s)) == Stored(s)
    ensures forall f: Field :: f != Target(s) ==> Get(Apply(b, s), f) == Get(b, f)
  {
  }

  /** `ApplyStoresTarget` for the resize-mode and identifier setters. */
  lemma ApplyStoresResizeOrId(b: Settings, s: Setter)
    requires s.SetResizeMode? || s.SetResizeModeExact? || s.SetDeviceId? || s.SetDeviceIdExact? || s.SetGroupId? || s.SetGroupIdExact?
    ensures Get(Apply(b, s), Target(s)) == Stored(s)
    ensures forall f: Field :: f != Target(s) ==> Get(Apply(b, s), f) == Get(b, f)
  {
  }

  /** Applying the same setter twice is applying it once. */
  lemma ApplyIdempotent(b: Settings, s: Setter)
    ensures Apply(Apply(b, s), s) == Apply(b, s)
  {
    ApplyStoresTarget(b, s);
    ApplyStoresTarget(Apply(b, s), s);
    forall f: Field
      ensures Get(Apply(Apply(b, s), s), f) == Get(Apply(b, s), f)
    {
    }
    GetDetermines(Apply(Apply(b, s), s), Apply(b, s));
  }

  /**
   * The builder setters as written: `max_resolution` assigns its argument to the minimum
   * resolution; every other setter is the one of `Apply`.
   */
  function ApplyAsWritten(b: Settings, s: Setter): (r: Settings)
    ensures !s.SetMaxResolution? ==> r == Apply(b, s)
  {
    if s.SetMaxResolution? then b.(min_resolution := Some(s.max_res)) else Apply(b, s)
  }

  /**
   * As written, the builder's `max_resolution` leaves the maximum resolution as it was and
   * overwrites the minimum instead, so the default builder given a 4K maximum still asks for
   * at most 1920x1080 and now at least 3840x2160.
   */
  lemma MaxResolutionAsWrittenSetsMinimum(b: Settings, res: Resolution)
    ensures Get(ApplyAsWritten(b, SetMaxResolution(res)), MaxResolutionField) == Get(b, MaxResolutionField)
    ensures Get(ApplyAsWritten(b, SetMaxResolution(res)), MinResolutionField) == OptResolution(Some(res))
    ensures b == DEFAULT_SETTINGS && res == CoreTypes.Resolution(3840, 2160) ==>
      Get(ApplyAsWritten(b, SetMaxResolution(res)), MaxResolutionField) != Stored(SetMaxResolution(res))
  {
  }

  // ---------------------------------------------------------------------------------------
  // The constraint fragments of `build`
  // ---------------------------------------------------------------------------------------

  /**
   * What one entry of the constraint dictionary asks for: nothing, an exact value, an ideal
   * value, or a range with an optional minimum, an ideal and an optional maximum. Values are
   * already in their text form.
   */
  datatype Constraint =
    | Unset
    | Exact(value: string)
    | Ideal(value: string)
    | Range(min: Option<string>, ideal: string, max: Option<string>)

  /**
   * The body of a range entry as `build` writes it: each present bound followed by a comma,
   * then the last character (a comma) removed.
   */
  function RangeBody(min: Option<string>, ideal: string, max: Option<string>): string
  {
    var min_string := if min.Some? then "min: " + min.value + "," else "";
    var ideal_string := "ideal: " + ideal + ",";
    var max_string := if max.Some? then "max: " + max.value + "," else "";
    var total := min_string + ideal_string + max_string;
    total[..|total| - 1]
  }

  /** The bounds a range lists, in order: minimum if present, ideal, maximum if present. */
  function Bounds(min: Option<string>, ideal: string, max: Option<string>): (r: seq<string>)
    ensures 1 <= |r| <= 3
  {
    (if min.Some? then ["min: " + min.value] else []) + ["ideal: " + ideal]
    + (if max.Some? then ["max: " + max.value] else [])
  }

  /** Strings joined by commas, without a trailing one. */
  function JoinCommas(parts: seq<string>): string
  {
    if |parts| == 0 then "" else if |parts| == 1 then parts[0] else parts[0] + "," + JoinCommas(parts[1..])
  }

  /** A range entry lists its present bounds in order, separated by commas, with none trailing. */
  lemma RangeBodyJoinsBounds(min: Option<string>, ideal: string, max: Option<string>)
    ensures RangeBody(min, ideal, max) == JoinCommas(Bounds(min, ideal, max))
  {
    if min.Some? {
      RangeBodyWithMinimum(min.value, ideal, max);
    } else {
      RangeBodyWithoutMinimum(ideal, max);
    }
  }

  /** `RangeBodyJoinsBounds` for a range with a minimum. */
  lemma RangeBodyWithMinimum(min: string, ideal: string, max: Option<string>)
    ensures RangeBody(Some(min), ideal, max) == JoinCommas(Bounds(Some(min), ideal, max))
  {
    var i := "ideal: " + ideal;
    var m := "min: " + min;
    var x := if max.Some? then "max: " + max.value else "";
    var joined: string;
    if max.Some? {
      assert Bounds(Some(min), ideal, max) == [m, i, x];
      assert Bounds(Some(min), ideal, max)[1..] == [i, x];
      assert [i, x][1..] == [x];
      assert JoinCommas([i, x]) == i + "," + x;
      assert JoinCommas([m, i, x]) == m + "," + (i + "," + x);
      joined := m + "," + i + "," + x;
    } else {
      assert Bounds(Some(min), ideal, max) == [m, i];
      assert Bounds(Some(min), ideal, max)[1..] == [i];
      assert JoinCommas([m, i]) == m + "," + i;
      joined := m + "," + i;
    }
    assert JoinCommas(Bounds(Some(min), ideal, max)) == joined;
    var max_string := if max.Some? then "max: " + max.value + "," else "";
    assert "min: " + min + "," + ("ideal: " + ideal + ",") + max_string == joined + ",";
    assert (joined + ",")[..|joined + ","| - 1] == joined;
  }

  /** `RangeBodyJoinsBounds` for a range without a minimum. */
  lemma RangeBodyWithoutMinimum(ideal: string, max: Option<string>)
    ensures RangeBody(None, ideal, max) == JoinCommas(Bounds(None, ideal, max))
  {
    var i := "ideal: " + ideal;
    var x := if max.Some? then "max: " + max.value else "";
    var joined: string;
    if max.Some? {
      assert Bounds(None, ideal, max) == [i, x];
      assert Bounds(None, ideal, max)[1..] == [x];
      assert JoinCommas([i, x]) == i + "," + x;
      joined := i + "," + x;
    } else {
      assert Bounds(None, ideal, max) == [i];
      joined := i;
    }
    assert JoinCommas(Bounds(None, ideal, max)) == joined;
    var max_string := if max.Some? then "max: " + max.value + "," else "";
    assert "" + ("ideal: " + ideal + ",") + max_string == joined + ",";
    assert (joined + ",")[..|joined + ","| - 1] == joined;
  }

  /** The fragment of one entry: `name: { exact: v }`, `name: { ideal: v }`, a range, or "". */
  function Render(name: string, c: Constraint): (r: string)
    ensures name != "" ==> (r == "" <==> c.Unset?)
  {
    match c
    case Unset => ""
    case Exact(v) => name + ": { exact: " + v + " }"
    case Ideal(v) => name + ": { ideal: " + v + " }"
    case Range(mn, i, mx) => name + ": { " + RangeBody(mn, i, mx) + " }"
  }

  /** `s` is the decimal text of `n`. */
  predicate Denotes(s: string, n: nat)
  {
    Numeric.AllDigits(s) && Numeric.DecimalValue(s) == n
  }

  /** The decimal text of an optional whole number. */
  function OptText(n: Option<nat>): (r: Option<string>)
    ensures r.Some? <==> n.Some?
  {
    if n.Some? then Some(Numeric.NatToString(n.value)) else None
  }

  /** The widths of an optional resolution. */
  function OptWidth(r: Option<Resolution>): Option<nat>
  {
    if r.Some? then Some(r.value.width_x) else None
  }

  /** The heights of an optional resolution. */
  function OptHeight(r: Option<Resolution>): Option<nat>
  {
    if r.Some? then Some(r.value.height_y) else None
  }

  /**
   * The width entry: with `resolution_exact`, the preferred width exactly, or nothing when
   * the preferred resolution is the zero default; otherwise the range from the minimum and
   * maximum resolutions around the preferred one.
   */
  function WidthConstraint(b: Settings): (c: Constraint)
    ensures c.Range? <==> !b.resolution_exact
    ensures c.Unset? <==> b.resolution_exact && b.preferred_resolution == CoreTypes.DEFAULT_RESOLUTION
    ensures c.Range? ==> (c.min.Some? <==> b.min_resolution.Some?) && (c.max.Some? <==> b.max_resolution.Some?)
    ensures c.Exact? || c.Range? ==> Denotes(if c.Exact? then c.value else c.ideal, b.preferred_resolution.width_x)
  {
    Numeric.NatToStringDigits(b.preferred_resolution.width_x);
    if b.resolution_exact then
      if b.preferred_resolution == CoreTypes.DEFAULT_RESOLUTION then Unset
      else Exact(Numeric.NatToString(b.preferred_resolution.width_x))
    else
      Range(OptText(OptWidth(b.min_resolution)), Numeric.NatToString(b.preferred_resolution.width_x),
            OptText(OptWidth(b.max_resolution)))
  }

  /**
   * The height entry as written, the one `build` renders: its exact form is chosen by
   * `aspect_ratio_exact`, not by `resolution_exact`.
   */
  function HeightConstraintAsWritten(b: Settings): (c: Constraint)
    ensures c.Range? <==> !b.aspect_ratio_exact
    ensures c.Unset? <==> b.aspect_ratio_exact && b.preferred_resolution == CoreTypes.DEFAULT_RESOLUTION
    ensures c.Range? ==> (c.min.Some? <==> b.min_resolution.Some?) && (c.max.Some? <==> b.max_resolution.Some?)
    ensures c.Exact? || c.Range? ==> Denotes(if c.Exact? then c.value else c.ideal, b.preferred_resolution.height_y)
  {
    Numeric.NatToStringDigits(b.preferred_resolution.height_y);
    if b.aspect_ratio_exact then
      if b.preferred_resolution == CoreTypes.DEFAULT_RESOLUTION then Unset
      else Exact(Numeric.NatToString(b.preferred_resolution.height_y))
    else
      Range(OptText(OptHeight(b.min_resolution)), Numeric.NatToString(b.preferred_resolution.height_y),
            OptText(OptHeight(b.max_resolution)))
  }

  /**
   * As written, asking for an exact resolution makes the width exact but leaves the height a
   * range (and an exact aspect ratio makes the height exact): the default builder with
   * `resolution_exact(true)` asks for exactly 640 wide but anything from 234 to 1080 high.
   */
  lemma HeightAsWrittenIgnoresResolutionExact()
    ensures var b := DEFAULT_SETTINGS.(resolution_exact := true);
      WidthConstraint(b).Exact? && HeightConstraintAsWritten(b).Range?
  {
  }

  /** The height entry as evidently intended, chosen by `resolution_exact` like the width entry. */
  function HeightConstraint(b: Settings): (c: Constraint)
    ensures c.Range? <==> !b.resolution_exact
    ensures c.Unset? <==> b.resolution_exact && b.preferred_resolution == CoreTypes.DEFAULT_RESOLUTION
    ensures c.Range? ==> (c.min.Some? <==> b.min_resolution.Some?) && (c.max.Some? <==> b.max_resolution.Some?)
    ensures c.Exact? || c.Range? ==> Denotes(if c.Exact? then c.value else c.ideal, b.preferred_resolution.height_y)
  {
    Numeric.NatToStringDigits(b.preferred_resolution.height_y);
    if b.resolution_exact then
      if b.preferred_resolution == CoreTypes.DEFAULT_RESOLUTION then Unset
      else Exact(Numeric.NatToString(b.preferred_resolution.height_y))
    else
      Range(OptText(OptHeight(b.min_resolution)), Numeric.NatToString(b.preferred_resolution.height_y),
            OptText(OptHeight(b.max_resolution)))
  }

  /** Width and height ask for the same kind of constraint. */
  lemma WidthHeightAgree(b: Settings)
    ensures WidthConstraint(b).Exact? <==> HeightConstraint(b).Exact?
    ensures WidthConstraint(b).Range? <==> HeightConstraint(b).Range?
    ensures WidthConstraint(b).Unset? <==> HeightConstraint(b).Unset?
  {
  }

  /**
   * The aspect-ratio entry; `fmt` is the decimal text of a 64-bit float. With
   * `aspect_ratio_exact`, the ratio exactly, or nothing when it is zero; otherwise a range.
   */
  function AspectRatioConstraint(b: Settings, fmt: real -> string): (c: Constraint)
    ensures c.Range? <==> !b.aspect_ratio_exact
    ensures c.Unset? <==> b.aspect_ratio_exact && b.aspect_ratio == 0.0
    ensures c.Exact? ==> c.value == fmt(b.aspect_ratio)
    ensures c.Range? ==> c == Range(if b.min_aspect_ratio.Some? then Some(fmt(b.min_aspect_ratio.value)) else None,
      fmt(b.aspect_ratio), if b.max_aspect_ratio.Some? then Some(fmt(b.max_aspect_ratio.value)) else None)
  {
    if b.aspect_ratio_exact then
      if b.aspect_ratio == 0.0 then Unset else Exact(fmt(b.aspect_ratio))
    else
      var mn := if b.min_aspect_ratio.Some? then Some(fmt(b.min_aspect_ratio.value)) else None;
      var mx := if b.max_aspect_ratio.Some? then Some(fmt(b.max_aspect_ratio.value)) else None;
      Range(mn, fmt(b.aspect_ratio), mx)
  }

  /**
   * The facing-mode entry: nothing for `Any` whatever the exact flag, otherwise the mode's
   * text, exact or ideal as the flag says.
   */
  function FacingConstraint(b: Settings): (c: Constraint)
    ensures c.Unset? <==> b.facing_mode == AnyFacing
    ensures !c.Unset? ==> (c.Exact? <==> b.facing_mode_exact) && (c.Ideal? <==> !b.facing_mode_exact)
    ensures !c.Unset? ==> c.value == FacingText(b.facing_mode)
  {
    if b.facing_mode_exact then
      if b.facing_mode == AnyFacing then Unset else Exact(FacingText(b.facing_mode))
    else if b.facing_mode == AnyFacing then Unset
    else Ideal(FacingText(b.facing_mode))
  }

  /**
   * The frame-rate entry: with `frame_rate_exact`, the rate exactly, or nothing when it is
   * zero; otherwise the range from the minimum and maximum around the preferred rate.
   */
  function FrameRateConstraint(b: Settings): (c: Constraint)
    ensures c.Range? <==> !b.frame_rate_exact
    ensures c.Unset? <==> b.frame_rate_exact && b.frame_rate == 0
    ensures c.Range? ==> (c.min.Some? <==> b.min_frame_rate.Some?) && (c.max.Some? <==> b.max_frame_rate.Some?)
    ensures c.Exact? || c.Range? ==> Denotes(if c.Exact? then c.value else c.ideal, b.frame_rate)
  {
    Numeric.NatToStringDigits(b.frame_rate);
    if b.frame_rate_exact then
      if b.frame_rate == 0 then Unset else Exact(Numeric.NatToString(b.frame_rate))
    else
      var mn := if b.min_frame_rate.Some? then Some(b.min_frame_rate.value as nat) else None;
      var mx := if b.max_frame_rate.Some? then Some(b.max_frame_rate.value as nat) else None;
      Range(OptText(mn), Numeric.NatToString(b.frame_rate), OptText(mx))
  }

  /** The resize-mode entry: nothing for `Any`, otherwise the mode's text, exact or ideal. */
  function ResizeConstraint(b: Settings): (c: Constraint)
    ensures c.Unset? <==> b.resize_mode == AnyResize
    ensures !c.Unset? ==> (c.Exact? <==> b.resize_mode_exact) && (c.Ideal? <==> !b.resize_mode_exact)
    ensures !c.Unset? ==> c.value == ResizeText(b.resize_mode)
  {
    if b.resize_mode_exact then
      if b.resize_mode == AnyResize then Unset else Exact(ResizeText(b.resize_mode))
    else if b.resize_mode == AnyResize then Unset
    else Ideal(ResizeText(b.resize_mode))
  }

  /** An id entry: nothing for the empty id, otherwise the id, exact or ideal as the flag says. */
  function IdConstraint(id: string, exact: bool): (c: Constraint)
    ensures c.Unset? <==> id == ""
    ensures !c.Unset? ==> (c.Exact? || c.Ideal?) && c.value == id && (c.Exact? <==> exact)
  {
    if exact then
      if id == "" then Unset else Exact(id)
    else if id == "" then Unset
    else Ideal(id)
  }

  /** The eight entries of the video constraints, named, in the order `build` lists them. */
  function Entries(b: Settings, fmt: real -> string): (es: seq<(string, Constraint)>)
    ensures |es| == 8
  {
    [("width", WidthConstraint(b)),
     ("height", HeightConstraintAsWritten(b)),
     ("aspectRatio", AspectRatioConstraint(b, fmt)),
     ("facingMode", FacingConstraint(b)),
     ("frameRate", FrameRateConstraint(b)),
     ("resizeMode", ResizeConstraint(b)),
     ("deviceId", IdConstraint(b.device_id, b.device_id_exact)),
     ("groupId", IdConstraint(b.group_id, b.group_id_exact))]
  }

  /** The fragments of the entries, in the same order. */
  function Fragments(b: Settings, fmt: real -> string): (fs: seq<string>)
    ensures |fs| == 8
    ensures forall k :: 0 <= k < 8 ==> (fs[k] == "" <==> Entries(b, fmt)[k].1.Unset?)
  {
    var es := Entries(b, fmt);
    seq(8, k requires 0 <= k < 8 => Render(es[k].0, es[k].1))
  }

  /**
   * The default builder asks for ranges of width, height, aspect ratio and frame rate with
   * both bounds, and leaves facing mode, resize mode, device and group unconstrained.
   */
  lemma DefaultEntries(fmt: real -> string)
    ensures var es := Entries(DEFAULT_SETTINGS, fmt);
      (forall k :: 0 <= k < 3 || k == 4 ==> es[k].1.Range? && es[k].1.min.Some? && es[k].1.max.Some?)
      && (forall k :: k == 3 || 5 <= k < 8 ==> es[k].1.Unset?)
  {
    RangeEntries(DEFAULT_SETTINGS, fmt);
  }

  /**
   * Builders that ask for no exact value, give both bounds of every range, and leave the
   * facing mode, resize mode, device and group unset have the entries of the default.
   */
  lemma RangeEntries(b: Settings, fmt: real -> string)
    requires !b.resolution_exact && !b.aspect_ratio_exact && !b.frame_rate_exact
    requires b.min_resolution.Some? && b.max_resolution.Some? && b.min_aspect_ratio.Some? && b.max_aspect_ratio.Some?
    requires b.min_frame_rate.Some? && b.max_frame_rate.Some?
    requires b.facing_mode == AnyFacing && b.resize_mode == AnyResize && b.device_id == "" && b.group_id == ""
    ensures var es := Entries(b, fmt);
      (forall k :: 0 <= k < 3 || k == 4 ==> es[k].1.Range? && es[k].1.min.Some? && es[k].1.max.Some?)
      && (forall k :: k == 3 || 5 <= k < 8 ==> es[k].1.Unset?)
  {
    var es := Entries(b, fmt);
    assert es[2].1 == AspectRatioConstraint(b, fmt);
  }

  // ---------------------------------------------------------------------------------------
  // Sorting, deduplicating and condensing the fragments
  // ---------------------------------------------------------------------------------------

  /** The order of `String`: lexicographic on characters, a prefix before its extensions. */
  predicate LexLe(a: string, b: string)
    decreases |a|
  {
    |a| == 0 || (|b| > 0 && (a[0] < b[0] || (a[0] == b[0] && LexLe(a[1..], b[1..]))))
  }

  lemma {:induction false} LexLeTotal(a: string, b: string)
    ensures LexLe(a, b) || LexLe(b, a)
    decreases |a|
  {
    if |a| > 0 && |b| > 0 && a[0] == b[0] {
      LexLeTotal(a[1..], b[1..]);
    }
  }

  lemma {:induction false} LexLeAntisymmetric(a: string, b: string)
    requires LexLe(a, b) && LexLe(b, a)
    ensures a == b
    decreases |a|
  {
    if |a| > 0 {
      LexLeAntisymmetric(a[1..], b[1..]);
      assert a == [a[0]] + a[1..] && b == [b[0]] + b[1..];
    }
  }

  lemma {:induction false} LexLeTransitive(a: string, b: string, c: string)
    requires LexLe(a, b) && LexLe(b, c)
    ensures LexLe(a, c)
    decreases |a|
  {
    if |a| > 0 && a[0] == b[0] && b[0] == c[0] {
      LexLeTransitive(a[1..], b[1..], c[1..]);
    }
  }

  /** Each fragment is no greater than the next. */
  predicate Sorted(s: seq<string>)
  {
    forall i :: 0 <= i < |s| - 1 ==> LexLe(s[i], s[i + 1])
  }

  /** `x` placed into `s` before the first element it does not exceed. */
  function Insert(x: string, s: seq<string>): (r: seq<string>)
    ensures |r| == |s| + 1
    ensures r[0] == x || (|s| > 0 && r[0] == s[0])
    decreases |s|
  {
    if |s| == 0 then [x]
    else if LexLe(x, s[0]) then [x] + s
    else [s[0]] + Insert(x, s[1..])
  }

  /** Inserting into a sorted sequence keeps it sorted and adds exactly the one element. */
  lemma InsertSorted(x: string, s: seq<string>)
    requires Sorted(s)
    ensures Sorted(Insert(x, s)) && multiset(Insert(x, s)) == multiset(s) + multiset{x}
  {
    InsertKeepsSorted(x, s);
    InsertAddsOne(x, s);
  }

  lemma {:induction false} InsertKeepsSorted(x: string, s: seq<string>)
    requires Sorted(s)
    ensures Sorted(Insert(x, s))
    decreases |s|
  {
    if |s| == 0 {
    } else if LexLe(x, s[0]) {
      SortedCons(x, s);
    } else {
      SortedTail(s);
      LexLeTotal(x, s[0]);
      InsertKeepsSorted(x, s[1..]);
      var rest := Insert(x, s[1..]);
      assert LexLe(s[0], rest[0]) by {
        if |s| > 1 { assert LexLe(s[0], s[1]); }
      }
      SortedCons(s[0], rest);
    }
  }

  lemma {:induction false} InsertAddsOne(x: string, s: seq<string>)
    ensures multiset(Insert(x, s)) == multiset(s) + multiset{x}
    decreases |s|
  {
    if |s| > 0 && !LexLe(x, s[0]) {
      InsertAddsOne(x, s[1..]);
      var rest := Insert(x, s[1..]);
      assert multiset([s[0]] + rest) == multiset{s[0]} + multiset(rest);
      assert s == [s[0]] + s[1..];
      assert multiset(s) == multiset{s[0]} + multiset(s[1..]);
    }
  }

  /** A sorted sequence without its first element is sorted. */
  lemma SortedTail(s: seq<string>)
    requires Sorted(s) && |s| > 0
    ensures Sorted(s[1..])
  {
    forall i | 0 <= i < |s[1..]| - 1 ensures LexLe(s[1..][i], s[1..][i + 1]) {
      assert s[1..][i] == s[i + 1] && s[1..][i + 1] == s[i + 2];
    }
  }

  /** An element no greater than the head of a sorted sequence can go in front of it. */
  lemma SortedCons(x: string, s: seq<string>)
    requires Sorted(s) && (|s| > 0 ==> LexLe(x, s[0]))
    ensures Sorted([x] + s)
  {
    var r := [x] + s;
    forall i | 0 <= i < |r| - 1 ensures LexLe(r[i], r[i + 1]) {
      if i > 0 {
        assert r[i] == s[i - 1] && r[i + 1] == s[i];
      }
    }
  }

  /** The fragments in ascending order (`Vec::sort`; the sorted order of strings is unique). */
  function Sort(xs: seq<string>): (r: seq<string>)
    ensures Sorted(r) && multiset(r) == multiset(xs)
    decreases |xs|
  {
    if |xs| == 0 then []
    else
      assert xs == [xs[0]] + xs[1..];
      InsertSorted(xs[0], Sort(xs[1..]));
      Insert(xs[0], Sort(xs[1..]))
  }

  /** Consecutive equal fragments collapsed into one (`Vec::dedup`). */
  function Dedup(xs: seq<string>): (r: seq<string>)
    ensures forall x :: x in r ==> x in xs
    ensures forall x :: x in xs ==> x in r
    ensures |xs| > 0 ==> |r| > 0 && r[0] == xs[0]
    ensures forall i :: 0 <= i < |r| - 1 ==> r[i] != r[i + 1]
    ensures Sorted(xs) ==> Sorted(r)
    decreases |xs|
  {
    if |xs| <= 1 then xs
    else
      var rest := Dedup(xs[1..]);
      assert Sorted(xs) ==> Sorted(xs[1..]) by {
        if Sorted(xs) {
          SortedTail(xs);
        }
      }
      assert forall x :: x in xs ==> x == xs[0] || x in xs[1..];
      if xs[0] == xs[1] then rest else [xs[0]] + rest
  }

  /** In a sorted sequence, every element is no greater than every later one. */
  lemma {:induction false} SortedChain(s: seq<string>, i: int, j: int)
    requires Sorted(s) && 0 <= i <= j < |s|
    ensures LexLe(s[i], s[j])
    decreases j - i
  {
    if i == j {
      LexLeTotal(s[i], s[i]);
    } else {
      SortedChain(s, i + 1, j);
      LexLeTransitive(s[i], s[i + 1], s[j]);
    }
  }

  /** Sorting then deduplicating leaves every fragment exactly once. */
  lemma SortedDedupDistinct(xs: seq<string>)
    ensures var r := Dedup(Sort(xs));
      Sorted(r) && forall i, j :: 0 <= i < j < |r| ==> r[i] != r[j]
  {
    var r := Dedup(Sort(xs));
    forall i, j | 0 <= i < j < |r| ensures r[i] != r[j] {
      if r[i] == r[j] {
        SortedChain(r, i + 1, j);
        LexLeTotal(r[i], r[i + 1]);
        SortedChain(r, i, i + 1);
        LexLeAntisymmetric(r[i], r[i + 1]);
        assert false;
      }
    }
  }

  /** The piece a fragment contributes: "," + fragment + "\n", or nothing for "". */
  function Piece(a: string): (p: string)
    ensures p == "" <==> a == ""
  {
    if a != "" then "," + a + "\n" else ""
  }

  /** The pieces of the fragments, in order. */
  function Condensed(args: seq<string>): string
    decreases |args|
  {
    if |args| == 0 then "" else Condensed(args[..|args| - 1]) + Piece(args[|args| - 1])
  }

  /** The pieces are empty exactly when every fragment is, and otherwise start with a comma. */
  lemma {:induction false} CondensedEmpty(args: seq<string>)
    ensures Condensed(args) == "" <==> forall k :: 0 <= k < |args| ==> args[k] == ""
    ensures Condensed(args) != "" ==> Condensed(args)[0] == ','
    decreases |args|
  {
    if |args| > 0 {
      var init := args[..|args| - 1];
      CondensedEmpty(init);
      assert forall k :: 0 <= k < |init| ==> init[k] == args[k];
      if Condensed(init) != "" {
        assert Condensed(args)[0] == Condensed(init)[0];
      }
    }
  }

  /** The text of the constraint entries: the condensed fragments, or "true" when none remain. */
  function ArgumentsOf(fragments: seq<string>): string
  {
    var c := Condensed(Dedup(Sort(fragments)));
    if c == "" then "true" else c
  }

  /** The entries' text is "true" exactly when every fragment is empty. */
  lemma ArgumentsTrueIffAllEmpty(fragments: seq<string>)
    ensures ArgumentsOf(fragments) == "true" <==> forall k :: 0 <= k < |fragments| ==> fragments[k] == ""
  {
    var args := Dedup(Sort(fragments));
    CondensedEmpty(args);
    if forall k :: 0 <= k < |fragments| ==> fragments[k] == "" {
      forall k | 0 <= k < |args| ensures args[k] == "" {
        assert args[k] in Sort(fragments);
        assert args[k] in multiset(fragments);
      }
    } else {
      var k :| 0 <= k < |fragments| && fragments[k] != "";
      assert fragments[k] in multiset(Sort(fragments));
      assert fragments[k] in args;
      assert Condensed(args)[0] == ',';
    }
  }

  /** The loop of `build` that appends "," + fragment + "\n" for each non-empty fragment. */
  method Condense(arguments: seq<string>) returns (condensed: string)
    ensures condensed == Condensed(arguments)
  {
    condensed := "";
    for k := 0 to |arguments|
      invariant condensed == Condensed(arguments[..k])
    {
      assert arguments[..k + 1][..k] == arguments[..k];
      if arguments[k] != "" {
        condensed := condensed + "," + arguments[k] + "\n";
      }
    }
    assert arguments[..|arguments|] == arguments;
  }

  /**
   * The condensing loop of `build`: the fragments are sorted and deduplicated, each non-empty
   * one is appended as "," + fragment + "\n", and "true" stands for no fragment at all.
   */
  method Assemble(fragments: seq<string>) returns (text: string)
    ensures text == ArgumentsOf(fragments)
    ensures text == "true" <==> forall k :: 0 <= k < |fragments| ==> fragments[k] == ""
  {
    var arguments := Dedup(Sort(fragments));
    var condensed := Condense(arguments);
    if condensed == "" {
      condensed := "true";
    }
    text := condensed;
    ArgumentsTrueIffAllEmpty(fragments);
  }

  /** The entries' text of a builder. */
  function ArgumentsText(b: Settings, fmt: real -> string): string
  {
    ArgumentsOf(Fragments(b, fmt))
  }

  /** A builder asks for nothing (its entries' text is "true") exactly when every entry is unset. */
  lemma ArgumentsTrueIffUnconstrained(b: Settings, fmt: real -> string)
    ensures ArgumentsText(b, fmt) == "true" <==> forall k :: 0 <= k < 8 ==> Entries(b, fmt)[k].1.Unset?
  {
    ArgumentsTrueIffAllEmpty(Fragments(b, fmt));
  }

  /** The default builder constrains something: its entries' text is not "true". */
  lemma DefaultConstrains(fmt: real -> string)
    ensures ArgumentsText(DEFAULT_SETTINGS, fmt) != "true"
  {
    DefaultEntries(fmt);
    ArgumentsTrueIffUnconstrained(DEFAULT_SETTINGS, fmt);
  }

  /** The script `build` runs, with the entries' text as the video constraints. */
  const SCRIPT_HEAD: string := "\nlet constraints = {\n    audio: false,\n    video: {\n        "
  const SCRIPT_TAIL: string := "\n    }\n};\n\nreturn constraints;\n"

  /** The constraints script around an entries' text. */
  function Script(arguments: string): (s: string)
    ensures |s| == |SCRIPT_HEAD| + |arguments| + |SCRIPT_TAIL|
    ensures s[..|SCRIPT_HEAD|] == SCRIPT_HEAD && s[|SCRIPT_HEAD|..|s| - |SCRIPT_TAIL|] == arguments
  {
    var s := SCRIPT_HEAD + arguments + SCRIPT_TAIL;
    assert s[|SCRIPT_HEAD|..|s| - |SCRIPT_TAIL|] == arguments;
    s
  }

  /** The settings `build` copies into the constraints, as written: `group_id_exact` takes `device_id_exact`. */
  function BuiltSettingsAsWritten(b: Settings): Settings
  {
    b.(group_id_exact := b.device_id_exact)
  }

  /** The copy `build` evidently intends: every field from its namesake. */
  function BuiltSettings(b: Settings): (c: Settings)
  {
    Settings(b.min_resolution, b.preferred_resolution, b.max_resolution, b.resolution_exact,
             b.min_aspect_ratio, b.aspect_ratio, b.max_aspect_ratio, b.aspect_ratio_exact,
             b.facing_mode, b.facing_mode_exact,
             b.min_frame_rate, b.frame_rate, b.max_frame_rate, b.frame_rate_exact,
             b.resize_mode, b.resize_mode_exact,
             b.device_id, b.device_id_exact, b.group_id, b.group_id_exact)
  }

  /**
   * The intended copy keeps every field. The copy as written keeps every field but
   * `group_id_exact`, which holds `device_id_exact`, so it agrees with the intended one
   * exactly when those two flags already agree.
   */
  lemma BuiltSettingsKeepsEveryField(b: Settings)
    ensures forall f: Field :: Get(BuiltSettings(b), f) == Get(b, f)
    ensures BuiltSettingsAsWritten(b) == BuiltSettings(b) <==> b.group_id_exact == b.device_id_exact
    ensures forall f: Field :: f != GroupIdExactField ==> Get(BuiltSettingsAsWritten(b), f) == Get(b, f)
    ensures Get(BuiltSettingsAsWritten(b), GroupIdExactField) == Get(b, DeviceIdExactField)
  {
    if BuiltSettingsAsWritten(b) == BuiltSettings(b) {
      assert Get(BuiltSettingsAsWritten(b), GroupIdExactField) == Get(BuiltSettings(b), GroupIdExactField);
    }
  }

  /**
   * As written, the built constraints lose an exact group id whenever the device id is not
   * exact: the default builder with `group_id("g").group_id_exact(true)` builds constraints
   * whose `group_id_exact` is false.
   */
  lemma GroupIdExactAsWrittenLost()
    ensures var b := Apply(Apply(DEFAULT_SETTINGS, SetGroupId("g")), SetGroupIdExact(true));
      Get(b, GroupIdExactField) == FlagValue(true)
      && Get(BuiltSettingsAsWritten(b), GroupIdExactField) == FlagValue(false)
  {
  }

  // ---------------------------------------------------------------------------------------
  // Constraints and the browser camera
  // ---------------------------------------------------------------------------------------

  /** The structure named in the error of a failed constraints script. */
  const BUILD_STRUCTURE: string := "MediaStreamConstraintsJSBuild"

  /**
   * `JSCameraConstraints`: the builder's settings and the browser's `MediaStreamConstraints`
   * object, represented by the script that produced it.
   */
  class JSCameraConstraints {
    var media_constraints: string
    var settings: Settings

    constructor (media_constraints: string, settings: Settings)
      ensures this.media_constraints == media_constraints && this.settings == settings
    {
      this.media_constraints := media_constraints;
      this.settings := settings;
    }

    /** The `set_*` methods: one field changes, and the browser object is not rebuilt. */
    method Set(s: Setter)
      modifies this
      ensures settings == Apply(old(settings), s)
      ensures media_constraints == old(media_constraints)
    {
      settings := Apply(settings, s);
    }

    /**
     * `apply_constraints`: the constraints are rebuilt from the current settings and the
     * browser object replaced; the settings themselves do not change.
     */
    method ApplyConstraints(fmt: real -> string, call: string -> Result<Unit, string>)
      returns (r: Result<Unit, NokhwaError>)
      modifies this
      ensures settings == old(settings)
      ensures var script := Script(ArgumentsText(old(settings), fmt));
        (r.Ok? <==> call(script).Ok?)
        && (r.Ok? ==> media_constraints == script)
        && (r.Err? ==> r.error == StructureError(BUILD_STRUCTURE, call(script).error)
                       && media_constraints == old(media_constraints))
    {
      var built := Build(settings, fmt, call);
      if built.Err? {
        return Err(built.error);
      }
      media_constraints := built.value.media_constraints;
      r := Ok(Unit);
    }
  }

  /**
   * `JSCameraConstraintsBuilder::build`: the fragments are assembled into the constraints
   * script and the script is run (`call` gives its value, or the text of what it threw);
   * the built constraints hold the script and a copy of the builder's fields, in which, as
   * written, `group_id_exact` is taken from `device_id_exact`.
   */
  method Build(b: Settings, fmt: real -> string, call: string -> Result<Unit, string>)
    returns (r: Result<JSCameraConstraints, NokhwaError>)
    ensures var script := Script(ArgumentsText(b, fmt));
      (r.Ok? <==> call(script).Ok?)
      && (r.Err? ==> r.error == StructureError(BUILD_STRUCTURE, call(script).error))
      && (r.Ok? ==> fresh(r.value) && r.value.media_constraints == script
                    && r.value.settings == BuiltSettingsAsWritten(b))
  {
    var fragments := Fragments(b, fmt);
    var arguments := Assemble(fragments);
    var script := SCRIPT_HEAD + arguments + SCRIPT_TAIL;
    match call(script)
    case Err(why) =>
      r := Err(StructureError(BUILD_STRUCTURE, why));
    case Ok(_) =>
      var constraints := new JSCameraConstraints(script, BuiltSettingsAsWritten(b));
      r := Ok(constraints);
  }

  /** A DOM node the camera's `<video>` element is attached to. */
  datatype Node = Node(handle: nat)

  /** The browser's answer to `getUserMedia`. */
  datatype MediaAnswer =
    | NoMediaDevices(e: NokhwaError)  // the window or its media devices are unavailable
    | Refused(why: string)            // the request itself threw
    | Rejected(why: string)           // the returned promise was rejected
    | Granted

  /**
   * `JSCamera`: a media stream with its constraints, the node it is attached to (if any) and
   * the resolution last measured.
   */
  class JSCamera {
    var constraints: JSCameraConstraints
    var attached: bool
    var attached_node: Option<Node>
    var measured_resolution: Resolution

    /** A camera is attached exactly when it holds a node. */
    predicate Valid()
      reads this
    {
      attached <==> attached_node.Some?
    }

    constructor (constraints: JSCameraConstraints, measured_resolution: Resolution)
      ensures this.constraints == constraints && this.measured_resolution == measured_resolution
      ensures !attached && attached_node == None && Valid()
    {
      this.constraints := constraints;
      this.attached := false;
      this.attached_node := None;
      this.measured_resolution := measured_resolution;
    }

    /**
     * `JSCamera::new`: the media stream is requested with the constraints, then the
     * resolution is measured (`measure` is the `<video>` element's answer); a new camera is
     * not attached.
     */
    static method New(constraints: JSCameraConstraints, media: MediaAnswer, measure: Result<Resolution, NokhwaError>)
      returns (r: Result<JSCamera, NokhwaError>)
      ensures media.NoMediaDevices? ==> r == Err(media.e)
      ensures media.Refused? ==> r == Err(StructureError("MediaDevicesGetUserMedia", media.why))
      ensures media.Rejected? ==> r == Err(StructureError("MediaDevicesGetUserMediaJsFuture", media.why))
      ensures media.Granted? ==> (r.Ok? <==> measure.Ok?) && (r.Err? ==> r.error == measure.error)
      ensures r.Ok? ==> (fresh(r.value) && r.value.Valid() && !r.value.attached
                         && r.value.constraints == constraints && r.value.measured_resolution == measure.value)
    {
      match media
      case NoMediaDevices(e) => return Err(e);
      case Refused(why) => return Err(StructureError("MediaDevicesGetUserMedia", why));
      case Rejected(why) => return Err(StructureError("MediaDevicesGetUserMediaJsFuture", why));
      case Granted =>
      var camera := new JSCamera(constraints, CoreTypes.Resolution(0, 0));
      var measured := camera.MeasureResolution(measure);
      if measured.Err? {
        return Err(measured.error);
      }
      return Ok(camera);
    }

    /**
     * `measure_resolution`: the size of the attached `<video>` element, or of a fresh one
     * showing the stream, becomes the measured resolution; `answer` is that size or the
     * error of reaching the element.
     */
    method MeasureResolution(answer: Result<Resolution, NokhwaError>) returns (r: Result<Unit, NokhwaError>)
      modifies this
      ensures r.Ok? <==> answer.Ok?
      ensures r.Err? ==> r.error == answer.error && measured_resolution == old(measured_resolution)
      ensures r.Ok? ==> measured_resolution == answer.value
      ensures constraints == old(constraints) && attached == old(attached) && attached_node == old(attached_node)
    {
      if answer.Err? {
        return Err(answer.error);
      }
      measured_resolution := answer.value;
      r := Ok(Unit);
    }

    /**
     * `apply_constraints`: the constraints are rebuilt from their settings, then the
     * resolution is measured again; a failed rebuild changes nothing.
     */
    method ApplyConstraints(fmt: real -> string, call: string -> Result<Unit, string>, measure: Result<Resolution, NokhwaError>)
      returns (r: Result<Unit, NokhwaError>)
      modifies this, constraints
      ensures constraints == old(constraints) && constraints.settings == old(constraints.settings)
      ensures attached == old(attached) && attached_node == old(attached_node)
      ensures var script := Script(ArgumentsText(constraints.settings, fmt));
        (call(script).Err? ==> (r == Err(StructureError(BUILD_STRUCTURE, call(script).error))
                                && constraints.media_constraints == old(constraints.media_constraints)
                                && measured_resolution == old(measured_resolution)))
        && (call(script).Ok? ==> (constraints.media_constraints == script
                               && (r.Ok? <==> measure.Ok?) && (r.Err? ==> r.error == measure.error)
                               && (r.Ok? ==> measured_resolution == measure.value)))
    {
      r := constraints.ApplyConstraints(fmt, call);
      if r.Err? {
        return;
      }
      r := MeasureResolution(measure);
    }

    /**
     * `set_constraints`: the new constraints replace the current ones and are applied; when
     * applying them fails, the previous constraints are put back untouched. The new
     * constraints are moved in, so they are never the current ones.
     */
    method SetConstraints(c: JSCameraConstraints, fmt: real -> string, call: string -> Result<Unit, string>,
                          measure: Result<Resolution, NokhwaError>)
      returns (r: Result<Unit, NokhwaError>)
      requires c != constraints
      modifies this, c
      ensures attached == old(attached) && attached_node == old(attached_node)
      ensures c.settings == old(c.settings)
      ensures var script := Script(ArgumentsText(c.settings, fmt));
        (r.Ok? <==> call(script).Ok? && measure.Ok?)
        && (r.Ok? ==> constraints == c && c.media_constraints == script && measured_resolution == measure.value)
        && (r.Err? ==> constraints == old(constraints) && r.error == (if call(script).Err? then
              StructureError(BUILD_STRUCTURE, call(script).error) else measure.error))
      ensures r.Err? ==> unchanged(old(constraints))
    {
      var current := constraints;
      constraints := c;
      r := ApplyConstraints(fmt, call, measure);
      if r.Err? {
        constraints := current;
      }
    }

    /**
     * `attach`: the camera is attached to the node `answer` gives (a new `<video>` child of
     * the selected element, or the element itself), or to nothing when reaching it fails.
     */
    method Attach(answer: Result<Node, NokhwaError>) returns (r: Result<Unit, NokhwaError>)
      modifies this
      ensures r.Ok? <==> answer.Ok?
      ensures r.Err? ==> r.error == answer.error && attached == old(attached) && attached_node == old(attached_node)
      ensures r.Ok? ==> attached && attached_node == Some(answer.value)
      ensures old(Valid()) ==> Valid()
      ensures constraints == old(constraints) && measured_resolution == old(measured_resolution)
    {
      if answer.Err? {
        return Err(answer.error);
      }
      attached_node := Some(answer.value);
      attached := true;
      r := Ok(Unit);
    }

    /**
     * `detach`: nothing to do when not attached (or when no node is held); otherwise the
     * node is cast to a `<video>` element (`cast` is the outcome), its stream source cleared
     * and the camera detached.
     */
    method Detach(cast: Result<Unit, NokhwaError>) returns (r: Result<Unit, NokhwaError>)
      modifies this
      ensures !old(attached) || old(attached_node).None? ==>
        r == Ok(Unit) && attached == old(attached) && attached_node == old(attached_node)
      ensures old(attached) && old(attached_node).Some? ==>
        (r.Ok? <==> cast.Ok?)
        && (r.Err? ==> r.error == cast.error && attached && attached_node == old(attached_node))
        && (r.Ok? ==> !attached && attached_node == None)
      ensures old(Valid()) ==> Valid()
      ensures old(Valid()) && r.Ok? ==> !attached && attached_node == None
      ensures constraints == old(constraints) && measured_resolution == old(measured_resolution)
    {
      if !attached {
        return Ok(Unit);
      }
      if attached_node.None? {
        return Ok(Unit);
      }
      if cast.Err? {
        return Err(cast.error);
      }
      attached_node := None;
      attached := false;
      r := Ok(Unit);
    }

    /**
     * `min_buffer_size`: the bytes of one frame at the measured resolution, four per pixel
     * for RGBA and three for RGB. The product is a `u32`, which must not overflow.
     */
    function MinBufferSize(use_rgba: bool): (n: nat)
      reads this
      requires (measured_resolution.width_x as int) * (measured_resolution.height_y as int) * (if use_rgba then 4 else 3) < Numeric.U32_LIMIT
      ensures n % (if use_rgba then 4 else 3) == 0
      ensures n / (if use_rgba then 4 else 3) == (measured_resolution.width_x as int) * (measured_resolution.height_y as int)
    {
      var pixels := (measured_resolution.width_x as int) * (measured_resolution.height_y as int);
      if use_rgba then pixels * 4 else pixels * 3
    }
  }
}
