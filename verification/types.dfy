/**
 * The value types shared by every part of the library: the frame formats, the capture
 * backends, the camera index, resolutions and camera formats, and the error enum the
 * core functions report.
 */
module CoreTypes {
  import opened Wrappers
  import opened Numeric

  /** The pixel layouts a camera can deliver; `Custom` carries a 128-bit platform code. */
  datatype FrameFormat =
    | H265 | H264 | H263 | Avc1 | Mpeg1 | Mpeg2 | Mpeg4 | MJpeg | XVid | VP8 | VP9
    | Yuv422 | Uyv422
    | Nv12 | Nv21 | Yv12
    | Luma8
    | Rgb8 | RgbA8
    | Custom(code: u128)

  /** The capture APIs; `Custom` names a user-supplied backend. */
  datatype ApiBackend =
    | Custom(name: string)
    | AVFoundation | Video4Linux | UniversalVideoClass | MediaFoundation | OpenCv | GStreamer | Browser

  /** The error values the core functions construct. */
  datatype NokhwaError =
    | GeneralError(message: string)
    | StructureError(structure: string, error: string)
    | GetPropertyError(property: string, error: string)
    | SetPropertyError(property: string, value: string, error: string)
    | ProcessFrameError(src: FrameFormat, destination: string, error: string)
    | NotImplementedError(message: string)
    | ConversionError(message: string)

  /** A camera is addressed either by a number or by a string such as a device path or URL. */
  datatype CameraIndex = Index(index: u32) | String(s: string)

  /** `CameraIndex::default()`. */
  const DEFAULT_CAMERA_INDEX: CameraIndex := Index(0)

  /**
   * `as_index`: a numeric index is returned as is; a string index is parsed as a u32, and a
   * parse failure becomes a `GeneralError` carrying the parser's message.
   */
  function AsIndex(ci: CameraIndex): (r: Result<u32, NokhwaError>)
    ensures ci.Index? ==> r == Ok(ci.index)
    ensures ci.String? ==> (r.Ok? <==>
      (var ds := UnsignedDigits(ci.s); |ds| > 0 && AllDigits(ds) && DecimalValue(ds) < U32_LIMIT))
    ensures ci.String? && r.Ok? ==>
      AllDigits(UnsignedDigits(ci.s)) && r.value == DecimalValue(UnsignedDigits(ci.s))
    ensures r.Err? ==> r.error.GeneralError?
  {
    match ci
    case Index(i) => Ok(i)
    case String(s) =>
      ParseU32Ok(s);
      match ParseU32(s)
      case Ok(n) => Ok(n)
      case Err(k) => Err(GeneralError(IntErrorMessage(k)))
  }

  /** `as_string`: a numeric index is printed in decimal, a string index is returned unchanged. */
  function AsString(ci: CameraIndex): (r: string)
    ensures ci.String? ==> r == ci.s
    ensures ci.Index? ==> |r| > 0 && AllDigits(r) && DecimalValue(r) == ci.index
  {
    match ci
    case Index(i) => NatToStringDigits(i); NatToString(i)
    case String(s) => s
  }

  function IsIndex(ci: CameraIndex): (r: bool)
    ensures r <==> ci.Index?
  {
    match ci
    case Index(_) => true
    case String(_) => false
  }

  /** `is_string` is the negation of `is_index`, so it holds exactly for the string variant. */
  function IsString(ci: CameraIndex): (r: bool)
    ensures r <==> ci.String?
  {
    !IsIndex(ci)
  }

  /** Printing a numeric index and parsing the text back as a string index gives the number. */
  lemma AsIndexRoundTrip(i: u32)
    ensures AsIndex(String(AsString(Index(i)))) == Ok(i)
  {
    ParseNatToString(i);
  }

  /** A width and a height in pixels. */
  datatype Resolution = Resolution(width_x: u32, height_y: u32)

  /** `Resolution::default()`, derived: both fields zero. */
  const DEFAULT_RESOLUTION: Resolution := Resolution(0, 0)

  /** `Ord::cmp`: widths decide, heights break ties. */
  function ResolutionCmp(a: Resolution, b: Resolution): (o: Ordering)
    ensures o == Less <==> a.width_x < b.width_x || (a.width_x == b.width_x && a.height_y < b.height_y)
    ensures o == Equal <==> a == b
    ensures o == Greater <==> a.width_x > b.width_x || (a.width_x == b.width_x && a.height_y > b.height_y)
  {
    match Compare(a.width_x, b.width_x)
    case Less => Less
    case Equal => Compare(a.height_y, b.height_y)
    case Greater => Greater
  }

  /** The resolution order is a total order: antisymmetric and transitive. */
  lemma ResolutionCmpOrder(a: Resolution, b: Resolution, c: Resolution)
    ensures ResolutionCmp(a, b) == Less <==> ResolutionCmp(b, a) == Greater
    ensures ResolutionCmp(a, b) == Less && ResolutionCmp(b, c) == Less ==> ResolutionCmp(a, c) == Less
  {
  }

  /**
   * `distance_from`: the squared Euclidean distance computed in u32. The subtractions are
   * unsigned, so `other` must be at least `self` in both coordinates, and the sum must not
   * overflow.
   */
  function DistanceFrom(self: Resolution, other: Resolution): (d: u32)
    requires other.width_x >= self.width_x && other.height_y >= self.height_y
    requires (other.width_x - self.width_x) * (other.width_x - self.width_x)
           + (other.height_y - self.height_y) * (other.height_y - self.height_y) < U32_LIMIT
    ensures d == 0 <==> self == other
    ensures other.height_y == self.height_y ==> d == (other.width_x - self.width_x) * (other.width_x - self.width_x)
    ensures other.width_x == self.width_x ==> d == (other.height_y - self.height_y) * (other.height_y - self.height_y)
  {
    var dx := other.width_x - self.width_x;
    var dy := other.height_y - self.height_y;
    assert dx * dx == 0 <==> dx == 0;
    assert dy * dy == 0 <==> dy == 0;
    dx * dx + dy * dy
  }

  /** A capture format: resolution, frame format and frame rate (an f32, here a real). */
  datatype CameraFormat = CameraFormat(resolution: Resolution, format: FrameFormat, frame_rate: real)

  /** `CameraFormat::new_from`: the resolution is built from its two components. */
  function CameraFormatNewFrom(res_x: u32, res_y: u32, format: FrameFormat, fps: real): (cf: CameraFormat)
    ensures cf == CameraFormat(Resolution(res_x, res_y), format, fps)
  {
    CameraFormat(Resolution(res_x, res_y), format, fps)
  }

  /** `CameraFormat::default()`: 640x480 MJPEG at 30 frames per second. */
  const DEFAULT_CAMERA_FORMAT: CameraFormat := CameraFormat(Resolution(640, 480), MJpeg, 30.0)

  function SetResolution(cf: CameraFormat, resolution: Resolution): CameraFormat
  {
    cf.(resolution := resolution)
  }

  function SetFrameRate(cf: CameraFormat, frame_rate: real): CameraFormat
  {
    cf.(frame_rate := frame_rate)
  }

  function SetFormat(cf: CameraFormat, format: FrameFormat): CameraFormat
  {
    cf.(format := format)
  }

  /**
   * Each setter replaces its own component and keeps the other two, so setters of different
   * components commute and a second call to the same setter overrides the first.
   */
  lemma CameraFormatSetters(cf: CameraFormat, res: Resolution, fmt: FrameFormat, fps: real, res2: Resolution)
    ensures var c := SetResolution(cf, res); c.resolution == res && c.format == cf.format && c.frame_rate == cf.frame_rate
    ensures var c := SetFormat(cf, fmt); c.format == fmt && c.resolution == cf.resolution && c.frame_rate == cf.frame_rate
    ensures var c := SetFrameRate(cf, fps); c.frame_rate == fps && c.resolution == cf.resolution && c.format == cf.format
    ensures SetFormat(SetResolution(cf, res), fmt) == SetResolution(SetFormat(cf, fmt), res)
    ensures SetResolution(SetResolution(cf, res2), res) == SetResolution(cf, res)
    ensures SetResolution(cf, cf.resolution) == cf
  {
  }
}
