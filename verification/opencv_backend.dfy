/**
 * The OpenCV capture backend: the API preference chosen from the operating system, the
 * checks and BGR-to-RGB reorder of a raw frame, the resize of that frame to the format's
 * size, the fall-backs for resolution and frame rate, and the format setter that restores
 * the previous format when the device refuses the new one. The `VideoCapture` object is
 * outside the model: each of its answers is a parameter.
 */
module OpenCvBackend {
  import opened Wrappers
  import opened Numeric
  import opened LegacyTypes
  import CoreTypes

  // ---------------------------------------------------------------------------------------
  // API preference
  // ---------------------------------------------------------------------------------------

  /** OpenCV's capture API identifiers. */
  const CAP_ANY: nat := 0
  const CAP_V4L2: nat := 200
  const CAP_AVFOUNDATION: nat := 1200
  const CAP_MSMF: nat := 1400

  /**
   * `get_api_pref_int` as written: it matches the operating system name against "mac",
   * which is not the name Rust reports for macOS ("macos"), so macOS gets `CAP_ANY`.
   */
  function ApiPrefIntAsWritten(os: string): (api: nat)
    ensures os == "linux" <==> api == CAP_V4L2
    ensures os == "windows" <==> api == CAP_MSMF
    ensures os == "mac" <==> api == CAP_AVFOUNDATION
    ensures os !in {"linux", "windows", "mac"} <==> api == CAP_ANY
  {
    match os
    case "linux" => CAP_V4L2
    case "windows" => CAP_MSMF
    case "mac" => CAP_AVFOUNDATION
    case _ => CAP_ANY
  }

  /** On macOS the preference as written is OpenCV's automatic choice, not AVFoundation. */
  lemma ApiPrefAsWrittenMissesMacOs()
    ensures ApiPrefIntAsWritten("macos") == CAP_ANY
    ensures ApiPrefIntAsWritten("macos") != CAP_AVFOUNDATION
  {
  }

  /**
   * The API preference: the native API of Linux (V4L2), Windows (Media Foundation) and
   * macOS (AVFoundation), matching the operating system names the rest of the crate uses;
   * OpenCV decides for any other system.
   */
  function ApiPrefInt(os: string): (api: nat)
    ensures os == "linux" <==> api == CAP_V4L2
    ensures os == "windows" <==> api == CAP_MSMF
    ensures os == "macos" <==> api == CAP_AVFOUNDATION
    ensures os !in {"linux", "windows", "macos"} <==> api == CAP_ANY
  {
    match os
    case "linux" => CAP_V4L2
    case "windows" => CAP_MSMF
    case "macos" => CAP_AVFOUNDATION
    case _ => CAP_ANY
  }

  /** The corrected preference picks the native API on each of the three systems, and the two differ only on the macOS names. */
  lemma ApiPrefNative(os: string)
    ensures ApiPrefInt("macos") == CAP_AVFOUNDATION
    ensures os != "mac" && os != "macos" ==> ApiPrefInt(os) == ApiPrefIntAsWritten(os)
  {
  }

  /** The text of Rust's failed integer conversion. */
  const TRY_FROM_INT_TEXT: string := "out of range integral type conversion attempted"

  /** `tryinto_num!(i32, n)`: the number when it fits an `i32`, else a general error naming it. */
  function ToI32(n: nat): (r: Result<i32, NokhwaError>)
    ensures r.Ok? <==> n <= I32_MAX
    ensures r.Ok? ==> r.value == n
    ensures r.Err? ==> r.error == GeneralError("Failed to convert " + NatToString(n) + ", " + TRY_FROM_INT_TEXT)
  {
    if n <= I32_MAX then Ok(n) else Err(GeneralError("Failed to convert " + NatToString(n) + ", " + TRY_FROM_INT_TEXT))
  }

  // ---------------------------------------------------------------------------------------
  // Raw frames
  // ---------------------------------------------------------------------------------------

  /** One pixel of an OpenCV frame, stored blue first. */
  datatype Bgr = Bgr(b: u8, g: u8, r: u8)

  /** The bytes of a frame as OpenCV stores them: blue, green, red per pixel. */
  function BgrBytes(ps: seq<Bgr>): (bytes: seq<u8>)
    ensures |bytes| == 3 * |ps|
  {
    if ps == [] then [] else [ps[0].b, ps[0].g, ps[0].r] + BgrBytes(ps[1..])
  }

  /** The bytes of a frame in RGB order: red, green, blue per pixel, pixels in order. */
  function RgbBytes(ps: seq<Bgr>): (bytes: seq<u8>)
    ensures |bytes| == 3 * |ps|
  {
    if ps == [] then [] else [ps[0].r, ps[0].g, ps[0].b] + RgbBytes(ps[1..])
  }

  /** Each pixel's three bytes reversed, three bytes at a time. */
  function ReverseTriples(bs: seq<u8>): (rs: seq<u8>)
    requires |bs| % 3 == 0
    ensures |rs| == |bs|
  {
    if bs == [] then [] else [bs[2], bs[1], bs[0]] + ReverseTriples(bs[3..])
  }

  /** Reversing every triple twice gives the bytes back. */
  lemma {:induction false} ReverseTriplesTwice(bs: seq<u8>)
    requires |bs| % 3 == 0
    ensures ReverseTriples(ReverseTriples(bs)) == bs
  {
    if bs != [] {
      ReverseTriplesTwice(bs[3..]);
      var once := ReverseTriples(bs);
      assert once[3..] == ReverseTriples(bs[3..]);
      assert bs == bs[..3] + bs[3..];
    }
  }

  /** The RGB bytes are three per pixel, each pixel's channels in red, green, blue order. */
  lemma RgbBytesContents(ps: seq<Bgr>)
    ensures forall k :: 0 <= k < |ps| ==>
      RgbBytes(ps)[3 * k] == ps[k].r && RgbBytes(ps)[3 * k + 1] == ps[k].g && RgbBytes(ps)[3 * k + 2] == ps[k].b
    ensures RgbBytes(ps) == ReverseTriples(BgrBytes(ps))
  {
    forall k | 0 <= k < |ps|
      ensures RgbBytes(ps)[3 * k] == ps[k].r && RgbBytes(ps)[3 * k + 1] == ps[k].g && RgbBytes(ps)[3 * k + 2] == ps[k].b
    {
      RgbBytesAt(ps, k);
    }
    RgbBytesReorder(ps);
  }

  /** Pixel k's red, green and blue bytes are bytes 3k, 3k+1 and 3k+2. */
  lemma {:induction false} RgbBytesAt(ps: seq<Bgr>, k: nat)
    requires k < |ps|
    ensures RgbBytes(ps)[3 * k] == ps[k].r && RgbBytes(ps)[3 * k + 1] == ps[k].g && RgbBytes(ps)[3 * k + 2] == ps[k].b
  {
    if k > 0 {
      RgbBytesAt(ps[1..], k - 1);
      assert RgbBytes(ps)[3..] == RgbBytes(ps[1..]);
      assert ps[1..][k - 1] == ps[k];
    }
  }

  /** The RGB bytes are the BGR bytes with every triple reversed. */
  lemma {:induction false} RgbBytesReorder(ps: seq<Bgr>)
    ensures RgbBytes(ps) == ReverseTriples(BgrBytes(ps))
  {
    if ps != [] {
      RgbBytesReorder(ps[1..]);
      assert BgrBytes(ps)[3..] == BgrBytes(ps[1..]);
    }
  }

  /** Appending a pixel appends its three RGB bytes. */
  lemma {:induction false} RgbBytesAppend(ps: seq<Bgr>, p: Bgr)
    ensures RgbBytes(ps + [p]) == RgbBytes(ps) + [p.r, p.g, p.b]
  {
    if ps == [] {
      assert [p][1..] == [];
    } else {
      assert (ps + [p])[1..] == ps[1..] + [p];
      RgbBytesAppend(ps[1..], p);
    }
  }

  /** What `VideoCapture` answers while a frame is read, in the order it is asked. */
  datatype ReadAnswers = ReadAnswers(
    read: Result<bool, string>, empty: bool, width: Result<int, string>, continuous: bool, data: Result<seq<Bgr>, string>)

  /** The first failed check of a frame read, if any. */
  function ReadFailure(stream_open: bool, a: ReadAnswers): (e: Option<NokhwaError>)
    ensures e.Some? ==> e.value.ReadFrameError?
    ensures e.None? <==> stream_open && a.read == Ok(true) && !a.empty && a.width.Ok? && a.width.value > 0 && a.continuous && a.data.Ok?
  {
    if !stream_open then Some(ReadFrameError("Stream is not open!"))
    else if a.read.Err? then Some(ReadFrameError("Failed to read frame from videocapture: " + a.read.error))
    else if !a.read.value then Some(ReadFrameError("Failed to read frame from videocapture: OpenCV return false, camera disconnected?"))
    else if a.empty then Some(ReadFrameError("Frame Empty!"))
    else if a.width.Err? then Some(ReadFrameError("Failed to read frame from videocapture: failed to read size: " + a.width.error))
    else if a.width.value <= 0 then Some(ReadFrameError("Frame width is less than zero!"))
    else if !a.continuous then Some(ReadFrameError("Failed to read frame from videocapture: not cont"))
    else if a.data.Err? then Some(ReadFrameError("Failed to convert frame into raw Vec3b: " + a.data.error))
    else None
  }

  /**
   * `raw_frame_vec`: after the checks, each pixel's channels are pushed red, green, blue,
   * so the result is the stored bytes with every triple reversed.
   */
  method RawFrameVec(stream_open: bool, a: ReadAnswers) returns (r: Result<seq<u8>, NokhwaError>)
    ensures ReadFailure(stream_open, a).Some? ==> r == Err(ReadFailure(stream_open, a).value)
    ensures ReadFailure(stream_open, a).None? ==> r == Ok(RgbBytes(a.data.value))
    ensures r.Ok? ==> |r.value| == 3 * |a.data.value| && r.value == ReverseTriples(BgrBytes(a.data.value))
  {
    var failure := ReadFailure(stream_open, a);
    if failure.Some? {
      return Err(failure.value);
    }
    var frame_data_vec := a.data.value;
    var raw_vec: seq<u8> := [];
    for i := 0 to |frame_data_vec|
      invariant raw_vec == RgbBytes(frame_data_vec[..i])
    {
      var pixel := frame_data_vec[i];
      RgbBytesAppend(frame_data_vec[..i], pixel);
      assert frame_data_vec[..i + 1] == frame_data_vec[..i] + [pixel];
      raw_vec := raw_vec + [pixel.r, pixel.g, pixel.b];
    }
    assert frame_data_vec[..|frame_data_vec|] == frame_data_vec;
    RgbBytesContents(frame_data_vec);
    return Ok(raw_vec);
  }

  /** `Vec::resize(n, 0)`: the bytes cut to `n`, or padded with zeros up to `n`. */
  function Resized(data: seq<u8>, n: nat): (out: seq<u8>)
  {
    if |data| >= n then data[..n] else data + seq(n - |data|, _ => 0)
  }

  /** The resized data has exactly `n` bytes, keeps the data's first bytes and is zero beyond the data. */
  lemma ResizedContents(data: seq<u8>, n: nat)
    ensures |Resized(data, n)| == n
    ensures forall k :: 0 <= k < n && k < |data| ==> Resized(data, n)[k] == data[k]
    ensures forall k :: |data| <= k < n ==> Resized(data, n)[k] == 0
    ensures |data| == n ==> Resized(data, n) == data
  {
  }

  // ---------------------------------------------------------------------------------------
  // Stream and property answers
  // ---------------------------------------------------------------------------------------

  /** `resolution()`: the resolution the device reports, or 640x480 when the read fails. */
  function ResolutionOf(width: Result<u32, string>, height: Result<u32, string>): (res: Resolution)
    ensures width.Ok? && height.Ok? ==> res == CoreTypes.Resolution(width.value, height.value)
    ensures width.Err? || height.Err? ==> res == CoreTypes.Resolution(640, 480)
  {
    match RawResolution(width, height)
    case Ok(res) => res
    case Err(_) => CoreTypes.Resolution(640, 480)
  }

  /** `raw_resolution`: the width is read first, then the height; a failure names the property. */
  function RawResolution(width: Result<u32, string>, height: Result<u32, string>): (r: Result<Resolution, NokhwaError>)
    ensures width.Err? ==> r == Err(GetPropertyError("Width", width.error))
    ensures width.Ok? && height.Err? ==> r == Err(GetPropertyError("Height", height.error))
    ensures r.Ok? <==> width.Ok? && height.Ok?
  {
    if width.Err? then Err(GetPropertyError("Width", width.error))
    else if height.Err? then Err(GetPropertyError("Height", height.error))
    else Ok(CoreTypes.Resolution(width.value, height.value))
  }

  /** `frame_rate()`: the frame rate the device reports, or 30 when the read fails. */
  function FrameRateOf(fps: Result<u32, string>): (rate: u32)
    ensures fps.Ok? ==> rate == fps.value
    ensures fps.Err? ==> rate == 30
  {
    match RawFrameRate(fps)
    case Ok(rate) => rate
    case Err(_) => 30
  }

  /** `raw_framerate`: the read frame rate, or a property error naming "Framerate". */
  function RawFrameRate(fps: Result<u32, string>): (r: Result<u32, NokhwaError>)
    ensures fps.Ok? <==> r.Ok?
    ensures fps.Ok? ==> r.value == fps.value
    ensures fps.Err? ==> r.error == GetPropertyError("Framerate", fps.error)
  {
    match fps
    case Ok(rate) => Ok(rate)
    case Err(why) => Err(GetPropertyError("Framerate", why))
  }

  /** `stop_stream`: the capture is released; a failure is a stream shut-down error. */
  function StopStreamOutcome(release: Result<Unit, string>): (r: Result<Unit, NokhwaError>)
    ensures r.Ok? <==> release.Ok?
    ensures release.Err? ==> r.error == StreamShutdownError(release.error)
  {
    match release
    case Ok(_) => Ok(Unit)
    case Err(why) => Err(StreamShutdownError(why))
  }

  /** What `VideoCapture` answers when the stream is opened: the open call, then `is_opened`. */
  datatype OpenAnswers = OpenAnswers(open: Result<Unit, string>, after_open: Result<bool, string>)

  /**
   * `open_stream` for an index camera: the device is opened with the operating system's API
   * preference, then asked whether it is open.
   */
  function OpenStreamOutcome(location: nat, a: OpenAnswers): (r: Result<Unit, NokhwaError>)
    ensures r.Ok? <==> a.open.Ok? && a.after_open == Ok(true)
    ensures a.open.Err? ==> r == Err(OpenDeviceError(NatToString(location), "Failed to open device: " + a.open.error))
    ensures a.open.Ok? && a.after_open == Ok(false) ==> r == Err(OpenStreamError("Stream is not opened after stream open attempt opencv"))
    ensures a.open.Ok? && a.after_open.Err? ==> r == Err(GetPropertyError("Is Stream Open After Open Stream", a.after_open.error))
  {
    if a.open.Err? then Err(OpenDeviceError(NatToString(location), "Failed to open device: " + a.open.error))
    else match a.after_open
      case Ok(true) => Ok(Unit)
      case Ok(false) => Err(OpenStreamError("Stream is not opened after stream open attempt opencv"))
      case Err(why) => Err(GetPropertyError("Is Stream Open After Open Stream", why))
  }

  /** `is_stream_open`: the device's answer, false when the query fails. */
  function IsStreamOpen(is_opened: Result<bool, string>): (open: bool)
    ensures open <==> is_opened == Ok(true)
  {
    match is_opened
    case Ok(b) => b
    case Err(_) => false
  }

  /**
   * What `set_camera_format` answers: the open-state query must succeed and the device take
   * the properties; a device that was streaming is then released and reopened, and a failed
   * reopen is reported as an open-device error with the reopen error's text.
   */
  function SetFormatOutcome(location: nat, is_opened: Result<bool, string>, set_properties: Result<Unit, NokhwaError>,
                            release: Result<Unit, string>, reopen: OpenAnswers, display: NokhwaError -> string): (r: Result<Unit, NokhwaError>)
    ensures r.Ok? <==> is_opened.Ok? && set_properties.Ok? &&
                       (is_opened.value ==> release.Ok? && reopen.open.Ok? && reopen.after_open == Ok(true))
    ensures is_opened.Err? ==> r == Err(GetPropertyError("Is Stream Open", is_opened.error))
    ensures is_opened.Ok? && set_properties.Err? ==> r == Err(set_properties.error)
    ensures is_opened == Ok(true) && set_properties.Ok? && release.Err? ==> r == Err(StreamShutdownError(release.error))
    ensures is_opened == Ok(true) && set_properties.Ok? && release.Ok? && OpenStreamOutcome(location, reopen).Err? ==>
      r == Err(OpenDeviceError(NatToString(location), display(OpenStreamOutcome(location, reopen).error)))
  {
    if is_opened.Err? then Err(GetPropertyError("Is Stream Open", is_opened.error))
    else if set_properties.Err? then Err(set_properties.error)
    else if !is_opened.value then Ok(Unit)
    else if release.Err? then StopStreamOutcome(release)
    else match OpenStreamOutcome(location, reopen)
      case Ok(_) => Ok(Unit)
      case Err(why) => Err(OpenDeviceError(NatToString(location), display(why)))
  }

  // ---------------------------------------------------------------------------------------
  // Construction
  // ---------------------------------------------------------------------------------------

  /** The fields of a new device. */
  datatype Setup = Setup(camera_format: CameraFormat, location: nat, info: CameraInfo, api_preference: i32)

  /**
   * `new`: the API preference (given, or the one `get_api_pref_int` gives the operating
   * system's name, as written) and the index must fit an
   * `i32`; the device is opened, the format (given, or the default) applied, and the
   * description names the index.
   */
  function NewOutcome(index: nat, cfmt: Option<CameraFormat>, api_pref: Option<u32>, os: string,
                      open: Result<Unit, string>, set_properties: Result<Unit, NokhwaError>): (r: Result<Setup, NokhwaError>)
    ensures r.Ok? <==> (api_pref.Some? ==> api_pref.value <= I32_MAX) && index <= I32_MAX && open.Ok? && set_properties.Ok?
    ensures r.Ok? ==> r.value.camera_format == (if cfmt.Some? then cfmt.value else DEFAULT_CAMERA_FORMAT)
    ensures r.Ok? ==> r.value.location == index && r.value.info.index == index
    ensures r.Ok? ==> r.value.info.human_name == "OpenCV Capture Device " + NatToString(index)
    ensures r.Ok? ==> r.value.api_preference == (if api_pref.Some? then api_pref.value else ApiPrefIntAsWritten(os))
    ensures r.Ok? && api_pref.None? && os == "macos" ==> r.value.api_preference == CAP_ANY
  {
    var api := ToI32(if api_pref.Some? then api_pref.value else ApiPrefIntAsWritten(os));
    var camera_format := if cfmt.Some? then cfmt.value else DEFAULT_CAMERA_FORMAT;
    if api.Err? then Err(api.error)
    else if index > I32_MAX then Err(ToI32(index).error)
    else if open.Err? then Err(OpenDeviceError(NatToString(index), open.error))
    else if set_properties.Err? then Err(set_properties.error)
    else
      var camera_info := CameraInfo("OpenCV Capture Device " + NatToString(index), NatToString(index), "", index);
      Ok(Setup(camera_format, index, camera_info, api.value))
  }

  /** An `OpenCvCaptureDevice`: its current format, index, description and API preference. */
  class OpenCvCaptureDevice {
    var camera_format: CameraFormat
    const camera_location: nat
    const camera_info: CameraInfo
    const api_preference: i32

    /** A device with the fields `new` computed. */
    constructor (setup: Setup)
      ensures camera_format == setup.camera_format && camera_location == setup.location
      ensures camera_info == setup.info && api_preference == setup.api_preference
    {
      camera_format := setup.camera_format;
      camera_location := setup.location;
      camera_info := setup.info;
      api_preference := setup.api_preference;
    }

    /** `backend`. */
    function Backend(): (b: CaptureAPIBackend)
      ensures b == OpenCv
    {
      OpenCv
    }

    /** `compatible_list_by_resolution` and `compatible_fourcc`: OpenCV cannot list formats. */
    function CompatibleListUnsupported(): (e: NokhwaError)
      ensures e == UnsupportedOperationError(OpenCv)
    {
      UnsupportedOperationError(OpenCv)
    }

    /**
     * The control operations report the UVC backend as unsupported, as written (the
     * supported, read and write of known controls and the raw control listing).
     */
    function ControlsUnsupported(): (e: NokhwaError)
      ensures e == UnsupportedOperationError(UniversalVideoClass)
    {
      UnsupportedOperationError(UniversalVideoClass)
    }

    /**
     * `set_camera_format`: the open state is read first; the new format is stored, and put
     * back when the device refuses it. An open stream is then stopped and reopened; a failed
     * reopen is reported as an open-device error, but the new format stays.
     */
    method SetCameraFormat(new_fmt: CameraFormat, is_opened: Result<bool, string>, set_properties: Result<Unit, NokhwaError>,
                           release: Result<Unit, string>, reopen: OpenAnswers, display: NokhwaError -> string)
      returns (r: Result<Unit, NokhwaError>)
      modifies this
      ensures is_opened.Err? ==> r == Err(GetPropertyError("Is Stream Open", is_opened.error)) && camera_format == old(camera_format)
      ensures is_opened.Ok? && set_properties.Err? ==> r == Err(set_properties.error) && camera_format == old(camera_format)
      ensures is_opened.Ok? && set_properties.Ok? ==> camera_format == new_fmt
      ensures is_opened == Ok(false) && set_properties.Ok? ==> r == Ok(Unit)
      ensures is_opened == Ok(true) && set_properties.Ok? ==>
        r == (if release.Err? then StopStreamOutcome(release)
              else match OpenStreamOutcome(camera_location, reopen)
                case Ok(_) => Ok(Unit)
                case Err(why) => Err(OpenDeviceError(NatToString(camera_location), display(why))))
      ensures r.Ok? ==> camera_format == new_fmt
      ensures r == SetFormatOutcome(camera_location, is_opened, set_properties, release, reopen, display)
    {
      var current_format := camera_format;
      if is_opened.Err? {
        return Err(GetPropertyError("Is Stream Open", is_opened.error));
      }
      camera_format := new_fmt;
      if set_properties.Err? {
        camera_format := current_format;
        return Err(set_properties.error);
      }
      if is_opened.value {
        var stopped := StopStreamOutcome(release);
        if stopped.Err? {
          return stopped;
        }
        var reopened := OpenStreamOutcome(camera_location, reopen);
        if reopened.Err? {
          return Err(OpenDeviceError(NatToString(camera_location), display(reopened.error)));
        }
      }
      return Ok(Unit);
    }

    /** `set_resolution`: `set_camera_format` with only the resolution changed; the new format stays once the device takes it. */
    method SetResolution(new_res: Resolution, is_opened: Result<bool, string>, set_properties: Result<Unit, NokhwaError>,
                         release: Result<Unit, string>, reopen: OpenAnswers, display: NokhwaError -> string)
      returns (r: Result<Unit, NokhwaError>)
      modifies this
      ensures r == SetFormatOutcome(camera_location, is_opened, set_properties, release, reopen, display)
      ensures is_opened.Ok? && set_properties.Ok? ==> camera_format == old(camera_format).(resolution := new_res)
      ensures is_opened.Err? || set_properties.Err? ==> camera_format == old(camera_format)
    {
      r := SetCameraFormat(camera_format.(resolution := new_res), is_opened, set_properties, release, reopen, display);
    }

    /** `set_frame_rate`: `set_camera_format` with only the frame rate changed; the new format stays once the device takes it. */
    method SetFrameRate(new_fps: u32, is_opened: Result<bool, string>, set_properties: Result<Unit, NokhwaError>,
                        release: Result<Unit, string>, reopen: OpenAnswers, display: NokhwaError -> string)
      returns (r: Result<Unit, NokhwaError>)
      modifies this
      ensures r == SetFormatOutcome(camera_location, is_opened, set_properties, release, reopen, display)
      ensures is_opened.Ok? && set_properties.Ok? ==> camera_format == old(camera_format).(frame_rate := new_fps)
      ensures is_opened.Err? || set_properties.Err? ==> camera_format == old(camera_format)
    {
      r := SetCameraFormat(camera_format.(frame_rate := new_fps), is_opened, set_properties, release, reopen, display);
    }

    /** `set_frame_format`: `set_camera_format` with only the frame format changed; the new format stays once the device takes it. */
    method SetFrameFormat(fourcc: FrameFormat, is_opened: Result<bool, string>, set_properties: Result<Unit, NokhwaError>,
                          release: Result<Unit, string>, reopen: OpenAnswers, display: NokhwaError -> string)
      returns (r: Result<Unit, NokhwaError>)
      modifies this
      ensures r == SetFormatOutcome(camera_location, is_opened, set_properties, release, reopen, display)
      ensures is_opened.Ok? && set_properties.Ok? ==> camera_format == old(camera_format).(format := fourcc)
      ensures is_opened.Err? || set_properties.Err? ==> camera_format == old(camera_format)
    {
      r := SetCameraFormat(camera_format.(format := fourcc), is_opened, set_properties, release, reopen, display);
    }

    /**
     * `frame`: the raw RGB frame, cut or zero-padded to exactly width * height * 3 bytes,
     * as an image of the format's size.
     */
    method Frame(stream_open: bool, a: ReadAnswers) returns (r: Result<RgbImage, NokhwaError>)
      requires (camera_format.resolution.width_x as int) * (camera_format.resolution.height_y as int) * 3 < U32_LIMIT
      ensures ReadFailure(stream_open, a).Some? ==> r == Err(ReadFailure(stream_open, a).value)
      ensures ReadFailure(stream_open, a).None? ==> r.Ok?
      ensures r.Ok? ==> var n := (camera_format.resolution.width_x as int) * (camera_format.resolution.height_y as int) * 3;
        r.value == RgbImage(camera_format.resolution.width_x, camera_format.resolution.height_y, Resized(RgbBytes(a.data.value), n))
      ensures r.Ok? ==> |r.value.data| == (r.value.width as int) * (r.value.height as int) * 3
    {
      var camera_resolution := camera_format.resolution;
      var raw := RawFrameVec(stream_open, a);
      if raw.Err? {
        return Err(raw.error);
      }
      var n := (camera_resolution.width_x as int) * (camera_resolution.height_y as int) * 3;
      var image_data := Resized(raw.value, n);
      ResizedContents(raw.value, n);
      return Ok(RgbImage(camera_resolution.width_x, camera_resolution.height_y, image_data));
    }
  }

  /** `raw_camera_control`: the property read by OpenCV id, or a property error naming the id. */
  function RawCameraControl(id: i32, get: Result<real, string>): (r: Result<real, NokhwaError>)
    ensures r.Ok? <==> get.Ok?
    ensures get.Ok? ==> r.value == get.value
    ensures get.Err? ==> r.error == GetPropertyError("OpenCV PROP ID " + IntToString(id), get.error)
  {
    match get
    case Ok(v) => Ok(v)
    case Err(why) => Err(GetPropertyError("OpenCV PROP ID " + IntToString(id), why))
  }

  /**
   * `set_raw_camera_control`: the property written by OpenCV id; a refusal or a failure is
   * a property error naming the id and the value's text.
   */
  function SetRawCameraControl(id: i32, value_text: string, answer: Result<bool, string>): (r: Result<Unit, NokhwaError>)
    ensures r.Ok? <==> answer == Ok(true)
    ensures answer == Ok(false) ==> r.error == SetPropertyError("OpenCV PROP ID " + IntToString(id), value_text, "OpenCV returned false")
    ensures answer.Err? ==> r.error == SetPropertyError("OpenCV PROP ID " + IntToString(id), value_text, answer.error)
  {
    match answer
    case Ok(true) => Ok(Unit)
    case Ok(false) => Err(SetPropertyError("OpenCV PROP ID " + IntToString(id), value_text, "OpenCV returned false"))
    case Err(why) => Err(SetPropertyError("OpenCV PROP ID " + IntToString(id), value_text, why))
  }
}
