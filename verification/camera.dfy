/**
 * The `Camera` front end: the resolution of the requested backend against the operating
 * system and the enabled features, the construction of the backend's capture device, and
 * the rebuilds of `set_index` and `set_backend`. The capture device behind the camera is
 * represented by its current format; constructing it is a parameter.
 */
module Camera {
  import opened Wrappers
  import opened LegacyTypes
  import Query

  /** The message of a backend whose requirements are not met. */
  const PLATFORM_NOT_SATISFIED: string := "Platform requirements not satisfied."

  /**
   * The backend `Camera::new` uses: `Auto` becomes V4L2 on Linux with "input_v4l", else
   * UVC with "input_uvc"; V4L2 and UVC are accepted when their requirements hold; any other
   * backend is not implemented, with the backend's text as the message.
   */
  function ResolveBackend(backend: CaptureAPIBackend, p: Query.Platform, backend_text: string): (r: Result<CaptureAPIBackend, NokhwaError>)
    ensures r.Ok? ==> r.value == Video4Linux || r.value == UniversalVideoClass
    ensures r.Ok? && r.value == Video4Linux ==> "input_v4l" in p.features && p.os == "linux"
    ensures r.Ok? && r.value == UniversalVideoClass ==> "input_uvc" in p.features
    ensures r.Ok? && backend != Auto ==> r.value == backend
    ensures r.Err? ==> r.error.NotImplementedError?
    ensures backend == Auto ==> (r.Ok? <==> ("input_v4l" in p.features && p.os == "linux") || "input_uvc" in p.features)
    ensures backend !in {Auto, Video4Linux, UniversalVideoClass} ==> r == Err(NotImplementedError(backend_text))
  {
    var v4l := "input_v4l" in p.features && p.os == "linux";
    var uvc := "input_uvc" in p.features;
    match backend
    case Auto =>
      if v4l then Ok(Video4Linux)
      else if uvc then Ok(UniversalVideoClass)
      else Err(NotImplementedError(PLATFORM_NOT_SATISFIED))
    case Video4Linux =>
      if !v4l then Err(NotImplementedError("V4L Requirements: Linux and `input_v4l`.")) else Ok(Video4Linux)
    case UniversalVideoClass =>
      if !uvc then Err(NotImplementedError("UVC Requirements: `input_uvc`.")) else Ok(UniversalVideoClass)
    case _ => Err(NotImplementedError(backend_text))
  }

  /** A resolved backend resolves to itself: rebuilding a camera with its own backend keeps it. */
  lemma ResolveBackendIdempotent(backend: CaptureAPIBackend, p: Query.Platform, backend_text: string, text: string)
    requires ResolveBackend(backend, p, backend_text).Ok?
    ensures ResolveBackend(ResolveBackend(backend, p, backend_text).value, p, text) == ResolveBackend(backend, p, backend_text)
  {
  }

  /** Whether the device constructor of a backend is compiled in (`init_v4l`, `init_uvc`). */
  predicate InitCompiled(backend: CaptureAPIBackend, p: Query.Platform)
  {
    (backend == Video4Linux && "input_v4l" in p.features) || (backend == UniversalVideoClass && "input_uvc" in p.features)
  }

  /**
   * `Camera::new`: the backend is resolved, then its capture device is built by `init`
   * (the device's constructor, which gives the device's format); the result is the backend
   * and that format.
   */
  function NewOutcome(index: nat, format: Option<CameraFormat>, backend: CaptureAPIBackend, p: Query.Platform, backend_text: string,
                      init: (CaptureAPIBackend, nat, Option<CameraFormat>) -> Result<CameraFormat, NokhwaError>)
    : (r: Result<(CaptureAPIBackend, CameraFormat), NokhwaError>)
    ensures ResolveBackend(backend, p, backend_text).Err? ==> r == Err(ResolveBackend(backend, p, backend_text).error)
    ensures ResolveBackend(backend, p, backend_text).Ok? ==>
      var b := ResolveBackend(backend, p, backend_text).value;
      r == (match init(b, index, format) case Ok(f) => Ok((b, f)) case Err(e) => Err(e))
    ensures r.Ok? ==> r.value.0 != Auto && r.value.0 == ResolveBackend(backend, p, backend_text).value
  {
    match ResolveBackend(backend, p, backend_text)
    case Err(e) => Err(e)
    case Ok(use_backend) =>
      if !InitCompiled(use_backend, p) then Err(NotImplementedError(PLATFORM_NOT_SATISFIED))
      else match init(use_backend, index, format)
        case Ok(f) => Ok((use_backend, f))
        case Err(why) => Err(why)
  }

  /** A camera: its index, its resolved backend and the current format of its capture device. */
  class Camera {
    const idx: nat
    const backend_api: CaptureAPIBackend
    var camera_format: CameraFormat

    /** A camera over a constructed capture device. */
    constructor (idx: nat, backend_api: CaptureAPIBackend, camera_format: CameraFormat)
      ensures this.idx == idx && this.backend_api == backend_api && this.camera_format == camera_format
    {
      this.idx := idx;
      this.backend_api := backend_api;
      this.camera_format := camera_format;
    }

    /** A camera's backend is a resolved one: V4L2 or UVC, never `Auto`. */
    predicate Valid()
    {
      backend_api == Video4Linux || backend_api == UniversalVideoClass
    }

    /** `Camera::new`: a camera with the given index and the resolved backend, never `Auto`. */
    static method New(index: nat, format: Option<CameraFormat>, backend: CaptureAPIBackend, p: Query.Platform, backend_text: string,
                      init: (CaptureAPIBackend, nat, Option<CameraFormat>) -> Result<CameraFormat, NokhwaError>)
      returns (r: Result<Camera, NokhwaError>)
      ensures var o := NewOutcome(index, format, backend, p, backend_text, init);
        (r.Ok? <==> o.Ok?) && (r.Err? ==> r.error == o.error)
      ensures r.Ok? ==> fresh(r.value) && r.value.Valid() && r.value.idx == index
      ensures r.Ok? ==> var o := NewOutcome(index, format, backend, p, backend_text, init).value;
        r.value.backend_api == o.0 && r.value.camera_format == o.1
    {
      var o := NewOutcome(index, format, backend, p, backend_text, init);
      if o.Err? {
        return Err(o.error);
      }
      var camera := new Camera(index, o.value.0, o.value.1);
      return Ok(camera);
    }

    /** `index`. */
    function Index(): (i: nat)
      ensures i == idx
    {
      idx
    }

    /** `backend`. */
    function Backend(): (b: CaptureAPIBackend)
      ensures b == backend_api
    {
      backend_api
    }

    /**
     * `set_index`: the stream is stopped, then a camera is built at the new index with the
     * same backend and the current format; the backend survives the rebuild.
     */
    method SetIndex(new_idx: nat, stop: Result<Unit, NokhwaError>, p: Query.Platform, backend_text: string,
                    init: (CaptureAPIBackend, nat, Option<CameraFormat>) -> Result<CameraFormat, NokhwaError>)
      returns (r: Result<Camera, NokhwaError>)
      requires Valid()
      ensures stop.Err? ==> r == Err(stop.error)
      ensures stop.Ok? ==> var o := NewOutcome(new_idx, Some(camera_format), backend_api, p, backend_text, init);
        (r.Ok? <==> o.Ok?) && (r.Err? ==> r.error == o.error)
      ensures r.Ok? ==> fresh(r.value) && r.value.Valid() && r.value.idx == new_idx && r.value.backend_api == backend_api
      ensures r.Ok? ==> r.value.camera_format == init(backend_api, new_idx, Some(camera_format)).value
    {
      if stop.Err? {
        return Err(stop.error);
      }
      var new_camera_format := camera_format;
      r := New(new_idx, Some(new_camera_format), backend_api, p, backend_text, init);
    }

    /**
     * `set_backend`: the stream is stopped, then a camera is built at the same index with
     * the new backend and the current format.
     */
    method SetBackend(new_backend: CaptureAPIBackend, stop: Result<Unit, NokhwaError>, p: Query.Platform, backend_text: string,
                      init: (CaptureAPIBackend, nat, Option<CameraFormat>) -> Result<CameraFormat, NokhwaError>)
      returns (r: Result<Camera, NokhwaError>)
      ensures stop.Err? ==> r == Err(stop.error)
      ensures stop.Ok? ==> var o := NewOutcome(idx, Some(camera_format), new_backend, p, backend_text, init);
        (r.Ok? <==> o.Ok?) && (r.Err? ==> r.error == o.error)
      ensures r.Ok? ==> fresh(r.value) && r.value.Valid() && r.value.idx == idx
      ensures r.Ok? ==> r.value.backend_api == ResolveBackend(new_backend, p, backend_text).value
    {
      if stop.Err? {
        return Err(stop.error);
      }
      var new_camera_format := camera_format;
      r := New(idx, Some(new_camera_format), new_backend, p, backend_text, init);
    }
  }
}
