/**
 * Device listing (`query`, `query_devices`): the choice of backend for `Auto` from the
 * operating system and the enabled features, and the dispatch to each backend's listing,
 * which is a stub reporting the backend as unsupported unless its feature (and, for the
 * native APIs, its operating system) is compiled in. The listings themselves are device
 * answers and are parameters.
 */
module Query {
  import opened Wrappers
  import opened LegacyTypes

  /** The operating system the crate is built for and its enabled features. */
  datatype Platform = Platform(os: string, features: set<string>)

  /** What each compiled-in listing answers. */
  datatype DeviceLists = DeviceLists(
    v4l: Result<seq<CameraInfo>, NokhwaError>, uvc: Result<seq<CameraInfo>, NokhwaError>,
    gst: Result<seq<CameraInfo>, NokhwaError>, msmf: Result<seq<CameraInfo>, NokhwaError>,
    avf: Result<seq<CameraInfo>, NokhwaError>, wasm: Result<seq<CameraInfo>, NokhwaError>)

  /**
   * Whether a backend's real listing is compiled in, by the `cfg` of its `query_*`
   * function; OpenCV and network cameras have none.
   */
  predicate Compiled(b: CaptureAPIBackend, p: Platform)
  {
    match b
    case Video4Linux => "input-v4l" in p.features && p.os == "linux"
    case UniversalVideoClass => "input-uvc" in p.features
    case GStreamer => "input-gst" in p.features
    case MediaFoundation => "input-msmf" in p.features && p.os == "windows"
    case AVFoundation => "input-avfoundation" in p.features && (p.os == "macos" || p.os == "ios")
    case Browser => "input-jscam" in p.features
    case _ => false
  }

  /**
   * The backend `Auto` picks, with the GStreamer branch guarded by the feature named
   * `gst_feature`: the native API, then UVC, GStreamer and OpenCV in that order on Linux,
   * Windows and macOS, only AVFoundation on iOS, and nothing elsewhere.
   */
  function AutoTargetFor(p: Platform, gst_feature: string): (b: Option<CaptureAPIBackend>)
  {
    var f := p.features;
    match p.os
    case "linux" =>
      if "input-v4l" in f && p.os == "linux" then Some(Video4Linux)
      else if "input-uvc" in f then Some(UniversalVideoClass)
      else if gst_feature in f then Some(GStreamer)
      else if "input-opencv" in f then Some(OpenCv)
      else None
    case "windows" =>
      if "input-msmf" in f && p.os == "windows" then Some(MediaFoundation)
      else if "input-uvc" in f then Some(UniversalVideoClass)
      else if gst_feature in f then Some(GStreamer)
      else if "input-opencv" in f then Some(OpenCv)
      else None
    case "macos" =>
      if "input-avfoundation" in f then Some(AVFoundation)
      else if "input-uvc" in f then Some(UniversalVideoClass)
      else if gst_feature in f then Some(GStreamer)
      else if "input-opencv" in f then Some(OpenCv)
      else None
    case "ios" =>
      if "input-avfoundation" in f then Some(AVFoundation) else None
    case _ => None
  }

  /** A candidate of the `Auto` choice: a backend and the feature that enables it. */
  datatype Candidate = Candidate(backend: CaptureAPIBackend, feature: string)

  /** The `Auto` candidates of each operating system, in order of preference. */
  function Candidates(os: string, gst_feature: string): (cs: seq<Candidate>)
  {
    var portable := [Candidate(UniversalVideoClass, "input-uvc"), Candidate(GStreamer, gst_feature), Candidate(OpenCv, "input-opencv")];
    if os == "linux" then [Candidate(Video4Linux, "input-v4l")] + portable
    else if os == "windows" then [Candidate(MediaFoundation, "input-msmf")] + portable
    else if os == "macos" then [Candidate(AVFoundation, "input-avfoundation")] + portable
    else if os == "ios" then [Candidate(AVFoundation, "input-avfoundation")]
    else []
  }

  /** The backend of the first candidate whose feature is enabled. */
  function FirstEnabled(cs: seq<Candidate>, features: set<string>): (b: Option<CaptureAPIBackend>)
    ensures b.Some? <==> exists k :: 0 <= k < |cs| && cs[k].feature in features
  {
    if cs == [] then None
    else if cs[0].feature in features then Some(cs[0].backend)
    else
      var rest := FirstEnabled(cs[1..], features);
      assert forall k :: 1 <= k < |cs| ==> cs[k] == cs[1..][k - 1];
      assert rest.Some? ==> exists k :: 1 <= k < |cs| && cs[k].feature in features by {
        if rest.Some? {
          var j :| 0 <= j < |cs[1..]| && cs[1..][j].feature in features;
          assert cs[j + 1] == cs[1..][j];
        }
      }
      rest
  }

  /**
   * The `Auto` choice is the first candidate of the operating system's preference list
   * whose feature is enabled, and it is never `Auto` itself.
   */
  lemma AutoTargetIsFirstEnabled(p: Platform, gst_feature: string)
    ensures AutoTargetFor(p, gst_feature) == FirstEnabled(Candidates(p.os, gst_feature), p.features)
    ensures AutoTargetFor(p, gst_feature) != Some(Auto)
  {
    var f := p.features;
    var portable := [Candidate(UniversalVideoClass, "input-uvc"), Candidate(GStreamer, gst_feature), Candidate(OpenCv, "input-opencv")];
    PortableFirstEnabled(gst_feature, f);
    if p.os == "linux" {
      FirstEnabledCons(Candidate(Video4Linux, "input-v4l"), portable, f);
    } else if p.os == "windows" {
      FirstEnabledCons(Candidate(MediaFoundation, "input-msmf"), portable, f);
    } else if p.os == "macos" {
      FirstEnabledCons(Candidate(AVFoundation, "input-avfoundation"), portable, f);
    } else if p.os == "ios" {
      FirstEnabledCons(Candidate(AVFoundation, "input-avfoundation"), [], f);
      assert [Candidate(AVFoundation, "input-avfoundation")] + [] == Candidates(p.os, gst_feature);
    }
  }

  /** The portable tail of every desktop list: UVC, then GStreamer, then OpenCV. */
  lemma PortableFirstEnabled(gst_feature: string, f: set<string>)
    ensures FirstEnabled([Candidate(UniversalVideoClass, "input-uvc"), Candidate(GStreamer, gst_feature), Candidate(OpenCv, "input-opencv")], f) ==
      if "input-uvc" in f then Some(UniversalVideoClass)
      else if gst_feature in f then Some(GStreamer)
      else if "input-opencv" in f then Some(OpenCv)
      else None
  {
    var opencv := [Candidate(OpenCv, "input-opencv")];
    var gst := [Candidate(GStreamer, gst_feature)] + opencv;
    FirstEnabledCons(Candidate(OpenCv, "input-opencv"), [], f);
    assert [Candidate(OpenCv, "input-opencv")] + [] == opencv;
    FirstEnabledCons(Candidate(GStreamer, gst_feature), opencv, f);
    FirstEnabledCons(Candidate(UniversalVideoClass, "input-uvc"), gst, f);
    assert [Candidate(UniversalVideoClass, "input-uvc")] + gst == [Candidate(UniversalVideoClass, "input-uvc"), Candidate(GStreamer, gst_feature), Candidate(OpenCv, "input-opencv")];
  }

  /** The first enabled candidate of a list is its head when enabled, else that of its tail. */
  lemma FirstEnabledCons(c: Candidate, rest: seq<Candidate>, features: set<string>)
    ensures FirstEnabled([c] + rest, features) == if c.feature in features then Some(c.backend) else FirstEnabled(rest, features)
  {
    assert ([c] + rest)[1..] == rest;
  }

  /** The `Auto` choice as written: the GStreamer branch tests "input-gstreamer". */
  function AutoTargetAsWritten(p: Platform): (b: Option<CaptureAPIBackend>)
    ensures b != Some(Auto)
    ensures b == FirstEnabled(Candidates(p.os, "input-gstreamer"), p.features)
  {
    AutoTargetIsFirstEnabled(p, "input-gstreamer");
    AutoTargetFor(p, "input-gstreamer")
  }

  /** The `Auto` choice with the GStreamer branch testing the feature that compiles the GStreamer listing. */
  function AutoTarget(p: Platform): (b: Option<CaptureAPIBackend>)
    ensures b != Some(Auto)
    ensures b == FirstEnabled(Candidates(p.os, "input-gst"), p.features)
  {
    AutoTargetIsFirstEnabled(p, "input-gst");
    AutoTargetFor(p, "input-gst")
  }

  /**
   * The listing of an explicit backend: the compiled-in listing's answer, or the stub's
   * unsupported error; OpenCV and network cameras cannot list devices.
   */
  function QueryBackend(b: CaptureAPIBackend, p: Platform, lists: DeviceLists): (r: Result<seq<CameraInfo>, NokhwaError>)
    requires b != Auto
    ensures !Compiled(b, p) ==> r == Err(UnsupportedOperationError(b))
    ensures Compiled(b, p) ==> r == Listing(b, lists)
    ensures b == OpenCv || b == Network ==> r == Err(UnsupportedOperationError(b))
  {
    match b
    case AVFoundation => if Compiled(b, p) then lists.avf else Err(UnsupportedOperationError(AVFoundation))
    case Video4Linux => if Compiled(b, p) then lists.v4l else Err(UnsupportedOperationError(Video4Linux))
    case UniversalVideoClass => if Compiled(b, p) then lists.uvc else Err(UnsupportedOperationError(UniversalVideoClass))
    case MediaFoundation => if Compiled(b, p) then lists.msmf else Err(UnsupportedOperationError(MediaFoundation))
    case GStreamer => if Compiled(b, p) then lists.gst else Err(UnsupportedOperationError(GStreamer))
    case OpenCv => Err(UnsupportedOperationError(b))
    case Network => Err(UnsupportedOperationError(b))
    case Browser => if Compiled(b, p) then lists.wasm else Err(UnsupportedOperationError(Browser))
  }

  /**
   * `query_devices`: `Auto` resolves in one step, through the choice as written, to the
   * chosen backend's listing, or to an unsupported error naming `Auto` when nothing fits;
   * any other backend goes to its own listing.
   */
  function QueryDevices(api: CaptureAPIBackend, p: Platform, lists: DeviceLists): (r: Result<seq<CameraInfo>, NokhwaError>)
    ensures api == Auto && AutoTargetAsWritten(p).None? ==> r == Err(UnsupportedOperationError(Auto))
    ensures api == Auto && AutoTargetAsWritten(p).Some? ==> r == QueryBackend(AutoTargetAsWritten(p).value, p, lists)
    ensures api != Auto ==> r == QueryBackend(api, p, lists)
  {
    if api == Auto then
      match AutoTargetAsWritten(p)
      case Some(b) => QueryBackend(b, p, lists)
      case None => Err(UnsupportedOperationError(Auto))
    else QueryBackend(api, p, lists)
  }

  /**
   * As written, `Auto` on Linux with only "input-gstreamer" enabled picks GStreamer, whose
   * listing is compiled only with "input-gst", and so ends in the stub; with only
   * "input-gst" enabled it finds no backend although the GStreamer listing is compiled in.
   */
  lemma AutoGStreamerAsWrittenReachesStub(lists: DeviceLists)
    ensures QueryDevices(Auto, Platform("linux", {"input-gstreamer"}), lists) == Err(UnsupportedOperationError(GStreamer))
    ensures Compiled(GStreamer, Platform("linux", {"input-gst"}))
    ensures QueryDevices(Auto, Platform("linux", {"input-gst"}), lists) == Err(UnsupportedOperationError(Auto))
  {
  }

  /** `query_devices` with `Auto` going through the corrected choice. */
  function QueryDevicesIntended(api: CaptureAPIBackend, p: Platform, lists: DeviceLists): (r: Result<seq<CameraInfo>, NokhwaError>)
    ensures api == Auto && AutoTarget(p).None? ==> r == Err(UnsupportedOperationError(Auto))
    ensures api == Auto && AutoTarget(p).Some? ==> r == QueryBackend(AutoTarget(p).value, p, lists)
    ensures api != Auto ==> r == QueryBackend(api, p, lists)
  {
    if api == Auto then
      match AutoTarget(p)
      case Some(b) => QueryBackend(b, p, lists)
      case None => Err(UnsupportedOperationError(Auto))
    else QueryBackend(api, p, lists)
  }

  /**
   * With the corrected choice, `Auto` only ever picks a backend whose listing is compiled
   * in, apart from OpenCV, which has no listing; so `Auto` ends in a backend's stub only
   * for OpenCV.
   */
  lemma AutoChoosesCompiledListing(p: Platform, lists: DeviceLists)
    ensures AutoTarget(p).Some? && AutoTarget(p).value != OpenCv ==> Compiled(AutoTarget(p).value, p)
    ensures AutoTarget(p).Some? && AutoTarget(p).value != OpenCv ==> QueryDevicesIntended(Auto, p, lists) == Listing(AutoTarget(p).value, lists)
  {
  }

  /** The answer of a backend's compiled-in listing. */
  function Listing(b: CaptureAPIBackend, lists: DeviceLists): (r: Result<seq<CameraInfo>, NokhwaError>)
  {
    match b
    case AVFoundation => lists.avf
    case Video4Linux => lists.v4l
    case UniversalVideoClass => lists.uvc
    case MediaFoundation => lists.msmf
    case GStreamer => lists.gst
    case Browser => lists.wasm
    case _ => Err(UnsupportedOperationError(b))
  }

  /** `query`: the listing of `Auto`, through the choice as written. */
  function QueryAll(p: Platform, lists: DeviceLists): (r: Result<seq<CameraInfo>, NokhwaError>)
    ensures r == QueryDevices(Auto, p, lists)
    ensures AutoTargetAsWritten(p).None? ==> r == Err(UnsupportedOperationError(Auto))
    ensures AutoTargetAsWritten(p).Some? ==> r == QueryBackend(AutoTargetAsWritten(p).value, p, lists)
  {
    QueryDevices(Auto, p, lists)
  }

  /**
   * On each system the native listing wins whenever it is compiled in, and on a system
   * outside Linux, Windows, macOS and iOS nothing is chosen.
   */
  lemma AutoPrefersNative(p: Platform, lists: DeviceLists)
    ensures p.os == "linux" && "input-v4l" in p.features ==> QueryDevices(Auto, p, lists) == lists.v4l
    ensures p.os == "windows" && "input-msmf" in p.features ==> QueryDevices(Auto, p, lists) == lists.msmf
    ensures (p.os == "macos" || p.os == "ios") && "input-avfoundation" in p.features ==> QueryDevices(Auto, p, lists) == lists.avf
    ensures p.os !in {"linux", "windows", "macos", "ios"} ==> QueryDevices(Auto, p, lists) == Err(UnsupportedOperationError(Auto))
  {
  }
}
