/**
 * Frame-format categories, platform-specific format codes and the source format of a buffer:
 * constructors, tuple conversions and the mixed-type equalities.
 */
module FrameFormats {
  import opened Numeric
  import opened CoreTypes

  /** `FrameFormat::COMPRESSED`: the encoded (non-raw) formats. */
  const COMPRESSED: seq<FrameFormat> := [H263, H264, H265, Avc1, Mpeg1, Mpeg2, Mpeg4, MJpeg, XVid, VP8, VP9]

  /** `FrameFormat::CHROMA`: the YCbCr layouts (the two IMC entries are not variants of the enum). */
  const CHROMA: seq<FrameFormat> := [Yuv422, Uyv422, Nv12, Nv21, Yv12]

  /** `FrameFormat::LUMA`. */
  const LUMA: seq<FrameFormat> := [Luma8]

  /** `FrameFormat::RGB`. */
  const RGB: seq<FrameFormat> := [Rgb8, RgbA8]

  /** `FrameFormat::ALL`, in its listed order. */
  const ALL: seq<FrameFormat> :=
    [H263, H264, H265, Avc1, Mpeg1, Mpeg2, Mpeg4, MJpeg, XVid, VP8, VP9,
     Yuv422, Uyv422, Nv12, Nv21, Yv12, Luma8, Rgb8, RgbA8]

  /**
   * The four category lists are pairwise disjoint, together they are exactly `ALL` in order,
   * and every format except `Custom` belongs to one of them.
   */
  lemma CategoriesPartition(f: FrameFormat)
    ensures !(f in COMPRESSED && f in CHROMA) && !(f in COMPRESSED && f in LUMA) && !(f in COMPRESSED && f in RGB)
    ensures !(f in CHROMA && f in LUMA) && !(f in CHROMA && f in RGB) && !(f in LUMA && f in RGB)
    ensures ALL == COMPRESSED + CHROMA + LUMA + RGB
    ensures f in ALL <==> !f.Custom?
  {
    CategoriesConcat();
    CategoriesDisjoint(f);
  }

  lemma CategoriesConcat()
    ensures ALL == COMPRESSED + CHROMA + LUMA + RGB
  {
  }

  lemma CategoriesDisjoint(f: FrameFormat)
    ensures !(f in COMPRESSED && f in CHROMA) && !(f in COMPRESSED && f in LUMA) && !(f in COMPRESSED && f in RGB)
    ensures !(f in CHROMA && f in LUMA) && !(f in CHROMA && f in RGB) && !(f in LUMA && f in RGB)
  {
  }

  /** A capture-API specific format code, tagged with the API it belongs to. */
  datatype PlatformFrameFormat = PlatformFrameFormat(backend: ApiBackend, format: u128)

  /** `PlatformFrameFormat::new`. */
  function PlatformNew(backend: ApiBackend, format: u128): (p: PlatformFrameFormat)
    ensures p.backend == backend && p.format == format
  {
    PlatformFrameFormat(backend, format)
  }

  /** `as_tuple`, which is also `From<PlatformFrameFormat> for (ApiBackend, u128)`. */
  function AsTuple(p: PlatformFrameFormat): (t: (ApiBackend, u128))
    ensures t.0 == p.backend && t.1 == p.format
  {
    (p.backend, p.format)
  }

  /** `From<(ApiBackend, u128)> for PlatformFrameFormat`. */
  function PlatformFromTuple(t: (ApiBackend, u128)): (p: PlatformFrameFormat)
    ensures p == PlatformNew(t.0, t.1)
  {
    PlatformNew(t.0, t.1)
  }

  /** `PartialEq<(ApiBackend, u128)> for PlatformFrameFormat`: compares the tuple view. */
  predicate PlatformEqTuple(p: PlatformFrameFormat, t: (ApiBackend, u128))
  {
    AsTuple(p) == t
  }

  /**
   * The conversions between a platform format and its tuple are mutually inverse, and the
   * tuple equality agrees with the conversion.
   */
  lemma PlatformTupleRoundTrip(b: ApiBackend, f: u128, p: PlatformFrameFormat, t: (ApiBackend, u128))
    ensures AsTuple(PlatformNew(b, f)) == (b, f)
    ensures PlatformFromTuple(AsTuple(p)) == p
    ensures AsTuple(PlatformFromTuple(t)) == t
    ensures PlatformEqTuple(p, t) <==> p == PlatformFromTuple(t)
  {
  }

  /** The source format of a buffer: a generic frame format or a platform code. */
  datatype SourceFrameFormat = FrameFormat(ff: CoreTypes.FrameFormat) | PlatformSpecific(pff: PlatformFrameFormat)

  /** `From<FrameFormat> for SourceFrameFormat`. */
  function SourceFromFrameFormat(f: CoreTypes.FrameFormat): (s: SourceFrameFormat)
    ensures s.FrameFormat? && s.ff == f
  {
    FrameFormat(f)
  }

  /** `From<(ApiBackend, u128)> for SourceFrameFormat`, through the platform conversion. */
  function SourceFromTuple(t: (ApiBackend, u128)): (s: SourceFrameFormat)
    ensures s.PlatformSpecific? && AsTuple(s.pff) == t
  {
    PlatformSpecific(PlatformFromTuple(t))
  }

  /** `From<PlatformFrameFormat> for SourceFrameFormat`. */
  function SourceFromPlatform(p: PlatformFrameFormat): (s: SourceFrameFormat)
    ensures s.PlatformSpecific? && s.pff == p
  {
    PlatformSpecific(p)
  }

  /** `PartialEq<FrameFormat> for SourceFrameFormat`. */
  function SourceEqFrameFormat(s: SourceFrameFormat, f: CoreTypes.FrameFormat): (r: bool)
    ensures r <==> s == SourceFromFrameFormat(f)
    ensures s.PlatformSpecific? ==> !r
  {
    match s
    case FrameFormat(ff) => ff == f
    case PlatformSpecific(_) => false
  }

  /** `PartialEq<(ApiBackend, u128)> for SourceFrameFormat`. */
  function SourceEqTuple(s: SourceFrameFormat, t: (ApiBackend, u128)): (r: bool)
    ensures r <==> s == SourceFromTuple(t)
    ensures s.FrameFormat? ==> !r
  {
    match s
    case FrameFormat(_) => false
    case PlatformSpecific(pff) => PlatformEqTuple(pff, t)
  }

  /** `PartialEq<PlatformFrameFormat> for SourceFrameFormat`. */
  function SourceEqPlatform(s: SourceFrameFormat, p: PlatformFrameFormat): (r: bool)
    ensures r <==> s == SourceFromPlatform(p)
    ensures s.FrameFormat? ==> !r
  {
    match s
    case FrameFormat(_) => false
    case PlatformSpecific(pff) => pff == p
  }

  /**
   * The three equalities agree with each other: a source format equals a platform format iff
   * it equals that format's tuple, and no source format equals both a frame format and a
   * platform code.
   */
  lemma SourceEqualitiesAgree(s: SourceFrameFormat, f: CoreTypes.FrameFormat, p: PlatformFrameFormat)
    ensures SourceEqPlatform(s, p) <==> SourceEqTuple(s, AsTuple(p))
    ensures !(SourceEqFrameFormat(s, f) && SourceEqPlatform(s, p))
    ensures SourceEqFrameFormat(SourceFromFrameFormat(f), f)
    ensures SourceFromTuple(AsTuple(p)) == SourceFromPlatform(p)
  {
  }
}
