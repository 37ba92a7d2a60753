/**
 * The output pixel formats of the top-level crate: RGB, RGBA, luma and luma-alpha
 * renderings of a captured frame. MJPEG and YUYV frames are first decoded to RGB(A) by
 * the crate's decoders, which are parameters here; GRAY8 frames are expanded directly.
 */
module PixelFormats {
  import opened Wrappers
  import opened Numeric
  import opened LegacyTypes

  /** The frame formats these transforms match on. */
  datatype SourceFormat = MJPEG | YUYV | GRAY8

  /** The four output formats. */
  datatype PixelFormat = RgbFormat | RgbaFormat | LumaFormat | LumaAFormat

  /**
   * The decoders `mjpeg_to_rgb(data, rgba)` and `yuyv422_to_rgb(data, rgba)`, selected by
   * the first argument (never GRAY8).
   */
  type Decoder = (SourceFormat, seq<u8>, bool) -> Result<seq<u8>, NokhwaError>

  /** Each grey byte x becomes x, x, x. */
  function GreyToRgb(data: seq<u8>): (out: seq<u8>)
    ensures |out| == 3 * |data|
    ensures forall i :: 0 <= i < |data| ==> out[3 * i] == out[3 * i + 1] == out[3 * i + 2] == data[i]
  {
    if data == [] then [] else [data[0], data[0], data[0]] + GreyToRgb(data[1..])
  }

  /** Each grey byte x becomes x, x, x, 255. */
  function GreyToRgba(data: seq<u8>): (out: seq<u8>)
    ensures |out| == 4 * |data|
    ensures forall i :: 0 <= i < |data| ==>
      out[4 * i] == out[4 * i + 1] == out[4 * i + 2] == data[i] && out[4 * i + 3] == 255
  {
    if data == [] then [] else [data[0], data[0], data[0], 255] + GreyToRgba(data[1..])
  }

  /** Each grey byte x becomes x, 255. */
  function GreyToLumaA(data: seq<u8>): (out: seq<u8>)
    ensures |out| == 2 * |data|
    ensures forall i :: 0 <= i < |data| ==> out[2 * i] == data[i] && out[2 * i + 1] == 255
  {
    if data == [] then [] else [data[0], 255] + GreyToLumaA(data[1..])
  }

  /** The integer mean of one RGB triple, computed in u16 (no overflow: at most 765). */
  function Average(r: u8, g: u8, b: u8): (avg: u8)
    ensures 3 * avg <= r + g + b < 3 * avg + 3
  {
    (r + g + b) / 3
  }

  /**
   * `chunks_exact(3)` then one averaged byte per triple: the trailing one or two bytes of an
   * incomplete triple are dropped.
   */
  function RgbToLuma(rgb: seq<u8>): (out: seq<u8>)
    ensures |out| == |rgb| / 3
    ensures forall i :: 0 <= i < |out| ==> out[i] == Average(rgb[3 * i], rgb[3 * i + 1], rgb[3 * i + 2])
  {
    if |rgb| < 3 then []
    else
      var rest := RgbToLuma(rgb[3..]);
      var out := [Average(rgb[0], rgb[1], rgb[2])] + rest;
      assert forall i :: 1 <= i < |out| ==> out[i] == rest[i - 1];
      out
  }

  /** As `RgbToLuma`, each average followed by an opaque alpha byte (as a grey level would be). */
  function RgbToLumaA(rgb: seq<u8>): (out: seq<u8>)
    ensures |out| == 2 * (|rgb| / 3)
    ensures forall i :: 0 <= i < |rgb| / 3 ==>
      out[2 * i] == Average(rgb[3 * i], rgb[3 * i + 1], rgb[3 * i + 2]) && out[2 * i + 1] == 255
  {
    GreyToLumaA(RgbToLuma(rgb))
  }

  /** Applies `f` to the decoded bytes and passes a decoder error through unchanged. */
  function MapOk(r: Result<seq<u8>, NokhwaError>, f: seq<u8> -> seq<u8>): (m: Result<seq<u8>, NokhwaError>)
    ensures m.Ok? <==> r.Ok?
    ensures r.Ok? ==> m.value == f(r.value)
    ensures r.Err? ==> m.error == r.error
  {
    match r
    case Ok(v) => Ok(f(v))
    case Err(e) => Err(e)
  }

  /**
   * The output of each pixel format for a frame in `fcc`: the compressed and YUYV frames go
   * through the decoder (RGBA output asks it for RGBA, every other format for RGB, and the
   * luma formats average the decoded triples); GRAY8 frames are expanded byte by byte.
   */
  function WriteOutput(pf: PixelFormat, fcc: SourceFormat, data: seq<u8>, decode: Decoder): (r: Result<seq<u8>, NokhwaError>)
    ensures fcc == GRAY8 ==> r.Ok?
    ensures fcc != GRAY8 ==> (r.Ok? <==> decode(fcc, data, pf == RgbaFormat).Ok?)
    ensures fcc != GRAY8 && r.Err? ==> r.error == decode(fcc, data, pf == RgbaFormat).error
  {
    match fcc
    case GRAY8 => (
      match pf
      case RgbFormat => Ok(GreyToRgb(data))
      case RgbaFormat => Ok(GreyToRgba(data))
      case LumaFormat => Ok(data)
      case LumaAFormat => Ok(GreyToLumaA(data)))
    case _ => (
      var decoded := decode(fcc, data, pf == RgbaFormat);
      match pf
      case RgbFormat => decoded
      case RgbaFormat => decoded
      case LumaFormat => MapOk(decoded, RgbToLuma)
      case LumaAFormat => MapOk(decoded, RgbToLumaA))
  }

  /**
   * What each format produces from a successful decode or a GRAY8 frame: RGB and RGBA pass
   * the decoder's output through, luma averages its triples (one byte per pixel), luma-alpha
   * adds an opaque alpha; from GRAY8, RGB is 3n bytes, RGBA 4n, luma a copy, luma-alpha 2n.
   */
  lemma WriteOutputContents(pf: PixelFormat, fcc: SourceFormat, data: seq<u8>, decode: Decoder)
    ensures fcc != GRAY8 && decode(fcc, data, pf == RgbaFormat).Ok? ==>
      var rgb := decode(fcc, data, pf == RgbaFormat).value;
      WriteOutput(pf, fcc, data, decode).value ==
        match pf
        case RgbFormat => rgb
        case RgbaFormat => rgb
        case LumaFormat => RgbToLuma(rgb)
        case LumaAFormat => RgbToLumaA(rgb)
    ensures fcc != GRAY8 && pf == LumaFormat && decode(fcc, data, false).Ok? ==>
      |WriteOutput(pf, fcc, data, decode).value| == |decode(fcc, data, false).value| / 3
    ensures fcc == GRAY8 ==>
      WriteOutput(pf, fcc, data, decode).value ==
        match pf
        case RgbFormat => GreyToRgb(data)
        case RgbaFormat => GreyToRgba(data)
        case LumaFormat => data
        case LumaAFormat => GreyToLumaA(data)
    ensures fcc == GRAY8 ==>
      |WriteOutput(pf, fcc, data, decode).value| ==
        (match pf case RgbFormat => 3 case RgbaFormat => 4 case LumaFormat => 1 case LumaAFormat => 2) * |data|
  {
  }

  /** A grey level expanded to RGB and averaged back is unchanged. */
  lemma GreyRgbLumaRoundTrip(data: seq<u8>)
    ensures RgbToLuma(GreyToRgb(data)) == data
  {
    var rgb := GreyToRgb(data);
    var out := RgbToLuma(rgb);
    assert |out| == |data|;
    forall i | 0 <= i < |data|
      ensures out[i] == data[i]
    {
      assert rgb[3 * i] == rgb[3 * i + 1] == rgb[3 * i + 2] == data[i];
      AverageOfGrey(data[i]);
    }
  }

  /** The mean of three equal levels is that level. */
  lemma AverageOfGrey(x: u8)
    ensures Average(x, x, x) == x
  {
  }
}
