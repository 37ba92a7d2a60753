/** The default frame-size prediction shared by every decoder. */
module Decoders {
  import opened Wrappers
  import opened Numeric
  import opened CoreTypes
  import opened Buffers

  /** The largest `usize` plus one on a 64-bit target. */
  const USIZE_LIMIT: int := 0x1_0000_0000_0000_0000

  /**
   * `Decoder::predicted_size_of_frame`. The decoder's associated constants are parameters:
   * the formats it accepts, the byte size of one subpixel and the channels per output pixel.
   * The product is a `usize`; it is required not to overflow.
   */
  function PredictedSizeOfFrame(allowed: seq<FrameFormat>, subpixelSize: nat, channelCount: nat, buffer: Buffer)
    : (r: Option<nat>)
    requires buffer.resolution.width_x * buffer.resolution.height_y * subpixelSize * channelCount < USIZE_LIMIT
    ensures r.None? <==> buffer.source_frame_format !in allowed
    ensures r.Some? ==> r.value == buffer.resolution.width_x * buffer.resolution.height_y * subpixelSize * channelCount
  {
    if buffer.source_frame_format !in allowed then None
    else
      var res := BufferResolution(buffer);
      Some(res.width_x * res.height_y * subpixelSize * channelCount)
  }

  /**
   * The prediction reads only the resolution and the format, never the bytes, and an empty
   * frame (zero width or height) of an accepted format is predicted to be zero bytes.
   */
  lemma PredictedSizeIgnoresBytes(allowed: seq<FrameFormat>, subpixelSize: nat, channelCount: nat,
                                  res: Resolution, f: FrameFormat, a: seq<u8>, b: seq<u8>)
    requires res.width_x * res.height_y * subpixelSize * channelCount < USIZE_LIMIT
    ensures PredictedSizeOfFrame(allowed, subpixelSize, channelCount, BufferNew(res, a, f))
         == PredictedSizeOfFrame(allowed, subpixelSize, channelCount, BufferNew(res, b, f))
    ensures f in allowed && (res.width_x == 0 || res.height_y == 0) ==>
      PredictedSizeOfFrame(allowed, subpixelSize, channelCount, BufferNew(res, a, f)) == Some(0)
  {
  }
}
