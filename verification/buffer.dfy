/** The frame buffer a camera hands back: resolution, an owned copy of the bytes, and their format. */
module Buffers {
  import opened Numeric
  import opened CoreTypes

  /** A captured frame; the byte payload is a value, so the buffer owns its copy. */
  datatype Buffer = Buffer(resolution: Resolution, buffer: seq<u8>, source_frame_format: FrameFormat)

  /** `Buffer::new`: stores the resolution and format and copies the slice. */
  function BufferNew(res: Resolution, buf: seq<u8>, source_frame_format: FrameFormat): (b: Buffer)
    ensures BufferResolution(b) == res
    ensures |BufferBytes(b)| == |buf| && forall i :: 0 <= i < |buf| ==> BufferBytes(b)[i] == buf[i]
    ensures BufferSourceFrameFormat(b) == source_frame_format
  {
    Buffer(res, buf, source_frame_format)
  }

  /** `resolution()`. */
  function BufferResolution(b: Buffer): Resolution
  {
    b.resolution
  }

  /** `buffer()`: the stored bytes. */
  function BufferBytes(b: Buffer): seq<u8>
  {
    b.buffer
  }

  /** `buffer_bytes()`: an owned clone of the same bytes. */
  function BufferBytesOwned(b: Buffer): (bytes: seq<u8>)
    ensures bytes == BufferBytes(b)
  {
    b.buffer
  }

  /** `source_frame_format()`. */
  function BufferSourceFrameFormat(b: Buffer): FrameFormat
  {
    b.source_frame_format
  }

  /**
   * The derived equality: two buffers are equal exactly when their resolutions, bytes and
   * formats are; in particular two calls to `new` with equal arguments give equal buffers,
   * and the getters recover the arguments.
   */
  lemma BufferEquality(a: Buffer, b: Buffer)
    ensures a == b <==>
      BufferResolution(a) == BufferResolution(b) && BufferBytes(a) == BufferBytes(b)
      && BufferSourceFrameFormat(a) == BufferSourceFrameFormat(b)
    ensures a == BufferNew(BufferResolution(a), BufferBytes(a), BufferSourceFrameFormat(a))
  {
  }
}
