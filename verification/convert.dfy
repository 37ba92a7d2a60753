/**
 * The integer colour conversions of the core crate: one YCbCr 4:4:4 sample to RGB(A), the
 * predicted size of a converted YUYV frame, and NV12 (4:2:0 bi-planar) to RGB(A) into a
 * caller-supplied buffer.
 */
module YuvConvert {
  import opened Wrappers
  import opened Numeric
  import opened CoreTypes

  /** An `i32` shifted right by 8 (an arithmetic shift, i.e. floor division) and clamped to a byte. */
  function ShiftClamp(x: int): u8
  {
    Clamp(x / 256, 0, 255)
  }

  /**
   * `yuyv444_to_rgb`: the integer form of the studio-range inverse of ITU-R BT.601
   * (section 2.5): luma offset 16 scaled by 298/256, chroma offsets 128.
   */
  function Yuyv444ToRgb(y: u8, u: u8, v: u8): (px: seq<u8>)
    ensures |px| == 3
  {
    var c298 := (y - 16) * 298;
    var d := u - 128;
    var e := v - 128;
    [ShiftClamp(c298 + 409 * e + 128), ShiftClamp(c298 - 100 * d - 208 * e + 128), ShiftClamp(c298 + 516 * d + 128)]
  }

  /** `yuyv444_to_rgba`: the RGB triple followed by an opaque alpha byte. */
  function Yuyv444ToRgba(y: u8, u: u8, v: u8): (px: seq<u8>)
    ensures |px| == 4 && px[..3] == Yuyv444ToRgb(y, u, v) && px[3] == 255
  {
    Yuyv444ToRgb(y, u, v) + [255]
  }

  /** With neutral chroma (U = V = 128) the three channels are equal: the output is grey. */
  lemma Yuyv444Grey(y: u8)
    ensures var px := Yuyv444ToRgb(y, 128, 128); px[0] == px[1] == px[2] == ShiftClamp((y - 16) * 298 + 128)
  {
  }

  /** Studio black (16, 128, 128) maps to (0, 0, 0) and studio white (235, 128, 128) to (255, 255, 255). */
  lemma Yuyv444BlackWhite()
    ensures Yuyv444ToRgb(16, 128, 128) == [0, 0, 0]
    ensures Yuyv444ToRgb(235, 128, 128) == [255, 255, 255]
  {
  }

  /**
   * Over the studio luma range 16..235 with neutral chroma, the grey level is within one
   * step of the exact full-range value 255 (Y - 16) / 219 that BT.601 quantisation inverts.
   */
  lemma {:induction false} Yuyv444GreyWithinOne(y: u8)
    requires 16 <= y <= 235
    ensures var g := Yuyv444ToRgb(y, 128, 128)[0];
      219 * g <= 255 * (y - 16) + 219 && 255 * (y - 16) - 219 <= 219 * g
  {
    var k := y - 16;
    var t := 298 * k + 128;
    var q := t / 256;
    assert 256 * q <= t < 256 * q + 256;
    assert 0 <= q <= 255;
    assert Yuyv444ToRgb(y, 128, 128)[0] == q;
  }

  /** For fixed chroma every channel is monotone in luma. */
  lemma {:induction false} Yuyv444MonotoneInLuma(y1: u8, y2: u8, u: u8, v: u8)
    requires y1 <= y2
    ensures forall i :: 0 <= i < 3 ==> Yuyv444ToRgb(y1, u, v)[i] <= Yuyv444ToRgb(y2, u, v)[i]
  {
    var a, b := Yuyv444ToRgb(y1, u, v), Yuyv444ToRgb(y2, u, v);
    var d := (y2 - y1) * 298;
    assert d >= 0;
    forall x: int, z: int | x <= z ensures ShiftClamp(x) <= ShiftClamp(z) {
      DivMonotone(x, z);
    }
  }

  lemma DivMonotone(x: int, z: int)
    requires x <= z
    ensures x / 256 <= z / 256
  {
  }

  function PxSize(rgba: bool): nat { if rgba then 4 else 3 }

  /**
   * `yuyv422_predicted_size`: two output pixels per complete 4-byte YUYV group; trailing
   * bytes of an incomplete group add nothing.
   */
  function Yuyv422PredictedSize(size: nat, rgba: bool): (n: nat)
    ensures n % (2 * PxSize(rgba)) == 0 && n / (2 * PxSize(rgba)) == size / 4
  {
    (size / 4) * (2 * PxSize(rgba))
  }

  /** Bytes past the last complete 4-byte group do not change the predicted size. */
  lemma PredictedSizeIgnoresTail(size: nat, rgba: bool)
    ensures Yuyv422PredictedSize(size, rgba) == Yuyv422PredictedSize(size - size % 4, rgba)
    ensures Yuyv422PredictedSize(size, rgba) == (if rgba then 8 else 6) * (size / 4)
  {
    assert (size - size % 4) / 4 == size / 4;
  }

  /** One converted pixel, three or four bytes. */
  function PixelBytes(y: u8, u: u8, v: u8, rgba: bool): (px: seq<u8>)
    ensures |px| == PxSize(rgba)
  {
    if rgba then Yuyv444ToRgba(y, u, v) else Yuyv444ToRgb(y, u, v)
  }

  /**
   * The input layout NV12 requires: even dimensions, a full luma plane of w*h bytes and an
   * interleaved chroma plane of half that size.
   */
  predicate Nv12Shape(w: nat, h: nat, data: seq<u8>)
  {
    w % 2 == 0 && h % 2 == 0 && |data| == (Mul(h, w) * 3) / 2
  }

  lemma LumaBound(w: nat, h: nat, row: nat, col: nat)
    requires row < h && col < w
    ensures Mul(row, w) + col < Mul(h, w)
  {
    MulMono(row + 1, h, w);
  }

  lemma ChromaBound(w: nat, h: nat, row: nat, col: nat)
    requires w % 2 == 0 && h % 2 == 0 && row < h && col < w
    ensures Mul(h, w) + Mul(row / 2, w) + 2 * (col / 2) + 1 < (Mul(h, w) * 3) / 2
  {
    var m := Mul(h / 2, w);
    MulTwice(h / 2, w);
    assert 2 * (h / 2) == h;
    HalfOfTriple(Mul(h, w), m);
    MulStepBound(row / 2, h / 2, w, w - 1);
    EvenPairBound(col, w);
  }

  lemma HalfOfTriple(x: nat, m: nat)
    requires x == 2 * m
    ensures (x * 3) / 2 == 3 * m
  {
  }

  /** The second byte of the even-aligned pair holding `col` lies within an even width. */
  lemma EvenPairBound(col: nat, w: nat)
    requires w % 2 == 0 && col < w
    ensures 2 * (col / 2) + 1 < w
  {
  }

  /** The luma sample of pixel (row, col). */
  function Nv12Luma(w: nat, h: nat, data: seq<u8>, row: nat, col: nat): u8
    requires Nv12Shape(w, h, data) && row < h && col < w
  {
    LumaBound(w, h, row, col);
    data[Mul(row, w) + col]
  }

  /** The blue-difference sample shared by the 2x2 block that holds pixel (row, col). */
  function Nv12U(w: nat, h: nat, data: seq<u8>, row: nat, col: nat): u8
    requires Nv12Shape(w, h, data) && row < h && col < w
  {
    ChromaBound(w, h, row, col);
    data[Mul(h, w) + Mul(row / 2, w) + 2 * (col / 2)]
  }

  /** The red-difference sample that follows it in the interleaved chroma plane. */
  function Nv12V(w: nat, h: nat, data: seq<u8>, row: nat, col: nat): u8
    requires Nv12Shape(w, h, data) && row < h && col < w
  {
    ChromaBound(w, h, row, col);
    data[Mul(h, w) + Mul(row / 2, w) + 2 * (col / 2) + 1]
  }

  /** The pixel at (row, col) of an NV12 frame, converted. */
  function Nv12Pixel(w: nat, h: nat, data: seq<u8>, rgba: bool, row: nat, col: nat): (px: seq<u8>)
    requires Nv12Shape(w, h, data) && row < h && col < w
    ensures |px| == PxSize(rgba)
  {
    PixelBytes(Nv12Luma(w, h, data, row, col), Nv12U(w, h, data, row, col), Nv12V(w, h, data, row, col), rgba)
  }

  /** A raster image: the bytes of the pixel at (row, col). */
  type Image = (nat, nat) -> seq<u8>

  /** Every pixel of the `w` by `h` image is `px` bytes long. */
  predicate UniformPixels(img: Image, w: nat, h: nat, px: nat)
  {
    forall row: nat, col: nat :: row < h && col < w ==> |img(row, col)| == px
  }

  /** The first `cols` pixels of row `row`, left to right. */
  function RowBytes(img: Image, row: nat, cols: nat): seq<u8>
  {
    if cols == 0 then [] else RowBytes(img, row, cols - 1) + img(row, cols - 1)
  }

  /** The first `rows` rows of an image `w` pixels wide, top to bottom. */
  function FrameBytes(img: Image, w: nat, rows: nat): seq<u8>
  {
    if rows == 0 then [] else FrameBytes(img, w, rows - 1) + RowBytes(img, rows - 1, w)
  }

  lemma {:induction false} RowBytesLength(img: Image, w: nat, h: nat, px: nat, row: nat, cols: nat)
    requires UniformPixels(img, w, h, px) && row < h && cols <= w
    ensures |RowBytes(img, row, cols)| == Mul(cols, px)
  {
    if cols > 0 {
      RowBytesLength(img, w, h, px, row, cols - 1);
    }
  }

  /** Pixel `col` of a row starts `col * px` bytes into it. */
  lemma {:induction false} RowBytesAt(img: Image, w: nat, h: nat, px: nat, row: nat, cols: nat, col: nat, ch: nat)
    requires UniformPixels(img, w, h, px) && row < h && cols <= w && col < cols && ch < px
    ensures Mul(col, px) + ch < |RowBytes(img, row, cols)|
    ensures RowBytes(img, row, cols)[Mul(col, px) + ch] == img(row, col)[ch]
  {
    RowBytesLength(img, w, h, px, row, cols - 1);
    if col < cols - 1 {
      RowBytesAt(img, w, h, px, row, cols - 1, col, ch);
    }
  }

  /** Each of the first `rows` rows of the image is `stride` bytes long. */
  predicate RowsOfStride(img: Image, w: nat, rows: nat, stride: nat)
  {
    forall row: nat :: row < rows ==> |RowBytes(img, row, w)| == stride
  }

  /** In an image of uniform pixels every row is w * px bytes long. */
  lemma UniformRows(img: Image, w: nat, h: nat, px: nat)
    requires UniformPixels(img, w, h, px)
    ensures RowsOfStride(img, w, h, Mul(w, px))
  {
    forall row: nat | row < h
      ensures |RowBytes(img, row, w)| == Mul(w, px)
    {
      RowBytesLength(img, w, h, px, row, w);
    }
  }

  lemma {:induction false} FrameBytesLength(img: Image, w: nat, rows: nat, stride: nat)
    requires RowsOfStride(img, w, rows, stride)
    ensures |FrameBytes(img, w, rows)| == Mul(rows, stride)
  {
    if rows > 0 {
      FrameBytesLength(img, w, rows - 1, stride);
    }
  }

  /** Row `row` of the frame occupies the `stride` bytes from `row * stride` on. */
  lemma {:induction false} FrameBytesAt(img: Image, w: nat, rows: nat, stride: nat, row: nat, off: nat)
    requires RowsOfStride(img, w, rows, stride) && row < rows && off < stride
    ensures Mul(row, stride) + off < |FrameBytes(img, w, rows)| && off < |RowBytes(img, row, w)|
    ensures FrameBytes(img, w, rows)[Mul(row, stride) + off] == RowBytes(img, row, w)[off]
  {
    var prev, last := FrameBytes(img, w, rows - 1), RowBytes(img, rows - 1, w);
    assert FrameBytes(img, w, rows) == prev + last;
    FrameBytesLength(img, w, rows - 1, stride);
    if row < rows - 1 {
      FrameBytesAt(img, w, rows - 1, stride, row, off);
      MulStepBound(row, rows - 1, stride, off);
      IndexOfLeft(prev, last, Mul(row, stride) + off);
    } else {
      IndexOfRight(prev, last, off);
    }
  }

  /** An offset within one stride of row `row` stays before row `rows`, for `row < rows`. */
  lemma MulStepBound(row: nat, rows: nat, stride: nat, off: nat)
    requires row < rows && off < stride
    ensures Mul(row, stride) + off < Mul(rows, stride)
  {
    MulMono(row + 1, rows, stride);
    assert Mul(row + 1, stride) == Mul(row, stride) + stride;
  }

  lemma IndexOfLeft(a: seq<u8>, b: seq<u8>, i: nat)
    requires i < |a|
    ensures (a + b)[i] == a[i]
  {
  }

  lemma IndexOfRight(a: seq<u8>, b: seq<u8>, i: nat)
    requires i < |b|
    ensures (a + b)[|a| + i] == b[i]
  {
  }

  /** Two more pixels of a row extend its bytes, after whatever precedes the row, by theirs. */
  lemma RowBytesStep(img: Image, row: nat, cidx: nat, prefix: seq<u8>, p0: seq<u8>, p1: seq<u8>)
    requires p0 == img(row, 2 * cidx) && p1 == img(row, 2 * cidx + 1)
    ensures prefix + RowBytes(img, row, 2 * cidx) + p0 + p1 == prefix + RowBytes(img, row, 2 * (cidx + 1))
  {
    assert RowBytes(img, row, 2 * cidx + 1) == RowBytes(img, row, 2 * cidx) + p0;
    assert RowBytes(img, row, 2 * (cidx + 1)) == RowBytes(img, row, 2 * cidx) + p0 + p1;
  }

  /** The row-major offset written with the multiplication spelt out. */
  lemma PixelOffsetRowMajor(w: nat, px: nat, row: nat, col: nat, ch: nat)
    ensures Mul(row, Mul(w, px)) + Mul(col, px) + ch == (row * w + col) * px + ch
  {
    MulIsProduct(w, px);
    MulIsProduct(row, w * px);
    MulIsProduct(col, px);
    assert row * (w * px) + col * px == (row * w + col) * px;
  }

  /**
   * A frame of uniform pixels is px*w*h bytes long and holds channel `ch` of the pixel at
   * (row, col) at byte (row * w + col) * px + ch.
   */
  lemma FramePixelAt(img: Image, w: nat, h: nat, px: nat, row: nat, col: nat, ch: nat)
    requires UniformPixels(img, w, h, px) && row < h && col < w && ch < px
    ensures |FrameBytes(img, w, h)| == px * w * h
    ensures var i := (row * w + col) * px + ch; 0 <= i < |FrameBytes(img, w, h)| && FrameBytes(img, w, h)[i] == img(row, col)[ch]
  {
    MulMono(col + 1, w, px);
    UniformRows(img, w, h, px);
    FrameBytesAt(img, w, h, Mul(w, px), row, Mul(col, px) + ch);
    RowBytesAt(img, w, h, px, row, w, col, ch);
    PixelOffsetRowMajor(w, px, row, col, ch);
    FrameLength(img, w, h, px);
  }

  lemma FrameLength(img: Image, w: nat, h: nat, px: nat)
    requires UniformPixels(img, w, h, px)
    ensures |FrameBytes(img, w, h)| == px * w * h
  {
    UniformRows(img, w, h, px);
    FrameBytesLength(img, w, h, Mul(w, px));
    MulIsProduct(w, px);
    MulIsProduct(h, w * px);
    assert h * (w * px) == px * w * h;
  }

  /** The converted NV12 frame as an image (empty pixels outside the frame). */
  function Nv12Image(w: nat, h: nat, data: seq<u8>, rgba: bool): Image
  {
    (row: nat, col: nat) => if Nv12Shape(w, h, data) && row < h && col < w then Nv12Pixel(w, h, data, rgba, row, col) else []
  }

  /**
   * `img` agrees with the converted NV12 frame on every pixel inside it. The trigger keeps
   * the pixel arithmetic out of proofs that only move whole pixels around.
   */
  predicate IsNv12Image(img: Image, w: nat, h: nat, data: seq<u8>, rgba: bool)
    requires Nv12Shape(w, h, data)
  {
    forall row: nat, col: nat {:trigger Nv12Pixel(w, h, data, rgba, row, col)} ::
      row < h && col < w ==> img(row, col) == Nv12Pixel(w, h, data, rgba, row, col)
  }

  lemma Nv12ImageIs(w: nat, h: nat, data: seq<u8>, rgba: bool)
    requires Nv12Shape(w, h, data)
    ensures IsNv12Image(Nv12Image(w, h, data, rgba), w, h, data, rgba)
  {
  }

  lemma Nv12ImageUniform(w: nat, h: nat, data: seq<u8>, rgba: bool)
    requires Nv12Shape(w, h, data)
    ensures UniformPixels(Nv12Image(w, h, data, rgba), w, h, PxSize(rgba))
  {
  }

  /** The bytes `buf_nv12_to_rgb` writes for a frame of the NV12 layout. */
  function Nv12Frame(w: nat, h: nat, data: seq<u8>, rgba: bool): seq<u8>
  {
    FrameBytes(Nv12Image(w, h, data, rgba), w, h)
  }

  /** The converted frame is px*w*h bytes long. */
  lemma Nv12FrameLength(w: nat, h: nat, data: seq<u8>, rgba: bool)
    requires Nv12Shape(w, h, data)
    ensures |Nv12Frame(w, h, data, rgba)| == PxSize(rgba) * w * h
  {
    Nv12ImageUniform(w, h, data, rgba);
    FrameLength(Nv12Image(w, h, data, rgba), w, h, PxSize(rgba));
  }

  /**
   * The converted frame holds, at byte (row * w + col) * px + ch, channel ch of the pixel
   * at (row, col), converted from its own luma sample and the chroma pair of its 2x2 block;
   * in RGBA mode every alpha byte is 255.
   */
  lemma Nv12FrameLayout(w: nat, h: nat, data: seq<u8>, rgba: bool, row: nat, col: nat, ch: nat)
    requires Nv12Shape(w, h, data) && row < h && col < w && ch < PxSize(rgba)
    ensures var i := (row * w + col) * PxSize(rgba) + ch;
      0 <= i < |Nv12Frame(w, h, data, rgba)| && Nv12Frame(w, h, data, rgba)[i] == Nv12Pixel(w, h, data, rgba, row, col)[ch]
  {
    Nv12ImageIs(w, h, data, rgba);
    Nv12ImageLayout(Nv12Image(w, h, data, rgba), w, h, data, rgba, row, col, ch);
  }

  /** The layout of the frame of any image that agrees with the converted NV12 frame. */
  lemma Nv12ImageLayout(img: Image, w: nat, h: nat, data: seq<u8>, rgba: bool, row: nat, col: nat, ch: nat)
    requires Nv12Shape(w, h, data) && IsNv12Image(img, w, h, data, rgba) && row < h && col < w && ch < PxSize(rgba)
    ensures var i := (row * w + col) * PxSize(rgba) + ch;
      0 <= i < |FrameBytes(img, w, h)| && FrameBytes(img, w, h)[i] == Nv12Pixel(w, h, data, rgba, row, col)[ch]
  {
    forall r: nat, c: nat | r < h && c < w
      ensures |img(r, c)| == PxSize(rgba)
    {
      assert img(r, c) == Nv12Pixel(w, h, data, rgba, r, c);
    }
    FramePixelAt(img, w, h, PxSize(rgba), row, col, ch);
    assert img(row, col) == Nv12Pixel(w, h, data, rgba, row, col);
  }

  /** Each pixel is the BT.601 conversion of its samples, followed by an opaque alpha byte in RGBA mode. */
  lemma Nv12PixelChannels(w: nat, h: nat, data: seq<u8>, rgba: bool, row: nat, col: nat)
    requires Nv12Shape(w, h, data) && row < h && col < w
    ensures Nv12Pixel(w, h, data, rgba, row, col)[..3] ==
      Yuyv444ToRgb(Nv12Luma(w, h, data, row, col), Nv12U(w, h, data, row, col), Nv12V(w, h, data, row, col))
    ensures rgba ==> Nv12Pixel(w, h, data, rgba, row, col)[3] == 255
  {
  }

  function Nv12Error(msg: string): NokhwaError
  {
    ProcessFrameError(Nv12, "RGB", msg)
  }

  /**
   * `buf_nv12_to_rgb`: checks, in this order and before writing anything, that both
   * dimensions are even, that the input holds w*h*3/2 bytes and that the output holds
   * px*w*h bytes; then writes every pixel of the frame, row by row, two pixels at a time.
   * The u32 products must not overflow, and a zero width that passes every check makes
   * `chunks_exact(0)` panic.
   */
  method BufNv12ToRgb(res: Resolution, data: seq<u8>, out: array<u8>, rgba: bool) returns (r: Result<Unit, NokhwaError>)
    requires res.width_x % 2 == 0 && res.height_y % 2 == 0 ==> res.width_x * res.height_y * 3 < U32_LIMIT
    requires res.width_x % 2 == 0 && res.height_y % 2 == 0 && |data| == (res.width_x * res.height_y * 3) / 2 ==>
      PxSize(rgba) * res.width_x * res.height_y < U32_LIMIT
    requires res.width_x == 0 && res.height_y % 2 == 0 ==> |data| != 0 || out.Length != 0
    modifies out
    ensures r.Err? ==> out[..] == old(out[..])
    ensures r == Err(Nv12Error("bad resolution")) <==> res.width_x % 2 != 0 || res.height_y % 2 != 0
    ensures r == Err(Nv12Error("bad input buffer size")) <==>
      res.width_x % 2 == 0 && res.height_y % 2 == 0 && |data| != (res.width_x * res.height_y * 3) / 2
    ensures r == Err(Nv12Error("bad output buffer size")) <==>
      Nv12Shape(res.width_x, res.height_y, data) && out.Length != PxSize(rgba) * res.width_x * res.height_y
    ensures r.Ok? <==> Nv12Shape(res.width_x, res.height_y, data) && out.Length == PxSize(rgba) * res.width_x * res.height_y
    ensures r.Ok? ==> out[..] == Nv12Frame(res.width_x, res.height_y, data, rgba)
  {
    var w: nat, h: nat := res.width_x, res.height_y;
    Nv12Dims(w, h, rgba);
    if w % 2 != 0 || h % 2 != 0 {
      return Err(Nv12Error("bad resolution"));
    }
    if |data| != (w * h * 3) / 2 {
      return Err(Nv12Error("bad input buffer size"));
    }
    var pxsize := if rgba then 4 else 3;
    if out.Length != pxsize * w * h {
      return Err(Nv12Error("bad output buffer size"));
    }
    Nv12ImageIs(w, h, data, rgba);
    ConvertFrame(w, h, data, rgba, out, Nv12Image(w, h, data, rgba));
    return Ok(Unit);
  }

  /** The sizes the checks of `buf_nv12_to_rgb` compute, in terms of `Mul`. */
  lemma Nv12Dims(w: nat, h: nat, rgba: bool)
    ensures Mul(h, w) == w * h
    ensures Mul(h, Mul(w, PxSize(rgba))) == PxSize(rgba) * w * h
  {
    RowLength(w, rgba);
    MulIsProduct(h, w);
    MulIsProduct(w, PxSize(rgba));
    MulIsProduct(h, w * PxSize(rgba));
    assert h * (w * PxSize(rgba)) == PxSize(rgba) * w * h;
  }

  /** The bytes of one converted row. */
  lemma RowLength(w: nat, rgba: bool)
    ensures Mul(w, PxSize(rgba)) == if rgba then 4 * w else 3 * w
  {
    MulIsProduct(w, PxSize(rgba));
  }

  /**
   * The conversion loops of `buf_nv12_to_rgb`, once every check has passed: the luma plane
   * is walked in rows of `w` samples (`chunks_exact(w)`, which panics for `w == 0`).
   */
  method ConvertFrame(w: nat, h: nat, data: seq<u8>, rgba: bool, out: array<u8>, ghost img: Image)
    requires Nv12Shape(w, h, data) && IsNv12Image(img, w, h, data, rgba)
    requires w > 0 && out.Length == Mul(h, Mul(w, PxSize(rgba)))
    modifies out
    ensures out[..] == FrameBytes(img, w, h)
  {
    var rowLen := Mul(w, PxSize(rgba));
    var hidx := 0;
    var rowStart := 0;
    while hidx < h
      invariant 0 <= hidx <= h
      invariant rowStart == Mul(hidx, rowLen) <= out.Length
      invariant out[..rowStart] == FrameBytes(img, w, hidx)
    {
      MulMono(hidx + 1, h, rowLen);
      ConvertRow(w, h, data, rgba, hidx, rowStart, out, img, FrameBytes(img, w, hidx));
      hidx := hidx + 1;
      rowStart := rowStart + rowLen;
    }
    assert out[..] == out[..rowStart];
  }

  /**
   * One pass of the outer loop of `buf_nv12_to_rgb`: row `hidx` is converted two pixels at
   * a time (one chroma pair per two luma samples) into the bytes that follow the rows
   * already written.
   */
  method ConvertRow(w: nat, h: nat, data: seq<u8>, rgba: bool, hidx: nat, rowStart: nat, out: array<u8>,
                    ghost img: Image, ghost done: seq<u8>)
    requires Nv12Shape(w, h, data) && IsNv12Image(img, w, h, data, rgba) && hidx < h
    requires rowStart + Mul(w, PxSize(rgba)) <= out.Length && out[..rowStart] == done
    modifies out
    ensures out[..rowStart + Mul(w, PxSize(rgba))] == done + RowBytes(img, hidx, w)
  {
    var pairLen := 2 * PxSize(rgba);
    RowLength(w, rgba);
    var pairs := w / 2;
    assert 2 * pairs == w;
    var cidx := 0;
    var base := rowStart;
    assert done + RowBytes(img, hidx, 0) == done;
    while cidx < pairs
      invariant 0 <= cidx <= pairs
      invariant base == rowStart + (if rgba then 8 * cidx else 6 * cidx)
      invariant out[..base] == done + RowBytes(img, hidx, 2 * cidx)
    {
      ConvertPair(w, h, data, rgba, hidx, cidx, base, out, img, done);
      cidx := cidx + 1;
      base := base + pairLen;
    }
  }

  /**
   * The body of the inner loop of `buf_nv12_to_rgb`: reads the two luma samples of chunk
   * `cidx` and the chroma pair of its block, converts both pixels and stores them from
   * `base` on.
   */
  method ConvertPair(w: nat, h: nat, data: seq<u8>, rgba: bool, hidx: nat, cidx: nat, base: nat, out: array<u8>,
                     ghost img: Image, ghost done: seq<u8>)
    requires Nv12Shape(w, h, data) && IsNv12Image(img, w, h, data, rgba) && hidx < h && 2 * cidx + 2 <= w
    requires base + 2 * PxSize(rgba) <= out.Length && out[..base] == done + RowBytes(img, hidx, 2 * cidx)
    modifies out
    ensures out[..base + 2 * PxSize(rgba)] == done + RowBytes(img, hidx, 2 * (cidx + 1))
  {
    var px0, px1 := ReadPair(w, h, data, rgba, hidx, cidx);
    assert px0 == img(hidx, 2 * cidx) && px1 == img(hidx, 2 * cidx + 1);
    RowBytesStep(img, hidx, cidx, done, px0, px1);
    WritePair(out, base, px0, px1, rgba);
  }

  /** The reads of one loop pass: the two luma samples of chunk `cidx` and their chroma pair, converted. */
  method ReadPair(w: nat, h: nat, data: seq<u8>, rgba: bool, hidx: nat, cidx: nat) returns (px0: seq<u8>, px1: seq<u8>)
    requires Nv12Shape(w, h, data) && hidx < h && 2 * cidx + 2 <= w
    ensures px0 == Nv12Pixel(w, h, data, rgba, hidx, 2 * cidx)
    ensures px1 == Nv12Pixel(w, h, data, rgba, hidx, 2 * cidx + 1)
  {
    PairPixels(w, h, data, rgba, hidx, cidx);
    var ySection, chromaRow, lumaRow := Mul(h, w), Mul(hidx / 2, w), Mul(hidx, w);
    var u := data[ySection + chromaRow + cidx * 2];
    var v := data[ySection + chromaRow + cidx * 2 + 1];
    var y0 := data[lumaRow + cidx * 2];
    var y1 := data[lumaRow + cidx * 2 + 1];
    px0 := PixelBytes(y0, u, v, rgba);
    px1 := PixelBytes(y1, u, v, rgba);
  }

  /** The explicit byte stores of one loop pass: two pixels, three or four bytes each, from `base` on. */
  method WritePair(out: array<u8>, base: nat, p0: seq<u8>, p1: seq<u8>, rgba: bool)
    requires |p0| == |p1| == PxSize(rgba) && base + 2 * PxSize(rgba) <= out.Length
    modifies out
    ensures out[..base + 2 * PxSize(rgba)] == old(out[..base]) + p0 + p1
  {
    if rgba {
      out[base] := p0[0];
      out[base + 1] := p0[1];
      out[base + 2] := p0[2];
      out[base + 3] := p0[3];
      out[base + 4] := p1[0];
      out[base + 5] := p1[1];
      out[base + 6] := p1[2];
      out[base + 7] := p1[3];
    } else {
      out[base] := p0[0];
      out[base + 1] := p0[1];
      out[base + 2] := p0[2];
      out[base + 3] := p1[0];
      out[base + 4] := p1[1];
      out[base + 5] := p1[2];
    }
  }

  /** The luma samples the loop reads for pixel pair `cidx` of row `hidx` are those of the specification. */
  lemma LumaPair(w: nat, h: nat, data: seq<u8>, hidx: nat, cidx: nat)
    requires Nv12Shape(w, h, data) && hidx < h && 2 * cidx + 2 <= w
    ensures Mul(hidx, w) + cidx * 2 + 1 < |data|
    ensures Nv12Luma(w, h, data, hidx, 2 * cidx) == data[Mul(hidx, w) + cidx * 2]
    ensures Nv12Luma(w, h, data, hidx, 2 * cidx + 1) == data[Mul(hidx, w) + cidx * 2 + 1]
  {
    LumaBound(w, h, hidx, 2 * cidx + 1);
  }

  /** The two pixels of chunk `cidx` are the conversions of the samples the loop reads. */
  lemma PairPixels(w: nat, h: nat, data: seq<u8>, rgba: bool, hidx: nat, cidx: nat)
    requires Nv12Shape(w, h, data) && hidx < h && 2 * cidx + 2 <= w
    ensures Mul(hidx, w) + cidx * 2 + 1 < |data| && Mul(h, w) + Mul(hidx / 2, w) + cidx * 2 + 1 < |data|
    ensures var c := Mul(h, w) + Mul(hidx / 2, w) + cidx * 2;
      Nv12Pixel(w, h, data, rgba, hidx, 2 * cidx) == PixelBytes(data[Mul(hidx, w) + cidx * 2], data[c], data[c + 1], rgba) &&
      Nv12Pixel(w, h, data, rgba, hidx, 2 * cidx + 1) == PixelBytes(data[Mul(hidx, w) + cidx * 2 + 1], data[c], data[c + 1], rgba)
  {
    LumaPair(w, h, data, hidx, cidx);
    ChromaPair(w, h, data, hidx, cidx);
  }

  /** Both pixels of the pair share the chroma samples the loop reads. */
  lemma ChromaPair(w: nat, h: nat, data: seq<u8>, hidx: nat, cidx: nat)
    requires Nv12Shape(w, h, data) && hidx < h && 2 * cidx + 2 <= w
    ensures Mul(h, w) + Mul(hidx / 2, w) + cidx * 2 + 1 < |data|
    ensures Nv12U(w, h, data, hidx, 2 * cidx) == Nv12U(w, h, data, hidx, 2 * cidx + 1) == data[Mul(h, w) + Mul(hidx / 2, w) + cidx * 2]
    ensures Nv12V(w, h, data, hidx, 2 * cidx) == Nv12V(w, h, data, hidx, 2 * cidx + 1) == data[Mul(h, w) + Mul(hidx / 2, w) + cidx * 2 + 1]
  {
    ChromaBound(w, h, hidx, 2 * cidx + 1);
    assert (2 * cidx) / 2 == cidx && (2 * cidx + 1) / 2 == cidx;
  }

  /**
   * `nv12_to_rgb`: allocates an output of exactly px*w*h bytes, so only the resolution and
   * input-size checks can fail; on success the result is the converted frame.
   */
  method Nv12ToRgb(res: Resolution, data: seq<u8>, rgba: bool) returns (r: Result<seq<u8>, NokhwaError>)
    requires PxSize(rgba) * res.width_x * res.height_y < U32_LIMIT
    requires res.width_x == 0 && res.height_y % 2 == 0 ==> |data| != 0
    ensures r.Ok? <==> Nv12Shape(res.width_x, res.height_y, data)
    ensures r.Err? ==> r.error == Nv12Error(if res.width_x % 2 != 0 || res.height_y % 2 != 0 then "bad resolution" else "bad input buffer size")
    ensures r.Ok? ==> |r.value| == PxSize(rgba) * res.width_x * res.height_y
    ensures r.Ok? ==> r.value == Nv12Frame(res.width_x, res.height_y, data, rgba)
  {
    var dest := new u8[PxSize(rgba) * res.width_x * res.height_y];
    MulIsProduct(res.height_y, res.width_x);
    assert res.width_x * res.height_y * 3 <= PxSize(rgba) * res.width_x * res.height_y;
    var done := BufNv12ToRgb(res, data, dest, rgba);
    if done.Err? {
      return Err(done.error);
    }
    return Ok(dest[..]);
  }
}
