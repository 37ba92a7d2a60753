/**
 * The integer YUYV 4:2:2 to RGB888 conversion of the top-level crate. Each 4-byte group
 * (Y1, U, Y2, V) becomes two RGB pixels that share the group's chroma. The per-sample
 * formula is the same as the core crate's `yuyv444_to_rgb` and is taken from there.
 */
module LegacyConvert {
  import opened Wrappers
  import opened Numeric
  import opened LegacyTypes
  import YuvConvert

  /** A conversion of one (Y, U, V) sample to an output pixel. */
  type PixelConversion = (u8, u8, u8) -> seq<u8>

  /** A conversion whose every output pixel is three bytes long. */
  predicate ThreeBytes(conv: PixelConversion)
  {
    forall y: u8, u: u8, v: u8 :: |conv(y, u, v)| == 3
  }

  /** The output of group `k` under `conv`: pixel (Y1, U, V) then pixel (Y2, U, V). */
  function GroupPixelsWith(conv: PixelConversion, data: seq<u8>, k: nat): (px: seq<u8>)
    requires ThreeBytes(conv) && 4 * k + 4 <= |data|
    ensures |px| == 6
  {
    var y1, u, y2, v := data[4 * k], data[4 * k + 1], data[4 * k + 2], data[4 * k + 3];
    conv(y1, u, v) + conv(y2, u, v)
  }

  /** The output of the first `n` groups under `conv`, in input order. */
  function GroupsWith(conv: PixelConversion, data: seq<u8>, n: nat): (rgb: seq<u8>)
    requires ThreeBytes(conv) && 4 * n <= |data|
  {
    if n == 0 then [] else GroupsWith(conv, data, n - 1) + GroupPixelsWith(conv, data, n - 1)
  }

  lemma {:induction false} GroupsWithLength(conv: PixelConversion, data: seq<u8>, n: nat)
    requires ThreeBytes(conv) && 4 * n <= |data|
    ensures |GroupsWith(conv, data, n)| == 6 * n
  {
    if n > 0 {
      GroupsWithLength(conv, data, n - 1);
    }
  }

  /** Whatever the per-pixel conversion, the groups' outputs follow one another, six bytes each. */
  lemma {:induction false} GroupsWithLayout(conv: PixelConversion, data: seq<u8>, n: nat, k: nat)
    requires ThreeBytes(conv) && 4 * n <= |data| && k < n
    ensures 6 * k + 6 <= |GroupsWith(conv, data, n)|
    ensures GroupsWith(conv, data, n)[6 * k .. 6 * k + 6] == GroupPixelsWith(conv, data, k)
  {
    var prev, next := GroupsWith(conv, data, n - 1), GroupPixelsWith(conv, data, n - 1);
    assert GroupsWith(conv, data, n) == prev + next;
    GroupsWithLength(conv, data, n - 1);
    if k < n - 1 {
      GroupsWithLayout(conv, data, n - 1, k);
      SliceOfLeft(prev, next, 6 * k, 6 * k + 6);
    } else {
      SliceOfRight(prev, next);
    }
  }

  /** One more group appends its two converted pixels. */
  lemma GroupsWithStep(conv: PixelConversion, data: seq<u8>, n: nat)
    requires ThreeBytes(conv) && 4 * n + 4 <= |data|
    ensures GroupsWith(conv, data, n + 1) ==
      GroupsWith(conv, data, n) + conv(data[4 * n], data[4 * n + 1], data[4 * n + 3]) + conv(data[4 * n + 2], data[4 * n + 1], data[4 * n + 3])
  {
  }

  /** The six output bytes of group `k`: pixel (Y1, U, V) then pixel (Y2, U, V). */
  function GroupPixels(data: seq<u8>, k: nat): (px: seq<u8>)
    requires 4 * k + 4 <= |data|
    ensures |px| == 6
    ensures px[..3] == YuvConvert.Yuyv444ToRgb(data[4 * k], data[4 * k + 1], data[4 * k + 3])
    ensures px[3..] == YuvConvert.Yuyv444ToRgb(data[4 * k + 2], data[4 * k + 1], data[4 * k + 3])
  {
    GroupPixelsWith(YuvConvert.Yuyv444ToRgb, data, k)
  }

  /** The conversion of the first `n` groups, in input order. */
  function Groups(data: seq<u8>, n: nat): (rgb: seq<u8>)
    requires 4 * n <= |data|
  {
    GroupsWith(YuvConvert.Yuyv444ToRgb, data, n)
  }

  /**
   * The converted groups are laid out one after another: `n` groups give 6n bytes, and
   * bytes 6k .. 6k + 6 are group k's two pixels.
   */
  lemma GroupsLayout(data: seq<u8>, n: nat, k: nat)
    requires 4 * n <= |data|
    ensures |Groups(data, n)| == 6 * n
    ensures k < n ==> Groups(data, n)[6 * k .. 6 * k + 6] == GroupPixels(data, k)
  {
    assert ThreeBytes(YuvConvert.Yuyv444ToRgb);
    GroupsWithLength(YuvConvert.Yuyv444ToRgb, data, n);
    if k < n {
      GroupsWithLayout(YuvConvert.Yuyv444ToRgb, data, n, k);
    }
  }

  /** A slice within the left operand of a concatenation is that operand's slice. */
  lemma SliceOfLeft(a: seq<u8>, b: seq<u8>, i: nat, j: nat)
    requires i <= j <= |a|
    ensures (a + b)[i..j] == a[i..j]
  {
  }

  /** The slice past the left operand of a concatenation is the right operand. */
  lemma SliceOfRight(a: seq<u8>, b: seq<u8>)
    ensures (a + b)[|a|..|a| + |b|] == b
  {
  }

  /** The error for an input whose length is not a multiple of four. */
  const NOT_422_ERROR: NokhwaError :=
    ProcessFrameError(YUYV, "RGB888", "Assertion failure, the YUV stream isn't 4:2:2! (wrong number of bytes)")

  /**
   * `yuyv422_to_rgb888`: an input whose length is not a multiple of four is rejected;
   * otherwise every 4-byte group, in order, contributes its two pixels. (The per-byte reads
   * and `i32` conversions of the source cannot fail once the length is checked.)
   */
  method Yuyv422ToRgb888(data: seq<u8>) returns (r: Result<seq<u8>, NokhwaError>)
    ensures r.Err? <==> |data| % 4 != 0
    ensures r.Err? ==> r.error == NOT_422_ERROR
    ensures r.Ok? ==> r.value == Groups(data, |data| / 4)
  {
    if |data| % 4 != 0 {
      return Err(NOT_422_ERROR);
    }
    assert ThreeBytes(YuvConvert.Yuyv444ToRgb);
    var rgb := ConvertGroups(YuvConvert.Yuyv444ToRgb, data);
    return Ok(rgb);
  }

  /**
   * The loop of `yuyv422_to_rgb888` over the 4-byte groups, with the per-sample conversion
   * (`yuyv444_to_rgb` there) as a parameter.
   */
  method ConvertGroups(conv: PixelConversion, data: seq<u8>) returns (rgb: seq<u8>)
    requires ThreeBytes(conv) && |data| % 4 == 0
    ensures rgb == GroupsWith(conv, data, |data| / 4)
  {
    ghost var n := |data| / 4;
    assert |data| == 4 * n;
    rgb := [];
    var px_idx := 0;
    ghost var g: nat := 0;
    while px_idx < |data|
      invariant px_idx == 4 * g && g <= n
      invariant rgb == GroupsWith(conv, data, g)
    {
      var y1, u, y2, v := data[px_idx], data[px_idx + 1], data[px_idx + 2], data[px_idx + 3];
      var pixel1 := conv(y1, u, v);
      var pixel2 := conv(y2, u, v);
      GroupsWithStep(conv, data, g);
      rgb := rgb + pixel1 + pixel2;
      px_idx := px_idx + 4;
      g := g + 1;
    }
  }

  /**
   * The output of an accepted input has 6 bytes per group, and bytes 6k .. 6k + 6 convert
   * group k: (Y1, U, V) then (Y2, U, V).
   */
  lemma Yuyv422ToRgb888Layout(data: seq<u8>, k: nat)
    requires |data| % 4 == 0 && k < |data| / 4
    ensures |Groups(data, |data| / 4)| == 6 * (|data| / 4)
    ensures Groups(data, |data| / 4)[6 * k .. 6 * k + 3] == YuvConvert.Yuyv444ToRgb(data[4 * k], data[4 * k + 1], data[4 * k + 3])
    ensures Groups(data, |data| / 4)[6 * k + 3 .. 6 * k + 6] == YuvConvert.Yuyv444ToRgb(data[4 * k + 2], data[4 * k + 1], data[4 * k + 3])
  {
    var n := |data| / 4;
    GroupsLayout(data, n, k);
    var out := Groups(data, n);
    assert out[6 * k .. 6 * k + 3] == out[6 * k .. 6 * k + 6][..3];
    assert out[6 * k + 3 .. 6 * k + 6] == out[6 * k .. 6 * k + 6][3..];
  }
}
