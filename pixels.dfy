/**
 * The pixel-format conversion of the screenshot loop: a captured frame holds
 * four bytes per pixel in blue, green, red, unused order; the image written
 * to disk wants red, green, blue, alpha with the alpha fully opaque.
 */
module Pixels {

  newtype byte = x: int | 0 <= x < 256

  /** Alpha value of a fully opaque pixel. */
  const Opaque: byte := 255

  /** Pixel `k` of a four-bytes-per-pixel buffer. */
  function PixelAt(buf: seq<byte>, k: nat): seq<byte>
    requires 4 * k + 4 <= |buf|
  {
    buf[4 * k .. 4 * k + 4]
  }

  /**
   * The conversion loop of `start_capture`: for every complete four-byte chunk
   * of the frame, in order, the bytes at offsets 2, 1 and 0 followed by an
   * opaque alpha are appended to the output; a trailing partial chunk is
   * ignored.
   */
  method BgraToRgba(frame: seq<byte>) returns (buf: seq<byte>)
    ensures |buf| == 4 * (|frame| / 4)
    ensures forall k :: 0 <= k < |frame| / 4 ==>
      PixelAt(buf, k) == [frame[4 * k + 2], frame[4 * k + 1], frame[4 * k], Opaque]
  {
    var n := |frame| / 4;
    buf := [];
    var i := 0;
    while i < n
      invariant 0 <= i <= n
      invariant |buf| == 4 * i
      invariant forall k :: 0 <= k < i ==>
        PixelAt(buf, k) == [frame[4 * k + 2], frame[4 * k + 1], frame[4 * k], Opaque]
    {
      var chunk := frame[4 * i .. 4 * i + 4];
      var prev := buf;
      buf := buf + [chunk[2], chunk[1], chunk[0], Opaque];
      forall k | 0 <= k < i
        ensures PixelAt(buf, k) == PixelAt(prev, k)
      {
        assert buf[..4 * i] == prev;
      }
      assert PixelAt(buf, i) == [chunk[2], chunk[1], chunk[0], Opaque];
      i := i + 1;
    }
  }
}
