/** The picture side of the Hough pickers: an image is a flat row-major buffer of BGR pixels,
    `img_orig.copy()` makes a fresh buffer, and each `cv2.circle` / `cv2.line` call is a draw
    command that the (foreign) rasteriser applies to the buffer in place. */
module Drawing {

  /** A pixel or a drawing colour, in OpenCV's blue-green-red channel order. */
  datatype Bgr = Bgr(b: int, g: int, r: int)

  datatype Point = Point(x: int, y: int)

  /** `cv2.LINE_8` (OpenCV's default) or `cv2.LINE_AA`. */
  datatype LineStyle = EightConnected | AntiAliased

  /** One call of a drawing primitive, with every argument it was given. */
  datatype DrawCmd =
    | CircleCmd(center: Point, radius: int, color: Bgr, thickness: int)
    | LineCmd(from: Point, to: Point, color: Bgr, thickness: int, style: LineStyle)

  /** What a Hough detector returns: `None` when it finds nothing, else its shapes in its own order. */
  datatype Detected<T> = NotFound | Found(items: seq<T>)

  /** OpenCV's rasteriser: the pixels after one draw command is applied to a buffer. */
  type Raster = (DrawCmd, seq<Bgr>) -> seq<Bgr>

  /** Drawing writes into the given buffer, so it never changes the buffer's size. */
  ghost predicate SizePreserving(paint: Raster) {
    forall c, s :: |paint(c, s)| == |s|
  }

  /** The buffer after the commands `cmds` are applied to `base` in order, first command first. */
  function Painted(paint: Raster, cmds: seq<DrawCmd>, base: seq<Bgr>): (img: seq<Bgr>)
    requires SizePreserving(paint)
    ensures |img| == |base|
    ensures cmds == [] ==> img == base
  {
    if cmds == [] then base
    else paint(cmds[|cmds| - 1], Painted(paint, cmds[..|cmds| - 1], base))
  }

  /** Drawing two batches of commands one after the other is drawing their concatenation:
      later commands are drawn over the result of earlier ones. */
  lemma {:induction false} PaintedConcat(paint: Raster, first: seq<DrawCmd>, second: seq<DrawCmd>, base: seq<Bgr>)
    requires SizePreserving(paint)
    ensures Painted(paint, first + second, base) == Painted(paint, second, Painted(paint, first, base))
  {
    if second == [] {
      assert first + second == first;
    } else {
      var last := |second| - 1;
      assert (first + second)[..|first + second| - 1] == first + second[..last];
      PaintedConcat(paint, first, second[..last], base);
    }
  }

  /** `img_orig.copy()`: a new buffer with the same pixels; the source is only read. */
  method CopyImage(src: array<Bgr>) returns (dst: array<Bgr>)
    ensures fresh(dst)
    ensures dst[..] == src[..]
  {
    dst := new Bgr[src.Length];
    var i := 0;
    while i < src.Length
      invariant 0 <= i <= src.Length
      invariant dst[..i] == src[..i]
    {
      dst[i] := src[i];
      i := i + 1;
    }
  }

  /** One drawing call on `img`: the rasteriser's result is written back into the same buffer. */
  method Draw(img: array<Bgr>, paint: Raster, cmd: DrawCmd)
    requires SizePreserving(paint)
    modifies img
    ensures img[..] == paint(cmd, old(img[..]))
  {
    var next := paint(cmd, img[..]);
    forall i | 0 <= i < img.Length {
      img[i] := next[i];
    }
  }
}
