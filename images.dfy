/** Raster images as the painter sees them, and the image operations it calls.

    The operations of the `image_ops` module (scaling, rotating, sampling a mean colour,
    painting a stroke, measuring a difference) are not part of this model: they are carried
    as function values in an `ImageOps` record, so nothing is claimed about their pixels.
    Only `color_like`, whose name and use say "an image of the same shape filled with one
    colour", is given a definition. */
module Images {

  /** One 8-bit channel value. */
  type byte = x: int | 0 <= x < 256

  /** A colour pixel, in the blue-green-red channel order OpenCV reads files in. */
  datatype Pixel = Bgr(b: byte, g: byte, r: byte)

  const White: Pixel := Bgr(255, 255, 255)

  /** A colour image as a sequence of rows; its shape is (Height, Width). */
  type Image = seq<seq<Pixel>>

  /** A stroke mask, read as a single grayscale channel. */
  type Mask = seq<seq<byte>>

  /** An (x, y) placement on the canvas, in pixels. */
  type Position = (int, int)

  /** shape[0] of an image: its number of rows. */
  function Height<T>(img: seq<seq<T>>): nat { |img| }

  /** shape[1] of an image: the length of its rows. */
  function Width<T>(img: seq<seq<T>>): nat { if img == [] then 0 else |img[0]| }

  /** The image operations the painter calls, left uninterpreted. */
  datatype ImageOps = ImageOps(
    scaleStroke: (Mask, real) -> Mask,
    rotateStroke: (Mask, real) -> Mask,
    meanStrokeColor: (Image, Mask, Position) -> Pixel,
    paintStroke: (Image, Mask, Pixel, Position) -> Image,
    imageDifference: (Image, Image) -> real)

  /** An image of the same shape as `img` with every pixel set to `color`. */
  function ColorLike(img: Image, color: Pixel): (r: Image)
    ensures Height(r) == Height(img) && Width(r) == Width(img)
    ensures forall i :: 0 <= i < |r| ==> |r[i]| == |img[i]|
    ensures forall i, j :: 0 <= i < |r| && 0 <= j < |r[i]| ==> r[i][j] == color
  {
    seq(|img|, i requires 0 <= i < |img| => seq(|img[i]|, _ => color))
  }
}
