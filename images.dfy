/** Images as the datasets see them: a width, a height and an opaque
    description of where the pixels came from. Decoding, cropping and
    resampling are done by an image library; only the sizes they produce
    are modelled. */
module Images {

  import opened Common

  /** The four resampling filters of the Box/Bilinear/Bicubic/Lanczos
      downscalers. */
  datatype Filter = Box | Bilinear | Bicubic | Lanczos

  /** Provenance of an image's pixels. */
  datatype Pixels =
    | Decoded(path: string)
    | Cropped(source: Pixels, left: nat, top: nat, edge: nat)
    | Resized(source: Pixels, filter: Filter, toWidth: nat, toHeight: nat)

  datatype Image = Image(width: nat, height: nat, pixels: Pixels)

  /** A user transform, applied by a dataset to the list of images it
      returns. */
  type Transform = seq<Image> -> seq<Image>

  /** The randomness a random crop consumes: where the crop's corner goes. */
  datatype CropDraw = CropDraw(x: nat, y: nat)

  /** A downscaler resamples `img` with `filter` to exactly the requested
      size. */
  function Resize(img: Image, filter: Filter, width: nat, height: nat): (r: Image)
    ensures r.width == width && r.height == height
  {
    Image(width, height, Resized(img.pixels, filter, width, height))
  }

  /** A random square crop of edge `edge`, fully contained in `img`; an
      image smaller than the edge in either dimension is refused. */
  function RandomCrop(img: Image, edge: nat, draw: CropDraw): (r: Result<Image>)
    ensures r.Ok? <==> edge <= img.width && edge <= img.height
    ensures r.Err? ==> r.error == CropTooLarge(edge, img.width, img.height)
    ensures r.Ok? ==> r.value.width == edge && r.value.height == edge
    ensures r.Ok? ==> r.value.pixels.Cropped? && r.value.pixels.source == img.pixels
    ensures r.Ok? ==> r.value.pixels.left + edge <= img.width && r.value.pixels.top + edge <= img.height
  {
    if edge <= img.width && edge <= img.height then
      var left := draw.x % (img.width - edge + 1);
      var top := draw.y % (img.height - edge + 1);
      Ok(Image(edge, edge, Cropped(img.pixels, left, top, edge)))
    else
      Err(CropTooLarge(edge, img.width, img.height))
  }
}
