/** On-the-fly construction of high-resolution / low-resolution image pairs:
    the `rescale_image` primitive and the two dataset wrappers built on it,
    one at a fixed scale, one at a scale drawn per access. */
module Downscale {

  import opened Common
  import opened PyRound
  import opened Images

  /** What a wrapped dataset yields at an index: one image, or a list of
      images (a Div2K item is a list, one image per path of its sample). */
  datatype Input = Single(image: Image) | Batch(images: seq<Image>)

  /** The image `rescale_image` works on, once a one-element list has been
      unwrapped. */
  function Unwrap(img: Input): (r: Result<Image>)
    ensures r.Ok? <==> img.Single? || |img.images| == 1
    ensures r.Err? ==> r.error == ExpectingSingleImage
    ensures r.Ok? && img.Batch? ==> r.value == img.images[0]
    ensures r.Ok? && img.Single? ==> r.value == img.image
  {
    match img
    case Single(i) => Ok(i)
    case Batch(imgs) => if |imgs| != 1 then Err(ExpectingSingleImage) else Ok(imgs[0])
  }

  /** Edge of the high-resolution crop: `round(scale * crop_size)`. */
  function CropEdge(scale: real, cropSize: nat): (edge: nat)
    requires scale > 0.0
    ensures NearestEven(scale * cropSize as real, edge)
  {
    RoundNonNegative(scale * cropSize as real);
    Round(scale * cropSize as real)
  }

  /** Low-resolution size for a high-resolution image: width and height are
      each divided by the scale and rounded on their own. */
  function TargetSize(hr: Image, scale: real): (size: (nat, nat))
    requires scale > 0.0
    ensures NearestEven(hr.width as real / scale, size.0)
    ensures NearestEven(hr.height as real / scale, size.1)
  {
    RoundNonNegative(hr.width as real / scale);
    RoundNonNegative(hr.height as real / scale);
    (Round(hr.width as real / scale), Round(hr.height as real / scale))
  }

  /** `rescale_image`: the (possibly cropped) input first, its downscaled
      copy second. */
  function RescaleImage(img: Input, scale: real, filter: Filter, cropSize: Option<nat>, draw: CropDraw): (r: Result<seq<Image>>)
    requires scale > 0.0
    ensures r.Ok? ==> |r.value| == 2
    ensures Unwrap(img).Err? ==> r == Err(ExpectingSingleImage)
    ensures Unwrap(img).Ok? && cropSize.None? ==> r.Ok? && r.value[0] == Unwrap(img).value
    ensures Unwrap(img).Ok? && cropSize.Some? ==>
              (r.Ok? <==> CropEdge(scale, cropSize.value) <= Unwrap(img).value.width
                          && CropEdge(scale, cropSize.value) <= Unwrap(img).value.height)
    ensures Unwrap(img).Ok? && r.Err? ==>
              r.error == CropTooLarge(CropEdge(scale, cropSize.value), Unwrap(img).value.width, Unwrap(img).value.height)
    ensures r.Ok? && cropSize.Some? ==>
              r.value[0].width == CropEdge(scale, cropSize.value) == r.value[0].height
              && r.value[0].pixels.Cropped? && r.value[0].pixels.source == Unwrap(img).value.pixels
    ensures r.Ok? ==> NearestEven(r.value[0].width as real / scale, r.value[1].width)
                      && NearestEven(r.value[0].height as real / scale, r.value[1].height)
    ensures r.Ok? ==> r.value[1].pixels == Resized(r.value[0].pixels, filter, r.value[1].width, r.value[1].height)
  {
    match Unwrap(img)
    case Err(e) => Err(e)
    case Ok(source) =>
      var hr :- match cropSize
                case None => Ok(source)
                case Some(c) => RandomCrop(source, CropEdge(scale, c), draw);
      var size := TargetSize(hr, scale);
      Ok([hr, Resize(hr, filter, size.0, size.1)])
  }

  /** With a scale of at least 1, a crop of `c` low-resolution pixels comes
      back exactly `c` by `c`: rounding the crop edge up or down by at most
      half a pixel moves the quotient by less than half a pixel. */
  lemma {:induction false} CroppedPairHasCropSize(img: Input, scale: real, filter: Filter, c: nat, draw: CropDraw)
    requires scale >= 1.0
    requires RescaleImage(img, scale, filter, Some(c), draw).Ok?
    ensures RescaleImage(img, scale, filter, Some(c), draw).value[0].width == CropEdge(scale, c)
    ensures RescaleImage(img, scale, filter, Some(c), draw).value[1].width == c
    ensures RescaleImage(img, scale, filter, Some(c), draw).value[1].height == c
  {
    var pair := RescaleImage(img, scale, filter, Some(c), draw).value;
    var edge := CropEdge(scale, c);
    DividedEdgeRoundsBack(scale, c, edge);
    RoundUnique(edge as real / scale, c);
    RoundUnique(pair[0].width as real / scale, pair[1].width);
    RoundUnique(pair[0].height as real / scale, pair[1].height);
  }

  /** The arithmetic behind CroppedPairHasCropSize. */
  lemma DividedEdgeRoundsBack(scale: real, c: nat, edge: int)
    requires scale >= 1.0
    requires NearestEven(scale * c as real, edge)
    ensures NearestEven(edge as real / scale, c)
  {
    var e := edge as real - scale * c as real;
    if scale == 1.0 {
      assert edge == c;
    } else {
      QuotientShrinks(e, scale);
      DivisionDistributes(edge as real, scale, c as real);
    }
  }

  lemma QuotientShrinks(e: real, s: real)
    requires s > 1.0 && -0.5 <= e <= 0.5
    ensures -0.5 < e / s < 0.5
  {
  }

  lemma DivisionDistributes(a: real, s: real, c: real)
    requires s > 0.0
    ensures (a - s * c) / s == a / s - c
  {
  }

  /** `DownscaledDataset`: every item of the wrapped dataset paired with its
      downscaled copy at one fixed scale, never cropped. */
  datatype DownscaledDataset = DownscaledDataset(
    dataset: seq<Input>, scale: real, filter: Filter, transform: Option<Transform>)
  {
    /** `__len__`: the wrapped dataset's length. */
    function Len(): (n: nat)
      ensures n == |dataset|
    {
      |dataset|
    }

    /** `__getitem__`. */
    function GetItem(index: int): (r: Result<seq<Image>>)
      requires scale > 0.0
      ensures PyIndex(dataset, index).Err? ==> r == Err(IndexOutOfRange(index, Len()))
      ensures PyIndex(dataset, index).Ok? && transform.None? ==>
                r == RescaleImage(PyIndex(dataset, index).value, scale, filter, None, CropDraw(0, 0))
      ensures PyIndex(dataset, index).Ok? && transform.Some? ==>
                var pair := RescaleImage(PyIndex(dataset, index).value, scale, filter, None, CropDraw(0, 0));
                && (r.Ok? <==> pair.Ok?)
                && (pair.Err? ==> r == Err(pair.error))
                && (pair.Ok? ==> r.value == transform.value(pair.value))
    {
      var item :- PyIndex(dataset, index);
      var pair :- RescaleImage(item, scale, filter, None, CropDraw(0, 0));
      match transform
      case None => Ok(pair)
      case Some(t) => Ok(t(pair))
    }
  }

  /** Without a transform, a fixed-scale item is the wrapped image itself,
      uncropped, followed by its downscaled copy. */
  lemma DownscaledItemKeepsSource(d: DownscaledDataset, index: int)
    requires d.scale > 0.0 && d.transform.None?
    requires -(d.Len() as int) <= index < d.Len()
    requires Unwrap(PyIndex(d.dataset, index).value).Ok?
    ensures d.GetItem(index).Ok?
    ensures d.GetItem(index).value[0] == Unwrap(PyIndex(d.dataset, index).value).value
    ensures |d.GetItem(index).value| == 2
  {
  }

  /** The `scale_range` argument: a list or tuple of bounds, or anything
      else. */
  datatype ScaleRangeArg = ScaleSequence(bounds: seq<real>) | NotASequence

  /** `RandomDownscaledDataset`: every item of the wrapped dataset cropped
      and downscaled at a scale drawn on each access from
      `minScale .. maxScale`. */
  datatype RandomDownscaledDataset = RandomDownscaledDataset(
    dataset: seq<Input>, minScale: real, maxScale: real, filter: Filter,
    cropSize: Option<nat>, transform: Option<Transform>)
  {
    /** What the constructor guarantees. */
    predicate Valid()
    {
      minScale < maxScale
    }

    /** `__len__`: the wrapped dataset's length. */
    function Len(): (n: nat)
      ensures n == |dataset|
    {
      |dataset|
    }

    /** The logarithms of both bounds exist. */
    predicate LogDefined()
    {
      minScale > 0.0 && maxScale > 0.0
    }

    /** `__getitem__`, given the scale drawn for this access and the draw
        the random crop consumes. The logarithms of the bounds are taken
        before anything else, so a bound that is not positive fails every
        access. */
    function GetItem(index: int, scale: real, draw: CropDraw): (r: Result<seq<Image>>)
      requires scale > 0.0
      ensures !LogDefined() ==> r == Err(MathDomainError)
      ensures LogDefined() && PyIndex(dataset, index).Err? ==> r == Err(IndexOutOfRange(index, Len()))
      ensures LogDefined() && PyIndex(dataset, index).Ok? && transform.None? ==>
                r == RescaleImage(PyIndex(dataset, index).value, scale, filter, cropSize, draw)
      ensures LogDefined() && PyIndex(dataset, index).Ok? && transform.Some? ==>
                var pair := RescaleImage(PyIndex(dataset, index).value, scale, filter, cropSize, draw);
                && (r.Ok? <==> pair.Ok?)
                && (pair.Err? ==> r == Err(pair.error))
                && (pair.Ok? ==> r.value == transform.value(pair.value))
    {
      if !LogDefined() then Err(MathDomainError)
      else
      var item :- PyIndex(dataset, index);
      var pair :- RescaleImage(item, scale, filter, cropSize, draw);
      match transform
      case None => Ok(pair)
      case Some(t) => Ok(t(pair))
    }
  }

  /** The constructor: `scale_range` must be a list or tuple of exactly two
      bounds, the first strictly below the second. */
  function NewRandomDownscaledDataset(
    dataset: seq<Input>, scaleRange: ScaleRangeArg, filter: Filter,
    cropSize: Option<nat>, transform: Option<Transform>): (r: Result<RandomDownscaledDataset>)
    ensures r.Ok? <==> scaleRange.ScaleSequence? && |scaleRange.bounds| == 2
                       && scaleRange.bounds[0] < scaleRange.bounds[1]
    ensures r.Err? ==> r.error == UnorderedScaleRange
    ensures r.Ok? ==> r.value.Valid()
    ensures r.Ok? ==> r.value == RandomDownscaledDataset(
                        dataset, scaleRange.bounds[0], scaleRange.bounds[1], filter, cropSize, transform)
  {
    match scaleRange
    case NotASequence => Err(UnorderedScaleRange)
    case ScaleSequence(bounds) =>
      if |bounds| != 2 || bounds[0] >= bounds[1] then Err(UnorderedScaleRange)
      else Ok(RandomDownscaledDataset(dataset, bounds[0], bounds[1], filter, cropSize, transform))
  }

  /** A lower bound of 0 passes the constructor, yet every access then
      fails taking its logarithm. */
  lemma ZeroLowerBoundFailsOnAccess(dataset: seq<Input>, filter: Filter, cropSize: Option<nat>,
                                    index: int, scale: real, draw: CropDraw)
    requires scale > 0.0
    ensures NewRandomDownscaledDataset(dataset, ScaleSequence([0.0, 4.0]), filter, cropSize, None).Ok?
    ensures NewRandomDownscaledDataset(dataset, ScaleSequence([0.0, 4.0]), filter, cropSize, None).value
              .GetItem(index, scale, draw) == Err(MathDomainError)
  {
  }

  /** Whatever scale at least 1 is drawn, a random-scale item without a
      transform is a square high-resolution crop of edge
      `round(scale * crop_size)` and a `crop_size` square low-resolution
      image. */
  lemma RandomItemSizes(d: RandomDownscaledDataset, index: int, scale: real, draw: CropDraw)
    requires d.cropSize.Some? && d.transform.None?
    requires scale >= 1.0
    requires d.GetItem(index, scale, draw).Ok?
    ensures d.GetItem(index, scale, draw).value[0].width == CropEdge(scale, d.cropSize.value)
    ensures d.GetItem(index, scale, draw).value[0].height == CropEdge(scale, d.cropSize.value)
    ensures d.GetItem(index, scale, draw).value[1].width == d.cropSize.value
    ensures d.GetItem(index, scale, draw).value[1].height == d.cropSize.value
  {
    CroppedPairHasCropSize(PyIndex(d.dataset, index).value, scale, d.filter, d.cropSize.value, draw);
  }

  /** Scale 4 with a crop of 48 asks for a 192-pixel crop and yields a
      48 by 48 low-resolution image; a 192 by 192 image at scale 4 without
      a crop keeps its size and pairs with a 48 by 48 one. */
  lemma FixedScaleExamples(draw: CropDraw, p: Pixels)
    ensures CropEdge(4.0, 48) == 192
    ensures RescaleImage(Single(Image(192, 192, p)), 4.0, Box, Some(48), draw).Ok?
    ensures RescaleImage(Single(Image(192, 192, p)), 4.0, Box, Some(48), draw).value[1].width == 48
    ensures RescaleImage(Single(Image(192, 192, p)), 4.0, Bilinear, None, draw)
              == Ok([Image(192, 192, p), Resize(Image(192, 192, p), Bilinear, 48, 48)])
  {
    RoundOfInteger(192);
    RoundOfInteger(48);
    assert 4.0 * 48 as real == 192 as real;
    assert 192 as real / 4.0 == 48 as real;
  }

  /** Width and height are rounded on their own, half-way values to the
      even neighbour: a 5 by 7 image at scale 2 pairs with a 2 by 4 one
      (2.5 rounds down, 3.5 rounds up). */
  lemma TargetSizeRoundsHalfToEven(p: Pixels)
    ensures TargetSize(Image(5, 7, p), 2.0) == (2, 4)
  {
    RoundHalfToEvenExamples();
    assert 5 as real / 2.0 == 2.5;
    assert 7 as real / 2.0 == 3.5;
  }

  /** A list of other than one image is refused before anything else. */
  lemma BatchOfTwoRefused(a: Image, b: Image, scale: real, filter: Filter, cropSize: Option<nat>, draw: CropDraw)
    requires scale > 0.0
    ensures RescaleImage(Batch([a, b]), scale, filter, cropSize, draw) == Err(ExpectingSingleImage)
    ensures RescaleImage(Batch([]), scale, filter, cropSize, draw) == Err(ExpectingSingleImage)
  {
  }
}
