# torchSR datasets: the DIV2K sample index and on-the-fly downscaling

This project is a Dafny model of the dataset layer of torchSR, a PyTorch
super-resolution library. It covers two parts.

**The DIV2K dataset.** The DIV2K images lie in one directory per
(track, split, scale) combination. `Div2K` does three things:
- it normalises its `scale` and `track` arguments into two lists of equal
  length;
- it looks up each track's directory in a static table, with three
  ordered diagnostics when a key is missing;
- it builds `samples`, a list with one entry per high-resolution image.
  Each entry holds the high-resolution path followed by the path of the
  same-ranked file in every requested track.

The generic `Folder` base class then serves items: each path of a sample
goes through a loader, and an optional transform is applied to the result.

**The downscaling wrappers.** `rescale_image` turns one image into a
`[hr, lr]` pair. It can first take a random square crop of edge
`round(scale * crop_size)`. The low-resolution size is the high-resolution
width and height, each divided by the scale and rounded on its own, with
round-half-to-even. `DownscaledDataset` applies it at one fixed scale
without a crop. `RandomDownscaledDataset` applies it with a crop, at a
scale drawn on every access from a validated `(min, max)` range.

Files:
- `common.dfy`: the errors, a `Result` type, path joining and Python list
  indexing.
- `strings.dfy`: Python's string order and `sorted`.
- `rounding.dfy`: Python's `round`.
- `images.dfy`: images as sizes plus provenance, resizing and the random
  crop.
- `downscale.dfy`: `datasets/utils.py`.
- `div2k.dfy`: `datasets/div2k.py`.

Inputs the model receives as parameters:
- The file system is a directory listing of type
  `map<string, seq<string>>`, from a directory path to the names it
  contains. A path missing from the map is the error `os.listdir` raises.
- Image decoding is the `loader` function.
- The random scale and the random crop position are arguments of the
  `GetItem` functions.

How `init_samples` is modelled:
- The specification function `SampleIndex` states what it computes.
- The methods `ListAll` (the listing loop) and `BuildIndex` (the count
  check and the transposition loop) are its imperative form, each proved
  equal to the specification.
- `Div2KDataset.InitSamples` assigns the class's `samples` field from them.

`DownscaledDataset.__getitem__` never passes a crop size
(datasets/utils.py:62), so the model never crops there.

## Model

| member | source | states |
|---|---|---|
| Common.PyIndex | datasets/div2k.py:33 | `xs[i]` succeeds exactly for `-len <= i < len`. A negative index counts from the end. Any other index is an IndexError carrying the index and the length. |
| Lexicographic.Insert | datasets/div2k.py:154 | Inserting into a sorted list keeps it sorted, adds exactly that element (as a multiset) and grows the length by one. |
| Lexicographic.Sort | datasets/div2k.py:154 | `sorted` returns an ascending permutation of its input: the same multiset of names and the same length. |
| Lexicographic.SortedUnique | datasets/div2k.py:154 | Two ascending lists with the same elements are equal, so any correct sort agrees with this one. |
| Lexicographic.SortIgnoresListingOrder | datasets/div2k.py:154 | Two listings of the same names, in any order, sort to the same list. |
| PyRound.Round | datasets/utils.py:43-45 | `round` returns a nearest integer. On an exact half it returns the even neighbour. |
| PyRound.RoundUnique | datasets/utils.py:45 | Exactly one integer meets that rule, so Round is determined by it. |
| PyRound.RoundHalfToEvenExamples | datasets/utils.py:45 | round(0.5)=0, round(1.5)=2, round(2.5)=2, round(3.5)=4, round(-2.5)=-2; 2.4 and 2.6 round to the nearest integer. |
| Images.Resize | datasets/utils.py:15-32 | A downscaler returns an image of exactly the requested width and height. |
| Images.RandomCrop | datasets/utils.py:43 | The crop succeeds exactly when the edge fits in both dimensions, and otherwise fails with a crop-too-large error. Success gives an edge-by-edge square, cut from the source and fully inside it. |
| Downscale.Unwrap | datasets/utils.py:36-39 | A single image passes through and a one-element list is unwrapped. A list of any other length is refused. |
| Downscale.CropEdge | datasets/utils.py:43 | The crop edge is `scale * crop_size` rounded half-to-even. |
| Downscale.TargetSize | datasets/utils.py:45 | The low-resolution width and height are the high-resolution ones divided by the scale, each rounded half-to-even on its own. |
| Downscale.RescaleImage | datasets/utils.py:35-47 | The result is always `[hr, lr]`. The shape error comes first. Without a crop, hr is the input itself. With a crop, the call succeeds exactly when the crop edge fits, and hr is a crop-edge square cut from the input; otherwise the call fails with the crop error. lr has the target size of hr and is hr resized with the given filter. |
| Downscale.CroppedPairHasCropSize | datasets/utils.py:40-47 | With a scale of at least 1 and a crop size `c`, the pair is a CropEdge-wide hr and a `c` by `c` lr. |
| Downscale.DividedEdgeRoundsBack | datasets/utils.py:43-45 | For a scale of at least 1, rounding `scale*c`, dividing by the scale and rounding again gives back `c`. |
| Downscale.DownscaledDataset.Len | datasets/utils.py:67-68 | The length is the wrapped dataset's length. |
| Downscale.DownscaledDataset.GetItem | datasets/utils.py:61-65 | An index outside the wrapped dataset fails with an IndexError. Otherwise the item is `rescale_image` of the wrapped item at the fixed scale, without a crop. With a transform, the call succeeds exactly when `rescale_image` does, passes its error on, and applies the transform to the pair. |
| Downscale.DownscaledItemKeepsSource | datasets/utils.py:61-65 | Without a transform, a valid index of a single image yields a two-image list whose first image is the wrapped image, uncropped. |
| Downscale.NewRandomDownscaledDataset | datasets/utils.py:72-84 | Construction succeeds exactly when `scale_range` is a list or tuple of two bounds with the first strictly below the second. Otherwise it fails with the scale-range error. On success the fields are stored unchanged. |
| Downscale.RandomDownscaledDataset.Len | datasets/utils.py:96-97 | The length is the wrapped dataset's length. |
| Downscale.RandomDownscaledDataset.GetItem | datasets/utils.py:86-94 | A bound of `scale_range` that is not positive fails every access, before indexing, because its logarithm is undefined. Otherwise an index outside the wrapped dataset fails with an IndexError, and a valid one gives `rescale_image` of the wrapped item at the drawn scale with the crop size. With a transform, the call succeeds exactly when `rescale_image` does, passes its error on, and applies the transform to the pair. |
| Downscale.ZeroLowerBoundFailsOnAccess | datasets/utils.py:78-89 | A `scale_range` of (0, 4) passes the constructor, yet every access fails with the logarithm's domain error. |
| Downscale.RandomItemSizes | datasets/utils.py:86-94 | For any drawn scale of at least 1 and no transform, a successful item is a CropEdge-square hr and a `crop_size`-square lr. |
| Downscale.FixedScaleExamples | datasets/utils.py:40-47 | Scale 4 with crop 48 gives a 192 crop edge and a 48-wide lr. A 192×192 image at scale 4 without a crop gives `[img, 48×48 resize]`. |
| Downscale.TargetSizeRoundsHalfToEven | datasets/utils.py:45 | A 5×7 image at scale 2 gives a 2×4 target: 2.5 rounds down and 3.5 rounds up. |
| Downscale.BatchOfTwoRefused | datasets/utils.py:36-39 | A two-image list and an empty list are both refused with the single-image error. |
| Div2K.Normalize | datasets/div2k.py:124-129 | A scalar scale becomes `[scale]` and a scalar track is repeated once per scale. A track list whose length differs from the scale list is refused. |
| Div2K.NormalizeDefaults | datasets/div2k.py:115-129 | The defaults give `(["bicubic"], [2])`. A scalar track is repeated over a scale list. A mismatched track list is refused. |
| Div2K.KnownTracks | datasets/div2k.py:137-138 | `get_tracks` is exactly {hr, bicubic, unknown, real_mild, real_difficult}. real_wild, whose entries are commented out of the table, is not in it. |
| Div2K.TableSplitsAreValid | datasets/div2k.py:89-113 | Every key of the table names a split that `get_splits` accepts. |
| Div2K.GetDir | datasets/div2k.py:143-150 | The lookup succeeds exactly when the key is in the table, and then returns the root joined with the table entry. |
| Div2K.GetDirDiagnostics | datasets/div2k.py:144-149 | For a missing key: an unknown track is reported first, then a split other than train/val, and otherwise a scale the track does not include. |
| Div2K.RealWildDoesNotExist | datasets/div2k.py:144-146 | real_wild is reported as an unknown track, whatever the split and scale. |
| Div2K.InvalidSplitReportedBeforeScale | datasets/div2k.py:147-148 | bicubic with split "test" and scale 5 is reported as an invalid split, not as a missing scale. |
| Div2K.MissingScaleReported | datasets/div2k.py:149 | real_mild at scale 2 in the train split is reported as a scale the track does not include. |
| Div2K.ListSamples | datasets/div2k.py:152-155 | A lookup error is passed on. Listing succeeds exactly when the directory exists. There is one path per directory entry. |
| Div2K.ListSamplesSorted | datasets/div2k.py:152-155 | Path `i` is the directory joined with the `i`-th entry name in sorted order. |
| Div2K.Requests | datasets/div2k.py:159 | The requests are ("hr", 1) followed by the requested tracks zipped with their scales. |
| Div2K.GatherLists | datasets/div2k.py:158-160 | There is one list per request. |
| Div2K.GatherListsOk | datasets/div2k.py:158-160 | Gathering succeeds exactly when every request lists. |
| Div2K.GatherListsPointwise | datasets/div2k.py:158-160 | Gathered list `i` is the listing of request `i`. |
| Div2K.GatherListsFailure | datasets/div2k.py:158-160 | A gathering failure is the error of the first request, in order, whose listing fails. |
| Div2K.GatherAllSucceed | datasets/div2k.py:158-160 | When every request lists, the gathered lists are exactly those listings. |
| Div2K.GatherFirstFailure | datasets/div2k.py:158-160 | When request `k` is the first to fail, gathering fails with its error. |
| Div2K.FirstMismatch | datasets/div2k.py:161-163 | It finds the first list, from a position on, whose length differs from the high-resolution list, or reports that none does. |
| Div2K.SampleIndexLayout | datasets/div2k.py:164-166 | The index is built exactly when all lists are as long as the high-resolution list. It then has one sample per high-resolution file, each of length `1 + len(tracks)`, and `samples[i][j] == lists[j][i]`. |
| Div2K.MismatchNamesFirstOffender | datasets/div2k.py:161-163 | A count error names `tracks[i]` and `scales[i]` for the first requested track `i` whose list length differs. Every earlier track matches. |
| Div2K.ListingFailureComesFirst | datasets/div2k.py:158-163 | A missing directory is reported before any count is compared. |
| Div2K.SampleCountIsHrCount | datasets/div2k.py:164-166 | On success there are as many samples as files in the high-resolution directory. |
| Div2K.SampleColumn | datasets/div2k.py:152-166 | Entry `j` of sample `i` is request `j`'s directory joined with the `i`-th name of its sorted listing. |
| Div2K.SamplesPairByName | datasets/div2k.py:152-166 | When a track's directory holds the same names as the high-resolution one, each sample pairs files of the same name, whatever order the directories list them in. |
| Div2K.SortExample | datasets/div2k.py:154 | ["b.png", "a.png"] and ["a.png", "b.png"] both sort to ["a.png", "b.png"]. |
| Div2K.PairingExample | datasets/div2k.py:152-166 | HR listed as b.png, a.png and bicubic X2 listed as a.png, b.png give the samples [HR/a.png, X2/a.png] and [HR/b.png, X2/b.png]. |
| Div2K.ListAll | datasets/div2k.py:157-160 | The listing loop computes exactly GatherLists, including its first error. |
| Div2K.BuildIndex | datasets/div2k.py:161-166 | The count-check loop and the transposition loop compute exactly IndexOfLists: the first mismatch error, or the transposed lists. |
| Div2K.Div2KDataset.constructor | datasets/div2k.py:18-30 | The root is the DIV2K sub-directory of the given root. Scales, tracks, split, transform and loader are stored. There are no samples yet. |
| Div2K.Div2KDataset.InitSamples | datasets/div2k.py:157-166 | On success, `samples` becomes the sample index of the listing. On any error, that error is returned and `samples` is left unchanged. Every sample keeps length `1 + len(tracks)`. |
| Div2K.Div2KDataset.Len | datasets/div2k.py:39-40 | The length is the number of samples. |
| Div2K.Div2KDataset.GetItem | datasets/div2k.py:32-36 | An index outside `samples` fails with an IndexError. Otherwise the result is one loaded image per path, in sample order, or the transform applied to that list. |
| Div2K.NewDiv2K | datasets/div2k.py:115-135 | A track/scale count mismatch is refused first. Otherwise construction succeeds exactly when the sample index can be built under `root/DIV2K`, fails with the index's error otherwise, and on success yields a fresh dataset holding `root/DIV2K` as its root, the given transform and loader, the normalised tracks and scales, the split and the index. |

## Left out

- `Div2K.download` and the URL/MD5 table (datasets/div2k.py:64-87, 168-171): network fetch and archive extraction. `NewDiv2K` has no `download` argument.
- `pil_loader` (datasets/div2k.py:11-14): file I/O and decoding. The loader is an arbitrary function from a path to an image.
- The four downscaler classes (datasets/utils.py:15-32): resampling is reduced to the output size and a record of the filter used.
- `RandomCrop` comes from `transforms.py`, which is not part of this model. The model assumes it fails on a source smaller than the edge, and otherwise returns a contained square of that edge. Where the crop lands is an argument (`CropDraw`).
- The log-uniform scale draw (datasets/utils.py:88-89): it uses a torch RNG and floating-point `log`/`exp`. The drawn scale is an argument of `RandomDownscaledDataset.GetItem`.
- Downscale.RandomDownscaledDataset.GetItem: it does not require the drawn scale to lie inside `scale_range`, only to be positive.
- Default arguments are not modelled; callers pass every argument. The defaults are `crop_size=48` (datasets/utils.py:76), `split='train'` (datasets/div2k.py:120), `transform=None` and `loader=pil_loader`. The `scale=2` and `track='bicubic'` defaults appear only in the NormalizeDefaults lemma.
- Floating point: scales and quotients are exact reals, so a float product or quotient that lands just off a half is not modelled.
- Downscale.DownscaledDataset.GetItem, Downscale.RandomDownscaledDataset.GetItem, Downscale.RescaleImage, Downscale.CropEdge, Downscale.TargetSize: they require a positive scale. A zero scale (ZeroDivisionError) and a negative scale (a negative size handed to PIL) are not modelled.
- Downscale.DownscaledDataset.GetItem, Downscale.RandomDownscaledDataset.GetItem: the transform is an arbitrary total function. An exception raised inside it is not modelled.
- Path handling: `os.path.join` is concatenation with "/", and `os.path.expanduser` on the root is not modelled.
- Wrapped datasets are modelled as the sequence of items they return. Their own indexing errors and laziness are not modelled.
- Type errors from arguments of the wrong type: an integer `scale` versus a list, and a string `track` versus a list, are told apart by constructors instead.
- `Folder` and `Div2K` are one class, `Div2KDataset`, because `Folder` is only ever used as `Div2K`'s base.
- Concurrent access from data-loader workers.
