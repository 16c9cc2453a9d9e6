/** Values shared by the sample index and the downscaling wrappers: the
    errors the datasets raise, a result type for operations that can raise
    them, path joining and Python's list indexing. */
module Common {

  /** Every exception the modelled code raises, one constructor per
      diagnostic. */
  datatype Error =
    | TrackScaleCountMismatch                      // "The number of scales and of tracks must be the same"
    | TrackDoesNotExist(track: string, known: set<string>)
    | InvalidSplit(split: string)
    | ScaleNotIncluded(track: string, scale: int)  // "Div2K track ... does not include scale X..."
    | DirectoryNotFound(path: string)              // os.listdir on a missing directory
    | FileCountMismatch(track: string, scale: int) // "Number of files for ... does not match HR"
    | ExpectingSingleImage
    | CropTooLarge(edge: nat, width: nat, height: nat)
    | UnorderedScaleRange                          // "Expected an ordered 2-tuple for scale_range"
    | IndexOutOfRange(index: int, length: nat)
    | MathDomainError                              // math.log of a bound that is not positive

  datatype Result<T> = Ok(value: T) | Err(error: Error)
  {
    predicate IsFailure()
    {
      Err?
    }

    function PropagateFailure<U>(): Result<U>
      requires Err?
    {
      Err(error)
    }

    function Extract(): T
      requires Ok?
    {
      value
    }
  }

  datatype Option<T> = None | Some(value: T)

  /** Path joining, modelled as concatenation with a '/' separator. */
  function Join(dir: string, name: string): string
  {
    dir + "/" + name
  }

  /** Python's `xs[i]` on a list: negative indices count from the end,
      anything outside `-|xs| .. |xs|-1` raises IndexError. */
  function PyIndex<T>(xs: seq<T>, i: int): (r: Result<T>)
    ensures r.Ok? <==> -|xs| <= i < |xs|
    ensures r.Ok? && 0 <= i ==> r.value == xs[i]
    ensures r.Ok? && i < 0 ==> r.value == xs[|xs| + i]
    ensures r.Err? ==> r.error == IndexOutOfRange(i, |xs|)
  {
    if 0 <= i < |xs| then Ok(xs[i])
    else if -|xs| <= i < 0 then Ok(xs[|xs| + i])
    else Err(IndexOutOfRange(i, |xs|))
  }
}
