/** The DIV2K super-resolution dataset: a static table from
    (track, split, scale) to a directory, and an index of samples, each
    the path of a high-resolution image followed by the paths of its
    downscaled counterparts, one per requested track. Directory listings
    are an input: a map from a directory path to the names it contains. */
module Div2K {

  import opened Common
  import opened Lexicographic
  import opened Images

  /** A key of the directory table. */
  datatype TrackKey = TrackKey(track: string, split: string, scale: int)

  /** Where each track lies below the dataset root. The real_wild track is
      absent: its directories hold several downscaled images per
      high-resolution one. */
  const TrackDirs: map<TrackKey, string> := map[
    TrackKey("hr", "train", 1) := "DIV2K_train_HR",
    TrackKey("hr", "val", 1) := "DIV2K_valid_HR",
    TrackKey("bicubic", "train", 2) := Join("DIV2K_train_LR_bicubic", "X2"),
    TrackKey("bicubic", "train", 3) := Join("DIV2K_train_LR_bicubic", "X3"),
    TrackKey("bicubic", "train", 4) := Join("DIV2K_train_LR_bicubic", "X4"),
    TrackKey("bicubic", "train", 8) := "DIV2K_train_LR_X8",
    TrackKey("bicubic", "val", 2) := Join("DIV2K_valid_LR_bicubic", "X2"),
    TrackKey("bicubic", "val", 3) := Join("DIV2K_valid_LR_bicubic", "X3"),
    TrackKey("bicubic", "val", 4) := Join("DIV2K_valid_LR_bicubic", "X4"),
    TrackKey("bicubic", "val", 8) := "DIV2K_valid_LR_X8",
    TrackKey("unknown", "train", 2) := Join("DIV2K_train_LR_unknown", "X2"),
    TrackKey("unknown", "train", 3) := Join("DIV2K_train_LR_unknown", "X3"),
    TrackKey("unknown", "train", 4) := Join("DIV2K_train_LR_unknown", "X4"),
    TrackKey("unknown", "val", 2) := Join("DIV2K_valid_LR_unknown", "X2"),
    TrackKey("unknown", "val", 3) := Join("DIV2K_valid_LR_unknown", "X3"),
    TrackKey("unknown", "val", 4) := Join("DIV2K_valid_LR_unknown", "X4"),
    TrackKey("real_mild", "train", 4) := "DIV2K_train_LR_mild",
    TrackKey("real_mild", "val", 4) := "DIV2K_valid_LR_mild",
    TrackKey("real_difficult", "train", 4) := "DIV2K_train_LR_difficult",
    TrackKey("real_difficult", "val", 4) := "DIV2K_valid_LR_difficult"
  ]

  // ---------------------------------------------------------------------
  // Constructor arguments

  /** `scale`: one integer or a list of them. */
  datatype ScaleArg = OneScale(scale: int) | ScaleList(scales: seq<int>)

  /** `track`: one track name or a list of them. */
  datatype TrackArg = OneTrack(track: string) | TrackList(tracks: seq<string>)

  function ScalesOf(scale: ScaleArg): seq<int>
  {
    match scale
    case OneScale(s) => [s]
    case ScaleList(ss) => ss
  }

  /** Turns the constructor's `scale` and `track` into two lists of equal
      length: one scale becomes a one-element list, one track is repeated
      once per scale. */
  function Normalize(scale: ScaleArg, track: TrackArg): (r: Result<(seq<string>, seq<int>)>)
    ensures r.Err? <==> track.TrackList? && |track.tracks| != |ScalesOf(scale)|
    ensures r.Err? ==> r.error == TrackScaleCountMismatch
    ensures r.Ok? ==> |r.value.0| == |r.value.1|
    ensures r.Ok? && scale.OneScale? ==> r.value.1 == [scale.scale]
    ensures r.Ok? && scale.ScaleList? ==> r.value.1 == scale.scales
    ensures r.Ok? && track.OneTrack? ==> forall i :: 0 <= i < |r.value.0| ==> r.value.0[i] == track.track
    ensures r.Ok? && track.TrackList? ==> r.value.0 == track.tracks
  {
    var scales := ScalesOf(scale);
    var tracks := match track
                  case OneTrack(t) => seq(|scales|, _ => t)
                  case TrackList(ts) => ts;
    if |tracks| != |scales| then Err(TrackScaleCountMismatch)
    else Ok((tracks, scales))
  }

  /** The default arguments ask for the bicubic track at scale 2. */
  lemma NormalizeDefaults()
    ensures Normalize(OneScale(2), OneTrack("bicubic")) == Ok((["bicubic"], [2]))
    ensures Normalize(ScaleList([2, 4]), OneTrack("unknown")) == Ok((["unknown", "unknown"], [2, 4]))
    ensures Normalize(ScaleList([2, 4]), TrackList(["unknown"])) == Err(TrackScaleCountMismatch)
  {
    assert Normalize(OneScale(2), OneTrack("bicubic")).value.0 == ["bicubic"];
    assert Normalize(ScaleList([2, 4]), OneTrack("unknown")).value.0 == ["unknown", "unknown"];
  }

  // ---------------------------------------------------------------------
  // Table lookups

  /** The track names the table knows: the first components of its keys. */
  function GetTracks(): set<string>
  {
    set k | k in TrackDirs :: k.track
  }

  /** The valid splits. */
  function GetSplits(): seq<string>
  {
    ["train", "val"]
  }

  /** Exactly five tracks are known; real_wild, commented out of the table,
      is not one of them. */
  lemma KnownTracks()
    ensures GetTracks() == {"hr", "bicubic", "unknown", "real_mild", "real_difficult"}
    ensures "real_wild" !in GetTracks()
  {
    EveryTrackListed();
    OnlyKnownTracks();
  }

  lemma OnlyKnownTracks()
    ensures GetTracks() <= {"hr", "bicubic", "unknown", "real_mild", "real_difficult"}
  {
    forall t | t in GetTracks() ensures t in {"hr", "bicubic", "unknown", "real_mild", "real_difficult"} {
      var k :| k in TrackDirs && k.track == t;
      TableTracksAreKnown(k);
    }
  }

  /** Each of the five track names has an entry in the table. */
  lemma EveryTrackListed()
    ensures {"hr", "bicubic", "unknown", "real_mild", "real_difficult"} <= GetTracks()
  {
    assert TrackKey("hr", "train", 1) in TrackDirs;
    assert TrackKey("bicubic", "train", 2) in TrackDirs;
    assert TrackKey("unknown", "train", 2) in TrackDirs;
    assert TrackKey("real_mild", "train", 4) in TrackDirs;
    assert TrackKey("real_difficult", "train", 4) in TrackDirs;
  }

  /** Every key of the table names one of the five tracks. */
  lemma TableTracksAreKnown(k: TrackKey)
    requires k in TrackDirs
    ensures k.track in {"hr", "bicubic", "unknown", "real_mild", "real_difficult"}
  {
  }

  /** Every key of the table names a valid split. */
  lemma TableSplitsAreValid(k: TrackKey)
    requires k in TrackDirs
    ensures k.split in GetSplits()
  {
  }

  /** `get_dir`: the directory of a (track, split, scale) combination, or
      the first diagnostic that applies: unknown track, then invalid split,
      then a scale the track does not have. */
  function GetDir(root: string, track: string, split: string, scale: int): (r: Result<string>)
    ensures r.Ok? <==> TrackKey(track, split, scale) in TrackDirs
    ensures r.Ok? ==> r.value == Join(root, TrackDirs[TrackKey(track, split, scale)])
  {
    var key := TrackKey(track, split, scale);
    if key !in TrackDirs then
      if track !in GetTracks() then Err(TrackDoesNotExist(track, GetTracks()))
      else if split !in GetSplits() then Err(InvalidSplit(split))
      else Err(ScaleNotIncluded(track, scale))
    else
      Ok(Join(root, TrackDirs[key]))
  }

  /** The diagnostic `get_dir` raises for a combination the table lacks:
      an unknown track first, then an invalid split, then a missing scale. */
  lemma GetDirDiagnostics(root: string, track: string, split: string, scale: int)
    requires TrackKey(track, split, scale) !in TrackDirs
    ensures track !in GetTracks() ==> GetDir(root, track, split, scale) == Err(TrackDoesNotExist(track, GetTracks()))
    ensures track in GetTracks() && split !in GetSplits() ==> GetDir(root, track, split, scale) == Err(InvalidSplit(split))
    ensures track in GetTracks() && split in GetSplits() ==> GetDir(root, track, split, scale) == Err(ScaleNotIncluded(track, scale))
  {
  }

  /** real_wild is reported as an unknown track whatever the split. */
  lemma RealWildDoesNotExist(root: string, split: string, scale: int)
    ensures GetDir(root, "real_wild", split, scale) == Err(TrackDoesNotExist("real_wild", GetTracks()))
  {
    KnownTracks();
    GetDirDiagnostics(root, "real_wild", split, scale);
  }

  /** An unknown split is reported before a scale the track lacks. */
  lemma InvalidSplitReportedBeforeScale(root: string)
    ensures GetDir(root, "bicubic", "test", 5) == Err(InvalidSplit("test"))
  {
    assert TrackKey("bicubic", "train", 2) in TrackDirs;
    assert TrackKey("bicubic", "test", 5) !in TrackDirs;
    GetDirDiagnostics(root, "bicubic", "test", 5);
  }

  /** A known track at a scale it does not have, in a valid split. */
  lemma MissingScaleReported(root: string)
    ensures GetDir(root, "real_mild", "train", 2) == Err(ScaleNotIncluded("real_mild", 2))
  {
    assert TrackKey("real_mild", "train", 4) in TrackDirs;
    assert TrackKey("real_mild", "train", 2) !in TrackDirs;
    GetDirDiagnostics(root, "real_mild", "train", 2);
  }

  /** `list_samples`: the names in the track's directory, sorted, each
      joined to the directory. A directory missing from the listing is the
      error `os.listdir` raises. */
  function ListSamples(root: string, listing: map<string, seq<string>>, track: string, split: string, scale: int): (r: Result<seq<string>>)
    ensures GetDir(root, track, split, scale).Err? ==> r == Err(GetDir(root, track, split, scale).error)
    ensures r.Ok? <==> GetDir(root, track, split, scale).Ok? && GetDir(root, track, split, scale).value in listing
    ensures GetDir(root, track, split, scale).Ok? && r.Err? ==>
              r.error == DirectoryNotFound(GetDir(root, track, split, scale).value)
    ensures r.Ok? ==> |r.value| == |listing[GetDir(root, track, split, scale).value]|
  {
    var dir :- GetDir(root, track, split, scale);
    if dir !in listing then Err(DirectoryNotFound(dir))
    else
      var names := Sort(listing[dir]);
      Ok(seq(|names|, i requires 0 <= i < |names| => Join(dir, names[i])))
  }

  /** Entry `i` of a track's list is the directory joined with the `i`-th
      name in sorted order. */
  lemma ListSamplesSorted(root: string, listing: map<string, seq<string>>, track: string, split: string, scale: int, dir: string)
    requires GetDir(root, track, split, scale) == Ok(dir) && dir in listing
    ensures ListSamples(root, listing, track, split, scale).Ok?
    ensures forall i :: 0 <= i < |listing[dir]| ==>
              ListSamples(root, listing, track, split, scale).value[i] == Join(dir, Sort(listing[dir])[i])
  {
  }

  // ---------------------------------------------------------------------
  // The sample index, as a specification

  /** The (track, scale) pairs whose directories make up a sample: the
      high-resolution track at scale 1 first, then the requested ones. */
  function Requests(tracks: seq<string>, scales: seq<int>): (reqs: seq<(string, int)>)
    requires |tracks| == |scales|
    ensures |reqs| == 1 + |tracks| && reqs[0] == ("hr", 1)
    ensures forall i :: 1 <= i < |reqs| ==> reqs[i] == (tracks[i - 1], scales[i - 1])
  {
    [("hr", 1)] + seq(|tracks|, i requires 0 <= i < |tracks| => (tracks[i], scales[i]))
  }

  /** One path list per request, in order, or the error of the first
      request that fails (see GatherListsOk, GatherListsPointwise and
      GatherListsFailure). */
  function GatherLists(root: string, split: string, listing: map<string, seq<string>>, reqs: seq<(string, int)>): (r: Result<seq<seq<string>>>)
    ensures r.Ok? ==> |r.value| == |reqs|
  {
    if reqs == [] then Ok([])
    else
      var first :- ListSamples(root, listing, reqs[0].0, split, reqs[0].1);
      var rest :- GatherLists(root, split, listing, reqs[1..]);
      Ok([first] + rest)
  }

  /** The lists are gathered exactly when every request lists. */
  lemma {:induction false} GatherListsOk(root: string, split: string, listing: map<string, seq<string>>, reqs: seq<(string, int)>)
    ensures GatherLists(root, split, listing, reqs).Ok? <==>
              forall i :: 0 <= i < |reqs| ==> ListSamples(root, listing, reqs[i].0, split, reqs[i].1).Ok?
    decreases |reqs|
  {
    if reqs != [] {
      GatherListsOk(root, split, listing, reqs[1..]);
      assert forall i :: 1 <= i < |reqs| ==> reqs[i] == reqs[1..][i - 1];
    }
  }

  /** Gathered list `i` is the listing of request `i`. */
  lemma {:induction false} GatherListsPointwise(root: string, split: string, listing: map<string, seq<string>>, reqs: seq<(string, int)>)
    requires GatherLists(root, split, listing, reqs).Ok?
    ensures forall i :: 0 <= i < |reqs| ==>
              ListSamples(root, listing, reqs[i].0, split, reqs[i].1) == Ok(GatherLists(root, split, listing, reqs).value[i])
    decreases |reqs|
  {
    if reqs != [] {
      var lists := GatherLists(root, split, listing, reqs).value;
      GatherListsPointwise(root, split, listing, reqs[1..]);
      forall i | 1 <= i < |reqs|
        ensures ListSamples(root, listing, reqs[i].0, split, reqs[i].1) == Ok(lists[i])
      {
        assert reqs[i] == reqs[1..][i - 1];
        assert lists[i] == GatherLists(root, split, listing, reqs[1..]).value[i - 1];
      }
    }
  }

  /** A failure is the error of the first request whose listing fails. */
  lemma {:induction false} GatherListsFailure(root: string, split: string, listing: map<string, seq<string>>, reqs: seq<(string, int)>)
    requires GatherLists(root, split, listing, reqs).Err?
    ensures exists i :: 0 <= i < |reqs| && FailsFirstAt(root, split, listing, reqs, i)
              && ListSamples(root, listing, reqs[i].0, split, reqs[i].1) == Err(GatherLists(root, split, listing, reqs).error)
    decreases |reqs|
  {
    if ListSamples(root, listing, reqs[0].0, split, reqs[0].1).Err? {
      assert FailsFirstAt(root, split, listing, reqs, 0);
    } else {
      GatherListsFailure(root, split, listing, reqs[1..]);
      var i :| 0 <= i < |reqs| - 1 && FailsFirstAt(root, split, listing, reqs[1..], i)
               && ListSamples(root, listing, reqs[1..][i].0, split, reqs[1..][i].1) == Err(GatherLists(root, split, listing, reqs[1..]).error);
      assert reqs[1..][i] == reqs[i + 1];
      assert FailsFirstAt(root, split, listing, reqs, i + 1) by {
        forall k | 0 < k < i + 1
          ensures ListSamples(root, listing, reqs[k].0, split, reqs[k].1).Ok?
        {
          assert reqs[k] == reqs[1..][k - 1];
        }
      }
    }
  }

  /** Request `i` is the first whose listing fails. */
  ghost predicate FailsFirstAt(root: string, split: string, listing: map<string, seq<string>>, reqs: seq<(string, int)>, i: nat)
    requires i < |reqs|
  {
    && ListSamples(root, listing, reqs[i].0, split, reqs[i].1).Err?
    && forall k :: 0 <= k < i ==> ListSamples(root, listing, reqs[k].0, split, reqs[k].1).Ok?
  }

  /** The first position from `k` on whose list differs in length from the
      high-resolution list at position 0. */
  function FirstMismatch(lists: seq<seq<string>>, k: nat): (r: Option<nat>)
    requires 1 <= k <= |lists|
    ensures r.Some? ==> k <= r.value < |lists| && |lists[r.value]| != |lists[0]|
    ensures r.Some? ==> forall j :: k <= j < r.value ==> |lists[j]| == |lists[0]|
    ensures r.None? <==> forall j :: k <= j < |lists| ==> |lists[j]| == |lists[0]|
    decreases |lists| - k
  {
    if k == |lists| then None
    else if |lists[k]| != |lists[0]| then Some(k)
    else FirstMismatch(lists, k + 1)
  }

  /** Sample `i` holds file `i` of every list, in list order. */
  function Transpose(lists: seq<seq<string>>): (samples: seq<seq<string>>)
    requires |lists| > 0
    requires forall j :: 0 <= j < |lists| ==> |lists[j]| == |lists[0]|
  {
    seq(|lists[0]|, i requires 0 <= i < |lists[0]| =>
      seq(|lists|, j requires 0 <= j < |lists| => lists[j][i]))
  }

  /** What `init_samples` computes: the samples, or the first listing
      error, or a count mismatch naming the first requested track whose
      file count differs from the high-resolution one. */
  function SampleIndex(root: string, split: string, tracks: seq<string>, scales: seq<int>, listing: map<string, seq<string>>): (r: Result<seq<seq<string>>>)
    requires |tracks| == |scales|
  {
    var lists :- GatherLists(root, split, listing, Requests(tracks, scales));
    IndexOfLists(lists, tracks, scales)
  }

  /** The second and third steps of `init_samples`: the count check, then
      one sample per high-resolution file. */
  function IndexOfLists(lists: seq<seq<string>>, tracks: seq<string>, scales: seq<int>): (r: Result<seq<seq<string>>>)
    requires |lists| == 1 + |tracks| == 1 + |scales|
  {
    match FirstMismatch(lists, 1)
    case Some(i) => Err(FileCountMismatch(tracks[i - 1], scales[i - 1]))
    case None => Ok(Transpose(lists))
  }

  /** Once every directory is listed, the index is built exactly when all
      lists are as long as the high-resolution list; sample `i` then holds
      file `i` of each list, the high-resolution path first. */
  lemma SampleIndexLayout(root: string, split: string, tracks: seq<string>, scales: seq<int>,
                          listing: map<string, seq<string>>, lists: seq<seq<string>>)
    requires |tracks| == |scales|
    requires GatherLists(root, split, listing, Requests(tracks, scales)) == Ok(lists)
    ensures |lists| == 1 + |tracks|
    ensures SampleIndex(root, split, tracks, scales, listing).Ok? <==>
              forall j :: 0 <= j < |lists| ==> |lists[j]| == |lists[0]|
    ensures SampleIndex(root, split, tracks, scales, listing).Ok? ==>
              var samples := SampleIndex(root, split, tracks, scales, listing).value;
              && |samples| == |lists[0]|
              && forall i :: 0 <= i < |samples| ==>
                   |samples[i]| == 1 + |tracks| && forall j :: 0 <= j <= |tracks| ==> samples[i][j] == lists[j][i]
  {
  }

  /** A count mismatch names the first requested track, in request order,
      whose list differs in length from the high-resolution list. */
  lemma MismatchNamesFirstOffender(root: string, split: string, tracks: seq<string>, scales: seq<int>,
                                   listing: map<string, seq<string>>, lists: seq<seq<string>>)
    requires |tracks| == |scales|
    requires GatherLists(root, split, listing, Requests(tracks, scales)) == Ok(lists)
    requires SampleIndex(root, split, tracks, scales, listing).Err?
    ensures exists i :: 0 <= i < |tracks|
              && SampleIndex(root, split, tracks, scales, listing).error == FileCountMismatch(tracks[i], scales[i])
              && |lists[i + 1]| != |lists[0]|
              && forall k :: 1 <= k <= i ==> |lists[k]| == |lists[0]|
  {
    var i := FirstMismatch(lists, 1).value;
    assert SampleIndex(root, split, tracks, scales, listing).error == FileCountMismatch(tracks[i - 1], scales[i - 1]);
  }

  /** A listing failure is reported before any count is compared. */
  lemma ListingFailureComesFirst(root: string, split: string, tracks: seq<string>, scales: seq<int>,
                                 listing: map<string, seq<string>>, k: nat)
    requires |tracks| == |scales|
    requires k < |Requests(tracks, scales)| && FailsFirstAt(root, split, listing, Requests(tracks, scales), k)
    ensures SampleIndex(root, split, tracks, scales, listing)
              == Err(ListSamples(root, listing, Requests(tracks, scales)[k].0, split, Requests(tracks, scales)[k].1).error)
  {
    GatherFirstFailure(root, split, listing, Requests(tracks, scales), k);
  }

  /** The high-resolution listing decides the number of samples. */
  lemma SampleCountIsHrCount(root: string, split: string, tracks: seq<string>, scales: seq<int>, listing: map<string, seq<string>>)
    requires |tracks| == |scales|
    requires SampleIndex(root, split, tracks, scales, listing).Ok?
    ensures GetDir(root, "hr", split, 1).Ok? && GetDir(root, "hr", split, 1).value in listing
    ensures |SampleIndex(root, split, tracks, scales, listing).value| == |listing[GetDir(root, "hr", split, 1).value]|
  {
    var reqs := Requests(tracks, scales);
    assert reqs[0] == ("hr", 1);
  }

  /** Column `j` of the index holds the sorted listing of request `j`'s
      directory, one path per sample. */
  lemma SampleColumn(root: string, split: string, tracks: seq<string>, scales: seq<int>,
                     listing: map<string, seq<string>>, j: nat, dir: string, i: nat)
    requires |tracks| == |scales| && j <= |tracks|
    requires GetDir(root, Requests(tracks, scales)[j].0, split, Requests(tracks, scales)[j].1) == Ok(dir)
    requires dir in listing
    requires SampleIndex(root, split, tracks, scales, listing).Ok?
    requires i < |SampleIndex(root, split, tracks, scales, listing).value|
    ensures i < |listing[dir]|
    ensures SampleIndex(root, split, tracks, scales, listing).value[i][j] == Join(dir, Sort(listing[dir])[i])
  {
    var reqs := Requests(tracks, scales);
    var lists := GatherLists(root, split, listing, reqs).value;
    SampleIndexLayout(root, split, tracks, scales, listing, lists);
    GatherListsPointwise(root, split, listing, reqs);
    assert ListSamples(root, listing, reqs[j].0, split, reqs[j].1) == Ok(lists[j]);
    ListSamplesSorted(root, listing, reqs[j].0, split, reqs[j].1, dir);
  }

  /** When a track's directory holds the same names as the
      high-resolution directory, each sample pairs a high-resolution file
      with the file of the same name in that track, whatever order the
      directories list their entries in. */
  lemma SamplesPairByName(root: string, split: string, tracks: seq<string>, scales: seq<int>,
                          listing: map<string, seq<string>>, j: nat, hrDir: string, lrDir: string, i: nat)
    requires |tracks| == |scales| && 1 <= j <= |tracks|
    requires GetDir(root, "hr", split, 1) == Ok(hrDir) && hrDir in listing
    requires GetDir(root, tracks[j - 1], split, scales[j - 1]) == Ok(lrDir) && lrDir in listing
    requires multiset(listing[lrDir]) == multiset(listing[hrDir])
    requires SampleIndex(root, split, tracks, scales, listing).Ok?
    requires i < |SampleIndex(root, split, tracks, scales, listing).value|
    ensures i < |listing[hrDir]|
    ensures SampleIndex(root, split, tracks, scales, listing).value[i][0] == Join(hrDir, Sort(listing[hrDir])[i])
    ensures SampleIndex(root, split, tracks, scales, listing).value[i][j] == Join(lrDir, Sort(listing[hrDir])[i])
  {
    assert Requests(tracks, scales)[0] == ("hr", 1);
    assert Requests(tracks, scales)[j] == (tracks[j - 1], scales[j - 1]);
    SampleColumn(root, split, tracks, scales, listing, 0, hrDir, i);
    SampleColumn(root, split, tracks, scales, listing, j, lrDir, i);
    SortIgnoresListingOrder(listing[lrDir], listing[hrDir]);
  }

  /** Sorting the listing ["b.png", "a.png"] gives ["a.png", "b.png"]. */
  lemma SortExample()
    ensures Sort(["b.png", "a.png"]) == ["a.png", "b.png"]
    ensures Sort(["a.png", "b.png"]) == ["a.png", "b.png"]
  {
    var sorted := ["a.png", "b.png"];
    assert StrLe("a.png", "b.png");
    assert multiset(sorted) == multiset(["b.png", "a.png"]);
    SortedUnique(Sort(["b.png", "a.png"]), sorted);
    SortedUnique(Sort(["a.png", "b.png"]), sorted);
  }

  /** An example listing: a.png and b.png in the high-resolution and in
      the bicubic X2 training directories, listed in different orders;
      other directories may hold anything. */
  predicate PairingListing(root: string, listing: map<string, seq<string>>)
  {
    && Join(root, "DIV2K_train_HR") in listing
    && listing[Join(root, "DIV2K_train_HR")] == ["b.png", "a.png"]
    && Join(root, Join("DIV2K_train_LR_bicubic", "X2")) in listing
    && listing[Join(root, Join("DIV2K_train_LR_bicubic", "X2"))] == ["a.png", "b.png"]
  }

  /** The table lookups the example relies on. */
  lemma HrTrainDir(root: string)
    ensures GetDir(root, "hr", "train", 1) == Ok(Join(root, "DIV2K_train_HR"))
  {
  }

  lemma BicubicTrainX2Dir(root: string)
    ensures GetDir(root, "bicubic", "train", 2) == Ok(Join(root, Join("DIV2K_train_LR_bicubic", "X2")))
  {
  }

  /** The high-resolution list of the example is sorted: a.png first. */
  lemma PairingHr(root: string, listing: map<string, seq<string>>)
    requires PairingListing(root, listing)
    ensures
      var hrDir := Join(root, "DIV2K_train_HR");
      ListSamples(root, listing, "hr", "train", 1) == Ok([Join(hrDir, "a.png"), Join(hrDir, "b.png")])
  {
    var hrDir := Join(root, "DIV2K_train_HR");
    SortExample();
    HrTrainDir(root);
    ListSamplesSorted(root, listing, "hr", "train", 1, hrDir);
    var hr := ListSamples(root, listing, "hr", "train", 1).value;
    assert hr[0] == Join(hrDir, "a.png") && hr[1] == Join(hrDir, "b.png");
    assert hr == [Join(hrDir, "a.png"), Join(hrDir, "b.png")];
  }

  /** The bicubic list of the example, already in order. */
  lemma PairingLr(root: string, listing: map<string, seq<string>>)
    requires PairingListing(root, listing)
    ensures
      var lrDir := Join(root, Join("DIV2K_train_LR_bicubic", "X2"));
      ListSamples(root, listing, "bicubic", "train", 2) == Ok([Join(lrDir, "a.png"), Join(lrDir, "b.png")])
  {
    var lrDir := Join(root, Join("DIV2K_train_LR_bicubic", "X2"));
    SortExample();
    BicubicTrainX2Dir(root);
    ListSamplesSorted(root, listing, "bicubic", "train", 2, lrDir);
    var lr := ListSamples(root, listing, "bicubic", "train", 2).value;
    assert lr[0] == Join(lrDir, "a.png") && lr[1] == Join(lrDir, "b.png");
    assert lr == [Join(lrDir, "a.png"), Join(lrDir, "b.png")];
  }

  /** Gathering two requests that both list. */
  lemma GatherTwo(root: string, split: string, listing: map<string, seq<string>>,
                  req0: (string, int), req1: (string, int), list0: seq<string>, list1: seq<string>)
    requires ListSamples(root, listing, req0.0, split, req0.1) == Ok(list0)
    requires ListSamples(root, listing, req1.0, split, req1.1) == Ok(list1)
    ensures GatherLists(root, split, listing, [req0, req1]) == Ok([list0, list1])
  {
    GatherAllSucceed(root, split, listing, [req0, req1], [list0, list1]);
  }

  /** Two lists of equal length are transposed into pairs. */
  lemma PairingTranspose(hr: seq<string>, lr: seq<string>)
    requires |hr| == |lr| == 2
    ensures IndexOfLists([hr, lr], ["bicubic"], [2]) == Ok([[hr[0], lr[0]], [hr[1], lr[1]]])
  {
    var lists := [hr, lr];
    assert FirstMismatch(lists, 1) == None;
    assert Transpose(lists)[0] == [hr[0], lr[0]];
    assert Transpose(lists)[1] == [hr[1], lr[1]];
    assert Transpose(lists) == [[hr[0], lr[0]], [hr[1], lr[1]]];
  }

  /** With the example listing, the first sample pairs a.png with a.png
      and the second b.png with b.png. */
  lemma PairingExample(root: string, listing: map<string, seq<string>>)
    requires PairingListing(root, listing)
    ensures
      var hrDir := Join(root, "DIV2K_train_HR");
      var lrDir := Join(root, Join("DIV2K_train_LR_bicubic", "X2"));
      SampleIndex(root, "train", ["bicubic"], [2], listing)
        == Ok([[Join(hrDir, "a.png"), Join(lrDir, "a.png")], [Join(hrDir, "b.png"), Join(lrDir, "b.png")]])
  {
    var hrDir := Join(root, "DIV2K_train_HR");
    var lrDir := Join(root, Join("DIV2K_train_LR_bicubic", "X2"));
    var hr := [Join(hrDir, "a.png"), Join(hrDir, "b.png")];
    var lr := [Join(lrDir, "a.png"), Join(lrDir, "b.png")];
    var reqs := Requests(["bicubic"], [2]);
    assert reqs == [("hr", 1), ("bicubic", 2)];
    PairingHr(root, listing);
    PairingLr(root, listing);
    GatherTwo(root, "train", listing, reqs[0], reqs[1], hr, lr);
    PairingTranspose(hr, lr);
  }

  // ---------------------------------------------------------------------
  // The sample index, as `init_samples` builds it

  /** First step of `init_samples`: one sorted path list per request, in
      request order, stopping at the first listing that fails. */
  method ListAll(root: string, split: string, listing: map<string, seq<string>>, reqs: seq<(string, int)>)
    returns (r: Result<seq<seq<string>>>)
    ensures r == GatherLists(root, split, listing, reqs)
  {
    var lists: seq<seq<string>> := [];
    var k := 0;
    while k < |reqs|
      invariant 0 <= k <= |reqs| && |lists| == k
      invariant forall j :: 0 <= j < k ==> ListSamples(root, listing, reqs[j].0, split, reqs[j].1) == Ok(lists[j])
    {
      var l := ListSamples(root, listing, reqs[k].0, split, reqs[k].1);
      if l.Err? {
        assert FailsFirstAt(root, split, listing, reqs, k);
        GatherFirstFailure(root, split, listing, reqs, k);
        return Err(l.error);
      }
      lists := lists + [l.value];
      k := k + 1;
    }
    GatherAllSucceed(root, split, listing, reqs, lists);
    r := Ok(lists);
  }

  /** Second and third steps of `init_samples`: every list after the first
      is compared with the high-resolution one, then sample `n` is built
      from file `n` of every list. */
  method BuildIndex(lists: seq<seq<string>>, tracks: seq<string>, scales: seq<int>)
    returns (r: Result<seq<seq<string>>>)
    requires |lists| == 1 + |tracks| == 1 + |scales|
    ensures r == IndexOfLists(lists, tracks, scales)
  {
    var i := 0;
    while i < |lists| - 1
      invariant 0 <= i <= |lists| - 1
      invariant forall j :: 1 <= j <= i ==> |lists[j]| == |lists[0]|
    {
      if |lists[i + 1]| != |lists[0]| {
        assert FirstMismatch(lists, 1) == Some(i + 1);
        return Err(FileCountMismatch(tracks[i], scales[i]));
      }
      i := i + 1;
    }
    var samples: seq<seq<string>> := [];
    var n := 0;
    while n < |lists[0]|
      invariant 0 <= n <= |lists[0]| && |samples| == n
      invariant forall a :: 0 <= a < n ==> samples[a] == seq(|lists|, j requires 0 <= j < |lists| => lists[j][a])
    {
      samples := samples + [seq(|lists|, j requires 0 <= j < |lists| => lists[j][n])];
      n := n + 1;
    }
    assert samples == Transpose(lists);
    r := Ok(samples);
  }

  /** GatherLists returns the lists of all requests when none fails. */
  lemma GatherAllSucceed(root: string, split: string, listing: map<string, seq<string>>,
                         reqs: seq<(string, int)>, lists: seq<seq<string>>)
    requires |lists| == |reqs|
    requires forall j :: 0 <= j < |reqs| ==> ListSamples(root, listing, reqs[j].0, split, reqs[j].1) == Ok(lists[j])
    ensures GatherLists(root, split, listing, reqs) == Ok(lists)
  {
    GatherListsOk(root, split, listing, reqs);
    GatherListsPointwise(root, split, listing, reqs);
    var spec := GatherLists(root, split, listing, reqs);
    assert forall j :: 0 <= j < |lists| ==> spec.value[j] == lists[j] by {
      forall j | 0 <= j < |lists| ensures spec.value[j] == lists[j] {
        assert ListSamples(root, listing, reqs[j].0, split, reqs[j].1) == Ok(spec.value[j]);
      }
    }
    assert spec.value == lists;
  }

  /** GatherLists fails with the error of the first failing request. */
  lemma {:induction false} GatherFirstFailure(root: string, split: string, listing: map<string, seq<string>>, reqs: seq<(string, int)>, k: nat)
    requires k < |reqs| && FailsFirstAt(root, split, listing, reqs, k)
    ensures GatherLists(root, split, listing, reqs) == Err(ListSamples(root, listing, reqs[k].0, split, reqs[k].1).error)
    decreases k
  {
    if k > 0 {
      assert reqs[1..][k - 1] == reqs[k];
      assert FailsFirstAt(root, split, listing, reqs[1..], k - 1) by {
        forall m | 0 <= m < k - 1
          ensures ListSamples(root, listing, reqs[1..][m].0, split, reqs[1..][m].1).Ok?
        {
          assert reqs[1..][m] == reqs[m + 1];
        }
      }
      GatherFirstFailure(root, split, listing, reqs[1..], k - 1);
    }
  }

  // ---------------------------------------------------------------------
  // The dataset object

  /** A DIV2K dataset: the fields of the generic folder dataset it builds
      on, the requested split and tracks, and the samples `init_samples`
      assigns. */
  class Div2KDataset {
    const root: string
    const scales: seq<int>
    const tracks: seq<string>
    const split: string
    const transform: Option<Transform>
    const loader: string -> Image
    var samples: seq<seq<string>>

    /** Tracks and scales pair up, and every sample has one path per
        track besides the high-resolution one. */
    ghost predicate Valid()
      reads this
    {
      && |tracks| == |scales|
      && forall i :: 0 <= i < |samples| ==> |samples[i]| == 1 + |tracks|
    }

    /** The folder dataset's constructor: the root is the DIV2K
        sub-directory of the given one, and there are no samples yet. */
    constructor (root: string, scales: seq<int>, tracks: seq<string>, split: string,
                 transform: Option<Transform>, loader: string -> Image)
      requires |tracks| == |scales|
      ensures Valid()
      ensures this.root == Join(root, "DIV2K") && this.scales == scales && this.tracks == tracks
      ensures this.split == split && this.transform == transform && this.loader == loader
      ensures samples == []
    {
      this.root := Join(root, "DIV2K");
      this.scales := scales;
      this.tracks := tracks;
      this.split := split;
      this.transform := transform;
      this.loader := loader;
      samples := [];
    }

    /** `init_samples`: on success the samples are the index of the
        listing; on failure they are left as they were. */
    method InitSamples(listing: map<string, seq<string>>) returns (err: Option<Error>)
      requires Valid()
      modifies this`samples
      ensures Valid()
      ensures SampleIndex(root, split, tracks, scales, listing).Ok? ==>
                err == None && samples == SampleIndex(root, split, tracks, scales, listing).value
      ensures SampleIndex(root, split, tracks, scales, listing).Err? ==>
                err == Some(SampleIndex(root, split, tracks, scales, listing).error) && samples == old(samples)
    {
      var gathered := ListAll(root, split, listing, Requests(tracks, scales));
      if gathered.Err? {
        return Some(gathered.error);
      }
      var r := BuildIndex(gathered.value, tracks, scales);
      match r
      case Ok(s) =>
        samples := s;
        err := None;
      case Err(e) =>
        err := Some(e);
    }

    /** `__len__`: the number of samples. */
    function Len(): (n: nat)
      reads this
      ensures n == |samples|
    {
      |samples|
    }

    /** `__getitem__`: every path of the sample loaded, in sample order, then
        the transform applied to the whole list when there is one. */
    function GetItem(index: int): (r: Result<seq<Image>>)
      reads this
      ensures PyIndex(samples, index).Err? ==> r == Err(IndexOutOfRange(index, |samples|))
      ensures PyIndex(samples, index).Ok? ==> r.Ok?
      ensures r.Ok? && transform.None? ==>
                var paths := PyIndex(samples, index).value;
                |r.value| == |paths| && forall k :: 0 <= k < |paths| ==> r.value[k] == loader(paths[k])
      ensures r.Ok? && transform.Some? ==>
                var paths := PyIndex(samples, index).value;
                r.value == transform.value(seq(|paths|, k requires 0 <= k < |paths| => loader(paths[k])))
    {
      var paths :- PyIndex(samples, index);
      var images := seq(|paths|, k requires 0 <= k < |paths| => loader(paths[k]));
      match transform
      case None => Ok(images)
      case Some(t) => Ok(t(images))
    }
  }

  /** `Div2K(root, scale, track, split, transform, loader)`: normalises
      the arguments, builds the dataset and its sample index. */
  method NewDiv2K(root: string, scale: ScaleArg, track: TrackArg, split: string,
                  transform: Option<Transform>, loader: string -> Image,
                  listing: map<string, seq<string>>)
    returns (r: Result<Div2KDataset>)
    ensures Normalize(scale, track).Err? ==> r == Err(TrackScaleCountMismatch)
    ensures Normalize(scale, track).Ok? ==>
              var tracks := Normalize(scale, track).value.0;
              var scales := Normalize(scale, track).value.1;
              var index := SampleIndex(Join(root, "DIV2K"), split, tracks, scales, listing);
              && (r.Ok? <==> index.Ok?)
              && (r.Err? ==> r.error == index.error)
              && (r.Ok? ==> fresh(r.value) && r.value.Valid()
                            && r.value.root == Join(root, "DIV2K") && r.value.transform == transform
                            && r.value.loader == loader
                            && r.value.tracks == tracks && r.value.scales == scales && r.value.split == split
                            && r.value.samples == index.value)
  {
    var normalized := Normalize(scale, track);
    if normalized.Err? {
      return Err(normalized.error);
    }
    var (tracks, scales) := normalized.value;
    var d := new Div2KDataset(root, scales, tracks, split, transform, loader);
    var err := d.InitSamples(listing);
    if err.Some? {
      return Err(err.value);
    }
    r := Ok(d);
  }
}
