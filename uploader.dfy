/** The selection logic of the upload widget: which of the dropped or
    chosen files are handed to its `onUpload` callback. */
module VideoUploader {
  import opened Wrappers
  import opened Media

  /** `Array.from(files).filter(file => file.type.startsWith('video/'))`. */
  function FilterVideos(files: seq<MediaFile>): (r: seq<MediaFile>)
    ensures |r| <= |files|
    ensures forall i :: 0 <= i < |r| ==> IsVideo(r[i])
  {
    if files == [] then []
    else
      var rest := FilterVideos(files[1..]);
      if IsVideo(files[0]) then [files[0]] + rest else rest
  }

  /** The filter keeps exactly the video files. */
  lemma {:induction false} FilterMembers(files: seq<MediaFile>)
    ensures forall f :: f in FilterVideos(files) <==> f in files && IsVideo(f)
  {
    if files != [] {
      FilterMembers(files[1..]);
      assert forall f :: f in files <==> f == files[0] || f in files[1..];
    }
  }

  ghost predicate StrictlyIncreasing(p: seq<nat>) {
    forall k, l :: 0 <= k < l < |p| ==> p[k] < p[l]
  }

  /** The positions of the video files in `files`, each shifted by `base`,
      in order. */
  ghost function VideoPositions(files: seq<MediaFile>, base: nat): (p: seq<nat>)
    ensures forall k :: 0 <= k < |p| ==> base <= p[k] < base + |files|
  {
    if files == [] then []
    else
      var rest := VideoPositions(files[1..], base + 1);
      if IsVideo(files[0]) then [base] + rest else rest
  }

  /** The positions increase strictly. */
  lemma {:induction false} PositionsIncrease(files: seq<MediaFile>, base: nat)
    ensures StrictlyIncreasing(VideoPositions(files, base))
  {
    if files != [] {
      PositionsIncrease(files[1..], base + 1);
    }
  }

  /** Element k of the filtered list is the file at the k-th video position. */
  lemma {:induction false} PositionsMatch(files: seq<MediaFile>, base: nat)
    ensures var p := VideoPositions(files, base);
            && |p| == |FilterVideos(files)|
            && forall k :: 0 <= k < |p| ==> files[p[k] - base] == FilterVideos(files)[k]
  {
    if files != [] {
      PositionsMatch(files[1..], base + 1);
      if IsVideo(files[0]) {
        VideoStep(files, base);
      } else {
        SkipStep(files, base);
      }
    }
  }

  lemma VideoStep(files: seq<MediaFile>, base: nat)
    requires files != [] && IsVideo(files[0])
    requires var p := VideoPositions(files[1..], base + 1);
             && |p| == |FilterVideos(files[1..])|
             && forall k :: 0 <= k < |p| ==> files[1..][p[k] - (base + 1)] == FilterVideos(files[1..])[k]
    ensures var p := VideoPositions(files, base);
            && |p| == |FilterVideos(files)|
            && forall k :: 0 <= k < |p| ==> files[p[k] - base] == FilterVideos(files)[k]
  {
    var tail := files[1..];
    var rest := VideoPositions(tail, base + 1);
    var p := VideoPositions(files, base);
    assert p == [base] + rest;
    assert FilterVideos(files) == [files[0]] + FilterVideos(tail);
    forall k | 0 < k < |p| ensures files[p[k] - base] == FilterVideos(files)[k] {
      assert p[k] == rest[k - 1];
      assert files[p[k] - base] == tail[rest[k - 1] - (base + 1)];
    }
  }

  lemma SkipStep(files: seq<MediaFile>, base: nat)
    requires files != [] && !IsVideo(files[0])
    requires var p := VideoPositions(files[1..], base + 1);
             && |p| == |FilterVideos(files[1..])|
             && forall k :: 0 <= k < |p| ==> files[1..][p[k] - (base + 1)] == FilterVideos(files[1..])[k]
    ensures var p := VideoPositions(files, base);
            && |p| == |FilterVideos(files)|
            && forall k :: 0 <= k < |p| ==> files[p[k] - base] == FilterVideos(files)[k]
  {
    var tail := files[1..];
    var rest := VideoPositions(tail, base + 1);
    assert VideoPositions(files, base) == rest;
    assert FilterVideos(files) == FilterVideos(tail);
    forall k | 0 <= k < |rest| ensures files[rest[k] - base] == FilterVideos(files)[k] {
      assert files[rest[k] - base] == tail[rest[k] - (base + 1)];
    }
  }

  /** Every video file's position is listed. */
  lemma {:induction false} PositionsComplete(files: seq<MediaFile>, base: nat)
    ensures forall i :: 0 <= i < |files| && IsVideo(files[i]) ==> base + i in VideoPositions(files, base)
  {
    if files != [] {
      PositionsComplete(files[1..], base + 1);
      forall i | 0 < i < |files| && IsVideo(files[i])
        ensures base + i in VideoPositions(files[1..], base + 1)
      {
        assert files[1..][i - 1] == files[i];
      }
    }
  }

  /** The filter keeps exactly the video files, each once, in their original
      relative order: element k of the result is the k-th video file. */
  lemma FilterKeepsOrder(files: seq<MediaFile>)
    ensures var p := VideoPositions(files, 0);
            && |p| == |FilterVideos(files)|
            && StrictlyIncreasing(p)
            && (forall k :: 0 <= k < |p| ==> p[k] < |files| && files[p[k]] == FilterVideos(files)[k])
            && (forall i :: 0 <= i < |files| && IsVideo(files[i]) ==> i in p)
  {
    PositionsMatch(files, 0);
    PositionsComplete(files, 0);
    PositionsIncrease(files, 0);
  }

  /** The first element of the filtered list is the earliest video file. */
  lemma FirstVideo(files: seq<MediaFile>)
    requires FilterVideos(files) != []
    ensures exists k :: 0 <= k < |files| && FilterVideos(files)[0] == files[k] && IsVideo(files[k])
                        && forall j :: 0 <= j < k ==> !IsVideo(files[j])
  {
    FilterKeepsOrder(files);
    var p := VideoPositions(files, 0);
    assert FilterVideos(files)[0] == files[p[0]];
  }

  /** What `handleDrop` passes to `onUpload`; `None` when it does not call it. */
  function Drop(dropped: seq<MediaFile>, multiple: bool): (r: Option<seq<MediaFile>>)
    ensures r.None? <==> forall i :: 0 <= i < |dropped| ==> !IsVideo(dropped[i])
    ensures r.Some? && multiple ==> r.value == FilterVideos(dropped)
    ensures r.Some? && !multiple ==>
              exists k :: 0 <= k < |dropped| && r.value == [dropped[k]] && IsVideo(dropped[k])
                          && forall j :: 0 <= j < k ==> !IsVideo(dropped[j])
  {
    var files := FilterVideos(dropped);
    FilterMembers(dropped);
    if |files| > 0 then
      FirstVideo(dropped);
      Some(if multiple then files else [files[0]])
    else
      assert forall i :: 0 <= i < |dropped| ==> dropped[i] !in files;
      None
  }

  /** Filtering a list of video files keeps it as it is. */
  lemma {:induction false} FilterAllVideos(files: seq<MediaFile>)
    requires forall i :: 0 <= i < |files| ==> IsVideo(files[i])
    ensures FilterVideos(files) == files
  {
    if files != [] {
      FilterAllVideos(files[1..]);
      assert [files[0]] + files[1..] == files;
    }
  }

  /** What `handleChange` passes to `onUpload`; `selection` is `None` when the
      input reports no file list. No type filter is applied here. */
  function Change(selection: Option<seq<MediaFile>>, multiple: bool): (r: Option<seq<MediaFile>>)
    requires selection.Some? && !multiple ==> |selection.value| > 0
    ensures r.Some? <==> selection.Some?
    ensures r.Some? && multiple ==> r.value == selection.value
    ensures r.Some? && !multiple ==> r.value == [selection.value[0]]
  {
    match selection
    case None => None
    case Some(files) => Some(if multiple then files else [files[0]])
  }

  /** Choosing files through the input passes the same list as dropping
      them would when every chosen file is a video; otherwise the input
      passes files that a drop would have filtered out. */
  lemma ChangeAgreesWithDrop(files: seq<MediaFile>, multiple: bool)
    requires files != []
    ensures (forall i :: 0 <= i < |files| ==> IsVideo(files[i])) ==> Change(Some(files), multiple) == Drop(files, multiple)
    ensures multiple && (exists i :: 0 <= i < |files| && !IsVideo(files[i])) ==>
              Change(Some(files), multiple) != Drop(files, multiple)
  {
    if forall i :: 0 <= i < |files| ==> IsVideo(files[i]) {
      FilterAllVideos(files);
    }
    if multiple && exists i :: 0 <= i < |files| && !IsVideo(files[i]) {
      var i :| 0 <= i < |files| && !IsVideo(files[i]);
      FilterMembers(files);
      if Drop(files, multiple).Some? {
        assert files[i] !in FilterVideos(files);
      }
    }
  }
}
