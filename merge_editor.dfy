/** The merge editor: an ordered list of clips reordered by drag-and-drop
    (a move, never a swap), shortened by removal, extended by upload, and
    handed to the merge once it holds at least two clips. */
module MergeEditor {
  import opened Wrappers
  import opened Media

  // ---------------------------------------------------------------------
  // Sequence operations

  /** `splice(i, 1)`: the list without position i. */
  function SpliceOut<T>(s: seq<T>, i: nat): (r: seq<T>)
    requires i < |s|
    ensures |r| == |s| - 1
    ensures forall k :: 0 <= k < |r| ==> r[k] == if k < i then s[k] else s[k + 1]
  {
    s[..i] + s[i + 1..]
  }

  /** `splice(i, 0, x)`: the list with x inserted before position i. */
  function SpliceIn<T>(s: seq<T>, i: nat, x: T): (r: seq<T>)
    requires i <= |s|
    ensures |r| == |s| + 1 && r[i] == x
    ensures forall k :: 0 <= k < |r| && k != i ==> r[k] == if k < i then s[k] else s[k - 1]
  {
    s[..i] + [x] + s[i..]
  }

  /** The drag move of `handleDragOver`: take the item at `from` out and put
      it back at `to`. */
  function Move<T>(s: seq<T>, from: nat, to: nat): seq<T>
    requires from < |s| && to < |s|
  {
    SpliceIn(SpliceOut(s, from), to, s[from])
  }

  lemma SpliceOutIn<T>(s: seq<T>, i: nat, x: T)
    requires i <= |s|
    ensures SpliceOut(SpliceIn(s, i, x), i) == s
  {
    assert SpliceIn(s, i, x)[..i] == s[..i];
    assert SpliceIn(s, i, x)[i + 1..] == s[i..];
  }

  lemma SpliceInOut<T>(s: seq<T>, i: nat)
    requires i < |s|
    ensures SpliceIn(SpliceOut(s, i), i, s[i]) == s
  {
  }

  /** A move keeps the length and the elements (with multiplicity), and the
      moved item lands at the target position. */
  lemma MovePermutes<T>(s: seq<T>, from: nat, to: nat)
    requires from < |s| && to < |s|
    ensures |Move(s, from, to)| == |s|
    ensures multiset(Move(s, from, to)) == multiset(s)
    ensures Move(s, from, to)[to] == s[from]
  {
    var u := SpliceOut(s, from);
    assert s == s[..from] + [s[from]] + s[from + 1..];
    assert multiset(s) == multiset(u) + multiset{s[from]};
    assert Move(s, from, to) == u[..to] + [s[from]] + u[to..];
    assert u == u[..to] + u[to..];
  }

  /** Where every element goes: the moved item to `to`, the items between
      the two positions shift by one towards `from`, all others stay. */
  lemma MoveAt<T>(s: seq<T>, from: nat, to: nat, k: nat)
    requires from < |s| && to < |s| && k < |s|
    ensures Move(s, from, to)[k] ==
              if k == to then s[from]
              else if from < to && from <= k < to then s[k + 1]
              else if to < from && to < k <= from then s[k - 1]
              else s[k]
  {
  }

  /** The relative order of all other items is unchanged: taking the moved
      item out of the result gives the list with it taken out of the input. */
  lemma MoveKeepsOthersInOrder<T>(s: seq<T>, from: nat, to: nat)
    requires from < |s| && to < |s|
    ensures SpliceOut(Move(s, from, to), to) == SpliceOut(s, from)
  {
    SpliceOutIn(SpliceOut(s, from), to, s[from]);
  }

  /** Dragging the item back to where it came from restores the list. */
  lemma MoveUndo<T>(s: seq<T>, from: nat, to: nat)
    requires from < |s| && to < |s|
    ensures Move(Move(s, from, to), to, from) == s
  {
    var m := Move(s, from, to);
    MovePermutes(s, from, to);
    MoveKeepsOthersInOrder(s, from, to);
    SpliceInOut(s, from);
  }

  /** `[a, b, c]` with a dragged from 0 to 2 becomes `[b, c, a]`, not the
      swap `[c, b, a]`. */
  lemma MoveIsNotSwap()
    ensures Move([1, 2, 3], 0, 2) == [2, 3, 1]
  {
  }

  /** `filter((_, i) => i !== index)`, written as the filter it is. */
  function Without<T>(s: seq<T>, index: int): (r: seq<T>)
    ensures |r| == if 0 <= index < |s| then |s| - 1 else |s|
    decreases |s|
  {
    if s == [] then []
    else (if index == 0 then [] else [s[0]]) + Without(s[1..], index - 1)
  }

  /** The filter removes exactly position `index` when it exists and
      nothing otherwise. */
  lemma {:induction false} WithoutIsSpliceOut<T>(s: seq<T>, index: int)
    ensures 0 <= index < |s| ==> Without(s, index) == SpliceOut(s, index)
    ensures !(0 <= index < |s|) ==> Without(s, index) == s
    decreases |s|
  {
    if s != [] {
      var tail := s[1..];
      WithoutIsSpliceOut(tail, index - 1);
      if index == 0 {
        assert s[..0] + s[1..] == tail;
      } else if 0 < index < |s| {
        SpliceOutCons(s, index);
      } else {
        assert [s[0]] + tail == s;
      }
    }
  }

  lemma SpliceOutCons<T>(s: seq<T>, i: nat)
    requires 0 < i < |s|
    ensures SpliceOut(s, i) == [s[0]] + SpliceOut(s[1..], i - 1)
  {
    assert s[..i] == [s[0]] + s[1..][..i - 1];
    assert s[i + 1..] == s[1..][i..];
  }

  /** Removing an existing position keeps the other items in order. */
  lemma RemoveKeepsOthers<T>(s: seq<T>, index: nat)
    requires index < |s|
    ensures forall k :: 0 <= k < |s| - 1 ==> Without(s, index)[k] == if k < index then s[k] else s[k + 1]
  {
    WithoutIsSpliceOut(s, index);
  }

  /** Removing an existing position drops exactly one occurrence of that item. */
  lemma RemoveDropsOne<T>(s: seq<T>, index: nat)
    requires index < |s|
    ensures multiset(Without(s, index)) == multiset(s) - multiset{s[index]}
  {
    WithoutIsSpliceOut(s, index);
    SpliceOutMultiset(s, index);
  }

  lemma SpliceOutMultiset<T>(s: seq<T>, i: nat)
    requires i < |s|
    ensures multiset(SpliceOut(s, i)) == multiset(s) - multiset{s[i]}
  {
    assert s == s[..i] + [s[i]] + s[i + 1..];
  }

  /** The fewest clips a merge accepts. */
  const MinMergeCount: nat := 2

  /** The merge button: disabled below two clips, otherwise `onMerge`
      receives the list in its current order. */
  function MergeRequest(files: seq<MediaFile>): (r: Option<seq<MediaFile>>)
    ensures r.Some? <==> |files| >= MinMergeCount
    ensures r.Some? ==> r.value == files
  {
    if |files| < MinMergeCount then None else Some(files)
  }

  // ---------------------------------------------------------------------
  // The component

  /** The callbacks the editor invokes on its parent. */
  datatype Callback = Merge(files: seq<MediaFile>) | Cancel | AddFiles(added: seq<MediaFile>)

  class MergeEditor {
    var videoFiles: seq<MediaFile>
    var draggedIndex: Option<nat>
    var callbacks: seq<Callback>

    constructor(files: seq<MediaFile>)
      ensures videoFiles == files && draggedIndex == None && callbacks == []
    {
      videoFiles, draggedIndex, callbacks := files, None, [];
    }

    /** `handleDragStart`. */
    method DragStart(index: nat)
      modifies this
      ensures draggedIndex == Some(index)
      ensures videoFiles == old(videoFiles) && callbacks == old(callbacks)
    {
      draggedIndex := Some(index);
    }

    /** `handleDragOver` on the row at `index`: nothing while no drag is in
      progress or over the dragged row itself, otherwise the dragged item
      moves to `index` and is now the dragged index. */
    method DragOver(index: nat)
      requires index < |videoFiles|
      requires draggedIndex.Some? ==> draggedIndex.value < |videoFiles|
      modifies this
      ensures old(draggedIndex) == None || old(draggedIndex) == Some(index) ==>
                videoFiles == old(videoFiles) && draggedIndex == old(draggedIndex)
      ensures old(draggedIndex).Some? && old(draggedIndex) != Some(index) ==>
                videoFiles == Move(old(videoFiles), old(draggedIndex).value, index) && draggedIndex == Some(index)
      ensures callbacks == old(callbacks)
    {
      if draggedIndex == None || draggedIndex == Some(index) {
        return;
      }
      var from := draggedIndex.value;
      var newFiles := videoFiles;
      var draggedItem := newFiles[from];
      newFiles := SpliceOut(newFiles, from);
      newFiles := SpliceIn(newFiles, index, draggedItem);
      videoFiles := newFiles;
      draggedIndex := Some(index);
    }

    /** `handleDragEnd`. */
    method DragEnd()
      modifies this
      ensures draggedIndex == None
      ensures videoFiles == old(videoFiles) && callbacks == old(callbacks)
    {
      draggedIndex := None;
    }

    /** `removeFile`: drop the row; cancel when nothing is left. */
    method RemoveFile(index: int)
      modifies this
      ensures videoFiles == Without(old(videoFiles), index)
      ensures callbacks == old(callbacks) + (if videoFiles == [] then [Cancel] else [])
      ensures draggedIndex == old(draggedIndex)
    {
      videoFiles := Without(videoFiles, index);
      if |videoFiles| == 0 {
        callbacks := callbacks + [Cancel];
      }
    }

    /** The embedded uploader's `onUpload`: append, then tell the parent. */
    method Upload(newFiles: seq<MediaFile>)
      modifies this
      ensures videoFiles == old(videoFiles) + newFiles
      ensures callbacks == old(callbacks) + [AddFiles(newFiles)]
      ensures draggedIndex == old(draggedIndex)
    {
      videoFiles := videoFiles + newFiles;
      callbacks := callbacks + [AddFiles(newFiles)];
    }

    /** The Cancel button. */
    method CancelClicked()
      modifies this
      ensures callbacks == old(callbacks) + [Cancel]
      ensures videoFiles == old(videoFiles) && draggedIndex == old(draggedIndex)
    {
      callbacks := callbacks + [Cancel];
    }

    /** The Merge button, which is disabled below two clips. */
    method MergeClicked()
      modifies this
      ensures callbacks == old(callbacks) + (if |videoFiles| < MinMergeCount then [] else [Merge(videoFiles)])
      ensures videoFiles == old(videoFiles) && draggedIndex == old(draggedIndex)
    {
      match MergeRequest(videoFiles)
      case Some(files) => callbacks := callbacks + [Merge(files)];
      case None =>
    }
  }
}
