/** The gallery selection of the create page (src/pages/create.js): the state updaters
    of `addGalleryFiles`, `removeGalleryIndex` and the "clear all" button, and the
    five-photo bound they keep. */
module Gallery {
  import opened Js

  const MAX_GALLERY: nat := 5

  /** `Array.from(fileList || [])`. */
  function FileListItems<T>(fileList: Option<seq<T>>): seq<T>
  {
    match fileList
    case None => []
    case Some(items) => items
  }

  /** `[...prev, ...newFiles].slice(0, 5)`: the first five of the old list followed by
      the new files. Adding never displaces an item already selected. */
  function AddFiles<T>(prev: seq<T>, newFiles: seq<T>): (r: seq<T>)
    ensures |r| == Min(|prev| + |newFiles|, MAX_GALLERY)
    ensures r == (prev + newFiles)[..|r|]
    ensures |prev| <= MAX_GALLERY ==> |prev| <= |r| && r[..|prev|] == prev
  {
    var r := Take(prev + newFiles, MAX_GALLERY);
    assert |prev| <= MAX_GALLERY ==> r[..|prev|] == (prev + newFiles)[..|prev|];
    r
  }

  /** `prev.filter((_, i) => i !== idx)`, written as the filter over indices it is. */
  function RemoveIndex<T>(prev: seq<T>, idx: int): seq<T>
  {
    if prev == [] then []
    else RemoveIndex(prev[..|prev| - 1], idx) + (if |prev| - 1 == idx then [] else [prev[|prev| - 1]])
  }

  /** The filter drops exactly the item at `idx` and keeps the rest in order; an index
      outside the list removes nothing. */
  lemma {:induction false} RemoveIndexDropsOne<T>(prev: seq<T>, idx: int)
    ensures RemoveIndex(prev, idx) == if 0 <= idx < |prev| then prev[..idx] + prev[idx + 1..] else prev
  {
    if prev != [] {
      var init := prev[..|prev| - 1];
      var last := prev[|prev| - 1];
      RemoveIndexDropsOne(init, idx);
      if 0 <= idx < |prev| - 1 {
        assert init[..idx] == prev[..idx];
        assert init[idx + 1..] + [last] == prev[idx + 1..];
      } else if idx == |prev| - 1 {
        assert init == prev[..idx];
        assert prev[idx + 1..] == [];
      } else {
        assert init + [last] == prev;
      }
    }
  }

  /** Removing an item shortens a non-empty selection by one and never lengthens it. */
  lemma RemoveIndexLength<T>(prev: seq<T>, idx: int)
    ensures |RemoveIndex(prev, idx)| == if 0 <= idx < |prev| then |prev| - 1 else |prev|
  {
    RemoveIndexDropsOne(prev, idx);
  }

  /** The three ways the page changes the selection. */
  datatype GalleryOp<T> = AddOp(fileList: Option<seq<T>>) | RemoveOp(idx: int) | ClearOp

  function Apply<T>(gallery: seq<T>, op: GalleryOp<T>): seq<T>
  {
    match op
    case AddOp(fileList) => AddFiles(gallery, FileListItems(fileList))
    case RemoveOp(idx) => RemoveIndex(gallery, idx)
    case ClearOp => []
  }

  function Replay<T>(gallery: seq<T>, ops: seq<GalleryOp<T>>): seq<T>
    decreases |ops|
  {
    if ops == [] then gallery else Replay(Apply(gallery, ops[0]), ops[1..])
  }

  /** No sequence of adds, removals and clears takes the selection beyond five photos. */
  lemma {:induction false} ReplayWithinLimit<T>(gallery: seq<T>, ops: seq<GalleryOp<T>>)
    requires |gallery| <= MAX_GALLERY
    ensures |Replay(gallery, ops)| <= MAX_GALLERY
    decreases |ops|
  {
    if ops != [] {
      if ops[0].RemoveOp? {
        RemoveIndexLength(gallery, ops[0].idx);
      }
      ReplayWithinLimit(Apply(gallery, ops[0]), ops[1..]);
    }
  }

  function Concat<T>(batches: seq<seq<T>>): seq<T>
  {
    if batches == [] then [] else batches[0] + Concat(batches[1..])
  }

  /** Adding batch after batch to a selection `g` keeps the first five of `g` followed by
      every batch in order. */
  function AddAll<T>(g: seq<T>, batches: seq<seq<T>>): seq<T>
    decreases |batches|
  {
    if batches == [] then g else AddAll(AddFiles(g, batches[0]), batches[1..])
  }

  lemma TakeOfTake<T>(a: seq<T>, b: seq<T>, n: nat)
    ensures Take(Take(a, n) + b, n) == Take(a + b, n)
  {
    if |a| > n {
      assert (a[..n] + b)[..n] == a[..n] == (a + b)[..n];
    }
  }

  /** Starting from an empty selection, after any number of adds the selection is the
      first min(total, 5) files added, in the order they were added. */
  lemma {:induction false} AddsKeepFirstFive<T>(g: seq<T>, batches: seq<seq<T>>)
    requires |g| <= MAX_GALLERY
    ensures AddAll(g, batches) == Take(g + Concat(batches), MAX_GALLERY)
    decreases |batches|
  {
    if batches == [] {
      assert g + Concat(batches) == g;
    } else {
      var g' := AddFiles(g, batches[0]);
      AddsKeepFirstFive(g', batches[1..]);
      TakeOfTake(g + batches[0], Concat(batches[1..]), MAX_GALLERY);
      assert g + batches[0] + Concat(batches[1..]) == g + Concat(batches);
    }
  }
}
