/** The maintenance sweeps (src-tauri/src/lib.rs): resumable loops over rows and files in which any step may fail. */
module Maintenance {
  import opened Wrappers
  import opened Bytes
  import Sets

  /** A path component: a plain name, or anything else (root, prefix, `.` or `..`). */
  datatype Component = Normal(name: string) | Special

  type Parts = seq<string>

  datatype Frame = Frame(capturedAt: int, image: seq<Component>, purged: bool, merged: bool, own: bool)

  type Frames = map<int, Frame>

  // Safe image paths.

  function Names(components: seq<Component>): (names: Option<Parts>) {
    if components == [] then Some([])
    else if components[0].Special? then None
    else
      var rest := Names(components[1..]);
      if rest.None? then None else Some([components[0].name] + rest.value)
  }

  /** `safe_frame_path`: relative, below `frames`, and made of plain names only. */
  function SafePath(image: seq<Component>): (path: Option<Parts>) {
    if image == [] || image[0] != Normal("frames") then None else Names(image)
  }

  lemma {:induction false} NamesWhen(components: seq<Component>)
    ensures Names(components).Some? <==> forall i :: 0 <= i < |components| ==> components[i].Normal?
    ensures Names(components).Some? ==>
      |Names(components).value| == |components|
      && forall i :: 0 <= i < |components| ==> components[i] == Normal(Names(components).value[i])
  {
    if components != [] {
      NamesWhen(components[1..]);
      assert forall i :: 0 <= i < |components| - 1 ==> components[1..][i] == components[i + 1];
      if components[0].Normal? && Names(components[1..]).Some? {
        forall i | 0 <= i < |components|
          ensures components[i] == Normal(Names(components).value[i])
        {
          if i > 0 {
            assert components[i] == components[1..][i - 1];
          }
        }
      }
    }
  }

  /** A path is safe exactly when it starts at `frames` and never leaves it; then it is the stored path itself. */
  lemma SafePathWhen(image: seq<Component>)
    ensures SafePath(image).Some? <==>
      image != [] && image[0] == Normal("frames") && forall i :: 0 <= i < |image| ==> image[i].Normal?
    ensures SafePath(image).Some? ==>
      |SafePath(image).value| == |image|
      && SafePath(image).value[0] == "frames"
      && forall i :: 0 <= i < |image| ==> image[i] == Normal(SafePath(image).value[i])
  {
    NamesWhen(image);
  }

  /** The image of the frame still lies where the sweeps may delete it. */
  predicate ImageExists(f: Frame, files: set<Parts>) {
    SafePath(f.image).Some? && SafePath(f.image).value in files
  }

  /** No row went away, and none was flagged, while its image file still exists; rows are otherwise untouched. */
  predicate NoImageOrphaned(before: Frames, after: Frames, files: set<Parts>) {
    && (forall id :: id in after ==> id in before)
    && (forall id :: id in before && id !in after ==> !ImageExists(before[id], files))
    && (forall id :: id in after && after[id].purged && !before[id].purged ==> !ImageExists(before[id], files))
  }

  /** Only images of these frames were deleted, and no file appeared. */
  predicate OnlyImagesOf(frames: Frames, ids: set<int>, before: set<Parts>, after: set<Parts>) {
    && after <= before
    && forall p :: p in before && p !in after ==> exists id :: id in ids && id in frames && SafePath(frames[id].image) == Some(p)
  }

  /** Which operations fail, by step and frame. */
  datatype Faults = Faults(list: nat -> bool, unlink: (nat, int) -> bool, write: (nat, int) -> bool, mark: bool)

  class Archive {
    var frames: Frames
    var files: set<Parts>
    var spansMerged: bool
    var selfPurged: bool

    constructor (frames: Frames, files: set<Parts>)
      ensures this.frames == frames && this.files == files && !spansMerged && !selfPurged
    {
      this.frames, this.files := frames, files;
      spansMerged, selfPurged := false, false;
    }

    /** Delete a frame's image; a missing file or an unsafe path counts as done. */
    method RemoveImage(f: Frame, fault: bool) returns (ok: bool)
      modifies this`files
      ensures ok <==> !(fault && ImageExists(f, old(files)))
      ensures ok ==> !ImageExists(f, files)
      ensures forall p :: p in files <==> p in old(files) && !(ok && SafePath(f.image) == Some(p))
    {
      var path := SafePath(f.image);
      if path.None? || path.value !in files {
        return true;
      }
      if fault {
        return false;
      }
      files := files - {path.value};
      return true;
    }

    /** One page of the merge: the cursor passes every listed frame, merged or not. */
    method MergeBatch(batch: seq<int>, k: nat, from: int, faults: Faults, clean: bool) returns (cursor: int, stillClean: bool)
      requires batch != [] && PageOf(PurgedIds(frames), from, batch) && from >= 0
      requires clean ==> MergedUpTo(frames, from)
      modifies this`frames
      ensures OnlyMerged(old(frames), frames)
      ensures cursor == batch[|batch| - 1]
      ensures stillClean ==> clean && MergedUpTo(frames, cursor)
      ensures clean && (forall id :: !faults.write(k, id)) ==> stillClean
    {
      cursor, stillClean := from, clean;
      var i := 0;
      while i < |batch|
        invariant 0 <= i <= |batch| && OnlyMerged(old(frames), frames)
        invariant cursor == if i == 0 then from else batch[i - 1]
        invariant stillClean ==> clean && MergedUpTo(frames, cursor)
        invariant clean && (forall id :: !faults.write(k, id)) ==> stillClean
      {
        var id := batch[i];
        assert id in PurgedIds(old(frames));
        ghost var before, position := frames, cursor;
        cursor := id;
        if faults.write(k, id) {
          stillClean := false;
        } else {
          frames := frames[id := frames[id].(merged := true)];
        }
        if stillClean {
          NothingBetween(PurgedIds(old(frames)), from, batch, i);
          forall j | j in frames && frames[j].purged && 0 < j <= cursor
            ensures frames[j].merged
          {
            assert j in PurgedIds(old(frames));
          }
        }
        i := i + 1;
      }
    }

    /** `merge_purged_spans_once`. The listing is a keyset page of any size; the scan always ends, and the watermark
        is set only when every purged frame is merged. */
    method MergePurgedSpansOnce(list: (nat, int) -> seq<int>, faults: Faults)
      requires forall k: nat, c: int :: PageOf(PurgedIds(frames), c, list(k, c))
      modifies this`frames, this`spansMerged
      ensures OnlyMerged(old(frames), frames)
      ensures spansMerged && !old(spansMerged) ==> forall id :: id in frames && frames[id].purged && id > 0 ==> frames[id].merged
      ensures old(spansMerged) ==> spansMerged && frames == old(frames)
      ensures NoMergeFaults(faults) ==> spansMerged
    {
      if spansMerged {
        return;
      }
      ghost var purged := PurgedIds(frames);
      var cursor, clean, drained, k := 0, true, false, 0;
      while !drained
        invariant OnlyMerged(old(frames), frames) && PurgedIds(frames) == purged && cursor >= 0
        invariant clean ==> MergedUpTo(frames, cursor)
        invariant drained ==> forall id :: id in purged ==> id <= cursor
        invariant NoMergeFaults(faults) ==> clean
        invariant !spansMerged
        decreases !drained, |set id | id in purged && id > cursor|
      {
        if faults.list(k) {
          clean := false;
          break;
        }
        var batch := list(k, cursor);
        if batch == [] {
          drained := true;
        } else {
          ghost var from := cursor;
          cursor, clean := MergeBatch(batch, k, cursor, faults, clean);
          SamePurged(old(frames), frames);
          FewerLeft(purged, from, cursor);
        }
        k := k + 1;
      }
      if clean && !faults.mark {
        forall id | id in frames && frames[id].purged && id > 0
          ensures frames[id].merged
        {
          assert id in PurgedIds(frames);
        }
        spansMerged := true;
      }
    }

    /** `purge_self_captures`. Each listing is a nonempty batch of the remaining own-window frames; the loop ends
        because every round either deletes a row or stops; the watermark means that none is left. */
    method PurgeSelfCaptures(list: (nat, set<int>) -> seq<int>, faults: Faults)
      requires forall k: nat, ids: set<int> :: BatchOf(ids, list(k, ids))
      modifies this`frames, this`files, this`selfPurged
      ensures NoImageOrphaned(old(frames), frames, files)
      ensures OnlyImagesOf(old(frames), OwnIds(old(frames)), old(files), files)
      ensures forall id :: id in frames ==> frames[id] == old(frames)[id]
      ensures forall id :: id in old(frames) && !old(frames)[id].own ==> id in frames
      ensures selfPurged && !old(selfPurged) ==> OwnIds(frames) == {}
      ensures old(selfPurged) ==> selfPurged && frames == old(frames) && files == old(files)
      ensures NoSweepFaults(faults) && (forall k :: !faults.list(k)) && !faults.mark ==> selfPurged
    {
      if selfPurged {
        return;
      }
      var drained, k := false, 0;
      while true
        invariant OnlyOwnRemoved(old(frames), frames) && NoImageOrphaned(old(frames), frames, files)
        invariant OnlyImagesOf(old(frames), OwnIds(old(frames)), old(files), files)
        invariant !selfPurged && !drained
        decreases |frames.Keys|
      {
        if faults.list(k) {
          break;
        }
        var batch := list(k, OwnIds(frames));
        if batch == [] {
          drained := true;
          break;
        }
        ghost var before := frames.Keys;
        var purged := PurgeBatch(batch, k, faults, frames);
        if purged == 0 {
          break;
        }
        k := k + 1;
      }
      if drained && !faults.mark {
        selfPurged := true;
      }
    }

    /** One batch: the image first, then the row. */
    method PurgeBatch(batch: seq<int>, k: nat, faults: Faults, ghost start: Frames) returns (purged: nat)
      requires BatchOf(OwnIds(frames), batch) && start == frames
      modifies this`frames, this`files
      ensures OnlyOwnRemoved(old(frames), frames)
      ensures OnlyImagesOf(old(frames), OwnIds(old(frames)), old(files), files)
      ensures forall id :: id in old(frames) && id !in frames ==> !ImageExists(old(frames)[id], files)
      ensures purged > 0 ==> |frames.Keys| < |old(frames).Keys|
      ensures purged == 0 ==> frames == old(frames)
      ensures NoSweepFaults(faults) ==> purged == |batch|
    {
      purged := 0;
      for i := 0 to |batch|
        invariant OnlyOwnRemoved(start, frames) && OnlyImagesOf(start, OwnIds(start), old(files), files)
        invariant forall id :: id in start && id !in frames ==> !ImageExists(start[id], files)
        invariant purged > 0 ==> |frames.Keys| < |start.Keys|
        invariant purged == 0 ==> frames == start
        invariant NoSweepFaults(faults) ==> purged == i
        invariant forall j :: i <= j < |batch| ==> batch[j] in frames
      {
        var id := batch[i];
        assert id in OwnIds(start);
        var gone := RemoveImage(frames[id], faults.unlink(k, id));
        if !gone {
          continue;
        }
        if faults.write(k, id) {
          continue;
        }
        ghost var before := frames;
        frames := frames - {id};
        assert id in start.Keys && id !in frames.Keys;
        assert forall j :: j in frames.Keys ==> j in before.Keys && j in start.Keys;
        Sets.ProperSubsetSmaller(frames.Keys, start.Keys);
        purged := purged + 1;
      }
    }

    /** One candidate: its image first, then the row, spans and flag together. */
    method DegradeOne(id: int, faults: Faults) returns (degraded: bool)
      requires id in frames
      modifies this`frames, this`files
      ensures OnlyImagesOf(old(frames), {id}, old(files), files)
      ensures frames == if degraded then old(frames)[id := old(frames)[id].(purged := true, merged := true)] else old(frames)
      ensures degraded ==> !ImageExists(old(frames)[id], files)
      ensures degraded <==> !faults.write(0, id) && !(faults.unlink(0, id) && ImageExists(old(frames)[id], old(files)))
    {
      var gone := RemoveImage(frames[id], faults.unlink(0, id));
      if !gone || faults.write(0, id) {
        return false;
      }
      frames := frames[id := frames[id].(purged := true, merged := true)];
      return true;
    }

    /** `run_retention_once`, over the candidates the store listed. */
    method RunRetentionOnce(days: int, now: int, candidates: seq<int>, faults: Faults) returns (degraded: nat)
      requires IsI64(now) && 0 <= days <= 0xffff_ffff
      requires Candidates(frames, Cutoff(days, now), candidates)
      modifies this`frames, this`files
      ensures NoImageOrphaned(old(frames), frames, files)
      ensures OnlyImagesOf(old(frames), set id | id in candidates, old(files), files)
      ensures days > 0 ==> Explained(frames, candidates, faults)
      ensures OnlyDegraded(old(frames), frames, candidates)
      ensures degraded == |NewlyPurged(old(frames), frames)|
      ensures days == 0 ==> frames == old(frames) && files == old(files)
      ensures days > 0 && NoSweepFaults(faults) ==> AllPurged(frames, candidates)
    {
      degraded := 0;
      assert NewlyPurged(old(frames), frames) == {};
      if days == 0 {
        return;
      }
      for i := 0 to |candidates|
        invariant NoImageOrphaned(old(frames), frames, files)
        invariant OnlyImagesOf(old(frames), set id | id in candidates, old(files), files)
        invariant Explained(frames, candidates[..i], faults)
        invariant OnlyDegraded(old(frames), frames, candidates[..i])
        invariant degraded == |NewlyPurged(old(frames), frames)|
        invariant NoSweepFaults(faults) ==> AllPurged(frames, candidates[..i])
      {
        var id := candidates[i];
        assert candidates[..i + 1] == candidates[..i] + [id];
        ghost var before := frames;
        var one := DegradeOne(id, faults);
        if one {
          OneMoreDegraded(old(frames), before, frames, candidates[..i], id);
          degraded := degraded + 1;
        }
      }
      assert candidates[..|candidates|] == candidates;
    }
  }

  ghost predicate NoSweepFaults(faults: Faults) {
    forall k: nat, id: int :: !faults.unlink(k, id) && !faults.write(k, id)
  }

  /** A row is flagged only if its write succeeds, and left as it was only if a step of its own fails. */
  ghost predicate Explained(frames: Frames, ids: seq<int>, faults: Faults) {
    forall i :: 0 <= i < |ids| ==>
      && ids[i] in frames
      && if frames[ids[i]].purged then !faults.write(0, ids[i]) else faults.write(0, ids[i]) || faults.unlink(0, ids[i])
  }

  predicate AllPurged(frames: Frames, ids: seq<int>) {
    forall i :: 0 <= i < |ids| ==> ids[i] in frames && frames[ids[i]].purged
  }

  /** Rows are the same, but for some of `ids` flagged with their spans merged. */
  predicate OnlyDegraded(before: Frames, after: Frames, ids: seq<int>) {
    && after.Keys == before.Keys
    && forall id :: id in after ==>
      || after[id] == before[id]
      || (after[id] == before[id].(purged := true, merged := true) && id in ids)
  }

  lemma OneMoreDegraded(start: Frames, before: Frames, after: Frames, ids: seq<int>, id: int)
    requires OnlyDegraded(start, before, ids) && id in start && !start[id].purged && id !in ids
    requires after == before[id := before[id].(purged := true, merged := true)]
    ensures OnlyDegraded(start, after, ids + [id])
    ensures |NewlyPurged(start, after)| == |NewlyPurged(start, before)| + 1
  {
    assert before[id] == start[id];
    assert NewlyPurged(start, after) == NewlyPurged(start, before) + {id};
  }

  const DAY_MS: int := 86_400_000

  /** `now_ms().saturating_sub(days * DAY_MS)`; the product fits for every 32-bit day count. */
  function Cutoff(days: int, now: int): (at: int) {
    if now - days * DAY_MS < I64_MIN then I64_MIN else now - days * DAY_MS
  }

  /** A frame is listed exactly when it is older than the retention period, also where the subtraction saturates. */
  lemma ExpiredWhen(days: int, now: int, at: int)
    requires IsI64(at)
    ensures at < Cutoff(days, now) <==> now - at > days * DAY_MS
  {
  }

  /** Distinct rows with an image, older than the cutoff. */
  ghost predicate Candidates(frames: Frames, cutoff: int, ids: seq<int>) {
    && (forall i :: 0 <= i < |ids| ==> ids[i] in frames && !frames[ids[i]].purged && frames[ids[i]].capturedAt < cutoff)
    && (forall i, j :: 0 <= i < j < |ids| ==> ids[i] != ids[j])
  }

  function NewlyPurged(before: Frames, after: Frames): (ids: set<int>)
    requires after.Keys == before.Keys
  {
    set id | id in after && after[id].purged && !before[id].purged
  }

  function OwnIds(frames: Frames): (ids: set<int>) {
    set id | id in frames && frames[id].own
  }

  /** Some of the ids, each once; none only when there is none. */
  ghost predicate BatchOf(ids: set<int>, batch: seq<int>) {
    && (forall i :: 0 <= i < |batch| ==> batch[i] in ids)
    && (forall i, j :: 0 <= i < j < |batch| ==> batch[i] != batch[j])
    && (batch == [] ==> ids == {})
  }

  predicate OnlyOwnRemoved(before: Frames, after: Frames) {
    && (forall id :: id in after ==> id in before && after[id] == before[id])
    && (forall id :: id in before && !before[id].own ==> id in after)
  }

  ghost predicate NoMergeFaults(faults: Faults) {
    (forall k: nat, id: int :: !faults.write(k, id)) && (forall k: nat :: !faults.list(k)) && !faults.mark
  }

  /** Rows are the same but for merged spans. */
  predicate OnlyMerged(before: Frames, after: Frames) {
    && after.Keys == before.Keys
    && forall id :: id in after ==>
      || after[id] == before[id]
      || (before[id].purged && id > 0 && after[id] == before[id].(merged := true))
  }

  predicate MergedUpTo(frames: Frames, cursor: int) {
    forall id :: id in frames && frames[id].purged && 0 < id <= cursor ==> frames[id].merged
  }

  lemma SamePurged(before: Frames, after: Frames)
    requires OnlyMerged(before, after)
    ensures PurgedIds(after) == PurgedIds(before)
  {
    forall id
      ensures id in PurgedIds(after) <==> id in PurgedIds(before)
    {
      assert id in after.Keys <==> id in before.Keys;
    }
  }

  /** Between two consecutive rows of a page there is no other id. */
  lemma NothingBetween(ids: set<int>, from: int, page: seq<int>, i: nat)
    requires PageOf(ids, from, page) && i < |page|
    ensures forall id :: id in ids && (if i == 0 then from else page[i - 1]) < id <= page[i] ==> id == page[i]
  {
    forall id | id in ids && (if i == 0 then from else page[i - 1]) < id <= page[i]
      ensures id == page[i]
    {
      assert id in page;
      var j :| 0 <= j < |page| && page[j] == id;
    }
  }

  function PurgedIds(frames: Frames): (ids: set<int>) {
    set id | id in frames && frames[id].purged
  }

  /** Ids after the cursor in order, skipping none; empty only when none is left. */
  ghost predicate PageOf(ids: set<int>, cursor: int, page: seq<int>) {
    && (forall i :: 0 <= i < |page| ==> page[i] in ids && page[i] > cursor)
    && (forall i, j :: 0 <= i < j < |page| ==> page[i] < page[j])
    && (forall id :: id in ids && id > cursor && (page == [] || id <= page[|page| - 1]) ==> id in page)
  }

  lemma FewerLeft(ids: set<int>, from: int, to: int)
    requires from < to && to in ids
    ensures |set id | id in ids && id > to| < |set id | id in ids && id > from|
  {
    var less, more := set id | id in ids && id > to, set id | id in ids && id > from;
    assert to in more && less <= more - {to};
    Sets.SubsetNoLarger(less, more - {to});
  }
}
