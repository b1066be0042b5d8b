/** The owned-note writer (`write_owned`, src-tauri/src/memory_files.rs) racing with an editor and with crashes. */
module OwnedFile {
  import opened Wrappers
  import opened Bytes

  type Path = string

  /** An ideal digest: equal only for equal contents. */
  datatype Hash = HashOf(content: seq<Byte>)

  /** What a path names: a regular file, or a directory or reparse point. */
  datatype Entry = File(bytes: seq<Byte>) | Other(resolves: bool)

  type Files = map<Path, Entry>

  /** One change of the disk, and whose it was. */
  datatype Moment = Moment(byWriter: bool, before: Files, after: Files)

  /** What an editor does to the note itself while the writer waits. */
  datatype Edit = Idle | Put(entry: Entry) | Unlink

  /** `ReplaceFileW` swaps atomically, fails without effect, or fails having moved the target to the backup. */
  datatype Swap = Swapped | Refused | HalfDone

  /** What happens just before, and during, one operation of the writer. */
  datatype Turn = Turn(edit: Edit, fault: bool, swap: Swap, crash: bool)

  datatype Failure = Failure(conflict: bool, recovery: Option<Path>)

  datatype WriteResult = Written(hash: Hash) | Failed(failure: Failure) | Crashed

  function Edited(files: Files, dest: Path, edit: Edit): (r: Files) {
    match edit
    case Idle => files
    case Put(entry) => files[dest := entry]
    case Unlink => files - {dest}
  }

  function At(files: Files, path: Path): (e: Option<Entry>) {
    if path in files then Some(files[path]) else None
  }

  /** Whatever was at the note or its recovery copy still is at one of them, unless it is the file the caller owns. */
  predicate Spares(before: Files, after: Files, dest: Path, backup: Path, expected: Option<Hash>) {
    forall p :: p in {dest, backup} && p in before ==>
      || At(after, dest) == Some(before[p])
      || At(after, backup) == Some(before[p])
      || (before[p].File? && expected == Some(HashOf(before[p].bytes)))
  }

  predicate WriterSpares(moments: seq<Moment>, dest: Path, backup: Path, expected: Option<Hash>) {
    forall m :: m in moments && m.byWriter ==> Spares(m.before, m.after, dest, backup, expected)
  }

  /** The writer put this entry at the recovery name, which was free. */
  predicate Displaces(m: Moment, backup: Path) {
    m.byWriter && backup !in m.before && backup in m.after
  }

  /** The file the caller owned. */
  predicate IsOwned(e: Entry, expected: Option<Hash>) {
    e.File? && expected == Some(HashOf(e.bytes))
  }

  /** Whatever was displaced is still the recovery copy, unless it was the owned file. */
  predicate RecoveryKept(moments: seq<Moment>, files: Files, backup: Path, expected: Option<Hash>) {
    forall m :: m in moments && Displaces(m, backup) ==>
      At(files, backup) == Some(m.after[backup]) || IsOwned(m.after[backup], expected)
  }

  /** What the writer keeps at every moment. */
  predicate Careful(moments: seq<Moment>, files: Files, names: Names, expected: Option<Hash>) {
    WriterSpares(moments, names.dest, names.backup, expected) && RecoveryKept(moments, files, names.backup, expected)
  }

  /** Nothing was displaced but the owned file, and links that lead nowhere. */
  predicate OnlyOwnedDisplaced(moments: seq<Moment>, backup: Path, expected: Option<Hash>) {
    forall m :: m in moments && Displaces(m, backup) ==>
      IsOwned(m.after[backup], expected) || m.after[backup] == Other(false)
  }

  /** The disk with its history. */
  class Disk {
    var files: Files
    var moments: seq<Moment>

    predicate Valid()
      reads this
    {
      && (forall i :: 0 <= i < |moments| - 1 ==> moments[i].after == moments[i + 1].before)
      && (moments != [] ==> moments[|moments| - 1].after == files)
    }

    constructor (initial: Files)
      ensures Valid() && files == initial && moments == []
    {
      files, moments := initial, [];
    }

    /** A new write starts a new history. */
    method Forget()
      modifies this
      ensures Valid() && files == old(files) && moments == []
    {
      moments := [];
    }

    method Change(byWriter: bool, after: Files)
      requires Valid()
      modifies this
      ensures Valid() && files == after
      ensures moments == old(moments) + [Moment(byWriter, old(files), after)]
    {
      moments := moments + [Moment(byWriter, files, after)];
      files := after;
    }

    method Wait(dest: Path, edit: Edit)
      requires Valid()
      modifies this
      ensures Valid() && files == Edited(old(files), dest, edit)
      ensures moments == old(moments) + [Moment(false, old(files), files)]
    {
      Change(false, Edited(files, dest, edit));
    }

    /** `ReplaceFileW(target, replacement, backup)`. */
    method ReplaceFile(dest: Path, temp: Path, backup: Path, swap: Swap) returns (ok: bool)
      requires Valid() && temp in files && dest != temp && backup != temp && backup != dest && backup !in files
      modifies this
      ensures Valid()
      ensures ok <==> dest in old(files) && swap.Swapped?
      ensures moments == old(moments) + [Moment(true, old(files), files)]
      ensures files ==
        if dest !in old(files) || swap.Refused? then old(files)
        else if swap.HalfDone? then old(files)[backup := old(files)[dest]] - {dest}
        else (old(files)[backup := old(files)[dest]] - {temp})[dest := old(files)[temp]]
    {
      if dest !in files || swap.Refused? {
        Change(true, files);
        return false;
      }
      if swap.HalfDone? {
        Change(true, files[backup := files[dest]] - {dest});
        return false;
      }
      Change(true, (files[backup := files[dest]] - {temp})[dest := files[temp]]);
      return true;
    }

    /** `MoveFileExW` without permission to replace. */
    method MoveNew(temp: Path, dest: Path, fault: bool) returns (ok: bool)
      requires Valid() && temp in files && dest != temp
      modifies this
      ensures Valid()
      ensures ok <==> dest !in old(files) && !fault
      ensures moments == old(moments) + [Moment(true, old(files), files)]
      ensures files == if ok then (old(files) - {temp})[dest := old(files)[temp]] else old(files)
    {
      ok := dest !in files && !fault;
      Change(true, if ok then (files - {temp})[dest := files[temp]] else files);
    }
  }

  /** The three names one write uses; the temporary and recovery names are fresh. */
  datatype Names = Names(dest: Path, temp: Path, backup: Path) {
    predicate Distinct() {
      dest != temp && dest != backup && temp != backup
    }
  }

  /** What the writer found at the note. */
  datatype Inspection = Absent | Owned(bytes: seq<Byte>) | Done(result: WriteResult)

  function Conflict(recovery: Option<Path>): (r: WriteResult) {
    Failed(Failure(true, recovery))
  }

  const IO_FAILURE: WriteResult := Failed(Failure(false, None))

  /** No edits and no I/O failures; crashes are still possible. */
  predicate CalmTurn(t: Turn) {
    t.edit.Idle? && !t.fault && t.swap.Swapped?
  }

  ghost predicate Calm(env: nat -> Turn) {
    forall k: nat :: CalmTurn(env(k))
  }

  /** One edit between the last look at the note and the swap, and no other disturbance. */
  ghost predicate OneEdit(env: nat -> Turn) {
    && (forall k: nat :: k != 4 ==> CalmTurn(env(k)) && !env(k).crash)
    && !env(4).crash && !env(4).fault && env(4).swap.Swapped?
  }

  /** The note may be written: it is absent, or it is the file the caller owns. */
  predicate Writable(files: Files, dest: Path, expected: Option<Hash>) {
    dest in files ==> files[dest].File? && expected == Some(HashOf(files[dest].bytes))
  }

  /** A reading of the note with these bytes is part of the history. */
  predicate Observed(moments: seq<Moment>, dest: Path, bytes: seq<Byte>) {
    exists m :: m in moments && At(m.after, dest) == Some(File(bytes))
  }

  ghost predicate OnlyPath(before: Files, after: Files, path: Path) {
    forall p :: p != path ==> At(after, p) == At(before, p)
  }

  lemma MomentAdded(moments: seq<Moment>, m: Moment, names: Names, expected: Option<Hash>)
    requires Careful(moments, m.before, names, expected)
    requires m.byWriter ==> Spares(m.before, m.after, names.dest, names.backup, expected)
    requires names.backup in m.before ==>
      At(m.after, names.backup) == At(m.before, names.backup) || IsOwned(m.before[names.backup], expected)
    ensures Careful(moments + [m], m.after, names, expected)
  {
  }

  lemma ObservedStays(moments: seq<Moment>, more: seq<Moment>, dest: Path, bytes: seq<Byte>)
    requires moments <= more && Observed(moments, dest, bytes)
    ensures Observed(more, dest, bytes)
  {
    var m :| m in moments && At(m.after, dest) == Some(File(bytes));
    assert m in more[..|moments|];
  }

  /** The editor's turn. */
  method Pause(disk: Disk, names: Names, expected: Option<Hash>, edit: Edit)
    requires disk.Valid() && names.Distinct() && Careful(disk.moments, disk.files, names, expected)
    modifies disk
    ensures disk.Valid() && Careful(disk.moments, disk.files, names, expected)
    ensures disk.files == Edited(old(disk.files), names.dest, edit)
    ensures disk.moments == old(disk.moments) + [Moment(false, old(disk.files), disk.files)]
  {
    ghost var files, moments := disk.files, disk.moments;
    disk.Wait(names.dest, edit);
    MomentAdded(moments, Moment(false, files, disk.files), names, expected);
  }

  /** A change by the writer that gives up nothing but owned bytes. */
  method Act(disk: Disk, names: Names, expected: Option<Hash>, after: Files)
    requires disk.Valid() && Careful(disk.moments, disk.files, names, expected)
    requires Spares(disk.files, after, names.dest, names.backup, expected)
    requires names.backup in disk.files ==>
      At(after, names.backup) == At(disk.files, names.backup) || IsOwned(disk.files[names.backup], expected)
    modifies disk
    ensures disk.Valid() && Careful(disk.moments, disk.files, names, expected)
    ensures disk.files == after && old(disk.moments) <= disk.moments
  {
    ghost var files, moments := disk.files, disk.moments;
    disk.Change(true, after);
    MomentAdded(moments, Moment(true, files, after), names, expected);
  }

  /** Metadata, open, read and hash of whatever is there. */
  method Inspect(disk: Disk, names: Names, content: seq<Byte>, expected: Option<Hash>, env: nat -> Turn)
      returns (r: Inspection)
    requires disk.Valid() && names.Distinct()
    requires names.temp !in disk.files && names.backup !in disk.files
    requires Careful(disk.moments, disk.files, names, expected)
    modifies disk
    ensures disk.Valid() && OnlyPath(old(disk.files), disk.files, names.dest)
    ensures names.temp !in disk.files && names.backup !in disk.files
    ensures Careful(disk.moments, disk.files, names, expected)
    ensures r.Owned? ==> expected == Some(HashOf(r.bytes)) && r.bytes != content
    ensures r.Done? && r.result.Written? ==>
      r.result.hash == HashOf(content) && Observed(disk.moments, names.dest, content)
    ensures r.Done? && r.result.Failed? ==> r.result == Conflict(None) || (r.result == IO_FAILURE && env(0).fault)
    ensures env(0).fault && !env(0).crash ==> r == Done(IO_FAILURE)
    ensures CalmTurn(env(0)) && CalmTurn(env(1)) ==>
      && disk.files == old(disk.files)
      && (r == Done(Crashed) ==> env(0).crash || env(1).crash)
      && (r.Absent? ==> names.dest !in disk.files)
      && (r.Owned? ==> At(disk.files, names.dest) == Some(File(r.bytes)))
      && (r.Done? && r.result.Written? ==> At(disk.files, names.dest) == Some(File(content)) && expected == Some(HashOf(content)))
      && (r.Done? && r.result.Failed? ==> !Writable(disk.files, names.dest, expected) && r.result.failure.conflict)
  {
    Pause(disk, names, expected, env(0).edit);
    if env(0).crash {
      return Done(Crashed);
    }
    if env(0).fault {
      return Done(IO_FAILURE);
    }
    if names.dest !in disk.files {
      return Absent;
    }
    if disk.files[names.dest].Other? {
      return Done(Conflict(None));
    }
    Pause(disk, names, expected, env(1).edit);
    assert At(disk.moments[|disk.moments| - 1].after, names.dest) == At(disk.files, names.dest);
    if env(1).crash {
      return Done(Crashed);
    }
    if env(1).fault || names.dest !in disk.files || disk.files[names.dest].Other? {
      return Done(Conflict(None));
    }
    var bytes := disk.files[names.dest].bytes;
    if expected != Some(HashOf(bytes)) {
      return Done(Conflict(None));
    }
    if HashOf(bytes) == HashOf(content) {
      return Done(Written(HashOf(content)));
    }
    return Owned(bytes);
  }

  /** The recovery copy to report, if there is one. */
  function RecoveryAt(files: Files, backup: Path): (p: Option<Path>) {
    if backup in files && (files[backup].File? || files[backup].resolves) then Some(backup) else None
  }

  ghost predicate OthersKept(before: Files, after: Files, names: Names) {
    forall p :: p != names.dest && p != names.temp && p != names.backup ==> At(after, p) == At(before, p)
  }

  predicate ReportsConflict(r: WriteResult, files: Files, backup: Path) {
    r.Crashed? || r == Conflict(RecoveryAt(files, backup))
  }

  /** A swap, complete or half done, moves the displaced entry to the recovery copy. */
  lemma SwapSpares(files: Files, names: Names, swap: Swap, expected: Option<Hash>)
    requires names.Distinct() && names.temp in files && names.backup !in files && names.dest in files
    ensures Spares(files, files[names.backup := files[names.dest]] - {names.dest}, names.dest, names.backup, expected)
    ensures Spares(files, (files[names.backup := files[names.dest]] - {names.temp})[names.dest := files[names.temp]],
                   names.dest, names.backup, expected)
    ensures Spares(files, files, names.dest, names.backup, expected)
  {
  }

  lemma MoveSpares(files: Files, names: Names, expected: Option<Hash>)
    requires names.Distinct() && names.temp in files
    ensures names.dest !in files ==>
      Spares(files, (files - {names.temp})[names.dest := files[names.temp]], names.dest, names.backup, expected)
    ensures Spares(files, files, names.dest, names.backup, expected)
  {
  }

  /** The atomic swap or move of the finished temporary note. */
  method Install(disk: Disk, names: Names, content: seq<Byte>, existing: bool, expected: Option<Hash>, turn: Turn)
      returns (r: Option<WriteResult>)
    requires disk.Valid() && names.Distinct()
    requires At(disk.files, names.temp) == Some(File(content)) && names.backup !in disk.files
    requires Careful(disk.moments, disk.files, names, expected)
    modifies disk
    ensures disk.Valid() && Careful(disk.moments, disk.files, names, expected)
    ensures OthersKept(old(disk.files), disk.files, names)
    ensures r.Some? ==> ReportsConflict(r.value, disk.files, names.backup)
    ensures r.None? ==> At(disk.files, names.dest) == Some(File(content)) && names.temp !in disk.files
    ensures CalmTurn(turn) && turn.crash ==> r == Some(Crashed) && disk.files == old(disk.files)
    ensures !turn.crash && !turn.fault && turn.swap.Swapped? ==>
      var edited := Edited(old(disk.files), names.dest, turn.edit);
      if existing <==> names.dest in edited then r.None? && At(disk.files, names.backup) == At(edited, names.dest)
      else r == Some(Conflict(None)) && disk.files == edited
  {
    Pause(disk, names, expected, turn.edit);
    if turn.crash {
      return Some(Crashed);
    }
    ghost var files, moments := disk.files, disk.moments;
    var moved;
    if existing {
      moved := disk.ReplaceFile(names.dest, names.temp, names.backup, if turn.fault then Refused else turn.swap);
      if names.dest in files {
        SwapSpares(files, names, turn.swap, expected);
      }
    } else {
      moved := disk.MoveNew(names.temp, names.dest, turn.fault);
      MoveSpares(files, names, expected);
    }
    MomentAdded(moments, Moment(true, files, disk.files), names, expected);
    return if moved then None else Some(Conflict(RecoveryAt(disk.files, names.backup)));
  }

  /** Read the installed note back before anything is discarded. */
  method VerifyInstalled(disk: Disk, names: Names, content: seq<Byte>, expected: Option<Hash>, turn: Turn)
      returns (r: Option<WriteResult>)
    requires disk.Valid() && names.Distinct()
    requires Careful(disk.moments, disk.files, names, expected)
    modifies disk
    ensures disk.Valid() && Careful(disk.moments, disk.files, names, expected)
    ensures OnlyPath(old(disk.files), disk.files, names.dest)
    ensures r.Some? ==> ReportsConflict(r.value, disk.files, names.backup)
    ensures r.None? ==> Observed(disk.moments, names.dest, content)
    ensures CalmTurn(turn) ==>
      && disk.files == old(disk.files)
      && (r == Some(Crashed) <==> turn.crash)
      && (At(disk.files, names.dest) == Some(File(content)) ==> (r.None? <==> !turn.crash))
  {
    Pause(disk, names, expected, turn.edit);
    if turn.crash {
      return Some(Crashed);
    }
    if turn.fault || At(disk.files, names.dest) != Some(File(content)) {
      return Some(Conflict(RecoveryAt(disk.files, names.backup)));
    }
    assert At(disk.moments[|disk.moments| - 1].after, names.dest) == Some(File(content));
    return None;
  }

  /** The displaced copy goes only if it is the file the caller owned. */
  method DiscardDisplaced(disk: Disk, names: Names, expected: Option<Hash>, turn: Turn, removal: Turn)
      returns (r: Option<WriteResult>)
    requires disk.Valid() && names.Distinct()
    requires Careful(disk.moments, disk.files, names, expected)
    modifies disk
    ensures disk.Valid() && Careful(disk.moments, disk.files, names, expected)
    ensures old(disk.moments) <= disk.moments
    ensures OthersKept(old(disk.files), disk.files, names)
    ensures At(disk.files, names.temp) == At(old(disk.files), names.temp)
    ensures r.Some? ==> ReportsConflict(r.value, disk.files, names.backup)
    ensures r.None? && names.backup in disk.files ==>
      IsOwned(disk.files[names.backup], expected) || disk.files[names.backup] == Other(false)
    ensures CalmTurn(turn) && CalmTurn(removal) ==> At(disk.files, names.dest) == At(old(disk.files), names.dest)
    ensures CalmTurn(turn) && CalmTurn(removal) && !turn.crash && !removal.crash ==>
      var e := At(old(disk.files), names.backup);
      if e.None? || IsOwned(e.value, expected) then r.None? && names.backup !in disk.files
      else
        && r == (if e.value == Other(false) then None else Some(Conflict(Some(names.backup))))
        && disk.files == old(disk.files)
    ensures
      (&& CalmTurn(turn) && CalmTurn(removal)
       && (names.backup in old(disk.files) ==> Writable(old(disk.files), names.backup, expected))) ==>
      && (r.Some? ==> r == Some(Crashed) && (turn.crash || removal.crash))
      && (r.None? ==> names.backup !in disk.files)
  {
    Pause(disk, names, expected, turn.edit);
    if turn.crash {
      return Some(Crashed);
    }
    if RecoveryAt(disk.files, names.backup).None? {
      return None;
    }
    var displaced := disk.files[names.backup];
    if turn.fault || displaced.Other? || expected != Some(HashOf(displaced.bytes)) {
      return Some(Conflict(Some(names.backup)));
    }
    r := RemoveRecovery(disk, names, expected, removal);
  }

  /** The owned recovery copy goes, unless its removal fails. */
  method RemoveRecovery(disk: Disk, names: Names, expected: Option<Hash>, removal: Turn) returns (r: Option<WriteResult>)
    requires disk.Valid() && names.Distinct()
    requires Careful(disk.moments, disk.files, names, expected)
    requires names.backup in disk.files && IsOwned(disk.files[names.backup], expected)
    modifies disk
    ensures disk.Valid() && Careful(disk.moments, disk.files, names, expected)
    ensures old(disk.moments) <= disk.moments
    ensures r == if removal.crash then Some(Crashed) else None
    ensures var later := Edited(old(disk.files), names.dest, removal.edit);
      disk.files == if removal.crash || removal.fault then later else later - {names.backup}
  {
    Pause(disk, names, expected, removal.edit);
    if removal.crash {
      return Some(Crashed);
    }
    if !removal.fault {
      Act(disk, names, expected, disk.files - {names.backup});
    }
    return None;
  }

  /** The temporary note, complete, or the failure that kept it from being written. */
  method Prepare(disk: Disk, names: Names, content: seq<Byte>, expected: Option<Hash>, create: Turn, flush: Turn)
      returns (r: Option<WriteResult>)
    requires disk.Valid() && names.Distinct()
    requires names.temp !in disk.files && names.backup !in disk.files
    requires Careful(disk.moments, disk.files, names, expected)
    modifies disk
    ensures disk.Valid() && Careful(disk.moments, disk.files, names, expected)
    ensures OthersKept(old(disk.files), disk.files, names) && names.backup !in disk.files
    ensures r.Some? ==> r.value.Crashed? || (r.value == IO_FAILURE && (create.fault || flush.fault))
    ensures !create.crash && !flush.crash ==> r == if create.fault || flush.fault then Some(IO_FAILURE) else None
    ensures r.None? ==> At(disk.files, names.temp) == Some(File(content))
    ensures CalmTurn(create) && CalmTurn(flush) ==>
      && At(disk.files, names.dest) == At(old(disk.files), names.dest)
      && (r == Some(Crashed) <==> create.crash || flush.crash)
      && (r.Some? ==> r.value.Crashed?)
  {
    Pause(disk, names, expected, create.edit);
    if create.crash {
      return Some(Crashed);
    }
    if create.fault {
      return Some(IO_FAILURE);
    }
    Act(disk, names, expected, disk.files[names.temp := File(if flush.fault then [] else content)]);
    Pause(disk, names, expected, flush.edit);
    if flush.crash {
      return Some(Crashed);
    }
    return if flush.fault then Some(IO_FAILURE) else None;
  }

  /** What becomes of an edit just before the swap: a note that appeared or disappeared is left alone, a changed one
      is kept as the recovery copy and reported, unless it is a link that leads nowhere. */
  predicate RacedOutcome(r: WriteResult, before: Files, after: Files, names: Names, content: seq<Byte>,
                         expected: Option<Hash>, edit: Edit) {
    var now := At(Edited(before, names.dest, edit), names.dest);
    if (names.dest in before) != now.Some? then
      r == Conflict(None) && At(after, names.dest) == now && names.backup !in after
    else
      && At(after, names.dest) == Some(File(content))
      && (if now.None? || IsOwned(now.value, expected) then r == Written(HashOf(content)) && names.backup !in after
          else
            && At(after, names.backup) == now
            && r == (if now.value == Other(false) then Written(HashOf(content)) else Conflict(Some(names.backup))))
  }

  /** Swap, verify, discard. */
  method Commit(disk: Disk, names: Names, content: seq<Byte>, existing: bool, expected: Option<Hash>, env: nat -> Turn)
      returns (r: WriteResult)
    requires disk.Valid() && names.Distinct()
    requires At(disk.files, names.temp) == Some(File(content)) && names.backup !in disk.files
    requires Careful(disk.moments, disk.files, names, expected)
    modifies disk
    ensures disk.Valid() && Careful(disk.moments, disk.files, names, expected)
    ensures OthersKept(old(disk.files), disk.files, names)
    ensures r.Written? ==> r.hash == HashOf(content) && Observed(disk.moments, names.dest, content)
    ensures r.Failed? ==> r == Conflict(RecoveryAt(disk.files, names.backup))
    ensures r.Written? && names.backup in disk.files ==>
      IsOwned(disk.files[names.backup], expected) || disk.files[names.backup] == Other(false)
    ensures OneEdit(env) && (existing <==> names.dest in old(disk.files)) ==>
      RacedOutcome(r, old(disk.files), disk.files, names, content, expected, env(4).edit)
    ensures Calm(env) && (existing <==> names.dest in old(disk.files)) && Writable(old(disk.files), names.dest, expected) ==>
      && !r.Failed?
      && (r.Written? ==> At(disk.files, names.dest) == Some(File(content)) && names.backup !in disk.files)
      && (At(disk.files, names.dest) == Some(File(content)) || At(disk.files, names.dest) == At(old(disk.files), names.dest))
  {
    var installed := Install(disk, names, content, existing, expected, env(4));
    if installed.Some? {
      return installed.value;
    }
    var verified := VerifyInstalled(disk, names, content, expected, env(5));
    if verified.Some? {
      return verified.value;
    }
    ghost var moments := disk.moments;
    var discarded := DiscardDisplaced(disk, names, expected, env(6), env(7));
    if discarded.Some? {
      return discarded.value;
    }
    ObservedStays(moments, disk.moments, names.dest, content);
    return Written(HashOf(content));
  }

  /** The temporary note, then the swap. */
  method Replace(disk: Disk, names: Names, content: seq<Byte>, existing: bool, expected: Option<Hash>, env: nat -> Turn)
      returns (r: WriteResult)
    requires disk.Valid() && names.Distinct()
    requires names.temp !in disk.files && names.backup !in disk.files
    requires Careful(disk.moments, disk.files, names, expected)
    modifies disk
    ensures disk.Valid() && Careful(disk.moments, disk.files, names, expected)
    ensures OthersKept(old(disk.files), disk.files, names)
    ensures r.Written? ==> r.hash == HashOf(content) && Observed(disk.moments, names.dest, content)
    ensures r.Failed? ==> r.failure.recovery == RecoveryAt(disk.files, names.backup)
    ensures r.Failed? ==> r.failure.conflict || (r == IO_FAILURE && (env(2).fault || env(3).fault))
    ensures (env(2).fault || env(3).fault) && !env(2).crash && !env(3).crash ==> r == IO_FAILURE
    ensures r.Written? && names.backup in disk.files ==>
      IsOwned(disk.files[names.backup], expected) || disk.files[names.backup] == Other(false)
    ensures OneEdit(env) && (existing <==> names.dest in old(disk.files)) ==>
      RacedOutcome(r, old(disk.files), disk.files, names, content, expected, env(4).edit)
    ensures Calm(env) && (existing <==> names.dest in old(disk.files)) && Writable(old(disk.files), names.dest, expected) ==>
      && !r.Failed?
      && (r.Written? ==> At(disk.files, names.dest) == Some(File(content)) && names.backup !in disk.files)
      && (At(disk.files, names.dest) == Some(File(content)) || At(disk.files, names.dest) == At(old(disk.files), names.dest))
  {
    var prepared := Prepare(disk, names, content, expected, env(2), env(3));
    if prepared.Some? {
      return prepared.value;
    }
    r := Commit(disk, names, content, existing, expected, env);
  }

  /** The temporary note goes when the writer returns, if it can be removed. */
  method RemoveTemporary(disk: Disk, names: Names, content: seq<Byte>, expected: Option<Hash>, fault: bool)
    requires disk.Valid() && names.Distinct()
    requires Careful(disk.moments, disk.files, names, expected)
    modifies disk
    ensures disk.Valid() && Careful(disk.moments, disk.files, names, expected)
    ensures OnlyPath(old(disk.files), disk.files, names.temp)
    ensures At(disk.files, names.dest) == At(old(disk.files), names.dest)
    ensures At(disk.files, names.backup) == At(old(disk.files), names.backup)
    ensures names.backup in disk.files <==> names.backup in old(disk.files)
    ensures !fault ==> names.temp !in disk.files
    ensures Observed(old(disk.moments), names.dest, content) ==> Observed(disk.moments, names.dest, content)
  {
    if !fault {
      ghost var moments := disk.moments;
      Act(disk, names, expected, disk.files - {names.temp});
      if Observed(moments, names.dest, content) {
        ObservedStays(moments, disk.moments, names.dest, content);
      }
    }
  }

  /** `write_owned`. At every moment of every interleaving with an editor of the note, and wherever it crashes, the
      writer has spared all bytes but those with the expected hash; success means that the new content was read back
      from the note before anything was discarded, and that nothing was displaced but the owned file (or a link that leads
      nowhere); a failure names the recovery copy exactly when there is one that can be opened. */
  method WriteOwned(disk: Disk, names: Names, content: seq<Byte>, expected: Option<Hash>, env: nat -> Turn)
      returns (r: WriteResult)
    requires disk.Valid() && disk.moments == [] && names.Distinct()
    requires names.temp !in disk.files && names.backup !in disk.files
    modifies disk
    ensures disk.Valid() && WriterSpares(disk.moments, names.dest, names.backup, expected)
    ensures OthersKept(old(disk.files), disk.files, names)
    ensures r.Written? ==> r.hash == HashOf(content) && Observed(disk.moments, names.dest, content)
    ensures r.Failed? ==> r.failure.recovery == RecoveryAt(disk.files, names.backup)
    ensures r.Failed? ==> r.failure.conflict || (r == IO_FAILURE && (env(0).fault || env(2).fault || env(3).fault))
    ensures env(0).fault && !env(0).crash ==> r == IO_FAILURE
    ensures
      (&& CalmTurn(env(0)) && CalmTurn(env(1)) && (forall k: nat :: k <= 3 ==> !env(k).crash)
       && (env(2).fault || env(3).fault) && Writable(old(disk.files), names.dest, expected)
       && At(old(disk.files), names.dest) != Some(File(content))) ==> r == IO_FAILURE
    ensures r.Written? && names.backup in disk.files ==>
      IsOwned(disk.files[names.backup], expected) || disk.files[names.backup] == Other(false)
    ensures r.Written? ==> OnlyOwnedDisplaced(disk.moments, names.backup, expected)
    ensures !r.Crashed? && !OnlyOwnedDisplaced(disk.moments, names.backup, expected) ==>
      r == Failed(Failure(true, Some(names.backup))) && names.backup in disk.files
    ensures
      (&& OneEdit(env) && Writable(old(disk.files), names.dest, expected)
       && At(old(disk.files), names.dest) != Some(File(content))) ==>
      RacedOutcome(r, old(disk.files), disk.files, names, content, expected, env(4).edit)
    ensures !r.Crashed? && !env(8).fault ==> names.temp !in disk.files
    ensures Calm(env) && !r.Crashed? ==>
      if Writable(old(disk.files), names.dest, expected)
      then r == Written(HashOf(content)) && At(disk.files, names.dest) == Some(File(content)) && names.backup !in disk.files
      else r.Failed? && r.failure.conflict && At(disk.files, names.dest) == At(old(disk.files), names.dest)
    ensures Calm(env) && r.Crashed? ==>
      || At(disk.files, names.dest) == At(old(disk.files), names.dest)
      || (Writable(old(disk.files), names.dest, expected) && At(disk.files, names.dest) == Some(File(content)))
  {
    var found := Inspect(disk, names, content, expected, env);
    if found.Done? {
      return found.result;
    }
    r := Replace(disk, names, content, found.Owned?, expected, env);
    if !r.Crashed? {
      RemoveTemporary(disk, names, content, expected, env(8).fault);
    }
  }

  predicate Chained(moments: seq<Moment>) {
    forall i :: 0 <= i < |moments| - 1 ==> moments[i].after == moments[i + 1].before
  }

  predicate Present(files: Files, dest: Path, backup: Path, e: Entry) {
    At(files, dest) == Some(e) || At(files, backup) == Some(e)
  }

  /** Over a whole history, whatever the editor has at the note and does not remove itself is never lost: unless it
      is the content the caller owns, it ends at the note or at the recovery copy. */
  lemma {:induction false} NothingLost(moments: seq<Moment>, dest: Path, backup: Path, expected: Option<Hash>, e: Entry)
    requires Chained(moments) && WriterSpares(moments, dest, backup, expected) && moments != []
    requires Present(moments[0].before, dest, backup, e)
    requires e.File? ==> expected != Some(HashOf(e.bytes))
    requires forall i :: 0 <= i < |moments| && !moments[i].byWriter && Present(moments[i].before, dest, backup, e) ==>
      Present(moments[i].after, dest, backup, e)
    ensures Present(moments[|moments| - 1].after, dest, backup, e)
  {
    var n := |moments| - 1;
    if n > 0 {
      assert forall i :: 0 <= i < n ==> moments[..n][i] == moments[i];
      assert forall m :: m in moments[..n] ==> m in moments;
      NothingLost(moments[..n], dest, backup, expected, e);
      assert moments[n - 1].after == moments[n].before;
    }
    assert moments[n] in moments;
  }
}
