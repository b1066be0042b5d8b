/** Delivering a generated file across crashes (`file_delivery`, src-tauri/src/memory.rs). */
module FileDelivery {
  import opened Wrappers
  import opened Bytes
  import opened OwnedFile
  import DeliveryLedger

  /** The attempt in force for one run and destination. */
  datatype Item = Item(state: DeliveryLedger.State, hash: Option<Hash>, attempt: nat, recovery: Option<Path>)

  datatype Owner = Owner(source: nat, run: nat, hash: Hash)

  predicate InProgress(item: Option<Item>) {
    item.Some? &&
    (item.value.state.Pending? || item.value.state.Sending? || item.value.state.Failed? || item.value.state.UnknownDelivery?)
  }

  predicate Finished(item: Option<Item>) {
    item.Some? && (item.value.state.Succeeded? || item.value.state.Conflict?)
  }

  /** The stored intent of an attempt that has started to write. */
  predicate Intends(item: Option<Item>, hash: Hash) {
    InProgress(item) && item.value.attempt > 0 && item.value.hash == Some(hash)
  }

  /** The note is absent, is the owned file, or is what this attempt was writing when it stopped. */
  predicate Clean(files: Files, dest: Path, owner: Option<Owner>, item: Option<Item>) {
    dest in files ==>
      && files[dest].File?
      && var hash := HashOf(files[dest].bytes);
         (owner.Some? && owner.value.hash == hash) || Intends(item, hash)
  }

  predicate SameSource(owner: Option<Owner>, source: nat) {
    owner.Some? ==> owner.value.source == source
  }

  /** Succeeded, with one hash on the disk, in the receipt and in the ownership record. */
  predicate Delivered(files: Files, dest: Path, owner: Option<Owner>, item: Option<Item>) {
    && item.Some? && item.value.state.Succeeded? && owner.Some?
    && dest in files && files[dest].File?
    && item.value.hash == Some(HashOf(files[dest].bytes)) && owner.value.hash == HashOf(files[dest].bytes)
  }

  /** The attempt counts as delivered. */
  predicate Receipt(item: Option<Item>) {
    item.Some? && item.value.state.Succeeded?
  }

  /** The attempt once its intent to write is stored. */
  function Started(item: Item, content: seq<Byte>): (r: Item) {
    item.(state := DeliveryLedger.Sending, hash := Some(HashOf(content)), attempt := item.attempt + 1)
  }

  datatype End = Ended | Stopped

  function OwnerHash(owner: Option<Owner>): (h: Option<Hash>) {
    if owner.None? then None else Some(owner.value.hash)
  }

  predicate FreshNames(files: Files, names: Names) {
    names.Distinct() && names.temp !in files && names.backup !in files
  }

  predicate NoneShared(a: Names, b: Names) {
    a.temp != b.temp && a.temp != b.backup && a.backup != b.temp && a.backup != b.backup
  }

  /** The rows of one delivery, with the disk they describe. `Stopped` stands for a crash. */
  class Delivery {
    var item: Option<Item>
    var owner: Option<Owner>
    const disk: Disk

    constructor (disk: Disk, owner: Option<Owner>)
      ensures this.disk == disk && item.None? && this.owner == owner
    {
      this.disk, this.owner, item := disk, owner, None;
    }

    /** `recover_report_work`, for a file. */
    method Recover()
      modifies this`item
      ensures item == if old(item).Some? && old(item).value.state.Sending?
                      then Some(old(item).value.(state := DeliveryLedger.Pending)) else old(item)
    {
      if item.Some? && item.value.state.Sending? {
        item := Some(item.value.(state := DeliveryLedger.Pending));
      }
    }

    /** Compare a started attempt's stored intent with the note. None: nothing to reconcile. */
    method Reconcile(source: nat, run: nat, dest: Path, fault: bool, crash: bool) returns (end: Option<End>)
      requires disk.Valid() && InProgress(item)
      modifies this
      ensures disk.files == old(disk.files) && disk.moments == old(disk.moments)
      ensures end.None? ==>
        && item == old(item) && owner == old(owner)
        && (dest in disk.files && disk.files[dest].File? ==> !Intends(item, HashOf(disk.files[dest].bytes)))
        && (dest in disk.files && disk.files[dest].Other? ==> item.value.attempt == 0 || item.value.hash.None?)
      ensures end.Some? ==> old(item).value.attempt > 0
      ensures end == Some(Stopped) ==> item == old(item)
      ensures end.Some? && fault ==> item == Some(old(item).value.(state := DeliveryLedger.Failed, recovery := None)) && owner == old(owner)
      ensures end.Some? && !fault ==>
        if dest in disk.files && disk.files[dest].File? then
          && Intends(old(item), HashOf(disk.files[dest].bytes))
          && owner == Some(Owner(source, run, HashOf(disk.files[dest].bytes)))
          && (end.value.Ended? ==> item == Some(old(item).value.(state := DeliveryLedger.Succeeded)))
        else
          && dest in disk.files && end.value.Ended? && owner == old(owner)
          && item == Some(old(item).value.(state := DeliveryLedger.Conflict, recovery := None))
    {
      var attempt := item.value;
      if attempt.attempt == 0 || attempt.hash.None? {
        return None;
      }
      if fault {
        item := Some(attempt.(state := DeliveryLedger.Failed, recovery := None));
        return Some(Ended);
      }
      if dest !in disk.files {
        return None;
      }
      if disk.files[dest].Other? {
        item := Some(attempt.(state := DeliveryLedger.Conflict, recovery := None));
        return Some(Ended);
      }
      if attempt.hash != Some(HashOf(disk.files[dest].bytes)) {
        return None;
      }
      owner := Some(Owner(source, run, attempt.hash.value));
      if crash {
        return Some(Stopped);
      }
      item := Some(attempt.(state := DeliveryLedger.Succeeded));
      return Some(Ended);
    }

    /** Store the intent, write, record the owner, store the outcome. */
    method Write(source: nat, run: nat, content: seq<Byte>, names: Names, env: nat -> Turn, crash: nat -> bool)
        returns (end: End)
      requires disk.Valid() && InProgress(item) && FreshNames(disk.files, names)
      modifies this, disk
      ensures disk.Valid() && OthersKept(old(disk.files), disk.files, names)
      ensures WriterSpares(disk.moments, names.dest, names.backup, OwnerHash(old(owner)))
      ensures end.Stopped? ==> InProgress(item)
      ensures owner == old(owner) || owner == Some(Owner(source, run, HashOf(content)))
      ensures end.Ended? && Receipt(item) ==>
        && owner == Some(Owner(source, run, HashOf(content))) && item.value.hash == Some(HashOf(content))
        && Observed(disk.moments, names.dest, content)
        && OnlyOwnedDisplaced(disk.moments, names.backup, OwnerHash(old(owner)))
      ensures end.Ended? && !Receipt(item) ==>
        && item.Some? && (item.value.state.Conflict? || item.value.state.Failed?) && owner == old(owner)
        && item.value.recovery == RecoveryAt(disk.files, names.backup)
        && (item.value.state.Failed? ==> env(0).fault || env(2).fault || env(3).fault)
        && (!OnlyOwnedDisplaced(disk.moments, names.backup, OwnerHash(old(owner))) ==>
          item.value.state.Conflict? && item.value.recovery == Some(names.backup))
      ensures end.Ended? && env(0).fault && !env(0).crash ==> item.Some? && item.value.state.Failed?
      ensures end.Ended? ==> item.Some? && item.value.attempt == old(item).value.attempt + 1
      ensures Calm(env) && Writable(old(disk.files), names.dest, OwnerHash(old(owner))) ==>
        && (end.Ended? ==> Delivered(disk.files, names.dest, owner, item))
        && (end.Ended? ==> At(disk.files, names.dest) == Some(File(content)))
        && (end.Stopped? ==> Clean(disk.files, names.dest, owner, item))
      ensures Calm(env) && !Writable(old(disk.files), names.dest, OwnerHash(old(owner))) ==>
        && At(disk.files, names.dest) == At(old(disk.files), names.dest) && owner == old(owner)
        && (end.Ended? ==> item.Some? && item.value.state.Conflict?)
        && (end.Stopped? ==>
          || item == old(item)
          || item == Some(Started(old(item).value, content)))
    {
      disk.Forget();
      if crash(1) {
        return Stopped;
      }
      var attempt := Started(item.value, content);
      item := Some(attempt);
      if crash(2) {
        return Stopped;
      }
      var r := WriteOwned(disk, names, content, OwnerHash(owner), env);
      match r {
        case Crashed =>
          return Stopped;
        case Written(hash) =>
          owner := Some(Owner(source, run, hash));
          if crash(3) {
            return Stopped;
          }
          item := Some(attempt.(hash := Some(hash), state := DeliveryLedger.Succeeded));
        case Failed(failure) =>
          if crash(3) {
            return Stopped;
          }
          item := Some(attempt.(state := if failure.conflict then DeliveryLedger.Conflict else DeliveryLedger.Failed,
                                recovery := failure.recovery));
      }
      return Ended;
    }
  
    /** `file_delivery`. Without edits or I/O failures, and wherever it crashes: an attempt in force ends succeeded
        exactly when the note was clean, with the new content or with the earlier intent it finds installed;
        otherwise it ends in conflict, and in both cases no byte it does not own was touched. Whatever interferes, a
        success records one hash in the receipt and the ownership, of bytes that were read back from the note. */
    method Deliver(source: nat, run: nat, content: seq<Byte>, names: Names, env: nat -> Turn, crash: nat -> bool)
        returns (end: End)
      requires disk.Valid() && FreshNames(disk.files, names)
      modifies this, disk
      ensures disk.Valid() && OthersKept(old(disk.files), disk.files, names)
      ensures WriterSpares(disk.moments, names.dest, names.backup, OwnerHash(old(owner)))
      ensures Finished(old(item)) ==> end.Ended? && item == old(item) && owner == old(owner) && disk.files == old(disk.files)
      ensures end.Stopped? ==> !Finished(item)
      ensures !Finished(old(item)) && !SameSource(old(owner), source) && end.Ended? ==>
        item.Some? && item.value.state.Conflict? && disk.files == old(disk.files) && owner == old(owner)
      ensures !Finished(old(item)) && end.Ended? && Receipt(item) ==>
        && owner.Some? && owner.value.source == source && owner.value.run == run && item.value.hash == Some(owner.value.hash)
        && OnlyOwnedDisplaced(disk.moments, names.backup, OwnerHash(old(owner)))
        && (|| (owner.value.hash == HashOf(content) && Observed(disk.moments, names.dest, content))
            || (Intends(old(item), owner.value.hash) && disk.files == old(disk.files) && names.dest in disk.files
                && disk.files[names.dest].File? && HashOf(disk.files[names.dest].bytes) == owner.value.hash))
      ensures end.Ended? && !OnlyOwnedDisplaced(disk.moments, names.backup, OwnerHash(old(owner))) ==>
        item.Some? && item.value.state.Conflict? && item.value.recovery == Some(names.backup)
      ensures !Finished(old(item)) && end.Ended? && !Receipt(item) ==>
        && item.Some? && (item.value.state.Conflict? || item.value.state.Failed?) && owner == old(owner)
        && (item.value.state.Failed? ==> env(0).fault || env(2).fault || env(3).fault || env(9).fault)
      ensures
        (&& Calm(env) && !Finished(old(item)) && SameSource(old(owner), source)
         && Clean(old(disk.files), names.dest, old(owner), old(item))) ==>
        && SameSource(owner, source)
        && (end.Stopped? ==> Clean(disk.files, names.dest, owner, item))
        && (end.Ended? ==> Delivered(disk.files, names.dest, owner, item))
        && (end.Ended? ==>
          || At(disk.files, names.dest) == Some(File(content))
          || (At(disk.files, names.dest) == At(old(disk.files), names.dest)
              && Intends(old(item), HashOf(disk.files[names.dest].bytes))))
      ensures
        (&& Calm(env) && !Finished(old(item)) && SameSource(old(owner), source)
         && !Clean(old(disk.files), names.dest, old(owner), old(item))) ==>
        && At(disk.files, names.dest) == At(old(disk.files), names.dest) && owner == old(owner)
        && (end.Ended? ==> item.Some? && item.value.state.Conflict?)
        && (end.Stopped? && Clean(disk.files, names.dest, owner, item) ==>
          At(disk.files, names.dest) == Some(File(content)))
    {
      disk.Forget();
      if Finished(item) {
        return Ended;
      }
      if !InProgress(item) {
        item := Some(Item(DeliveryLedger.Pending, Some(HashOf(content)), 0, None));
        if crash(0) {
          return Stopped;
        }
      }
      if owner.Some? && owner.value.source != source {
        item := Some(item.value.(state := DeliveryLedger.Conflict));
        return Ended;
      }
      var reconciled := Reconcile(source, run, names.dest, env(9).fault, crash(4));
      if reconciled.Some? {
        return reconciled.value;
      }
      end := Write(source, run, content, names, env, crash);
    }

    /** Any number of crashes and restarts, then a run that is not interrupted. The content may differ each time. */
    method DeliverWithRestarts(source: nat, run: nat, contents: seq<seq<Byte>>, names: seq<Names>, dest: Path,
                               envs: seq<nat -> Turn>, crashes: seq<nat -> bool>) returns (end: End)
      requires disk.Valid() && |contents| == |names| == |envs| == |crashes| > 0
      requires forall k :: 0 <= k < |names| ==> names[k].dest == dest && FreshNames(disk.files, names[k])
      requires forall j, k :: 0 <= j < k < |names| ==> NoneShared(names[j], names[k])
      requires forall k :: 0 <= k < |envs| ==> Calm(envs[k])
      requires !Finished(item) && SameSource(owner, source) && Clean(disk.files, dest, owner, item)
      modifies this, disk
      ensures end.Ended? ==> Delivered(disk.files, dest, owner, item) && owner.value.source == source
      ensures end.Stopped? ==> SameSource(owner, source) && Clean(disk.files, dest, owner, item)
    {
      end := Stopped;
      var k := 0;
      while k < |contents| && end.Stopped?
        invariant 0 <= k <= |contents| && disk.Valid()
        invariant forall j :: k <= j < |names| ==> FreshNames(disk.files, names[j])
        invariant end.Stopped? ==> !Finished(item) && SameSource(owner, source) && Clean(disk.files, dest, owner, item)
        invariant end.Ended? ==> Delivered(disk.files, dest, owner, item) && owner.value.source == source
        decreases |contents| - k
      {
        Recover();
        ghost var before := disk.files;
        end := Deliver(source, run, contents[k], names[k], envs[k], crashes[k]);
        forall j | k < j < |names|
          ensures FreshNames(disk.files, names[j])
        {
          NamesStayFresh(before, disk.files, names[k], names[j]);
        }
        k := k + 1;
      }
    }
  }

  lemma NamesStayFresh(before: Files, after: Files, used: Names, next: Names)
    requires FreshNames(before, next) && OthersKept(before, after, used) && used.dest == next.dest
    requires NoneShared(used, next)
    ensures FreshNames(after, next)
  {
    assert At(after, next.temp) == At(before, next.temp);
    assert At(after, next.backup) == At(before, next.backup);
  }

  /** Where cleanness of one attempt ends: a run that stopped after installing its bytes leaves a note that is
      clean for itself, which then recovers, and not for any other run of the same path that goes first. */
  lemma AnotherRunConflicts(files: Files, dest: Path, owner: Option<Owner>, stopped: Item, installed: seq<Byte>)
    requires At(files, dest) == Some(File(installed)) && OwnerHash(owner) != Some(HashOf(installed))
    requires Intends(Some(stopped), HashOf(installed))
    ensures Clean(files, dest, owner, Some(stopped))
    ensures forall other: Option<Item> :: !InProgress(other) || other.value.attempt == 0 ==> !Clean(files, dest, owner, other)
    ensures forall other: Option<Item>, o: Owner :: o.hash == HashOf(installed) ==> Clean(files, dest, Some(o), other)
  {
  }
}
