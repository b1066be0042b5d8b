/** What the consumer's file keeps against any server whatsoever: facts, conflicts and reconciliations. */
module ConsumerHistory {
  import opened Wrappers
  import opened Bytes
  import opened ConsumerDb

  /** A fact's first and latest payload are observations of one frame at one capture time. */
  predicate SoundFact(db: Db, key: FactKey)
    requires key in db.facts
  {
    var f := db.facts[key];
    && f.original.frameId == key.frameId && f.current.frameId == key.frameId
    && f.original.capturedAt == f.capturedAt && f.current.capturedAt == f.capturedAt
    && Version(key.history, f.original) in db.versions
    && Version(key.history, f.current) in db.versions
  }

  /** A conflict row names a stored fact, keeps its first payload, and holds a recorded competing observation. */
  predicate SoundConflict(db: Db, c: Conflict) {
    && c.key in db.facts
    && c.original == db.facts[c.key].original
    && c.incoming.frameId == c.key.frameId
    && c.incoming.capturedAt != db.facts[c.key].capturedAt
    && Version(c.key.history, c.incoming) in db.versions
    && c.reconciliation < |db.recs|
  }

  /** One row is scanning exactly when the checkpoint names it; a closed scan tells whether it met conflicts. */
  predicate SoundRecs(db: Db) {
    && OpenRecInRange(db)
    && (forall i :: 0 <= i < |db.recs| ==> (db.recs[i].status.Scanning? <==> db.cp.reconciliation == Some(i)))
    && (forall i :: 0 <= i < |db.recs| && db.recs[i].status.Scanned? ==> !HasConflicts(db, i))
    && (forall i :: 0 <= i < |db.recs| && db.recs[i].status.ScannedWithConflicts? ==> HasConflicts(db, i))
  }

  predicate WellFormed(db: Db) {
    && (forall k :: k in db.facts ==> SoundFact(db, k))
    && (forall c :: c in db.conflicts ==> SoundConflict(db, c))
    && SoundRecs(db)
  }

  /** Nothing recorded is lost or rewritten: originals, capture times, versions, conflicts, closed scans. */
  predicate Keeps(before: Db, after: Db) {
    && after.window == before.window
    && (forall k :: k in before.facts ==>
      && k in after.facts
      && after.facts[k].original == before.facts[k].original
      && after.facts[k].capturedAt == before.facts[k].capturedAt)
    && before.versions <= after.versions
    && before.conflicts <= after.conflicts
    && |before.recs| <= |after.recs|
    && (forall i :: 0 <= i < |before.recs| && !before.recs[i].status.Scanning? ==> after.recs[i] == before.recs[i])
  }

  lemma EmptyIsWellFormed(w: Window)
    ensures WellFormed(Empty(w))
  {
  }

  lemma KeepsTransitive(a: Db, b: Db, c: Db)
    requires Keeps(a, b) && Keeps(b, c)
    ensures Keeps(a, c)
  {
  }

  lemma BeginKeeps(db: Db, reason: Reason, observedHistory: Option<History>, observedHighWater: Option<int>, now: int)
    requires WellFormed(db)
    ensures var r := Begin(db, reason, observedHistory, observedHighWater, now);
      WellFormed(r) && Keeps(db, r)
  {
    var r := Begin(db, reason, observedHistory, observedHighWater, now);
    assert r.conflicts == db.conflicts;
    forall i | 0 <= i < |r.recs|
      ensures r.recs[i].status.Scanning? <==> r.cp.reconciliation == Some(i)
      ensures HasConflicts(r, i) <==> HasConflicts(db, i)
    {
    }
    assert !HasConflicts(db, |db.recs|);
  }

  lemma SameConflictsSameHas(a: Db, b: Db)
    requires a.conflicts == b.conflicts
    ensures forall i: nat :: HasConflicts(a, i) <==> HasConflicts(b, i)
  {
  }

  /** Recording an observation, and storing it as a fact when no other capture time is on record. */
  lemma StoreKeeps(db: Db, history: History, item: Evidence)
    requires WellFormed(db)
    ensures var seen := db.(versions := db.versions + {Version(history, item)});
      && WellFormed(seen) && Keeps(db, seen)
      && (!Clashes(db, FactKey(history, item.frameId), item) ==>
        var r := Upsert(db, history, item, true, 0).db;
        WellFormed(r) && Keeps(db, r))
  {
    var key := FactKey(history, item.frameId);
    var seen := db.(versions := db.versions + {Version(history, item)});
    SameConflictsSameHas(db, seen);
    if !Clashes(db, key, item) {
      var r := Upsert(db, history, item, true, 0).db;
      SameConflictsSameHas(db, r);
      forall k | k in r.facts
        ensures SoundFact(r, k)
      {
        if k != key {
          assert SoundFact(db, k);
        } else if key in db.facts {
          assert SoundFact(db, key);
        }
      }
    }
  }

  /** A conflict row filed under the scan in progress. */
  lemma FileConflictKeeps(db: Db, c: Conflict)
    requires WellFormed(db) && SoundConflict(db, c)
    requires db.cp.reconciliation == Some(c.reconciliation)
    ensures var r := db.(conflicts := db.conflicts + {c}); WellFormed(r) && Keeps(db, r)
  {
    var r := db.(conflicts := db.conflicts + {c});
    forall i: nat | i != c.reconciliation
      ensures HasConflicts(r, i) <==> HasConflicts(db, i)
    {
      if HasConflicts(db, i) {
        var w :| w in db.conflicts && w.reconciliation == i;
        assert w in r.conflicts;
      }
    }
  }

  lemma UpsertKeeps(db: Db, history: History, item: Evidence, inReconciliation: bool, now: int)
    requires WellFormed(db)
    ensures var r := Upsert(db, history, item, inReconciliation, now).db;
      WellFormed(r) && Keeps(db, r)
  {
    StoreKeeps(db, history, item);
    var key := FactKey(history, item.frameId);
    if Clashes(db, key, item) {
      var seen := db.(versions := db.versions + {Version(history, item)});
      BeginKeeps(seen, TimestampConflict, Some(history), None, now);
      var flagged := if db.cp.reconciliation.Some? then seen
                     else Begin(seen, TimestampConflict, Some(history), None, now);
      assert WellFormed(flagged) && Keeps(db, flagged);
      var c := Conflict(flagged.cp.reconciliation.value, key, db.facts[key].original, item);
      assert SoundConflict(flagged, c);
      FileConflictKeeps(flagged, c);
    }
  }

  lemma {:induction false} UpsertAllKeeps(db: Db, history: History, items: seq<Evidence>, inReconciliation: bool, now: int)
    requires WellFormed(db)
    ensures var r := UpsertAll(db, history, items, inReconciliation, now).db;
      WellFormed(r) && Keeps(db, r)
  {
    if items != [] {
      var n := |items| - 1;
      UpsertAllKeeps(db, history, items[..n], inReconciliation, now);
      var before := UpsertAll(db, history, items[..n], inReconciliation, now).db;
      UpsertKeeps(before, history, items[n], inReconciliation, now);
      KeepsTransitive(db, before, UpsertAll(db, history, items, inReconciliation, now).db);
    }
  }

  lemma AdvanceKeeps(db: Db, cursor: Option<Cursor>, maximum: int, last: Option<Key>, now: int)
    requires WellFormed(db)
    ensures var r := Advance(db, cursor, maximum, last, now);
      WellFormed(r) && Keeps(db, r)
  {
    SameConflictsSameHas(db, Advance(db, cursor, maximum, last, now));
  }

  lemma NamedKeeps(db: Db, history: History)
    requires WellFormed(db)
    ensures var r := db.(cp := db.cp.(history := Some(history))); WellFormed(r) && Keeps(db, r)
  {
    SameConflictsSameHas(db, db.(cp := db.cp.(history := Some(history))));
  }

  lemma CommitKeeps(db: Db, page: FramePage, now: int)
    requires WellFormed(db) && ValidPage(db.cp, db.window, page)
    ensures var r := Commit(db, page, now).db; WellFormed(r) && Keeps(db, r)
  {
    ValidItemsAreWires(page.items, db.window, page.snapshotMax, Continuing(db.cp, page));
    if ChangesHistory(db.cp, page) {
      BeginKeeps(db, HistoryChanged, Some(page.history), None, now);
      NamedKeeps(Begin(db, HistoryChanged, Some(page.history), None, now), page.history);
    } else {
      var named := db.(cp := db.cp.(history := Some(page.history)));
      NamedKeeps(db, page.history);
      var items := ItemsOf(page.items);
      UpsertAllKeeps(named, page.history, items, db.cp.reconciliation.Some?, now);
      var stored := UpsertAll(named, page.history, items, db.cp.reconciliation.Some?, now).db;
      AdvanceKeeps(stored, page.nextCursor, page.snapshotMax, LastKey(db.cp, items), now);
      KeepsTransitive(db, named, stored);
      KeepsTransitive(db, stored, Advance(stored, page.nextCursor, page.snapshotMax, LastKey(db.cp, items), now));
    }
  }

  lemma ObserveKeeps(db: Db, highWater: int, now: int)
    requires WellFormed(db)
    ensures var r := Observe(db, highWater, now); WellFormed(r) && Keeps(db, r)
  {
    BeginKeeps(db, AllocatorDecreased, None, Some(highWater), now);
    var begun := if Decreased(db.cp, highWater)
                 then Begin(db, AllocatorDecreased, None, Some(highWater), now) else db;
    SameConflictsSameHas(begun, Observe(db, highWater, now));
  }

  lemma ApplyKeeps(db: Db, step: DbStep)
    requires WellFormed(db)
    ensures WellFormed(Apply(db, step)) && Keeps(db, Apply(db, step))
  {
    match step {
      case BeginStep(reason, now) => BeginKeeps(db, reason, None, None, now);
      case ObserveStep(highWater, now) => ObserveKeeps(db, highWater, now);
      case RescanStep => SameConflictsSameHas(db, Rescan(db));
      case PageStep(page, now) =>
        if ValidPage(db.cp, db.window, page) {
          CommitKeeps(db, page, now);
        }
      case DetailStep(id, detail, now) =>
        if ValidDetail(db, id, detail) {
          var history := db.cp.history.value;
          var item := Refreshed(db.facts[FactKey(history, id)].current, detail);
          UpsertKeeps(db, history, item, db.cp.reconciliation.Some?, now);
        }
    }
  }

  /** Over every run against any server: the tables stay sound and nothing recorded is lost or rewritten. */
  lemma {:induction false} RunKeeps(db: Db, steps: seq<DbStep>)
    requires WellFormed(db)
    ensures WellFormed(Run(db, steps)) && Keeps(db, Run(db, steps))
  {
    if steps != [] {
      var n := |steps| - 1;
      RunKeeps(db, steps[..n]);
      ApplyKeeps(Run(db, steps[..n]), steps[n]);
      KeepsTransitive(db, Run(db, steps[..n]), Run(db, steps));
    }
  }

  /** An accepted batch never opens a reconciliation and leaves the checkpoint alone; a refused one opens
      exactly one, whatever the number of conflicts in it. */
  lemma {:induction false} UpsertAllOpens(db: Db, history: History, items: seq<Evidence>, now: int)
    requires OpenRecInRange(db)
    ensures var r := UpsertAll(db, history, items, db.cp.reconciliation.Some?, now);
      && (r.accepted ==> r.db.cp == db.cp && r.db.recs == db.recs)
      && (!r.accepted ==>
        && db.cp.reconciliation.None? && |r.db.recs| == |db.recs| + 1
        && r.db.cp == ResetTraversal(db.cp).(reconciliation := Some(|db.recs|)))
  {
    if items != [] {
      UpsertAllOpens(db, history, items[..|items| - 1], now);
    }
  }

  /** What a page transaction does to the traversal. */
  lemma CommitMoves(db: Db, page: FramePage, now: int)
    requires OpenRecInRange(db)
    requires ValidPage(db.cp, db.window, page)
    ensures var r := Commit(db, page, now);
      && (r.accepted ==>
        && !ChangesHistory(db.cp, page)
        && |r.db.recs| == |db.recs|
        && r.db.cp.history == Some(page.history)
        && r.db.cp.snapshotMax == Some(page.snapshotMax)
        && r.db.cp.cursor == page.nextCursor
        && r.db.cp.done == page.nextCursor.None?
        && (page.items == [] ==> r.db.cp.last == db.cp.last)
        && (page.items != [] ==>
          page.items[|page.items| - 1].Wire? && r.db.cp.last == Some(KeyOf(page.items[|page.items| - 1].item))))
      && (!r.accepted ==>
        && |r.db.recs| == |db.recs| + 1
        && r.db.cp.reconciliation.Some?
        && r.db.cp.history == Some(page.history))
  {
    ValidItemsAreWires(page.items, db.window, page.snapshotMax, Continuing(db.cp, page));
    if !ChangesHistory(db.cp, page) {
      var named := db.(cp := db.cp.(history := Some(page.history)));
      UpsertAllOpens(named, page.history, ItemsOf(page.items), now);
      UpsertAllKeepsHistory(named, page.history, ItemsOf(page.items), db.cp.reconciliation.Some?, now);
    }
  }

  lemma {:induction false} UpsertAllKeepsHistory(db: Db, history: History, items: seq<Evidence>, inReconciliation: bool, now: int)
    requires OpenRecInRange(db)
    ensures UpsertAll(db, history, items, inReconciliation, now).db.cp.history == db.cp.history
  {
    if items != [] {
      UpsertAllKeepsHistory(db, history, items[..|items| - 1], inReconciliation, now);
    }
  }

  /** The last key of a valid page lies beyond where the traversal stood. */
  lemma {:induction false} ValidItemsProgress(wires: seq<WireItem>, w: Window, maximum: int, previous: Option<Key>)
    requires ValidItems(wires, w, maximum, previous) && wires != []
    ensures wires[|wires| - 1].Wire?
    ensures After(previous, KeyOf(wires[|wires| - 1].item))
    ensures ValidEvidence(wires[|wires| - 1].item, w, maximum)
  {
    if |wires| > 1 {
      ValidItemsProgress(wires[1..], w, maximum, Some(KeyOf(wires[0].item)));
    }
  }

  predicate DistinctKeys(items: seq<Evidence>) {
    forall i, j :: 0 <= i < j < |items| ==> KeyOf(items[i]) != KeyOf(items[j])
  }

  /** A record of a stored batch: on record as an observation, and the current payload of its fact or a conflict row. */
  predicate Recorded(db: Db, history: History, item: Evidence) {
    var key := FactKey(history, item.frameId);
    && Version(history, item) in db.versions
    && key in db.facts
    && (|| db.facts[key].current == item
        || exists c :: c in db.conflicts && c.key == key && c.incoming == item)
  }

  lemma UpsertRecords(db: Db, history: History, item: Evidence, other: Evidence, inReconciliation: bool, now: int)
    requires WellFormed(db)
    ensures var r := Upsert(db, history, item, inReconciliation, now).db;
      && Recorded(r, history, item)
      && (Recorded(db, history, other) && KeyOf(other) != KeyOf(item) ==> Recorded(r, history, other))
  {
    var key := FactKey(history, item.frameId);
    var r := Upsert(db, history, item, inReconciliation, now).db;
    if Clashes(db, key, item) {
      var rec := if db.cp.reconciliation.Some? then db.cp.reconciliation.value else |db.recs|;
      assert Conflict(rec, key, db.facts[key].original, item) in r.conflicts;
    }
    if Recorded(db, history, other) {
      var k := FactKey(history, other.frameId);
      assert SoundFact(db, k);
      if db.facts[k].current != other {
        var c :| c in db.conflicts && c.key == k && c.incoming == other;
        assert c in r.conflicts;
      }
    }
  }

  /** Nothing of a page is dropped, accepted or not: every record is stored as a fact or as a conflict. */
  lemma {:induction false} UpsertAllRecords(db: Db, history: History, items: seq<Evidence>, inReconciliation: bool, now: int)
    requires WellFormed(db) && DistinctKeys(items)
    ensures var r := UpsertAll(db, history, items, inReconciliation, now).db;
      forall i :: 0 <= i < |items| ==> Recorded(r, history, items[i])
  {
    if items != [] {
      var n := |items| - 1;
      assert DistinctKeys(items[..n]);
      UpsertAllRecords(db, history, items[..n], inReconciliation, now);
      UpsertAllKeeps(db, history, items[..n], inReconciliation, now);
      var before := UpsertAll(db, history, items[..n], inReconciliation, now).db;
      var r := UpsertAll(db, history, items, inReconciliation, now).db;
      forall i | 0 <= i < |items|
        ensures Recorded(r, history, items[i])
      {
        assert i < n ==> items[..n][i] == items[i];
        UpsertRecords(before, history, items[n], items[i], inReconciliation, now);
      }
    }
  }

  lemma {:induction false} ValidItemsDistinct(wires: seq<WireItem>, w: Window, maximum: int, previous: Option<Key>)
    requires ValidItems(wires, w, maximum, previous)
    ensures forall i :: 0 <= i < |wires| ==> wires[i].Wire? && After(previous, KeyOf(wires[i].item))
    ensures forall i, j :: 0 <= i < j < |wires| ==> KeyLess(KeyOf(wires[i].item), KeyOf(wires[j].item))
  {
    if wires != [] {
      ValidItemsDistinct(wires[1..], w, maximum, Some(KeyOf(wires[0].item)));
      assert forall i :: 0 < i < |wires| ==> wires[i] == wires[1..][i - 1];
    }
  }

  /** Every record of a page of the stored history is on file after its transaction. */
  lemma CommitRecords(db: Db, page: FramePage, now: int)
    requires WellFormed(db) && ValidPage(db.cp, db.window, page) && !ChangesHistory(db.cp, page)
    ensures forall i :: 0 <= i < |page.items| ==>
      page.items[i].Wire? && Recorded(Commit(db, page, now).db, page.history, page.items[i].item)
  {
    ValidItemsAreWires(page.items, db.window, page.snapshotMax, Continuing(db.cp, page));
    ValidItemsDistinct(page.items, db.window, page.snapshotMax, Continuing(db.cp, page));
    var named := db.(cp := db.cp.(history := Some(page.history)));
    NamedKeeps(db, page.history);
    var items := ItemsOf(page.items);
    UpsertAllRecords(named, page.history, items, db.cp.reconciliation.Some?, now);
    var stored := UpsertAll(named, page.history, items, db.cp.reconciliation.Some?, now).db;
    var r := Commit(db, page, now).db;
    forall i | 0 <= i < |page.items|
      ensures Recorded(r, page.history, page.items[i].item)
    {
      assert Recorded(stored, page.history, items[i]);
    }
  }
}
