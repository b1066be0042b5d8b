/** What each transaction of the consumer does to its tables, field by field (examples/memory_consumer.py). */
module ConsumerEffects {
  import opened Wrappers
  import opened Bytes
  import opened ConsumerDb
  import opened ConsumerHistory

  /** The tables of observations are as they were. */
  predicate SameRecords(before: Db, after: Db) {
    && after.window == before.window && after.facts == before.facts && after.versions == before.versions
    && after.conflicts == before.conflicts
  }

  /** The traversal starts over; what is known of the server stays. */
  predicate Restarted(before: Checkpoint, after: Checkpoint) {
    && after.cursor.None? && !after.done && after.snapshotMax.None? && after.last.None?
    && after.history == before.history && after.highWater == before.highWater
    && after.highestHighWater == before.highestHighWater && after.lastScanMs == before.lastScanMs
  }

  /** A scan is opened for this reason: the open one, if any, is interrupted, and one row is added that records what was
      known before and what was seen. */
  predicate Opened(before: Db, after: Db, reason: Reason, history: Option<History>, highWater: Option<int>, now: int) {
    && |after.recs| == |before.recs| + 1 && after.cp.reconciliation == Some(|before.recs|)
    && after.recs[|before.recs|] == Reconciliation(reason, now, None, before.cp.history, history, before.cp.highWater, highWater, Scanning)
    && forall i :: 0 <= i < |before.recs| ==>
      after.recs[i] == if before.cp.reconciliation == Some(i) then before.recs[i].(status := Interrupted) else before.recs[i]
  }

  lemma BeginEffect(db: Db, reason: Reason, history: Option<History>, highWater: Option<int>, now: int)
    requires OpenRecInRange(db)
    ensures var after := Begin(db, reason, history, highWater, now);
      SameRecords(db, after) && Restarted(db.cp, after.cp) && Opened(db, after, reason, history, highWater, now)
  {
  }

  /** The mark is stored, the highest one kept, and a fallen one opens a scan; otherwise nothing else changes. */
  lemma ObserveEffect(db: Db, highWater: int, now: int)
    requires OpenRecInRange(db)
    ensures var after := Observe(db, highWater, now);
      && SameRecords(db, after) && after.cp.highWater == Some(highWater)
      && after.cp.highestHighWater == Some(
        var known := if db.cp.highestHighWater.Some? then db.cp.highestHighWater.value else 0;
        if known < highWater then highWater else known)
      && (if db.cp.highWater.Some? && highWater < db.cp.highWater.value then
            && Opened(db, after, AllocatorDecreased, None, Some(highWater), now)
            && Restarted(db.cp.(highWater := after.cp.highWater, highestHighWater := after.cp.highestHighWater), after.cp)
          else
            after.recs == db.recs
            && after.cp == db.cp.(highWater := after.cp.highWater, highestHighWater := after.cp.highestHighWater))
  {
  }

  lemma RescanEffect(db: Db)
    ensures var after := Rescan(db);
      && SameRecords(db, after) && after.recs == db.recs && Restarted(db.cp, after.cp)
      && after.cp.reconciliation == db.cp.reconciliation
  {
  }

  /** A record: always kept as a version. A first one becomes the fact, a later one of the same capture time its current
      payload; one of another time is filed as a conflict with the first payload, in the open scan or a new one, and is
      accepted only while reconciling. */
  lemma UpsertEffect(db: Db, history: History, item: Evidence, inReconciliation: bool, now: int)
    requires OpenRecInRange(db)
    ensures var r := Upsert(db, history, item, inReconciliation, now);
      var key := FactKey(history, item.frameId);
      && r.db.window == db.window && r.db.versions == db.versions + {Version(history, item)}
      && (if key in db.facts && db.facts[key].capturedAt != item.capturedAt then
            && r.db.facts == db.facts && r.accepted == inReconciliation && r.db.cp.reconciliation.Some?
            && r.db.conflicts == db.conflicts + {Conflict(r.db.cp.reconciliation.value, key, db.facts[key].original, item)}
            && (if db.cp.reconciliation.Some? then r.db.recs == db.recs && r.db.cp == db.cp
                else Opened(db, r.db, TimestampConflict, Some(history), None, now) && Restarted(db.cp, r.db.cp))
          else
            && r.accepted && r.db.recs == db.recs && r.db.cp == db.cp && r.db.conflicts == db.conflicts
            && r.db.facts.Keys == db.facts.Keys + {key}
            && r.db.facts[key].current == item && r.db.facts[key].capturedAt == item.capturedAt
            && r.db.facts[key].original == (if key in db.facts then db.facts[key].original else item)
            && forall k :: k in db.facts && k != key ==> r.db.facts[k] == db.facts[k])
  {
  }

  /** A page of another history is not stored: a scan is opened and the history taken over. */
  lemma RefusedHistoryEffect(db: Db, page: FramePage, now: int)
    requires OpenRecInRange(db) && ValidPage(db.cp, db.window, page)
    requires db.cp.history.Some? && db.cp.history.value != page.history
    ensures var r := Commit(db, page, now);
      && !r.accepted && SameRecords(db, r.db) && Opened(db, r.db, HistoryChanged, Some(page.history), None, now)
      && Restarted(db.cp.(history := Some(page.history)), r.db.cp)
  {
  }

  /** A stored page moves cursor, maximum and last key; the last page ends the traversal, stamps the scan time and
      closes an open reconciliation, with conflicts if it met any. */
  lemma StoredPageEffect(db: Db, page: FramePage, now: int)
    requires OpenRecInRange(db) && ValidPage(db.cp, db.window, page) && Commit(db, page, now).accepted
    ensures var after := Commit(db, page, now).db;
      && after.cp.cursor == page.nextCursor && after.cp.snapshotMax == Some(page.snapshotMax)
      && after.cp.history == Some(page.history) && (after.cp.done <==> page.nextCursor.None?)
      && (page.items == [] ==> after.cp.last == db.cp.last)
      && (page.items != [] ==> page.items[|page.items| - 1].Wire? && after.cp.last == Some(KeyOf(page.items[|page.items| - 1].item)))
      && after.cp.highWater == db.cp.highWater && after.cp.highestHighWater == db.cp.highestHighWater
      && (if page.nextCursor.Some? then
            after.recs == db.recs && after.cp.reconciliation == db.cp.reconciliation && after.cp.lastScanMs == db.cp.lastScanMs
          else
            && after.cp.reconciliation.None? && after.cp.lastScanMs == Some(now) && |after.recs| == |db.recs|
            && forall i :: 0 <= i < |db.recs| ==>
              if db.cp.reconciliation == Some(i) then
                && after.recs[i].finishedMs == Some(now)
                && after.recs[i].status == (if exists c :: c in after.conflicts && c.reconciliation == i then ScannedWithConflicts else Scanned)
                && after.recs[i].(finishedMs := db.recs[i].finishedMs, status := db.recs[i].status) == db.recs[i]
              else after.recs[i] == db.recs[i])
  {
    CommitMoves(db, page, now);
    ValidItemsAreWires(page.items, db.window, page.snapshotMax, Continuing(db.cp, page));
    var named := db.(cp := db.cp.(history := Some(page.history)));
    AcceptedKeepsScan(named, page.history, ItemsOf(page.items), db.cp.reconciliation.Some?, now);
  }

  /** An accepted batch leaves checkpoint and scans alone. */
  lemma {:induction false} AcceptedKeepsScan(db: Db, history: History, items: seq<Evidence>, inReconciliation: bool, now: int)
    requires OpenRecInRange(db) && UpsertAll(db, history, items, inReconciliation, now).accepted
    requires inReconciliation == db.cp.reconciliation.Some?
    ensures var after := UpsertAll(db, history, items, inReconciliation, now).db; after.cp == db.cp && after.recs == db.recs
  {
    if items != [] {
      AcceptedKeepsScan(db, history, items[..|items| - 1], inReconciliation, now);
    }
  }

  /** A field that the response has replaces the stored one; a missing one does not. */
  predicate Taken<T(==)>(field: Option<T>, was: T, is_: T) {
    is_ == if field.Some? then field.value else was
  }

  /** A detail response replaces the text, as a whole, and the fields it has; the rest of the stored record stays. */
  lemma DetailEffect(prior: Evidence, d: FrameDetail)
    ensures var item := Refreshed(prior, d);
      && item.frameId == prior.frameId && item.sessionId == prior.sessionId && item.capturedAt == d.capturedAt
      && item.rawText == d.rawText && item.contentText == d.contentText
      && (if d.rawText.Some? then
            item.textState == "available" && item.textSource == d.textSource && item.filterVersion == prior.filterVersion
          else item.textState == "not_available" && item.textSource.None? && item.filterVersion.None?)
      && Taken(d.vision, prior.visionDescription, item.visionDescription) && Taken(d.appHint, prior.appHint, item.appHint)
      && Taken(d.windowTitle, prior.windowTitle, item.windowTitle) && Taken(d.browserUrl, prior.browserUrl, item.browserUrl)
      && Taken(d.imagePurged, prior.imagePurged, item.imagePurged) && Taken(d.monitorIndex, prior.monitorIndex, item.monitorIndex)
  {
  }

  /** What a page must hold, record by record: each valid for the window and the page's maximum, each later than the
      one before it, and the first later than the key the page continues from. */
  lemma {:induction false} ValidItemsWhen(wires: seq<WireItem>, w: Window, maximum: int, previous: Option<Key>)
    ensures ValidItems(wires, w, maximum, previous) <==> ItemsAscend(wires, w, maximum, previous)
  {
    if wires != [] {
      var rest := wires[1..];
      if wires[0].Wire? {
        ValidItemsWhen(rest, w, maximum, Some(KeyOf(wires[0].item)));
        if ItemsAscend(wires, w, maximum, previous) {
          assert ItemAt(wires, 0, w, maximum, previous);
          forall i | 0 <= i < |rest|
            ensures ItemAt(rest, i, w, maximum, Some(KeyOf(wires[0].item)))
          {
            assert ItemAt(wires, i + 1, w, maximum, previous);
          }
        }
        if ValidItems(wires, w, maximum, previous) {
          forall i | 0 <= i < |wires|
            ensures ItemAt(wires, i, w, maximum, previous)
          {
            if i > 0 {
              assert ItemAt(rest, i - 1, w, maximum, Some(KeyOf(wires[0].item)));
            }
          }
        }
      } else {
        assert !ItemAt(wires, 0, w, maximum, previous);
      }
    }
  }

  predicate ItemAt(wires: seq<WireItem>, i: nat, w: Window, maximum: int, previous: Option<Key>)
    requires i < |wires|
  {
    && wires[i].Wire? && ValidEvidence(wires[i].item, w, maximum)
    && (if i == 0 then previous.Some? ==> KeyLess(previous.value, KeyOf(wires[0].item))
        else wires[i - 1].Wire? && KeyLess(KeyOf(wires[i - 1].item), KeyOf(wires[i].item)))
  }

  predicate ItemsAscend(wires: seq<WireItem>, w: Window, maximum: int, previous: Option<Key>) {
    forall i :: 0 <= i < |wires| ==> ItemAt(wires, i, w, maximum, previous)
  }

  /** A page is accepted for checking exactly when it is for this window, keeps the frozen maximum, continues from the
      last key (or starts over for another history), and brings a new cursor only with records. */
  lemma ValidPageWhen(cp: Checkpoint, w: Window, page: FramePage)
    ensures ValidPage(cp, w, page) <==>
      var another := cp.history.Some? && cp.history.value != page.history;
      && page.window == w && page.consistency == "bounded_membership_live_content" && page.history != []
      && 0 <= page.snapshotMax <= I64_MAX && IsI64(page.observedAt)
      && (!another && cp.snapshotMax.Some? ==> page.snapshotMax == cp.snapshotMax.value)
      && ItemsAscend(page.items, w, page.snapshotMax, if another then None else cp.last)
      && (page.nextCursor.Some? ==> 1 <= |page.nextCursor.value| <= 4096 && page.items != [] && page.nextCursor != cp.cursor)
  {
    ValidItemsWhen(page.items, w, page.snapshotMax, Continuing(cp, page));
  }
}
