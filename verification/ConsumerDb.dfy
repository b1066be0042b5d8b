/** The durable tables of the memory consumer (examples/memory_consumer.py) and the transactions on them. */
module ConsumerDb {
  import opened Wrappers
  import opened Bytes

  type Text = string
  type History = seq<Byte>
  type Cursor = seq<Byte>

  /** One full-evidence record; also the JSON text stored for it. */
  datatype Evidence = Evidence(
    frameId: int, capturedAt: int, monitorIndex: int,
    appHint: Option<Text>, windowTitle: Option<Text>, browserUrl: Option<Text>,
    rawText: Option<Text>, contentText: Option<Text>, textSource: Option<Text>,
    filterVersion: Option<int>, textState: Text, visionDescription: Option<Text>,
    sessionId: Option<int>, imagePurged: bool)

  /** A record as received: `Malformed` lacks a field or holds a value of the wrong JSON type. */
  datatype WireItem = Malformed | Wire(item: Evidence)

  datatype Key = Key(capturedAt: int, frameId: int)

  datatype Window = Window(from: int, to: int)

  datatype FramePage = FramePage(
    window: Window, consistency: Text, history: History, items: seq<WireItem>,
    nextCursor: Option<Cursor>, snapshotMax: int, observedAt: int)

  /** A detail response. The outer `Option` of an optional field says whether the field is present. */
  datatype FrameDetail = FrameDetail(
    frameId: int, capturedAt: int, rawText: Option<Text>, contentText: Option<Text>,
    textSource: Option<Text>, vision: Option<Option<Text>>,
    appHint: Option<Option<Text>>, windowTitle: Option<Option<Text>>,
    browserUrl: Option<Option<Text>>, imagePurged: Option<bool>, monitorIndex: Option<int>)

  datatype Reason =
    | OperatorRestore | ServerHistoryChanged | HistoryChanged | AllocatorDecreased | TimestampConflict

  datatype Status = Scanning | Interrupted | Scanned | ScannedWithConflicts

  datatype Reconciliation = Reconciliation(
    reason: Reason, startedMs: int, finishedMs: Option<int>,
    priorHistory: Option<History>, observedHistory: Option<History>,
    priorHighWater: Option<int>, observedHighWater: Option<int>, status: Status)

  datatype Checkpoint = Checkpoint(
    history: Option<History>, highWater: Option<int>, highestHighWater: Option<int>,
    cursor: Option<Cursor>, done: bool, snapshotMax: Option<int>, last: Option<Key>,
    reconciliation: Option<nat>, lastScanMs: Option<int>)

  datatype FactKey = FactKey(history: History, frameId: int)
  datatype Fact = Fact(capturedAt: int, original: Evidence, current: Evidence)
  datatype Version = Version(history: History, payload: Evidence)
  datatype Conflict = Conflict(reconciliation: nat, key: FactKey, original: Evidence, incoming: Evidence)

  /** All tables of one state file. A reconciliation's id is its position. */
  datatype Db = Db(
    window: Window, cp: Checkpoint, facts: map<FactKey, Fact>, versions: set<Version>,
    recs: seq<Reconciliation>, conflicts: set<Conflict>)

  const EMPTY_CHECKPOINT: Checkpoint :=
    Checkpoint(None, None, None, None, false, None, None, None, None)

  function Empty(window: Window): (db: Db) {
    Db(window, EMPTY_CHECKPOINT, map[], {}, [], {})
  }

  // Validation. A failed check is a `ProtocolError`, raised before any transaction opens.

  predicate InRange(v: int, low: int, high: int) {
    low <= v <= high
  }

  /** `validate_evidence`, on a record that has every field. */
  predicate ValidEvidence(item: Evidence, w: Window, maximum: int) {
    && InRange(item.frameId, 1, maximum)
    && InRange(item.capturedAt, w.from, w.to - 1)
    && InRange(item.monitorIndex, 0, 0xffff_ffff)
    && (item.textState == "available" || item.textState == "not_available")
    && (if item.textState == "not_available"
        then item.rawText.None? && item.contentText.None? && item.textSource.None? && item.filterVersion.None?
        else item.rawText.Some? && item.contentText.Some?)
    && item.textSource in {None, Some("ocr"), Some("uia")}
    && (item.filterVersion.Some? ==> InRange(item.filterVersion.value, -0x8000_0000, 0x7fff_ffff))
    && (item.sessionId.Some? ==> IsI64(item.sessionId.value))
  }

  predicate ValidWireItem(wire: WireItem, w: Window, maximum: int) {
    wire.Wire? && ValidEvidence(wire.item, w, maximum)
  }

  function KeyOf(item: Evidence): (k: Key) {
    Key(item.capturedAt, item.frameId)
  }

  /** Chronological tuple order. */
  predicate KeyLess(a: Key, b: Key) {
    a.capturedAt < b.capturedAt || (a.capturedAt == b.capturedAt && a.frameId < b.frameId)
  }

  predicate After(previous: Option<Key>, k: Key) {
    previous.Some? ==> KeyLess(previous.value, k)
  }

  /** Every record valid, each strictly later than the one before, starting after `previous`. */
  predicate ValidItems(wires: seq<WireItem>, w: Window, maximum: int, previous: Option<Key>) {
    wires == [] ||
    (&& ValidWireItem(wires[0], w, maximum)
     && After(previous, KeyOf(wires[0].item))
     && ValidItems(wires[1..], w, maximum, Some(KeyOf(wires[0].item))))
  }

  predicate ValidEnvelope(cp: Checkpoint, w: Window, page: FramePage) {
    && page.window == w
    && page.consistency == "bounded_membership_live_content"
    && page.history != []
    && (page.nextCursor.Some? ==> 1 <= |page.nextCursor.value| <= 4096)
    && InRange(page.snapshotMax, 0, I64_MAX)
    && IsI64(page.observedAt)
    && (!ChangesHistory(cp, page) && cp.snapshotMax.Some? ==> page.snapshotMax == cp.snapshotMax.value)
  }

  predicate ChangesHistory(cp: Checkpoint, page: FramePage) {
    cp.history.Some? && cp.history.value != page.history
  }

  /** The order tuple the page must continue from. */
  function Continuing(cp: Checkpoint, page: FramePage): (k: Option<Key>) {
    if ChangesHistory(cp, page) then None else cp.last
  }

  predicate ValidPage(cp: Checkpoint, w: Window, page: FramePage) {
    && ValidEnvelope(cp, w, page)
    && ValidItems(page.items, w, page.snapshotMax, Continuing(cp, page))
    && (page.nextCursor.Some? ==> page.items != [] && page.nextCursor != cp.cursor)
  }

  function ItemsOf(wires: seq<WireItem>): (items: seq<Evidence>)
    requires forall i :: 0 <= i < |wires| ==> wires[i].Wire?
    ensures |items| == |wires|
  {
    seq(|wires|, i requires 0 <= i < |wires| => wires[i].item)
  }

  lemma {:induction false} ValidItemsAreWires(wires: seq<WireItem>, w: Window, maximum: int, previous: Option<Key>)
    requires ValidItems(wires, w, maximum, previous)
    ensures forall i :: 0 <= i < |wires| ==> ValidWireItem(wires[i], w, maximum)
  {
    if wires != [] {
      ValidItemsAreWires(wires[1..], w, maximum, Some(KeyOf(wires[0].item)));
      assert forall i :: 0 < i < |wires| ==> wires[i] == wires[1..][i - 1];
    }
  }

  // Transactions, each one atomic step of the state file.

  function ResetTraversal(cp: Checkpoint): (r: Checkpoint) {
    cp.(cursor := None, done := false, snapshotMax := None, last := None)
  }

  /** `_begin_reconciliation`. */
  function Begin(db: Db, reason: Reason, observedHistory: Option<History>,
                 observedHighWater: Option<int>, now: int): (r: Db)
    requires db.cp.reconciliation.Some? ==> db.cp.reconciliation.value < |db.recs|
  {
    var recs :=
      if db.cp.reconciliation.None? then db.recs
      else
        var open := db.cp.reconciliation.value;
        db.recs[open := db.recs[open].(status := Interrupted)];
    var started := Reconciliation(reason, now, None, db.cp.history, observedHistory,
                                 db.cp.highWater, observedHighWater, Scanning);
    db.(recs := recs + [started],
        cp := ResetTraversal(db.cp).(reconciliation := Some(|db.recs|)))
  }

  predicate Decreased(cp: Checkpoint, highWater: int) {
    cp.highWater.Some? && highWater < cp.highWater.value
  }

  /** `observe_high_water`, for a value that passed its range check. */
  function Observe(db: Db, highWater: int, now: int): (r: Db)
    requires OpenRecInRange(db)
  {
    var begun := if Decreased(db.cp, highWater)
                 then Begin(db, AllocatorDecreased, None, Some(highWater), now) else db;
    var known := if db.cp.highestHighWater.None? then 0 else db.cp.highestHighWater.value;
    begun.(cp := begun.cp.(highWater := Some(highWater),
                           highestHighWater := Some(if highWater > known then highWater else known)))
  }

  predicate OpenRecInRange(db: Db) {
    db.cp.reconciliation.Some? ==> db.cp.reconciliation.value < |db.recs|
  }

  /** `start_rescan`. */
  function Rescan(db: Db): (r: Db) {
    db.(cp := ResetTraversal(db.cp))
  }

  datatype Upserted = Upserted(db: Db, accepted: bool)

  predicate Clashes(db: Db, key: FactKey, item: Evidence) {
    key in db.facts && db.facts[key].capturedAt != item.capturedAt
  }

  /** `_upsert`: store the observation; a competing capture time becomes a conflict row instead of a fact. */
  function Upsert(db: Db, history: History, item: Evidence, inReconciliation: bool, now: int): (r: Upserted)
    requires OpenRecInRange(db)
    ensures OpenRecInRange(r.db)
  {
    var key := FactKey(history, item.frameId);
    var seen := db.(versions := db.versions + {Version(history, item)});
    if Clashes(db, key, item) then
      var flagged := if db.cp.reconciliation.Some? then seen
                    else Begin(seen, TimestampConflict, Some(history), None, now);
      var conflict := Conflict(flagged.cp.reconciliation.value, key, db.facts[key].original, item);
      Upserted(flagged.(conflicts := flagged.conflicts + {conflict}), inReconciliation)
    else
      var fact := if key in db.facts then db.facts[key].(current := item)
                  else Fact(item.capturedAt, item, item);
      Upserted(seen.(facts := db.facts[key := fact]), true)
  }

  /** The page transaction's loop, last record outermost. */
  function UpsertAll(db: Db, history: History, items: seq<Evidence>, inReconciliation: bool, now: int): (r: Upserted)
    requires OpenRecInRange(db)
    ensures OpenRecInRange(r.db)
  {
    if items == [] then Upserted(db, true)
    else
      var n := |items| - 1;
      var before := UpsertAll(db, history, items[..n], inReconciliation, now);
      var step := Upsert(before.db, history, items[n], inReconciliation, now);
      Upserted(step.db, before.accepted && step.accepted)
  }

  function LastKey(cp: Checkpoint, items: seq<Evidence>): (k: Option<Key>) {
    if items == [] then cp.last else Some(KeyOf(items[|items| - 1]))
  }

  predicate HasConflicts(db: Db, rec: nat) {
    exists c :: c in db.conflicts && c.reconciliation == rec
  }

  /** The end of an accepted page: the cursor moves last, and an exhausted traversal closes its scan. */
  function Advance(db: Db, cursor: Option<Cursor>, maximum: int, last: Option<Key>, now: int): (r: Db)
    requires OpenRecInRange(db)
  {
    var moved := db.(cp := db.cp.(cursor := cursor, done := cursor.None?, snapshotMax := Some(maximum), last := last));
    if cursor.Some? then moved
    else
      var closed :=
        if db.cp.reconciliation.None? then db.recs
        else
          var rec := db.cp.reconciliation.value;
          var status := if HasConflicts(db, rec) then ScannedWithConflicts else Scanned;
          db.recs[rec := db.recs[rec].(status := status, finishedMs := Some(now))];
      moved.(recs := closed, cp := moved.cp.(reconciliation := None, lastScanMs := Some(now)))
  }

  /** `commit_page`, for a page that passed every check. */
  function Commit(db: Db, page: FramePage, now: int): (r: Upserted)
    requires OpenRecInRange(db)
    requires ValidPage(db.cp, db.window, page)
  {
    ValidItemsAreWires(page.items, db.window, page.snapshotMax, Continuing(db.cp, page));
    if ChangesHistory(db.cp, page) then
      var begun := Begin(db, HistoryChanged, Some(page.history), None, now);
      Upserted(begun.(cp := begun.cp.(history := Some(page.history))), false)
    else
      var named := db.(cp := db.cp.(history := Some(page.history)));
      var items := ItemsOf(page.items);
      var stored := UpsertAll(named, page.history, items, db.cp.reconciliation.Some?, now);
      if !stored.accepted then stored
      else Upserted(Advance(stored.db, page.nextCursor, page.snapshotMax, LastKey(db.cp, items), now), true)
  }

  function Pick<T>(field: Option<T>, prior: T): (v: T) {
    if field.Some? then field.value else prior
  }

  /** The stored record refreshed from a detail response. */
  function Refreshed(prior: Evidence, d: FrameDetail): (item: Evidence) {
    var available := d.rawText.Some?;
    prior.(capturedAt := d.capturedAt, rawText := d.rawText, contentText := d.contentText,
         textState := if available then "available" else "not_available",
         textSource := if available then d.textSource else None,
         filterVersion := if available then prior.filterVersion else None,
         visionDescription := Pick(d.vision, prior.visionDescription),
         appHint := Pick(d.appHint, prior.appHint),
         windowTitle := Pick(d.windowTitle, prior.windowTitle),
         browserUrl := Pick(d.browserUrl, prior.browserUrl),
         imagePurged := Pick(d.imagePurged, prior.imagePurged),
         monitorIndex := Pick(d.monitorIndex, prior.monitorIndex))
  }

  predicate ValidDetail(db: Db, frameId: int, d: FrameDetail) {
    && db.cp.history.Some?
    && FactKey(db.cp.history.value, frameId) in db.facts
    && d.frameId == frameId
    && IsI64(d.capturedAt)
    && var prior := db.facts[FactKey(db.cp.history.value, frameId)].current;
       ValidEvidence(Refreshed(prior, d).(capturedAt := prior.capturedAt), db.window, I64_MAX)
  }

  /** `commit_detail`, for a response that passed every check. */
  function CommitDetail(db: Db, frameId: int, d: FrameDetail, now: int): (r: Upserted)
    requires OpenRecInRange(db)
    requires ValidDetail(db, frameId, d)
  {
    var history := db.cp.history.value;
    var prior := db.facts[FactKey(history, frameId)].current;
    Upsert(db, history, Refreshed(prior, d), db.cp.reconciliation.Some?, now)
  }

  /** One transaction of the consumer, with the response it stores. */
  datatype DbStep =
    | BeginStep(reason: Reason, now: int)
    | ObserveStep(highWater: int, now: int)
    | RescanStep
    | PageStep(page: FramePage, now: int)
    | DetailStep(frameId: int, detail: FrameDetail, now: int)

  /** A rejected response leaves the file as it was. */
  function Apply(db: Db, step: DbStep): (r: Db)
    requires OpenRecInRange(db)
    ensures OpenRecInRange(r)
  {
    match step
    case BeginStep(reason, now) => Begin(db, reason, None, None, now)
    case ObserveStep(highWater, now) => if InRange(highWater, 0, I64_MAX) then Observe(db, highWater, now) else db
    case RescanStep => Rescan(db)
    case PageStep(page, now) => if ValidPage(db.cp, db.window, page) then Commit(db, page, now).db else db
    case DetailStep(id, detail, now) => if ValidDetail(db, id, detail) then CommitDetail(db, id, detail, now).db else db
  }

  /** A run of the consumer: its transactions in order. Stopping between two is a crash. */
  function Run(db: Db, steps: seq<DbStep>): (r: Db)
    requires OpenRecInRange(db)
    ensures OpenRecInRange(r)
  {
    if steps == [] then db else Apply(Run(db, steps[..|steps| - 1]), steps[|steps| - 1])
  }
}
