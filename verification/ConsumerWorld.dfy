/** Consumer and server as one step system: what a stored checkpoint proves about the frames behind it. */
module ConsumerWorld {
  import opened Wrappers
  import opened Bytes
  import opened ConsumerDb
  import opened ConsumerHistory
  import opened FrameServer
  import FrameCursor

  /** `inflight` is a response that was received but not yet stored. */
  datatype World = World(srv: Server, db: Db, inflight: Option<FramePage>)

  /** Every interleaving: the server moves at any time; a crash forgets the response; other transactions
      of the consumer run with any arguments, between pages. */
  datatype Event =
    | ServerMoves(step: ServerStep)
    | Request(limit: int, observedAt: int)
    | StorePage(now: int)
    | OtherTransaction(transaction: DbStep)
    | Crash

  predicate WindowOk(w: Window) {
    IsI64(w.from) && IsI64(w.to) && w.from < w.to
  }

  function WireWindow(w: Window): (r: FrameCursor.EvidenceWindow)
    requires WindowOk(w)
    ensures WindowOf(r) == w
  {
    FrameCursor.EvidenceWindow(w.from, w.to)
  }

  ghost function Happen(w: World, event: Event): (r: World)
    requires ServerOk(w.srv) && WellFormed(w.db) && WindowOk(w.db.window)
  {
    match event
    case ServerMoves(step) => w.(srv := ApplyServer(w.srv, step))
    case Request(limit, observedAt) =>
      if w.db.cp.done then w
      else
        var reply := Answer(w.srv, WireWindow(w.db.window), limit, w.db.cp.cursor, observedAt);
        w.(inflight := if reply.PageReply? then Some(reply.page) else None)
    case StorePage(now) =>
      if w.inflight.None? then w
      else World(w.srv, Apply(w.db, PageStep(w.inflight.value, now)), None)
    case OtherTransaction(step) =>
      if step.PageStep? then w else World(w.srv, Apply(w.db, step), None)
    case Crash => w.(inflight := None)
  }

  // The invariant.

  /** An observation of this frame with this capture time is on file, and the frame has a fact row. */
  ghost predicate Seen(db: Db, history: History, key: Key) {
    && FactKey(history, key.frameId) in db.facts
    && exists v :: v in db.versions && v.history == history && KeyOf(v.payload) == key
  }

  predicate AtOrBefore(key: Key, last: Option<Key>) {
    last.Some? && !KeyLess(last.value, key)
  }

  predicate Member(s: Store, w: Window, maximum: int, id: int) {
    id in s.frames && id <= maximum && w.from <= s.frames[id].capturedAt < w.to
  }

  predicate SameTraversal(a: Checkpoint, b: Checkpoint) {
    a.cursor == b.cursor && a.done == b.done && a.snapshotMax == b.snapshotMax && a.last == b.last
  }

  predicate FreshTraversal(cp: Checkpoint) {
    cp.cursor.None? && !cp.done && cp.snapshotMax.None? && cp.last.None?
  }

  /** The checkpoint is fresh, in the middle of a traversal with the cursor of exactly that point, or done. */
  predicate Linked(db: Db)
    requires WindowOk(db.window)
  {
    var cp := db.cp;
    if cp.done then cp.cursor.None? && cp.history.Some? && cp.snapshotMax.Some?
    else if cp.cursor.None? then FreshTraversal(cp)
    else
      && cp.history.Some? && cp.snapshotMax.Some? && cp.last.Some?
      && FrameCursor.ValidHistoryId(cp.history.value) && ValidUtf8(cp.history.value)
      && IsI64(cp.snapshotMax.value)
      && 0 < cp.last.value.frameId <= cp.snapshotMax.value
      && db.window.from <= cp.last.value.capturedAt < db.window.to
      && cp.cursor == CursorFor(WireWindow(db.window), cp.history.value, cp.snapshotMax.value, cp.last.value)
  }

  /** Every member up to the checkpoint's key has been seen; every member at all, once it is done. */
  ghost predicate Covered(srv: Server, db: Db) {
    var cp := db.cp;
    cp.snapshotMax.Some? && cp.history.Some? ==>
      var h, m := cp.history.value, cp.snapshotMax.value;
      && h in srv.stores
      && m <= srv.stores[h].highWater
      && forall id ::
        (Member(srv.stores[h], db.window, m, id) && (cp.done || AtOrBefore(FrameKey(srv.stores[h], id), cp.last))) ==>
        Seen(db, h, FrameKey(srv.stores[h], id))
  }

  predicate Holds(page: FramePage, key: Key) {
    exists i :: 0 <= i < |page.items| && page.items[i].Wire? && KeyOf(page.items[i].item) == key
  }

  function PageLast(page: FramePage): (k: Option<Key>) {
    if page.items == [] || page.items[|page.items| - 1].Malformed? then None
    else Some(KeyOf(page.items[|page.items| - 1].item))
  }

  /** No member from `start` to the page's last record is missing from the page; after an exhausted page, none at all. */
  ghost predicate Complete(srv: Server, page: FramePage, start: Option<Key>) {
    && page.history in srv.stores
    && page.snapshotMax <= srv.stores[page.history].highWater
    && forall id ::
      (&& Member(srv.stores[page.history], page.window, page.snapshotMax, id)
       && After(start, FrameKey(srv.stores[page.history], id))
       && (page.nextCursor.None? || AtOrBefore(FrameKey(srv.stores[page.history], id), PageLast(page)))) ==>
      Holds(page, FrameKey(srv.stores[page.history], id))
  }

  /** A response still continues from the checkpoint it was requested for. */
  ghost predicate Answers(srv: Server, db: Db, page: FramePage)
    requires WindowOk(db.window)
  {
    var cp := db.cp;
    && !cp.done
    && page.window == db.window
    && Complete(srv, page, cp.last)
    && FrameCursor.ValidHistoryId(page.history) && ValidUtf8(page.history)
    && (cp.cursor.Some? ==> cp.history == Some(page.history) && cp.snapshotMax == Some(page.snapshotMax))
    && (page.nextCursor.Some? ==>
      && PageLast(page).Some?
      && page.nextCursor == CursorFor(WireWindow(db.window), page.history, page.snapshotMax, PageLast(page).value))
  }

  ghost predicate Inv(w: World) {
    && ServerOk(w.srv)
    && WellFormed(w.db)
    && WindowOk(w.db.window)
    && Linked(w.db)
    && Covered(w.srv, w.db)
    && (w.inflight.Some? ==> Answers(w.srv, w.db, w.inflight.value))
  }

  // Server pages are complete.

  /** In chronological order, a member at or before the row `n - 1` is one of the first `n` rows. */
  lemma EarlierRow(s: Store, order: seq<int>, n: nat, id: int)
    requires forall i :: 0 <= i < |order| ==> order[i] in s.frames
    requires Ascending(s, order) && 0 < n <= |order| && id in order
    requires !KeyLess(FrameKey(s, order[n - 1]), FrameKey(s, id))
    ensures id in order[..n]
  {
    var i :| 0 <= i < |order| && order[i] == id;
    assert i < n;
    assert order[..n][i] == id;
  }

  lemma RowsHold(s: Store, rows: seq<int>, page: FramePage, id: int)
    requires forall i :: 0 <= i < |rows| ==> rows[i] in s.frames
    requires page.items == WiresOf(s, rows) && id in rows
    ensures Holds(page, FrameKey(s, id))
  {
    var i :| 0 <= i < |rows| && rows[i] == id;
    assert page.items[i] == Wire(s.frames[id]);
  }

  /** The rows a page was cut from, with the record it ends on. */
  lemma PageRows(srv: Server, w: FrameCursor.EvidenceWindow, limit: nat, maximum: int, after: Option<Key>, observedAt: int)
    requires ServerOk(srv) && limit > 0
    requires PageOf(srv, w, limit, maximum, after, observedAt).PageReply?
    ensures var page, s := PageOf(srv, w, limit, maximum, after, observedAt).page, CurrentStore(srv);
      var order := Members(s, WindowOf(w), maximum, after);
      && page.window == WindowOf(w) && page.history == srv.current && page.snapshotMax == maximum
      && page.items == WiresOf(s, FirstRows(order, limit))
      && (page.nextCursor.Some? <==> |order| > limit)
      && (|order| > limit ==>
        && PageLast(page) == Some(FrameKey(s, order[limit - 1]))
        && page.nextCursor == CursorFor(w, srv.current, maximum, FrameKey(s, order[limit - 1])))
  {
    var order := Members(CurrentStore(srv), WindowOf(w), maximum, after);
    if |order| > limit {
      assert FirstRows(order, limit)[limit - 1] == order[limit - 1];
    }
  }

  lemma PageIsComplete(srv: Server, w: FrameCursor.EvidenceWindow, limit: nat, maximum: int, after: Option<Key>, observedAt: int)
    requires ServerOk(srv) && maximum <= CurrentStore(srv).highWater && limit > 0
    requires PageOf(srv, w, limit, maximum, after, observedAt).PageReply?
    ensures Complete(srv, PageOf(srv, w, limit, maximum, after, observedAt).page, after)
  {
    var s := CurrentStore(srv);
    var page := PageOf(srv, w, limit, maximum, after, observedAt).page;
    PageRows(srv, w, limit, maximum, after, observedAt);
    var order := Members(s, WindowOf(w), maximum, after);
    forall id | Member(s, page.window, maximum, id) && After(after, FrameKey(s, id))
        && (page.nextCursor.None? || AtOrBefore(FrameKey(s, id), PageLast(page)))
      ensures Holds(page, FrameKey(s, id))
    {
      MemberIsRow(s, page.window, maximum, after, limit, id);
      RowsHold(s, FirstRows(order, limit), page, id);
    }
  }

  lemma MemberIsRow(s: Store, w: Window, maximum: int, after: Option<Key>, limit: nat, id: int)
    requires StoreOk(s) && limit > 0 && Member(s, w, maximum, id) && After(after, FrameKey(s, id))
    requires var order := Members(s, w, maximum, after);
      |order| > limit ==> !KeyLess(FrameKey(s, order[limit - 1]), FrameKey(s, id))
    ensures id in FirstRows(Members(s, w, maximum, after), limit)
  {
    var order := Members(s, w, maximum, after);
    OrderedAscends(s, Remaining(s, w, maximum, after));
    assert id in order;
    if |order| > limit {
      EarlierRow(s, order, limit, id);
    }
  }

  lemma RequestAnswers(w: World, limit: int, observedAt: int)
    requires Inv(w) && !w.db.cp.done
    requires Answer(w.srv, WireWindow(w.db.window), limit, w.db.cp.cursor, observedAt).PageReply?
    ensures Answers(w.srv, w.db, Answer(w.srv, WireWindow(w.db.window), limit, w.db.cp.cursor, observedAt).page)
  {
    var cp, window := w.db.cp, WireWindow(w.db.window);
    var s := CurrentStore(w.srv);
    var r := RequestOf(window, limit, cp.cursor).value;
    assert FrameCursor.ValidRequest(r);
    if cp.cursor.None? {
      PageIsComplete(w.srv, window, limit, MaxId(s), None, observedAt);
      PageRows(w.srv, window, limit, MaxId(s), None, observedAt);
    } else {
      CursorForDecodes(window, cp.history.value, cp.snapshotMax.value, cp.last.value, limit);
      PageIsComplete(w.srv, window, limit, cp.snapshotMax.value, cp.last, observedAt);
      PageRows(w.srv, window, limit, cp.snapshotMax.value, cp.last, observedAt);
    }
  }

  // What each kind of step keeps.

  lemma SeenStays(before: Db, after: Db, history: History, key: Key)
    requires Keeps(before, after) && Seen(before, history, key)
    ensures Seen(after, history, key)
  {
    var v :| v in before.versions && v.history == history && KeyOf(v.payload) == key;
    assert v in after.versions;
  }

  lemma ServerMovesKeeps(w: World, step: ServerStep)
    requires Inv(w)
    ensures Inv(Happen(w, ServerMoves(step)))
  {
    var srv := ApplyServer(w.srv, step);
    ApplyServerOk(w.srv, step);
    ApplyServerGrows(w.srv, step);
    GrowthKeepsCoverage(w.srv, srv, w.db);
    if w.inflight.Some? {
      GrowthKeepsCompleteness(w.srv, srv, w.inflight.value, w.db.cp.last);
    }
  }

  lemma GrowthKeepsCoverage(before: Server, after: Server, db: Db)
    requires Grows(before, after) && Covered(before, db)
    ensures Covered(after, db)
  {
    if db.cp.snapshotMax.Some? && db.cp.history.Some? {
      var h, m := db.cp.history.value, db.cp.snapshotMax.value;
      forall id | Member(after.stores[h], db.window, m, id)
          && (db.cp.done || AtOrBefore(FrameKey(after.stores[h], id), db.cp.last))
        ensures Seen(db, h, FrameKey(after.stores[h], id))
      {
        assert Member(before.stores[h], db.window, m, id);
      }
    }
  }

  lemma GrowthKeepsCompleteness(before: Server, after: Server, page: FramePage, start: Option<Key>)
    requires Grows(before, after) && Complete(before, page, start)
    ensures Complete(after, page, start)
  {
    var h, m := page.history, page.snapshotMax;
    forall id | Member(after.stores[h], page.window, m, id)
        && After(start, FrameKey(after.stores[h], id))
        && (page.nextCursor.None? || AtOrBefore(FrameKey(after.stores[h], id), PageLast(page)))
      ensures Holds(page, FrameKey(after.stores[h], id))
    {
      assert Member(before.stores[h], page.window, m, id);
    }
  }

  /** A transaction that leaves the traversal alone, or restarts it, keeps coverage. */
  lemma UntouchedTraversalKeeps(w: World, db: Db)
    requires Inv(w) && WellFormed(db) && Keeps(w.db, db)
    requires db.cp.history == w.db.cp.history
    requires SameTraversal(db.cp, w.db.cp) || FreshTraversal(db.cp)
    ensures Inv(World(w.srv, db, None))
  {
    var cp := db.cp;
    if cp.snapshotMax.Some? && cp.history.Some? {
      var s := w.srv.stores[cp.history.value];
      forall id | Member(s, db.window, cp.snapshotMax.value, id) && (cp.done || AtOrBefore(FrameKey(s, id), cp.last))
        ensures Seen(db, cp.history.value, FrameKey(s, id))
      {
        SeenStays(w.db, db, cp.history.value, FrameKey(s, id));
      }
    }
  }

  lemma UpsertTraversal(db: Db, history: History, item: Evidence, inReconciliation: bool, now: int)
    requires OpenRecInRange(db)
    ensures var r := Upsert(db, history, item, inReconciliation, now).db;
      r.cp.history == db.cp.history && (SameTraversal(r.cp, db.cp) || FreshTraversal(r.cp))
  {
  }

  lemma OtherTransactionTraversal(db: Db, step: DbStep)
    requires OpenRecInRange(db) && !step.PageStep?
    ensures var r := Apply(db, step);
      r.cp.history == db.cp.history && (SameTraversal(r.cp, db.cp) || FreshTraversal(r.cp))
  {
    if step.DetailStep? && ValidDetail(db, step.frameId, step.detail) {
      var history := db.cp.history.value;
      var prior := db.facts[FactKey(history, step.frameId)].current;
      UpsertTraversal(db, history, Refreshed(prior, step.detail), db.cp.reconciliation.Some?, step.now);
    }
  }

  lemma OtherTransactionKeeps(w: World, step: DbStep)
    requires Inv(w) && !step.PageStep?
    ensures Inv(Happen(w, OtherTransaction(step)))
  {
    ApplyKeeps(w.db, step);
    OtherTransactionTraversal(w.db, step);
    UntouchedTraversalKeeps(w, Apply(w.db, step));
  }

  lemma {:induction false} ValidLastKey(db: Db, page: FramePage)
    requires ValidPage(db.cp, db.window, page) && page.items != []
    ensures PageLast(page).Some?
    ensures 0 < PageLast(page).value.frameId <= page.snapshotMax
    ensures db.window.from <= PageLast(page).value.capturedAt < db.window.to
  {
    ValidItemsProgress(page.items, db.window, page.snapshotMax, Continuing(db.cp, page));
  }

  lemma StoredPageIsSeen(db: Db, page: FramePage, now: int, key: Key)
    requires WellFormed(db) && ValidPage(db.cp, db.window, page) && !ChangesHistory(db.cp, page)
    requires Holds(page, key)
    ensures Seen(Commit(db, page, now).db, page.history, key)
  {
    CommitRecords(db, page, now);
    var i :| 0 <= i < |page.items| && page.items[i].Wire? && KeyOf(page.items[i].item) == key;
    assert Version(page.history, page.items[i].item) in Commit(db, page, now).db.versions;
  }

  lemma AcceptedPageCovers(w: World, now: int)
    requires Inv(w) && w.inflight.Some?
    requires ValidPage(w.db.cp, w.db.window, w.inflight.value)
    requires Commit(w.db, w.inflight.value, now).accepted
    ensures Covered(w.srv, Commit(w.db, w.inflight.value, now).db)
  {
    var page := w.inflight.value;
    var r := Commit(w.db, page, now).db;
    CommitMoves(w.db, page, now);
    CommitKeeps(w.db, page, now);
    var s := w.srv.stores[page.history];
    forall id | Member(s, r.window, page.snapshotMax, id) && (r.cp.done || AtOrBefore(FrameKey(s, id), r.cp.last))
      ensures Seen(r, page.history, FrameKey(s, id))
    {
      if AtOrBefore(FrameKey(s, id), w.db.cp.last) {
        SeenStays(w.db, r, page.history, FrameKey(s, id));
      } else {
        assert Holds(page, FrameKey(s, id));
        StoredPageIsSeen(w.db, page, now, FrameKey(s, id));
      }
    }
  }

  lemma AcceptedPageLinks(w: World, now: int)
    requires Inv(w) && w.inflight.Some?
    requires ValidPage(w.db.cp, w.db.window, w.inflight.value)
    requires Commit(w.db, w.inflight.value, now).accepted
    ensures Commit(w.db, w.inflight.value, now).db.window == w.db.window
    ensures Linked(Commit(w.db, w.inflight.value, now).db)
  {
    var page := w.inflight.value;
    CommitMoves(w.db, page, now);
    CommitKeeps(w.db, page, now);
    if page.items != [] {
      ValidLastKey(w.db, page);
    }
  }

  lemma RefusedPageRestarts(db: Db, page: FramePage, now: int)
    requires WellFormed(db) && ValidPage(db.cp, db.window, page) && !Commit(db, page, now).accepted
    ensures FreshTraversal(Commit(db, page, now).db.cp)
  {
    ValidItemsAreWires(page.items, db.window, page.snapshotMax, Continuing(db.cp, page));
    if !ChangesHistory(db.cp, page) {
      UpsertAllOpens(db.(cp := db.cp.(history := Some(page.history))), page.history, ItemsOf(page.items), now);
    }
  }

  lemma RefusedPageKeeps(w: World, now: int)
    requires Inv(w) && w.inflight.Some?
    requires ValidPage(w.db.cp, w.db.window, w.inflight.value)
    requires !Commit(w.db, w.inflight.value, now).accepted
    ensures Inv(World(w.srv, Commit(w.db, w.inflight.value, now).db, None))
  {
    CommitKeeps(w.db, w.inflight.value, now);
    RefusedPageRestarts(w.db, w.inflight.value, now);
  }

  lemma AcceptedPageKeeps(w: World, now: int)
    requires Inv(w) && w.inflight.Some?
    requires ValidPage(w.db.cp, w.db.window, w.inflight.value)
    requires Commit(w.db, w.inflight.value, now).accepted
    ensures Inv(World(w.srv, Commit(w.db, w.inflight.value, now).db, None))
  {
    CommitKeeps(w.db, w.inflight.value, now);
    AcceptedPageCovers(w, now);
    AcceptedPageLinks(w, now);
  }

  lemma StorePageKeeps(w: World, now: int)
    requires Inv(w) && w.inflight.Some?
    ensures Inv(Happen(w, StorePage(now)))
  {
    var page := w.inflight.value;
    if ValidPage(w.db.cp, w.db.window, page) {
      if Commit(w.db, page, now).accepted {
        AcceptedPageKeeps(w, now);
      } else {
        RefusedPageKeeps(w, now);
      }
    }
  }

  lemma HappenKeeps(w: World, event: Event)
    requires Inv(w)
    ensures Inv(Happen(w, event))
  {
    match event
    case ServerMoves(step) => ServerMovesKeeps(w, step);
    case Request(limit, observedAt) =>
      if !w.db.cp.done && Answer(w.srv, WireWindow(w.db.window), limit, w.db.cp.cursor, observedAt).PageReply? {
        RequestAnswers(w, limit, observedAt);
      }
    case StorePage(now) =>
      if w.inflight.Some? {
        StorePageKeeps(w, now);
      }
    case OtherTransaction(step) =>
      if !step.PageStep? {
        OtherTransactionKeeps(w, step);
      }
    case Crash =>
  }

  /** The states reached through `events`, none of which is a restore. */
  ghost predicate Reaches(from: World, events: seq<Event>, to: World)
    decreases |events|
  {
    if events == [] then to == from
    else
      && ServerOk(from.srv) && WellFormed(from.db) && WindowOk(from.db.window)
      && Reaches(Happen(from, events[0]), events[1..], to)
  }

  lemma {:induction false} RunKeepsInv(from: World, events: seq<Event>, to: World)
    requires Inv(from) && Reaches(from, events, to)
    ensures Inv(to)
    decreases |events|
  {
    if events != [] {
      HappenKeeps(from, events[0]);
      RunKeepsInv(Happen(from, events[0]), events[1..], to);
    }
  }

  /** Traversal completeness: whatever the interleaving, the checkpoint proves that every frame of its history
      in the window, up to its snapshot maximum and its last key, has a fact and an observation with its capture
      time; once the checkpoint is done, every such frame at all. */
  lemma CheckpointIsCovered(srv: Server, window: Window, events: seq<Event>, to: World, id: int)
    requires ServerOk(srv) && WindowOk(window)
    requires Reaches(World(srv, Empty(window), None), events, to)
    ensures to.db.cp.done ==> to.db.cp.history.Some? && to.db.cp.snapshotMax.Some?
    ensures to.db.cp.snapshotMax.Some? && to.db.cp.history.Some? ==>
      && to.db.cp.history.value in to.srv.stores
      && var s := to.srv.stores[to.db.cp.history.value];
         Member(s, to.db.window, to.db.cp.snapshotMax.value, id)
         && (to.db.cp.done || AtOrBefore(FrameKey(s, id), to.db.cp.last)) ==>
           Seen(to.db, to.db.cp.history.value, FrameKey(s, id))
  {
    EmptyIsWellFormed(window);
    RunKeepsInv(World(srv, Empty(window), None), events, to);
  }

  // Restores.

  /** From any sound file, against any server, the operator's reconciliation starts a traversal whose
      completion means completeness again, whatever was restored before it. */
  lemma ReconcileRecovers(srv: Server, db: Db, reason: Reason, now: int, events: seq<Event>, to: World)
    requires ServerOk(srv) && WellFormed(db) && WindowOk(db.window)
    requires Reaches(World(srv, Begin(db, reason, None, None, now), None), events, to)
    ensures Inv(to)
  {
    BeginKeeps(db, reason, None, None, now);
    RunKeepsInv(World(srv, Begin(db, reason, None, None, now), None), events, to);
  }

  /** A restore that coverage shows as a fallen high-water mark is recovered from in the same way. */
  lemma DetectedRewindRecovers(srv: Server, db: Db, highWater: int, now: int)
    requires ServerOk(srv) && WellFormed(db) && WindowOk(db.window)
    requires Decreased(db.cp, highWater)
    ensures Inv(World(srv, Observe(db, highWater, now), None))
  {
    ObserveKeeps(db, highWater, now);
  }

  // Honest pages are accepted.

  lemma {:induction false} RowsAreValid(s: Store, rows: seq<int>, w: Window, maximum: int, after: Option<Key>)
    requires StoreOk(s)
    requires forall i :: 0 <= i < |rows| ==> rows[i] in s.frames && Member(s, w, maximum, rows[i])
    requires Ascending(s, rows)
    requires rows != [] ==> After(after, FrameKey(s, rows[0]))
    ensures ValidItems(WiresOf(s, rows), w, maximum, after)
  {
    if rows != [] {
      var first := rows[0];
      assert ValidFrame(s.frames[first]);
      forall i | 0 <= i < |rows[1..]|
        ensures rows[1..][i] in s.frames && Member(s, w, maximum, rows[1..][i])
        ensures KeyLess(FrameKey(s, first), FrameKey(s, rows[1..][i]))
      {
        assert rows[1..][i] == rows[i + 1];
      }
      assert Ascending(s, rows[1..]);
      RowsAreValid(s, rows[1..], w, maximum, Some(FrameKey(s, first)));
      assert WiresOf(s, rows)[1..] == WiresOf(s, rows[1..]);
    }
  }

  lemma FirstRowsAreValid(s: Store, w: Window, limit: nat, maximum: int, after: Option<Key>)
    requires StoreOk(s) && limit > 0
    ensures ValidItems(WiresOf(s, FirstRows(Members(s, w, maximum, after), limit)), w, maximum, after)
  {
    var order := Members(s, w, maximum, after);
    var rows := FirstRows(order, limit);
    OrderedAscends(s, Remaining(s, w, maximum, after));
    forall i | 0 <= i < |rows|
      ensures rows[i] in s.frames && Member(s, w, maximum, rows[i]) && After(after, FrameKey(s, rows[i]))
    {
      assert rows[i] == order[i] && order[i] in order;
    }
    RowsAreValid(s, rows, w, maximum, after);
  }

  lemma PageItemsAreValid(srv: Server, w: FrameCursor.EvidenceWindow, limit: nat, maximum: int, after: Option<Key>,
                          observedAt: int)
    requires ServerOk(srv) && limit > 0
    requires PageOf(srv, w, limit, maximum, after, observedAt).PageReply?
    ensures var page := PageOf(srv, w, limit, maximum, after, observedAt).page;
      && ValidItems(page.items, WindowOf(w), maximum, after)
      && page.snapshotMax == maximum && page.observedAt == observedAt
      && page.consistency == "bounded_membership_live_content"
      && (page.nextCursor.Some? ==> page.items != [])
  {
    FirstRowsAreValid(CurrentStore(srv), WindowOf(w), limit, maximum, after);
    PageRows(srv, w, limit, maximum, after, observedAt);
  }

  /** Two continuation points never share a cursor. */
  lemma CursorsDiffer(w: FrameCursor.EvidenceWindow, history: Utf8, maximum: int, a: Key, b: Key)
    requires FrameCursor.ValidHistoryId(history) && IsI64(maximum) && a != b
    requires 0 < a.frameId <= maximum && w.from <= a.capturedAt < w.to
    requires 0 < b.frameId <= maximum && w.from <= b.capturedAt < w.to
    ensures CursorFor(w, history, maximum, a) != CursorFor(w, history, maximum, b)
  {
    CursorForDecodes(w, history, maximum, a, 1);
    CursorForDecodes(w, history, maximum, b, 1);
  }

  lemma HonestItems(w: World, limit: int, observedAt: int)
    requires Inv(w) && !w.db.cp.done
    requires Answer(w.srv, WireWindow(w.db.window), limit, w.db.cp.cursor, observedAt).PageReply?
    ensures var page := Answer(w.srv, WireWindow(w.db.window), limit, w.db.cp.cursor, observedAt).page;
      && ValidItems(page.items, w.db.window, page.snapshotMax, w.db.cp.last)
      && 0 <= page.snapshotMax <= I64_MAX
      && page.consistency == "bounded_membership_live_content"
      && page.observedAt == observedAt
      && (page.nextCursor.Some? ==> page.items != [])
  {
    var cp, window := w.db.cp, WireWindow(w.db.window);
    var s := CurrentStore(w.srv);
    if cp.cursor.None? {
      PageItemsAreValid(w.srv, window, limit, MaxId(s), None, observedAt);
    } else {
      CursorForDecodes(window, cp.history.value, cp.snapshotMax.value, cp.last.value, limit);
      PageItemsAreValid(w.srv, window, limit, cp.snapshotMax.value, cp.last, observedAt);
    }
  }

  /** The cursor of the next page is well-formed and differs from the one that asked for this page. */
  lemma NextCursorIsNew(w: World, page: FramePage)
    requires Inv(w) && Answers(w.srv, w.db, page) && page.nextCursor.Some?
    requires ValidItems(page.items, w.db.window, page.snapshotMax, w.db.cp.last) && page.items != []
    requires 0 <= page.snapshotMax <= I64_MAX
    ensures 1 <= |page.nextCursor.value| <= 791 && page.nextCursor != w.db.cp.cursor
  {
    var cp, window := w.db.cp, WireWindow(w.db.window);
    ValidItemsProgress(page.items, w.db.window, page.snapshotMax, cp.last);
    var last := PageLast(page).value;
    CursorForDecodes(window, page.history, page.snapshotMax, last, 1);
    if cp.cursor.Some? {
      CursorsDiffer(window, page.history, page.snapshotMax, cp.last.value, last);
    }
  }

  lemma HonestEnvelope(w: World, page: FramePage)
    requires Inv(w) && Answers(w.srv, w.db, page) && IsI64(page.observedAt)
    requires page.consistency == "bounded_membership_live_content" && 0 <= page.snapshotMax <= I64_MAX
    requires page.nextCursor.Some? ==> 1 <= |page.nextCursor.value| <= 791
    ensures ValidEnvelope(w.db.cp, w.db.window, page)
    ensures Continuing(w.db.cp, page) == w.db.cp.last
  {
  }

  /** The consumer's checks never turn away what the server really sends: the page requested for any
      reachable checkpoint is valid for it, and its cursor is new. */
  lemma HonestPageIsValid(w: World, limit: int, observedAt: int)
    requires Inv(w) && !w.db.cp.done && IsI64(observedAt)
    requires Answer(w.srv, WireWindow(w.db.window), limit, w.db.cp.cursor, observedAt).PageReply?
    ensures ValidPage(w.db.cp, w.db.window,
                      Answer(w.srv, WireWindow(w.db.window), limit, w.db.cp.cursor, observedAt).page)
  {
    var page := Answer(w.srv, WireWindow(w.db.window), limit, w.db.cp.cursor, observedAt).page;
    RequestAnswers(w, limit, observedAt);
    HonestItems(w, limit, observedAt);
    if page.nextCursor.Some? {
      NextCursorIsNew(w, page);
    }
    HonestEnvelope(w, page);
  }
}
