/** Restores under an unchanged history id that the high-water mark does not reveal (examples/memory_consumer.py):
    exactly which finished checkpoints survive all of them. */
module SilentRewind {
  import opened Wrappers
  import opened Bytes
  import opened ConsumerDb
  import opened ConsumerHistory
  import opened FrameServer
  import opened ConsumerWorld
  import FrameCursor

  /** What a finished checkpoint claims about a store: every frame of its window and snapshot has been seen. */
  ghost predicate MembersSeen(db: Db, s: Store)
    requires db.cp.history.Some? && db.cp.snapshotMax.Some?
  {
    forall id :: Member(s, db.window, db.cp.snapshotMax.value, id) ==> Seen(db, db.cp.history.value, FrameKey(s, id))
  }

  /** Every capture time of the window has been seen for every id of the snapshot. */
  ghost predicate AllKeysSeen(db: Db)
    requires db.cp.history.Some? && db.cp.snapshotMax.Some?
  {
    forall key: Key ::
      1 <= key.frameId <= db.cp.snapshotMax.value && db.window.from <= key.capturedAt < db.window.to ==>
      Seen(db, db.cp.history.value, key)
  }

  /** Coverage of the store does not reveal that it was restored. */
  predicate Unnoticed(cp: Checkpoint, s: Store) {
    StoreOk(s) && !Decreased(cp, s.highWater)
  }

  /** The same server with another store behind the history of the checkpoint. */
  function Restored(srv: Server, history: Utf8, s: Store): (r: Server) {
    srv.(stores := srv.stores[history := s])
  }

  predicate MarksInRange(cp: Checkpoint) {
    cp.highWater.Some? ==> 0 <= cp.highWater.value <= I64_MAX
  }

  lemma ObserveKeepsMarks(w: World, event: Event)
    requires Inv(w) && MarksInRange(w.db.cp)
    ensures MarksInRange(Happen(w, event).db.cp)
  {
    match event
    case StorePage(now) =>
      if w.inflight.Some? {
        TransactionKeepsMarks(w.db, PageStep(w.inflight.value, now));
      }
    case OtherTransaction(step) => TransactionKeepsMarks(w.db, step);
    case _ =>
  }

  lemma TransactionKeepsMarks(db: Db, step: DbStep)
    requires OpenRecInRange(db) && MarksInRange(db.cp)
    ensures MarksInRange(Apply(db, step).cp)
  {
    match step
    case PageStep(page, now) =>
      if ValidPage(db.cp, db.window, page) && !ChangesHistory(db.cp, page) {
        ValidItemsAreWires(page.items, db.window, page.snapshotMax, Continuing(db.cp, page));
        var named := db.(cp := db.cp.(history := Some(page.history)));
        BatchKeepsMark(named, page.history, ItemsOf(page.items), db.cp.reconciliation.Some?, now);
      }
    case _ =>
  }

  lemma {:induction false} BatchKeepsMark(db: Db, history: History, items: seq<Evidence>, inReconciliation: bool, now: int)
    requires OpenRecInRange(db)
    ensures UpsertAll(db, history, items, inReconciliation, now).db.cp.highWater == db.cp.highWater
  {
    if items != [] {
      BatchKeepsMark(db, history, items[..|items| - 1], inReconciliation, now);
    }
  }

  lemma {:induction false} RunKeepsMarks(from: World, events: seq<Event>, to: World)
    requires Inv(from) && MarksInRange(from.db.cp) && Reaches(from, events, to)
    ensures MarksInRange(to.db.cp)
    decreases |events|
  {
    if events != [] {
      HappenKeeps(from, events[0]);
      ObserveKeepsMarks(from, events[0]);
      RunKeepsMarks(Happen(from, events[0]), events[1..], to);
    }
  }

  /** A capture time that was not seen for an id of the snapshot can be brought in by an unnoticed restore. */
  lemma UnseenKeyIsMissed(w: World, key: Key)
    requires Inv(w) && w.db.cp.done && MarksInRange(w.db.cp)
    requires 1 <= key.frameId <= w.db.cp.snapshotMax.value && w.db.window.from <= key.capturedAt < w.db.window.to
    requires !Seen(w.db, w.db.cp.history.value, key)
    ensures exists s :: Unnoticed(w.db.cp, s) && !MembersSeen(w.db, s)
  {
    var m := w.db.cp.snapshotMax.value;
    var mark := if w.db.cp.highWater.Some? && w.db.cp.highWater.value > m then w.db.cp.highWater.value else m;
    var frame := Evidence(key.frameId, key.capturedAt, 0, None, None, None, None, None, None, None, "not_available",
                          None, None, true);
    assert ValidFrame(frame);
    var s := Store(map[key.frameId := frame], mark);
    assert Member(s, w.db.window, m, key.frameId) && FrameKey(s, key.frameId) == key;
    assert Unnoticed(w.db.cp, s);
  }

  /** After coverage was read again the checkpoint claims the same, still finished, against the restored store. */
  lemma ClaimStands(w: World, s: Store, now: int)
    requires Inv(w) && w.db.cp.done && Unnoticed(w.db.cp, s)
    ensures var h := w.db.cp.history.value;
      var db := Observe(w.db, s.highWater, now);
      && ServerOk(Restored(w.srv, h, s)) && db.cp.done
      && db.cp.history == w.db.cp.history && db.cp.snapshotMax == w.db.cp.snapshotMax
      && (MembersSeen(db, s) <==> MembersSeen(w.db, s))
      && (w.db.cp.snapshotMax.value <= s.highWater ==> (Covered(Restored(w.srv, h, s), db) <==> MembersSeen(w.db, s)))
  {
    var h := w.db.cp.history.value;
    var db := Observe(w.db, s.highWater, now);
    assert forall key :: Seen(db, h, key) <==> Seen(w.db, h, key);
    assert Restored(w.srv, h, s).stores[h] == s;
  }

  /** The claim of the checkpoint survives an unnoticed restore and the coverage read after it. */
  ghost predicate Survives(db: Db, s: Store, now: int)
    requires OpenRecInRange(db)
  {
    var after := Observe(db, s.highWater, now);
    after.cp.done && after.cp.history.Some? && after.cp.snapshotMax.Some? && MembersSeen(after, s)
  }

  /** The claim of a finished checkpoint survives every restore that its high-water mark does not reveal exactly
      when every capture time of the window has been seen for every id of the snapshot. */
  lemma SilentRewindIsMissed(srv: Server, window: Window, events: seq<Event>, w: World, now: int)
    requires ServerOk(srv) && WindowOk(window)
    requires Reaches(World(srv, Empty(window), None), events, w) && w.db.cp.done
    ensures Inv(w)
    ensures (forall s :: Unnoticed(w.db.cp, s) ==> Survives(w.db, s, now)) <==> AllKeysSeen(w.db)
  {
    EmptyIsWellFormed(window);
    RunKeepsInv(World(srv, Empty(window), None), events, w);
    RunKeepsMarks(World(srv, Empty(window), None), events, w);
    SurvivesWhenAllSeen(w, now);
  }

  lemma SurvivesWhenAllSeen(w: World, now: int)
    requires Inv(w) && w.db.cp.done && MarksInRange(w.db.cp)
    ensures (forall s :: Unnoticed(w.db.cp, s) ==> Survives(w.db, s, now)) <==> AllKeysSeen(w.db)
  {
    forall s | Unnoticed(w.db.cp, s)
      ensures Survives(w.db, s, now) <==> MembersSeen(w.db, s)
      ensures AllKeysSeen(w.db) ==> MembersSeen(w.db, s)
    {
      ClaimStands(w, s, now);
    }
    if !AllKeysSeen(w.db) {
      var key: Key :| 1 <= key.frameId <= w.db.cp.snapshotMax.value
        && w.db.window.from <= key.capturedAt < w.db.window.to && !Seen(w.db, w.db.cp.history.value, key);
      UnseenKeyIsMissed(w, key);
    }
  }

  // One restore that is missed.

  const WINDOW: Window := Window(0, 100)

  function FrameAt(capturedAt: int): (frame: Evidence) {
    Evidence(1, capturedAt, 0, None, None, None, None, None, None, None, "not_available", None, None, true)
  }

  function StoreAt(capturedAt: int): (s: Store) {
    Store(map[1 := FrameAt(capturedAt)], 1)
  }

  /** 00000000-0000-0000-0000-000000000000 */
  function ZeroId(): (h: seq<Byte>) {
    seq(36, i => if i in {8, 13, 18, 23} then 0x2D else 0x30)
  }

  lemma {:induction false} AsciiIsUtf8(s: seq<Byte>)
    requires forall i :: 0 <= i < |s| ==> s[i] < 0x80
    ensures ValidUtf8(s)
    decreases |s|
  {
    if s != [] {
      AsciiIsUtf8(s[1..]);
    }
  }

  /** There is such a history. */
  lemma ZeroIdIsHistory()
    ensures ValidUtf8(ZeroId()) && FrameCursor.ValidHistoryId(ZeroId())
  {
    AsciiIsUtf8(ZeroId());
  }

  function ServerAt(h: Utf8, capturedAt: int): (srv: Server) {
    Server(map[h := StoreAt(capturedAt)], h)
  }

  function OnePage(h: Utf8): (page: FramePage) {
    FramePage(WINDOW, "bounded_membership_live_content", h, [Wire(FrameAt(10))], None, 1, 0)
  }

  lemma ServesOnePage(h: Utf8)
    requires FrameCursor.ValidHistoryId(h)
    ensures WindowOk(WINDOW) && ServerOk(ServerAt(h, 10))
    ensures Answer(ServerAt(h, 10), WireWindow(WINDOW), 10, None, 0) == PageReply(OnePage(h))
  {
    var s := StoreAt(10);
    assert ValidFrame(FrameAt(10));
    assert Remaining(s, WINDOW, 1, None) == {1};
    var order := Members(s, WINDOW, 1, None);
    assert order == [1] by {
      assert 1 in order && |order| == 1;
    }
    assert MaxId(s) == 1 by {
      assert 1 in s.frames;
    }
    assert WiresOf(s, [1]) == [Wire(FrameAt(10))];
  }

  /** The state file once the one page was stored. */
  function Traversed(h: History): (db: Db) {
    Db(WINDOW, Checkpoint(Some(h), Some(1), Some(1), None, true, Some(1), Some(Key(10, 1)), None, Some(0)),
       map[FactKey(h, 1) := Fact(10, FrameAt(10), FrameAt(10))], {Version(h, FrameAt(10))}, [], {})
  }

  function Observed(): (db: Db) {
    Empty(WINDOW).(cp := EMPTY_CHECKPOINT.(highWater := Some(1), highestHighWater := Some(1)))
  }

  lemma StoresOnePage(h: Utf8)
    requires FrameCursor.ValidHistoryId(h)
    ensures Apply(Observed(), PageStep(OnePage(h), 0)) == Traversed(h)
  {
    var db, page := Observed(), OnePage(h);
    assert [Wire(FrameAt(10))][1..] == [];
    assert ValidPage(db.cp, db.window, page);
    var named := db.(cp := db.cp.(history := Some(h)));
    assert ItemsOf(page.items) == [FrameAt(10)];
    StoresOneItem(named, h, FrameAt(10));
  }

  lemma StoresOneItem(db: Db, h: History, item: Evidence)
    requires OpenRecInRange(db) && db.facts == map[] && db.versions == {}
    ensures UpsertAll(db, h, [item], false, 0)
      == Upserted(db.(facts := map[FactKey(h, item.frameId) := Fact(item.capturedAt, item, item)], versions := {Version(h, item)}), true)
  {
    assert [item][..0] == [];
    assert UpsertAll(db, h, [item][..0], false, 0) == Upserted(db, true);
  }

  const TRAVERSAL: seq<Event> := [OtherTransaction(ObserveStep(1, 0)), Request(10, 0), StorePage(0)]

  lemma ReceivesOnePage(h: Utf8)
    requires FrameCursor.ValidHistoryId(h)
    ensures var srv := ServerAt(h, 10);
      && ServerOk(srv) && WindowOk(WINDOW) && WellFormed(Empty(WINDOW)) && WellFormed(Observed())
      && Happen(World(srv, Empty(WINDOW), None), TRAVERSAL[0]) == World(srv, Observed(), None)
      && Happen(World(srv, Observed(), None), TRAVERSAL[1]) == World(srv, Observed(), Some(OnePage(h)))
  {
    ServesOnePage(h);
    EmptyIsWellFormed(WINDOW);
  }

  lemma KeepsOnePage(srv: Server, h: Utf8)
    requires FrameCursor.ValidHistoryId(h) && ServerOk(srv) && WindowOk(WINDOW) && WellFormed(Observed())
    ensures Happen(World(srv, Observed(), Some(OnePage(h))), StorePage(0)) == World(srv, Traversed(h), None)
  {
    StoresOnePage(h);
  }

  lemma ThreeSteps(a: World, b: World, c: World, d: World, x: Event, y: Event, z: Event)
    requires ServerOk(a.srv) && WellFormed(a.db) && WindowOk(a.db.window) && Happen(a, x) == b
    requires ServerOk(b.srv) && WellFormed(b.db) && WindowOk(b.db.window) && Happen(b, y) == c
    requires ServerOk(c.srv) && WellFormed(c.db) && WindowOk(c.db.window) && Happen(c, z) == d
    ensures Reaches(a, [x, y, z], d)
  {
    assert [x, y, z][1..] == [y, z] && [y, z][1..] == [z] && [z][1..] == [];
    assert Reaches(d, [], d);
    assert Reaches(c, [z], d);
    assert Reaches(b, [y, z], d);
  }

  lemma Traverses(h: Utf8)
    requires FrameCursor.ValidHistoryId(h)
    ensures ServerOk(ServerAt(h, 10)) && WindowOk(WINDOW)
    ensures Reaches(World(ServerAt(h, 10), Empty(WINDOW), None), TRAVERSAL, World(ServerAt(h, 10), Traversed(h), None))
  {
    var srv := ServerAt(h, 10);
    ReceivesOnePage(h);
    KeepsOnePage(srv, h);
    ThreeSteps(World(srv, Empty(WINDOW), None), World(srv, Observed(), None), World(srv, Observed(), Some(OnePage(h))),
               World(srv, Traversed(h), None), TRAVERSAL[0], TRAVERSAL[1], TRAVERSAL[2]);
    assert TRAVERSAL == [TRAVERSAL[0], TRAVERSAL[1], TRAVERSAL[2]];
  }

  /** One frame at time 10 was traversed; the restore puts its id at time 20 with the same high-water mark. The
      finished checkpoint still claims the window and has never seen that frame. */
  lemma RewindToAnotherTime(h: Utf8)
    requires FrameCursor.ValidHistoryId(h)
    ensures ServerOk(ServerAt(h, 10)) && WindowOk(WINDOW)
    ensures Reaches(World(ServerAt(h, 10), Empty(WINDOW), None), TRAVERSAL, World(ServerAt(h, 10), Traversed(h), None))
    ensures var db := Traversed(h);
      && db.cp.done && Unnoticed(db.cp, StoreAt(20)) && !MembersSeen(db, StoreAt(20)) && !AllKeysSeen(db)
  {
    Traverses(h);
    MissesTheRestore(h);
  }

  lemma MissesTheRestore(h: Utf8)
    ensures var db := Traversed(h);
      db.cp.done && Unnoticed(db.cp, StoreAt(20)) && !MembersSeen(db, StoreAt(20)) && !AllKeysSeen(db)
  {
    var db := Traversed(h);
    assert ValidFrame(FrameAt(20));
    assert Member(StoreAt(20), WINDOW, 1, 1) && FrameKey(StoreAt(20), 1) == Key(20, 1);
    assert !Seen(db, h, Key(20, 1));
  }
}
