/** What the recorded facts say about the server: as long as nothing is restored they are true, so no two observations
    of a frame compete, and a page is only ever refused because the history changed. */
module ConsumerFacts {
  import opened Wrappers
  import opened Bytes
  import opened ConsumerDb
  import opened ConsumerHistory
  import opened FrameServer
  import opened ConsumerWorld
  import FrameCursor

  /** The id was handed out by this history, and if the frame is still there, it has this capture time. */
  predicate TrueOf(srv: Server, history: History, id: int, capturedAt: int) {
    && history in srv.stores && id <= srv.stores[history].highWater
    && (id in srv.stores[history].frames ==> srv.stores[history].frames[id].capturedAt == capturedAt)
  }

  predicate FactsTrue(srv: Server, db: Db) {
    forall k :: k in db.facts ==> TrueOf(srv, k.history, k.frameId, db.facts[k].capturedAt)
  }

  predicate ItemsTrue(srv: Server, history: History, items: seq<Evidence>) {
    forall i :: 0 <= i < |items| ==> TrueOf(srv, history, items[i].frameId, items[i].capturedAt)
  }

  predicate PageTrue(srv: Server, page: FramePage) {
    forall i :: 0 <= i < |page.items| && page.items[i].Wire? ==>
      TrueOf(srv, page.history, page.items[i].item.frameId, page.items[i].item.capturedAt)
  }

  /** The records are frames the history holds now. */
  predicate Present(srv: Server, history: History, items: seq<Evidence>) {
    && history in srv.stores
    && forall i :: 0 <= i < |items| ==> items[i].frameId in srv.stores[history].frames
  }

  lemma GrowsKeepsTrue(before: Server, after: Server, history: History, id: int, capturedAt: int)
    requires Grows(before, after) && TrueOf(before, history, id, capturedAt)
    ensures TrueOf(after, history, id, capturedAt)
  {
    if id in after.stores[history].frames {
      assert KeyOf(after.stores[history].frames[id]) == KeyOf(before.stores[history].frames[id]);
    }
  }

  lemma UpsertKeepsTrue(srv: Server, db: Db, history: History, item: Evidence, inReconciliation: bool, now: int)
    requires OpenRecInRange(db) && FactsTrue(srv, db) && TrueOf(srv, history, item.frameId, item.capturedAt)
    ensures FactsTrue(srv, Upsert(db, history, item, inReconciliation, now).db)
    ensures item.frameId in srv.stores[history].frames ==> Upsert(db, history, item, inReconciliation, now).accepted
  {
    var key := FactKey(history, item.frameId);
    if key in db.facts {
      assert TrueOf(srv, key.history, key.frameId, db.facts[key].capturedAt);
    }
  }

  /** True records leave true facts, and are all accepted while their frames are there. */
  lemma {:induction false} BatchKeepsTrue(srv: Server, db: Db, history: History, items: seq<Evidence>, inReconciliation: bool, now: int)
    requires OpenRecInRange(db) && FactsTrue(srv, db) && ItemsTrue(srv, history, items)
    ensures FactsTrue(srv, UpsertAll(db, history, items, inReconciliation, now).db)
    ensures Present(srv, history, items) ==> UpsertAll(db, history, items, inReconciliation, now).accepted
  {
    if items != [] {
      var n := |items| - 1;
      BatchKeepsTrue(srv, db, history, items[..n], inReconciliation, now);
      assert TrueOf(srv, history, items[n].frameId, items[n].capturedAt);
      UpsertKeepsTrue(srv, UpsertAll(db, history, items[..n], inReconciliation, now).db, history, items[n], inReconciliation, now);
    }
  }

  /** A page with true records is refused only for another history, while its frames are there. */
  lemma PageKeepsTrue(srv: Server, db: Db, page: FramePage, now: int)
    requires OpenRecInRange(db) && ValidPage(db.cp, db.window, page) && FactsTrue(srv, db) && PageTrue(srv, page)
    ensures FactsTrue(srv, Commit(db, page, now).db)
    ensures (forall i :: 0 <= i < |page.items| ==>
        page.items[i].Wire? && page.history in srv.stores && page.items[i].item.frameId in srv.stores[page.history].frames) ==>
      (Commit(db, page, now).accepted <==> !ChangesHistory(db.cp, page))
  {
    ValidItemsAreWires(page.items, db.window, page.snapshotMax, Continuing(db.cp, page));
    if !ChangesHistory(db.cp, page) {
      var named := db.(cp := db.cp.(history := Some(page.history)));
      var items := ItemsOf(page.items);
      assert ItemsTrue(srv, page.history, items);
      BatchKeepsTrue(srv, named, page.history, items, db.cp.reconciliation.Some?, now);
      if page.items == [] {
        assert items == [];
      }
    }
  }

  /** The records of a page are frames of the current history. */
  predicate FromCurrent(srv: Server, page: FramePage)
    requires srv.current in srv.stores
  {
    && page.history == srv.current
    && forall i :: 0 <= i < |page.items| ==>
      && page.items[i].Wire? && page.items[i].item.frameId in srv.stores[srv.current].frames
      && page.items[i].item == srv.stores[srv.current].frames[page.items[i].item.frameId]
  }

  lemma CurrentIsTrue(srv: Server, page: FramePage)
    requires ServerOk(srv) && FromCurrent(srv, page)
    ensures PageTrue(srv, page)
  {
  }

  lemma PageOfIsCurrent(srv: Server, w: FrameCursor.EvidenceWindow, limit: nat, maximum: int, after: Option<Key>, observedAt: int)
    requires ServerOk(srv) && limit > 0 && PageOf(srv, w, limit, maximum, after, observedAt).PageReply?
    ensures FromCurrent(srv, PageOf(srv, w, limit, maximum, after, observedAt).page)
  {
    var s := CurrentStore(srv);
    PageRows(srv, w, limit, maximum, after, observedAt);
    var rows := FirstRows(Members(s, WindowOf(w), maximum, after), limit);
    forall i | 0 <= i < |rows|
      ensures rows[i] in s.frames && s.frames[rows[i]].frameId == rows[i]
    {
    }
  }

  /** The server's own pages hold frames of its current history. */
  lemma AnswerIsCurrent(srv: Server, w: FrameCursor.EvidenceWindow, limit: int, cursor: Option<Cursor>, observedAt: int)
    requires ServerOk(srv) && Answer(srv, w, limit, cursor, observedAt).PageReply?
    ensures FromCurrent(srv, Answer(srv, w, limit, cursor, observedAt).page)
  {
    var r := RequestOf(w, limit, cursor).value;
    if r.continuation.None? {
      PageOfIsCurrent(srv, r.window, r.limit, MaxId(CurrentStore(srv)), None, observedAt);
    } else {
      var c := r.continuation.value;
      PageOfIsCurrent(srv, r.window, r.limit, c.snapshot.maxFrameId, Some(Key(c.after.capturedAt, c.after.frameId)), observedAt);
    }
  }

  /** The facts, and a response on its way, are true. */
  predicate Truthful(w: World) {
    FactsTrue(w.srv, w.db) && (w.inflight.Some? ==> PageTrue(w.srv, w.inflight.value))
  }

  lemma OtherKeepsTrue(srv: Server, db: Db, step: DbStep)
    requires WellFormed(db) && FactsTrue(srv, db) && !step.PageStep?
    ensures FactsTrue(srv, Apply(db, step))
  {
    if step.DetailStep? && ValidDetail(db, step.frameId, step.detail) {
      var key := FactKey(db.cp.history.value, step.frameId);
      assert SoundFact(db, key);
      DetailKeepsFacts(db, key.history, Refreshed(db.facts[key].current, step.detail), db.cp.reconciliation.Some?, step.now);
    }
  }

  /** An observation of a recorded frame changes no capture time. */
  lemma DetailKeepsFacts(db: Db, history: History, item: Evidence, inReconciliation: bool, now: int)
    requires OpenRecInRange(db) && FactKey(history, item.frameId) in db.facts
    ensures var after := Upsert(db, history, item, inReconciliation, now).db;
      && after.facts.Keys == db.facts.Keys
      && forall k :: k in db.facts ==> after.facts[k].capturedAt == db.facts[k].capturedAt
  {
    var key := FactKey(history, item.frameId);
    if !Clashes(db, key, item) {
      var after := Upsert(db, history, item, inReconciliation, now).db;
      assert after.facts == db.facts[key := db.facts[key].(current := item)];
      assert after.facts.Keys == db.facts.Keys + {key};
    }
  }

  /** No step of client, server or crash makes a recorded fact false. */
  lemma HappenKeepsTrue(w: World, event: Event)
    requires Inv(w) && Truthful(w)
    ensures Truthful(Happen(w, event))
  {
    match event
    case ServerMoves(step) => ServerKeepsTrue(w, step);
    case Request(limit, observedAt) =>
      if !w.db.cp.done && Answer(w.srv, WireWindow(w.db.window), limit, w.db.cp.cursor, observedAt).PageReply? {
        AnswerIsCurrent(w.srv, WireWindow(w.db.window), limit, w.db.cp.cursor, observedAt);
        CurrentIsTrue(w.srv, Answer(w.srv, WireWindow(w.db.window), limit, w.db.cp.cursor, observedAt).page);
      }
    case StorePage(now) =>
      if w.inflight.Some? && ValidPage(w.db.cp, w.db.window, w.inflight.value) {
        PageKeepsTrue(w.srv, w.db, w.inflight.value, now);
      }
    case OtherTransaction(step) =>
      if !step.PageStep? {
        OtherKeepsTrue(w.srv, w.db, step);
      }
    case Crash =>
  }

  lemma ServerKeepsTrue(w: World, step: ServerStep)
    requires Inv(w) && Truthful(w)
    ensures Truthful(Happen(w, ServerMoves(step)))
  {
    var after := ApplyServer(w.srv, step);
    ApplyServerGrows(w.srv, step);
    forall k | k in w.db.facts
      ensures TrueOf(after, k.history, k.frameId, w.db.facts[k].capturedAt)
    {
      GrowsKeepsTrue(w.srv, after, k.history, k.frameId, w.db.facts[k].capturedAt);
    }
    if w.inflight.Some? {
      var page := w.inflight.value;
      forall i | 0 <= i < |page.items| && page.items[i].Wire?
        ensures TrueOf(after, page.history, page.items[i].item.frameId, page.items[i].item.capturedAt)
      {
        GrowsKeepsTrue(w.srv, after, page.history, page.items[i].item.frameId, page.items[i].item.capturedAt);
      }
    }
  }

  lemma {:induction false} RunKeepsTrue(from: World, events: seq<Event>, to: World)
    requires Inv(from) && Truthful(from) && Reaches(from, events, to)
    ensures Truthful(to)
    decreases |events|
  {
    if events != [] {
      HappenKeeps(from, events[0]);
      HappenKeepsTrue(from, events[0]);
      RunKeepsTrue(Happen(from, events[0]), events[1..], to);
    }
  }

  // The stored payloads stay valid records of the window, against any server.

  predicate FactsValid(db: Db) {
    forall k :: k in db.facts ==> ValidEvidence(db.facts[k].current, db.window, I64_MAX)
  }

  lemma UpsertKeepsValid(db: Db, history: History, item: Evidence, inReconciliation: bool, now: int)
    requires OpenRecInRange(db) && FactsValid(db)
    requires Clashes(db, FactKey(history, item.frameId), item) || ValidEvidence(item, db.window, I64_MAX)
    ensures var r := Upsert(db, history, item, inReconciliation, now).db; FactsValid(r) && r.window == db.window
  {
  }

  lemma {:induction false} BatchKeepsValid(db: Db, history: History, items: seq<Evidence>, inReconciliation: bool, now: int)
    requires OpenRecInRange(db) && FactsValid(db)
    requires forall i :: 0 <= i < |items| ==> ValidEvidence(items[i], db.window, I64_MAX)
    ensures var r := UpsertAll(db, history, items, inReconciliation, now).db; FactsValid(r) && r.window == db.window
  {
    if items != [] {
      var n := |items| - 1;
      BatchKeepsValid(db, history, items[..n], inReconciliation, now);
      UpsertKeepsValid(UpsertAll(db, history, items[..n], inReconciliation, now).db, history, items[n], inReconciliation, now);
    }
  }

  lemma PageKeepsValid(db: Db, page: FramePage, now: int)
    requires OpenRecInRange(db) && FactsValid(db) && ValidPage(db.cp, db.window, page)
    ensures FactsValid(Commit(db, page, now).db)
  {
    ValidItemsAreWires(page.items, db.window, page.snapshotMax, Continuing(db.cp, page));
    if !ChangesHistory(db.cp, page) {
      var items := ItemsOf(page.items);
      forall i | 0 <= i < |items|
        ensures ValidEvidence(items[i], db.window, I64_MAX)
      {
        assert ValidWireItem(page.items[i], db.window, page.snapshotMax);
      }
      BatchKeepsValid(db.(cp := db.cp.(history := Some(page.history))), page.history, items, db.cp.reconciliation.Some?, now);
    }
  }

  lemma ApplyKeepsValid(db: Db, step: DbStep)
    requires WellFormed(db) && FactsValid(db)
    ensures FactsValid(Apply(db, step))
  {
    match step
    case PageStep(page, now) =>
      if ValidPage(db.cp, db.window, page) {
        PageKeepsValid(db, page, now);
      }
    case DetailStep(id, detail, now) =>
      if ValidDetail(db, id, detail) {
        var key := FactKey(db.cp.history.value, id);
        assert SoundFact(db, key);
        UpsertKeepsValid(db, key.history, Refreshed(db.facts[key].current, detail), db.cp.reconciliation.Some?, now);
      }
    case _ =>
  }

  lemma {:induction false} RunKeepsValid(db: Db, steps: seq<DbStep>)
    requires WellFormed(db) && FactsValid(db)
    ensures FactsValid(Run(db, steps))
  {
    if steps != [] {
      var n := |steps| - 1;
      RunKeepsValid(db, steps[..n]);
      RunKeeps(db, steps[..n]);
      ApplyKeepsValid(Run(db, steps[..n]), steps[n]);
    }
  }

  // Details.

  /** The detail response for a frame. */
  function DetailOf(frame: Evidence): (d: FrameDetail) {
    FrameDetail(frame.frameId, frame.capturedAt, frame.rawText, frame.contentText, frame.textSource,
                Some(frame.visionDescription), Some(frame.appHint), Some(frame.windowTitle), Some(frame.browserUrl),
                Some(frame.imagePurged), Some(frame.monitorIndex))
  }

  /** The consumer accepts the details of any frame for a fact it has under that id. */
  lemma HonestDetailIsValid(db: Db, frame: Evidence)
    requires WellFormed(db) && FactsValid(db) && ValidFrame(frame)
    requires db.cp.history.Some? && FactKey(db.cp.history.value, frame.frameId) in db.facts
    ensures ValidDetail(db, frame.frameId, DetailOf(frame))
  {
    var key := FactKey(db.cp.history.value, frame.frameId);
    assert SoundFact(db, key);
    assert ValidEvidence(db.facts[key].current, db.window, I64_MAX);
  }
}
