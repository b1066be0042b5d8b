/** `State` and `consume` of examples/memory_consumer.py, with the server's answers as parameters. */
module MemoryConsumer {
  import opened Wrappers
  import opened Bytes
  import opened ConsumerDb
  import opened ConsumerHistory
  import opened Conversation

  datatype ProtocolError = ProtocolError

  class State {
    const window: Window
    var cp: Checkpoint
    var facts: map<FactKey, Fact>
    var versions: set<Version>
    var recs: seq<Reconciliation>
    var conflicts: set<Conflict>

    function Value(): (db: Db)
      reads this
    {
      Db(window, cp, facts, versions, recs, conflicts)
    }

    predicate Valid()
      reads this
    {
      OpenRecInRange(Value())
    }

    constructor (w: Window)
      ensures Valid() && Value() == Empty(w)
    {
      window := w;
      cp := EMPTY_CHECKPOINT;
      facts, versions, recs, conflicts := map[], {}, [], {};
    }

    method BeginInTransaction(reason: Reason, observedHistory: Option<History>,
                              observedHighWater: Option<int>, now: int)
      requires Valid()
      modifies this
      ensures Valid() && Value() == Begin(old(Value()), reason, observedHistory, observedHighWater, now)
    {
      if cp.reconciliation.Some? {
        var open := cp.reconciliation.value;
        recs := recs[open := recs[open].(status := Interrupted)];
      }
      recs := recs + [Reconciliation(reason, now, None, cp.history, observedHistory,
                                     cp.highWater, observedHighWater, Scanning)];
      cp := ResetTraversal(cp);
      cp := cp.(reconciliation := Some(|recs| - 1));
    }

    method BeginReconciliation(reason: Reason, now: int)
      requires Valid()
      modifies this
      ensures Valid() && Value() == Apply(old(Value()), BeginStep(reason, now))
    {
      BeginInTransaction(reason, None, None, now);
    }

    method ObserveHighWater(highWater: int, now: int) returns (r: Result<bool, ProtocolError>)
      requires Valid()
      modifies this
      ensures Valid() && Value() == Apply(old(Value()), ObserveStep(highWater, now))
      ensures r == if InRange(highWater, 0, I64_MAX) then Ok(Decreased(old(cp), highWater)) else Err(ProtocolError)
    {
      if !InRange(highWater, 0, I64_MAX) {
        return Err(ProtocolError);
      }
      var before := cp;
      var decreased := before.highWater.Some? && highWater < before.highWater.value;
      if decreased {
        BeginInTransaction(AllocatorDecreased, None, Some(highWater), now);
      }
      var known := if before.highestHighWater.None? then 0 else before.highestHighWater.value;
      var highest := if highWater > known then highWater else known;
      cp := cp.(highWater := Some(highWater), highestHighWater := Some(highest));
      return Ok(decreased);
    }

    method StartRescan()
      requires Valid()
      modifies this
      ensures Valid() && Value() == Apply(old(Value()), RescanStep)
    {
      cp := ResetTraversal(cp);
    }

    method UpsertItem(history: History, item: Evidence, inReconciliation: bool, now: int) returns (accepted: bool)
      requires Valid()
      modifies this
      ensures Valid()
      ensures Upserted(Value(), accepted) == Upsert(old(Value()), history, item, inReconciliation, now)
    {
      var key := FactKey(history, item.frameId);
      versions := versions + {Version(history, item)};
      if key in facts && facts[key].capturedAt != item.capturedAt {
        if cp.reconciliation.None? {
          BeginInTransaction(TimestampConflict, Some(history), None, now);
        }
        conflicts := conflicts + {Conflict(cp.reconciliation.value, key, facts[key].original, item)};
        return inReconciliation;
      }
      facts := facts[key := if key in facts then facts[key].(current := item) else Fact(item.capturedAt, item, item)];
      return true;
    }

    /** The checks every record of a page must pass, in page order. */
    method CheckItems(page: FramePage) returns (r: Result<seq<Evidence>, ProtocolError>)
      ensures r.Err? ==> r.error == ProtocolError
      ensures r.Ok? <==> ValidItems(page.items, window, page.snapshotMax, Continuing(cp, page))
      ensures r.Ok? ==> (forall i :: 0 <= i < |page.items| ==> page.items[i].Wire?) && r.value == ItemsOf(page.items)
    {
      var previous := Continuing(cp, page);
      var items: seq<Evidence> := [];
      for i := 0 to |page.items|
        invariant ValidItems(page.items, window, page.snapshotMax, Continuing(cp, page))
             <==> ValidItems(page.items[i..], window, page.snapshotMax, previous)
        invariant forall k :: 0 <= k < i ==> page.items[k].Wire?
        invariant items == ItemsOf(page.items[..i])
      {
        var wire := page.items[i];
        assert page.items[i..][0] == wire && page.items[i..][1..] == page.items[i + 1..];
        if !ValidWireItem(wire, window, page.snapshotMax) {
          return Err(ProtocolError);
        }
        if !After(previous, KeyOf(wire.item)) {
          return Err(ProtocolError);
        }
        previous := Some(KeyOf(wire.item));
        items := items + [wire.item];
      }
      assert page.items[..|page.items|] == page.items;
      return Ok(items);
    }

    method StoreItems(history: History, items: seq<Evidence>, inReconciliation: bool, now: int) returns (accepted: bool)
      requires Valid()
      modifies this
      ensures Valid()
      ensures Upserted(Value(), accepted) == UpsertAll(old(Value()), history, items, inReconciliation, now)
    {
      accepted := true;
      for i := 0 to |items|
        invariant Valid()
        invariant Upserted(Value(), accepted) == UpsertAll(old(Value()), history, items[..i], inReconciliation, now)
      {
        assert items[..i + 1][..i] == items[..i];
        var ok := UpsertItem(history, items[i], inReconciliation, now);
        if !ok {
          accepted := false;
        }
      }
      assert items[..|items|] == items;
    }

    method CommitPage(page: FramePage, now: int) returns (r: Result<bool, ProtocolError>)
      requires Valid()
      modifies this
      ensures Valid() && Value() == Apply(old(Value()), PageStep(page, now))
      ensures r == if ValidPage(old(cp), window, page)
                   then Ok(Commit(old(Value()), page, now).accepted) else Err(ProtocolError)
    {
      var before := cp;
      if !ValidEnvelope(before, window, page) {
        return Err(ProtocolError);
      }
      var items :- CheckItems(page);
      if page.nextCursor.Some? && (items == [] || page.nextCursor == before.cursor) {
        return Err(ProtocolError);
      }
      if ChangesHistory(before, page) {
        BeginInTransaction(HistoryChanged, Some(page.history), None, now);
        cp := cp.(history := Some(page.history));
        return Ok(false);
      }
      cp := cp.(history := Some(page.history));
      var accepted := StoreItems(page.history, items, before.reconciliation.Some?, now);
      if !accepted {
        return Ok(false);
      }
      AdvanceTo(page.nextCursor, page.snapshotMax, LastKey(before, items), now);
      return Ok(true);
    }

    /** Deliberately last in the page transaction: no durable cursor outruns its work. */
    method AdvanceTo(cursor: Option<Cursor>, maximum: int, last: Option<Key>, now: int)
      requires Valid()
      modifies this
      ensures Valid() && Value() == Advance(old(Value()), cursor, maximum, last, now)
    {
      cp := cp.(cursor := cursor, done := cursor.None?, snapshotMax := Some(maximum), last := last);
      if cursor.None? {
        if cp.reconciliation.Some? {
          var rec := cp.reconciliation.value;
          var found := exists c :: c in conflicts && c.reconciliation == rec;
          var status := if found then ScannedWithConflicts else Scanned;
          recs := recs[rec := recs[rec].(status := status, finishedMs := Some(now))];
        }
        cp := cp.(lastScanMs := Some(now), reconciliation := None);
      }
    }

    method CommitFrameDetail(frameId: int, detail: FrameDetail, now: int) returns (r: Result<bool, ProtocolError>)
      requires Valid()
      modifies this
      ensures Valid() && Value() == Apply(old(Value()), DetailStep(frameId, detail, now))
      ensures r == if ValidDetail(old(Value()), frameId, detail)
                   then Ok(CommitDetail(old(Value()), frameId, detail, now).accepted) else Err(ProtocolError)
    {
      if cp.history.None? || FactKey(cp.history.value, frameId) !in facts || detail.frameId != frameId {
        return Err(ProtocolError);
      }
      var prior := facts[FactKey(cp.history.value, frameId)].current;
      var item := Refreshed(prior, detail);
      if !IsI64(item.capturedAt) || !ValidEvidence(item.(capturedAt := prior.capturedAt), window, I64_MAX) {
        return Err(ProtocolError);
      }
      var accepted := UpsertItem(cp.history.value, item, cp.reconciliation.Some?, now);
      return Ok(accepted);
    }
  }

  /** Budget for the page loop, in lexicographic order with the time and id left below. */
  function TimeLeft(w: Window, cp: Checkpoint): (n: int) {
    if cp.last.None? then w.to - w.from + 1 else w.to - cp.last.value.capturedAt
  }

  function IdsLeft(cp: Checkpoint): (n: int) {
    if cp.last.None? || cp.snapshotMax.None? then 0 else cp.snapshotMax.value - cp.last.value.frameId
  }

  /** Less of the frozen window is left to read; a first page freezes it. */
  predicate LessLeft(w: Window, before: Checkpoint, after: Checkpoint) {
    && after.snapshotMax.Some?
    && (before.snapshotMax.Some? ==>
      || 0 <= TimeLeft(w, after) < TimeLeft(w, before)
      || (TimeLeft(w, after) == TimeLeft(w, before) && 0 <= IdsLeft(after) < IdsLeft(before)))
  }

  /** An accepted page that is not the last leaves less of the frozen window to read. */
  lemma PageProgress(db: Db, page: FramePage, now: int)
    requires OpenRecInRange(db)
    requires ValidPage(db.cp, db.window, page)
    requires Commit(db, page, now).accepted && page.nextCursor.Some?
    ensures LessLeft(db.window, db.cp, Commit(db, page, now).db.cp)
  {
    CommitMoves(db, page, now);
    ValidItemsProgress(page.items, db.window, page.snapshotMax, Continuing(db.cp, page));
  }

  /** Re-read coverage and record the allocator's high-water mark. */
  method ReadCoverage(state: State, answer: Answer<int>, now: int)
      returns (r: Result<bool, Outcome>, ghost log: seq<DbStep>)
    requires state.Valid()
    modifies state
    ensures state.Valid() && state.Value() == Run(old(state.Value()), log)
    ensures r.Ok? && !r.value ==> 
      |state.recs| == |old(state.recs)| && state.cp.done == old(state.cp.done)
      && state.cp.reconciliation == old(state.cp.reconciliation)
    ensures r.Ok? && r.value ==> |state.recs| == |old(state.recs)| + 1 && state.cp.reconciliation.Some?
    ensures r.Err? ==> |state.recs| == |old(state.recs)| && !r.error.Finished?
    ensures r == match answer
                 case Failed(status) => Err(RaisedApiError(status))
                 case Garbled => Err(RaisedProtocolError)
                 case Body(highWater) =>
                   if InRange(highWater, 0, I64_MAX) then Ok(Decreased(old(state.cp), highWater)) else Err(RaisedProtocolError)
    ensures log == if answer.Body? then [ObserveStep(answer.value, now)] else []
  {
    log := [];
    match answer {
      case Failed(status) => return Err(RaisedApiError(status)), log;
      case Garbled => return Err(RaisedProtocolError), log;
      case Body(highWater) =>
        ghost var start := state.Value();
        var observed := state.ObserveHighWater(highWater, now);
        log := [ObserveStep(highWater, now)];
        RunExtend(start, [], ObserveStep(highWater, now));
        assert [] + log == log;
        match observed {
          case Err(_) => return Err(RaisedProtocolError), log;
          case Ok(decreased) => return Ok(decreased), log;
        }
    }
  }

  /** What a failed page request does: a changed history or a proven rewind restarts the traversal. */
  method OnFailedPage(state: State, status: Option<int>, coverage: Answer<int>, now: int)
      returns (raised: Option<Outcome>, ghost log: seq<DbStep>)
    requires state.Valid()
    modifies state
    ensures state.Valid() && state.Value() == Run(old(state.Value()), log)
    ensures raised == if status == Some(409) then None
                      else if status != Some(400) then Some(RaisedApiError(status))
                      else match coverage
                           case Failed(other) => Some(RaisedApiError(other))
                           case Garbled => Some(RaisedProtocolError)
                           case Body(highWater) =>
                             if !InRange(highWater, 0, I64_MAX) then Some(RaisedProtocolError)
                             else if Decreased(old(state.cp), highWater) then None else Some(RaisedApiError(status))
    ensures log == if status == Some(409) then [BeginStep(ServerHistoryChanged, now)]
                   else if status == Some(400) && coverage.Body? then [ObserveStep(coverage.value, now)] else []
    ensures |state.recs| == |old(state.recs)| + (if raised.None? then 1 else 0)
  {
    if status == Some(409) {
      ghost var start := state.Value();
      state.BeginReconciliation(ServerHistoryChanged, now);
      log := [BeginStep(ServerHistoryChanged, now)];
      RunExtend(start, [], BeginStep(ServerHistoryChanged, now));
      assert [] + log == log;
      return None, log;
    }
    if status == Some(400) {
      var decreased;
      decreased, log := ReadCoverage(state, coverage, now);
      if decreased.Err? {
        return Some(decreased.error), log;
      }
      return if decreased.value then None else Some(RaisedApiError(status)), log;
    }
    return Some(RaisedApiError(status)), [];
  }

  /** What a page does: stored, with the frozen window shrinking, or refused, with one reconciliation opened. */
  method OnPage(state: State, page: FramePage, now: int)
      returns (r: Result<bool, ProtocolError>, ghost log: seq<DbStep>)
    requires state.Valid()
    modifies state
    ensures state.Valid() && state.Value() == Run(old(state.Value()), log)
    ensures log == [PageStep(page, now)]
    ensures r == if ValidPage(old(state.cp), state.window, page)
                 then Ok(Commit(old(state.Value()), page, now).accepted) else Err(ProtocolError)
    ensures r.Err? ==> |state.recs| == |old(state.recs)|
    ensures r.Ok? && !r.value ==> |state.recs| == |old(state.recs)| + 1
    ensures r.Ok? && r.value ==> |state.recs| == |old(state.recs)|
    ensures r.Ok? && r.value && !state.cp.done ==>
      LessLeft(state.window, old(state.cp), state.cp)
  {
    ghost var start := state.Value();
    r := state.CommitPage(page, now);
    log := [PageStep(page, now)];
    RunExtend(start, [], PageStep(page, now));
    assert [] + log == log;
    if r.Ok? {
      CommitMoves(start, page, now);
      if r.value && page.nextCursor.Some? {
        PageProgress(start, page, now);
      }
    }
  }

  /** The page loop of `consume`. It ends against every server: the `decreases` clause is the proof. It raises a protocol
      error only over an answer outside the protocol or a second logical change, and always over the latter. */
  method DrainPages(state: State, world: World, maxPages: Option<nat>)
      returns (raised: Option<Outcome>, pages: nat, committed: nat, ghost log: seq<DbStep>)
    requires state.Valid()
    modifies state
    ensures state.Valid() && state.Value() == Run(old(state.Value()), log)
    ensures exists used: nat :: Fed(old(state.Value()), log, world.pages, used)
    ensures Drained(old(state.Value()), log, world, maxPages, raised)
    ensures |state.recs| <= |old(state.recs)| + 3
    ensures raised.None? ==> state.cp.done || (maxPages.Some? && pages >= maxPages.value)
    ensures raised.Some? ==> !raised.value.Finished?
    ensures pages == Fetched(old(state.Value()), log) && committed == Committed(old(state.Value()), log)
    ensures committed <= pages
  {
    ghost var start := state.Value();
    log := [];
    raised, pages, committed := None, 0, 0;
    var t := Tally(0, 0, 0, false);
    while raised.None? && !state.cp.done && (maxPages.None? || pages < maxPages.value)
      invariant state.Valid() && state.Value() == Run(start, log) && Conversed(start, log, world)
      invariant Stopped(start, log, world, raised) && (raised.None? ==> Tallies(t, start, log))
      invariant pages == Fetched(start, log) && committed == Committed(start, log)
      invariant maxPages.Some? ==> pages <= maxPages.value
      invariant |state.recs| + (if t.recoveringHistory then 1 else 0) <= |start.recs| + 2 * t.restarts
      invariant t.restarts <= if raised.None? then 1 else 2
      invariant |state.recs| <= |start.recs| + 3
      decreases raised.None?, 2 - t.restarts, if t.recoveringHistory then 1 else 0,
                if state.cp.done then 0 else 1, if state.cp.snapshotMax.None? then 1 else 0,
                TimeLeft(state.window, state.cp), IdsLeft(state.cp)
    {
      var stored: Option<bool>;
      raised, stored, t, log := Round(state, world, t, start, log);
      if stored.Some? {
        pages := pages + 1;
        committed := committed + if stored.value then 1 else 0;
      }
    }
    ConversedIsFed(start, log, world);
  }

  /** The counters of the page loop. */
  datatype Tally = Tally(requests: nat, coverageReads: nat, restarts: nat, recoveringHistory: bool)

  ghost predicate Tallies(t: Tally, db: Db, log: seq<DbStep>)
    requires OpenRecInRange(db)
  {
    && t.requests == |log| && t.coverageReads == Rewinds(log)
    && t.restarts == Changes(db, log) && t.recoveringHistory == Announced(log)
  }

  /** One request of the page loop. `stored` says whether the page, if there was one, was stored. */
  method Round(state: State, world: World, t: Tally, ghost start: Db, ghost log: seq<DbStep>)
      returns (raised: Option<Outcome>, stored: Option<bool>, t2: Tally, ghost more: seq<DbStep>)
    requires state.Valid() && OpenRecInRange(start) && state.Value() == Run(start, log)
    requires Conversed(start, log, world) && AllSound(start, log) && !state.cp.done
    requires Tallies(t, start, log) && t.restarts <= 1
    modifies state
    ensures state.Valid() && state.Value() == Run(start, more) && Conversed(start, more, world)
    ensures Stopped(start, more, world, raised)
    ensures raised.None? ==> Tallies(t2, start, more) && t2.restarts <= 1
    ensures Fetched(start, more) == Fetched(start, log) + (if stored.Some? then 1 else 0)
    ensures Committed(start, more) == Committed(start, log) + (if stored == Some(true) then 1 else 0)
    ensures t.restarts <= t2.restarts <= 2
    ensures |state.recs| + (if t2.recoveringHistory then 1 else 0)
      <= |old(state.recs)| + (if t.recoveringHistory then 1 else 0) + 2 * (t2.restarts - t.restarts)
    ensures |state.recs| <= |old(state.recs)| + 1
    ensures raised.None? && t2.restarts == t.restarts && t2.recoveringHistory == t.recoveringHistory && !state.cp.done ==>
      LessLeft(state.window, old(state.cp), state.cp)
    ensures raised.None? && t2.restarts == t.restarts && t2.recoveringHistory ==> t.recoveringHistory
  {
    var beforeHistory := state.cp.history;
    var reply := world.pages(t.requests, state.cp.cursor);
    var now := world.clock(t.requests);
    stored, t2, more := None, t.(requests := t.requests + 1), log;
    match reply {
      case Garbled =>
        raised := Some(RaisedProtocolError);
      case Failed(status) =>
        raised, t2, more := FailedRound(state, world, t, start, log, status, now);
      case Body(page) =>
        var result;
        result, more := HearPage(state, start, log, page, now, world);
        if result.Err? {
          raised := Some(RaisedProtocolError);
          return;
        }
        stored, raised := Some(result.value), None;
        t2 := t2.(recoveringHistory := false);
        if !result.value && !(t.recoveringHistory && state.cp.history != beforeHistory) {
          t2 := t2.(restarts := t.restarts + 1);
          raised := if t2.restarts > 1 then Some(RaisedProtocolError) else None;
        }
    }
  }

  /** A 409 or a proven rewind costs a restart. */
  method FailedRound(state: State, world: World, t: Tally, ghost start: Db, ghost log: seq<DbStep>, status: Option<int>, now: int)
      returns (raised: Option<Outcome>, t2: Tally, ghost more: seq<DbStep>)
    requires state.Valid() && OpenRecInRange(start) && state.Value() == Run(start, log)
    requires Conversed(start, log, world) && AllSound(start, log) && !state.cp.done
    requires Tallies(t, start, log) && t.restarts <= 1
    requires world.pages(t.requests, state.cp.cursor) == Failed(status) && now == world.clock(t.requests)
    modifies state
    ensures state.Valid() && state.Value() == Run(start, more) && Conversed(start, more, world)
    ensures Stopped(start, more, world, raised)
    ensures raised.None? ==> Tallies(t2, start, more) && t2.restarts == t.restarts + 1 <= 1
    ensures Fetched(start, more) == Fetched(start, log) && Committed(start, more) == Committed(start, log)
    ensures t.restarts <= t2.restarts <= 2
    ensures |state.recs| + (if t2.recoveringHistory then 1 else 0)
      <= |old(state.recs)| + (if t.recoveringHistory then 1 else 0) + 2 * (t2.restarts - t.restarts)
    ensures |state.recs| <= |old(state.recs)| + 1
  {
    t2 := t;
    raised, more := HearFailure(state, start, log, status, world.coverages(t.coverageReads), now, world);
    if raised.Some? {
      return;
    }
    if status == Some(409) {
      t2 := Tally(t.requests + 1, t.coverageReads, t.restarts + 1, true);
    } else {
      t2 := Tally(t.requests + 1, t.coverageReads + 1, t.restarts + 1, t.recoveringHistory);
    }
    raised := if t2.restarts > 1 then Some(RaisedProtocolError) else None;
  }

  /** A failed page request, as the next step of the conversation. */
  method HearFailure(state: State, ghost start: Db, ghost log: seq<DbStep>, status: Option<int>, coverage: Answer<int>, now: int,
                     ghost world: World) returns (raised: Option<Outcome>, ghost more: seq<DbStep>)
    requires state.Valid() && OpenRecInRange(start) && state.Value() == Run(start, log)
    requires Conversed(start, log, world) && AllSound(start, log) && !state.cp.done
    requires world.pages(|log|, state.cp.cursor) == Failed(status) && now == world.clock(|log|)
    requires coverage == world.coverages(Rewinds(log))
    modifies state
    ensures state.Valid() && state.Value() == Run(start, more) && Conversed(start, more, world)
    ensures |state.recs| == |old(state.recs)| + (if raised.None? then 1 else 0)
    ensures raised.None? ==>
      && status in {Some(409), Some(400)} && |more| == |log| + 1 && AllSound(start, more)
      && Changes(start, more) == Changes(start, log) + 1
      && Announced(more) == (status == Some(409) || Announced(log))
      && Rewinds(more) == Rewinds(log) + (if status == Some(409) then 0 else 1)
    ensures raised.Some? ==>
      && Changes(start, more) == Changes(start, log)
      && match raised.value
         case Finished(_, _, _, _, _, _) => false
         case RaisedProtocolError => PageFault(start, more, world)
         case RaisedApiError(failure) => PageFailure(start, more, world, failure)
    ensures Fetched(start, more) == Fetched(start, log) && Committed(start, more) == Committed(start, log)
  {
    ghost var steps;
    raised, steps := OnFailedPage(state, status, coverage, now);
    RunConcat(start, log, steps);
    more := log + steps;
    if steps == [] {
      assert more == log;
    } else {
      ConversedMore(start, log, steps[0], world);
      ChangesMore(start, log, steps[0]);
      assert more[..|log|] == log;
    }
  }

  lemma CommitMovesIfValid(db: Db, page: FramePage, now: int)
    requires OpenRecInRange(db)
    ensures ValidPage(db.cp, db.window, page) ==>
      var r := Commit(db, page, now); !r.accepted ==> r.db.cp.history == Some(page.history)
  {
    if ValidPage(db.cp, db.window, page) {
      CommitMoves(db, page, now);
    }
  }

  /** A page, as the next step of the conversation. */
  method HearPage(state: State, ghost start: Db, ghost log: seq<DbStep>, page: FramePage, now: int, ghost world: World)
      returns (r: Result<bool, ProtocolError>, ghost more: seq<DbStep>)
    requires state.Valid() && OpenRecInRange(start) && state.Value() == Run(start, log)
    requires Conversed(start, log, world) && AllSound(start, log) && !state.cp.done
    requires world.pages(|log|, state.cp.cursor) == Body(page) && now == world.clock(|log|)
    modifies state
    ensures state.Valid() && state.Value() == Run(start, more) && Conversed(start, more, world)
    ensures |more| == |log| + 1 && !Announced(more) && Rewinds(more) == Rewinds(log)
    ensures r.Err? ==>
      && |state.recs| == |old(state.recs)| && PageFault(start, more, world)
      && Changes(start, more) == Changes(start, log)
      && Fetched(start, more) == Fetched(start, log) && Committed(start, more) == Committed(start, log)
    ensures r.Ok? ==>
      && AllSound(start, more)
      && |state.recs| == |old(state.recs)| + (if r.value then 0 else 1)
      && Fetched(start, more) == Fetched(start, log) + 1
      && Committed(start, more) == Committed(start, log) + (if r.value then 1 else 0)
      && (!r.value ==> state.cp.history == Some(page.history))
      && Changes(start, more) == Changes(start, log)
        + (if r.value || (Announced(log) && old(state.cp).history != Some(page.history)) then 0 else 1)
    ensures r.Ok? && r.value && !state.cp.done ==>
      LessLeft(state.window, old(state.cp), state.cp)
  {
    ghost var steps;
    CommitMovesIfValid(state.Value(), page, now);
    r, steps := OnPage(state, page, now);
    RunConcat(start, log, steps);
    more := log + steps;
    ConversedMore(start, log, steps[0], world);
    ChangesMore(start, log, steps[0]);
    assert more[..|log|] == log;
  }

  lemma HasMember(ids: set<int>)
    requires ids != {}
    ensures exists id :: id in ids
  {
    if forall id :: id !in ids {
      assert false;
    }
  }

  method PickOne(ids: set<int>) returns (id: int)
    requires ids != {}
    ensures id in ids
  {
    HasMember(ids);
    id :| id in ids;
  }

  /** What a detail response does: at most one reconciliation, and none while one is open. */
  method OnDetail(state: State, id: int, detail: FrameDetail, now: int)
      returns (r: Result<bool, ProtocolError>, ghost log: seq<DbStep>)
    requires state.Valid()
    modifies state
    ensures state.Valid() && state.Value() == Run(old(state.Value()), log)
    ensures NoPages(log) && log == [DetailStep(id, detail, now)]
    ensures r == if ValidDetail(old(state.Value()), id, detail)
                 then Ok(CommitDetail(old(state.Value()), id, detail, now).accepted) else Err(ProtocolError)
    ensures state.cp.reconciliation == old(state.cp.reconciliation) ==>
      |state.recs| == |old(state.recs)| && state.cp.done == old(state.cp.done)
    ensures state.cp.reconciliation != old(state.cp.reconciliation) ==>
      old(state.cp.reconciliation).None? && state.cp.reconciliation.Some? && |state.recs| == |old(state.recs)| + 1
  {
    ghost var start := state.Value();
    r := state.CommitFrameDetail(id, detail, now);
    log := [DetailStep(id, detail, now)];
    RunExtend(start, [], DetailStep(id, detail, now));
    assert [] + log == log;
  }

  /** Re-read every frame that lacks text, in any order; a 404 is counted, never stored as empty text. */
  method RereadDetails(state: State, world: World)
      returns (raised: Option<Outcome>, reread: nat, missing: nat, ghost log: seq<DbStep>)
    requires state.Valid()
    modifies state
    ensures state.Valid() && state.Value() == Run(old(state.Value()), log)
    ensures NoPages(log) && RereadAll(old(state.Value()), log, world, raised)
    ensures |state.recs| <= |old(state.recs)| + 1
    ensures state.cp.done == old(state.cp.done) || state.cp.reconciliation.Some?
    ensures raised.Some? ==> !raised.value.Finished?
    ensures reread == Reread(old(state.Value()), log)
    ensures raised.None? ==>
      missing == |Missing(Textless(old(state.Value())), world)| && reread + missing <= |Textless(old(state.Value()))|
  {
    ghost var start := state.Value();
    raised, reread, missing, log := AskAll(state, world);
    DetailsKeepScan(start, log);
  }

  method AskAll(state: State, world: World)
      returns (raised: Option<Outcome>, reread: nat, missing: nat, ghost log: seq<DbStep>)
    requires state.Valid()
    modifies state
    ensures state.Valid() && state.Value() == Run(old(state.Value()), log)
    ensures RereadAll(old(state.Value()), log, world, raised)
    ensures raised.Some? ==> !raised.value.Finished?
    ensures reread == Reread(old(state.Value()), log)
    ensures raised.None? ==>
      missing == |Missing(Textless(old(state.Value())), world)| && reread + missing <= |Textless(old(state.Value()))|
  {
    ghost var start := state.Value();
    log := [];
    raised, reread, missing := None, 0, 0;
    var todo := Textless(state.Value());
    ghost var ids := todo;
    assert ids - todo == {};
    var requests := 0;
    while todo != {} && raised.None?
      invariant state.Valid() && state.Value() == Run(start, log) && OnlyDetails(log)
      invariant todo <= ids && (raised.None? ==> Asked(log, ids - todo, world))
      invariant raised.Some? ==> RereadAll(start, log, world, raised)
      invariant reread == Reread(start, log) && (raised.None? ==> missing == |Missing(ids - todo, world)|)
      invariant requests + |todo| == |ids| && reread + missing <= requests
      decreases |todo|
    {
      var id := PickOne(todo);
      var answer: Answer<bool>;
      raised, answer, log := AskOne(state, world, start, log, ids, todo, id, world.clock(requests));
      if answer == Body(true) {
        reread := reread + 1;
      }
      if answer.Failed? && raised.None? {
        missing := missing + 1;
      }
      todo := todo - {id};
      requests := requests + 1;
    }
    assert todo == {} ==> ids - todo == ids;
  }

  /** One detail request; the answer says whether the detail was stored. */
  method AskOne(state: State, world: World, ghost start: Db, ghost log: seq<DbStep>, ghost ids: set<int>, ghost todo: set<int>,
                id: int, now: int)
      returns (raised: Option<Outcome>, answer: Answer<bool>, ghost more: seq<DbStep>)
    requires state.Valid() && OpenRecInRange(start) && state.Value() == Run(start, log) && OnlyDetails(log)
    requires ids == Textless(start) && todo <= ids && Asked(log, ids - todo, world) && id in todo
    modifies state
    ensures state.Valid() && state.Value() == Run(start, more) && OnlyDetails(more)
    ensures if raised.Some? then RereadAll(start, more, world, raised) && answer != Body(true)
      else
        && Asked(more, ids - (todo - {id}), world)
        && |Missing(ids - (todo - {id}), world)| == |Missing(ids - todo, world)| + (if answer.Failed? then 1 else 0)
    ensures Reread(start, more) == Reread(start, log) + (if answer == Body(true) then 1 else 0)
  {
    more := log;
    ghost var done := ids - todo;
    assert ids - (todo - {id}) == done + {id};
    match world.details(id) {
      case Failed(status) =>
        if status != Some(404) {
          return Some(RaisedApiError(status)), Failed(status), more;
        }
        AskedGone(log, done, id, world);
        return None, Failed(status), more;
      case Garbled =>
        return Some(RaisedProtocolError), Garbled, more;
      case Body(detail) =>
        var result;
        result, more := HearDetail(state, start, log, id, detail, now);
        if result.Err? {
          return Some(RaisedProtocolError), Garbled, more;
        }
        AskedMore(log, done, DetailStep(id, detail, now), world);
        return None, Body(result.value), more;
    }
  }

  /** A detail, as the next transaction. */
  method HearDetail(state: State, ghost start: Db, ghost log: seq<DbStep>, id: int, detail: FrameDetail, now: int)
      returns (r: Result<bool, ProtocolError>, ghost more: seq<DbStep>)
    requires state.Valid() && OpenRecInRange(start) && state.Value() == Run(start, log) && OnlyDetails(log)
    modifies state
    ensures state.Valid() && state.Value() == Run(start, more) && OnlyDetails(more)
    ensures more == log + [DetailStep(id, detail, now)] && more[..|log|] == log
    ensures r.Ok? <==> ValidDetail(Run(start, log), id, detail)
    ensures Reread(start, more) == Reread(start, log) + (if r == Ok(true) then 1 else 0)
  {
    ghost var steps;
    r, steps := OnDetail(state, id, detail, now);
    RunConcat(start, log, steps);
    more := log + steps;
    RereadMore(start, log, DetailStep(id, detail, now));
    assert more[..|log|] == log;
  }

  /** The coverage read that opens a call, and the periodic re-listing of an exhausted window. */
  method OpenCall(state: State, world: World, rescanSeconds: int)
      returns (r: Result<bool, Outcome>, ghost log: seq<DbStep>)
    requires state.Valid()
    modifies state
    ensures state.Valid() && state.Value() == Run(old(state.Value()), log)
    ensures NoPages(log) && log == Opening(old(state.Value()), world, rescanSeconds)
    ensures |state.recs| <= |old(state.recs)| + 1
    ensures r.Ok? <==> GoodCoverage(world.opening)
    ensures r.Err? ==> r.error == CoverageError(world.opening)
  {
    ghost var start := state.Value();
    var now := world.clock(0);
    r, log := ReadCoverage(state, world.opening, now);
    if r.Ok? && state.cp.done
       && (state.cp.lastScanMs.None? || now - state.cp.lastScanMs.value >= rescanSeconds * 1000) {
      state.StartRescan();
      RunExtend(start, log, RescanStep);
      log := log + [RescanStep];
    }
  }

  /** The page loop, the detail re-reads and the last coverage read, with the counts of the summary. */
  method Work(state: State, world: World, maxPages: Option<nat>, ghost opening: seq<DbStep>)
      returns (outcome: Outcome, ghost parts: Parts)
    requires state.Valid()
    modifies state
    ensures parts.opening == opening && state.Valid()
    ensures state.Value() == Run(Run(Run(old(state.Value()), parts.pages), parts.details), parts.closing)
    ensures Worked(old(state.Value()), parts, world, maxPages, outcome)
    ensures NoPages(parts.details) && NoPages(parts.closing)
    ensures Fed(old(state.Value()), parts.pages, world.pages, |parts.pages|)
    ensures |state.recs| <= |old(state.recs)| + 5
    ensures outcome.Finished? ==>
      && outcome.exhausted == state.cp.done && outcome.reconciliationPending == state.cp.reconciliation.Some?
      && outcome.pagesCommitted <= outcome.pagesFetched
      && (maxPages.None? ==> outcome.exhausted || outcome.reconciliationPending)
  {
    var raised, pages, committed;
    ghost var pageSteps;
    raised, pages, committed, pageSteps := DrainPages(state, world, maxPages);
    DrainedIsFed(old(state.Value()), pageSteps, world, maxPages, raised);
    if raised.Some? {
      return raised.value, Parts(opening, pageSteps, [], []);
    }
    outcome, parts := WorkAfterPages(state, world, pages, committed, old(state.Value()), Parts(opening, pageSteps, [], []));
  }

  method WorkAfterPages(state: State, world: World, pages: nat, committed: nat, ghost begun: Db, ghost soFar: Parts)
      returns (outcome: Outcome, ghost parts: Parts)
    requires state.Valid() && OpenRecInRange(begun) && state.Value() == Run(begun, soFar.pages)
    requires pages == Fetched(begun, soFar.pages) && committed == Committed(begun, soFar.pages)
    modifies state
    ensures parts.opening == soFar.opening && parts.pages == soFar.pages && state.Valid()
    ensures state.Value() == Run(Run(old(state.Value()), parts.details), parts.closing)
    ensures WorkedAfterPages(begun, parts, world, outcome)
    ensures NoPages(parts.details) && NoPages(parts.closing)
    ensures |state.recs| <= |old(state.recs)| + 2
    ensures outcome.Finished? ==>
      && outcome.exhausted == state.cp.done && outcome.reconciliationPending == state.cp.reconciliation.Some?
      && outcome.pagesCommitted <= outcome.pagesFetched
      && (state.cp.done == old(state.cp.done) || state.cp.reconciliation.Some?)
  {
    var raised, reread, missing;
    ghost var detailSteps, closing;
    raised, reread, missing, detailSteps := RereadDetails(state, world);
    if raised.Some? {
      return raised.value, soFar.(details := detailSteps, closing := []);
    }
    var end: Result<bool, Outcome>;
    end, closing := ReadCoverage(state, world.closing, world.clock(0));
    parts := soFar.(details := detailSteps, closing := closing);
    outcome := if end.Err? then end.error
      else Finished(pages, committed, reread, missing, state.cp.done, state.cp.reconciliation.Some?);
  }

  lemma DrainedIsFed(db: Db, log: seq<DbStep>, world: World, maxPages: Option<nat>, raised: Option<Outcome>)
    requires OpenRecInRange(db) && Drained(db, log, world, maxPages, raised)
    ensures Fed(db, log, world.pages, |log|)
  {
    ConversedIsFed(db, log, world);
  }

  /**
   * `consume`. Every effect on the state file is a run of the transactions in `log`, so whatever holds of all
   * runs holds after a call and after a crash inside it. One call opens at most six reconciliations, and an
   * unlimited call that returns a summary has exhausted the traversal or left a reconciliation pending. It raises only
   * for a cause that `Called` names, and its summary counts what the log shows.
   */
  method Consume(state: State, world: World, maxPages: Option<nat>, rescanSeconds: int)
      returns (outcome: Outcome, ghost log: seq<DbStep>, ghost parts: Parts)
    requires state.Valid()
    modifies state
    ensures state.Valid() && state.Value() == Run(old(state.Value()), log)
    ensures log == Log(parts) && Called(old(state.Value()), parts, world, maxPages, rescanSeconds, outcome)
    ensures exists used: nat :: Fed(old(state.Value()), log, world.pages, used)
    ensures |state.recs| <= |old(state.recs)| + 6
    ensures outcome.Finished? ==>
      && outcome.exhausted == state.cp.done
      && outcome.reconciliationPending == state.cp.reconciliation.Some?
      && outcome.pagesCommitted <= outcome.pagesFetched
      && (maxPages.None? ==> outcome.exhausted || outcome.reconciliationPending)
  {
    ghost var start := state.Value();
    var begin: Result<bool, Outcome>;
    ghost var opening: seq<DbStep>;
    begin, opening := OpenCall(state, world, rescanSeconds);
    if begin.Err? {
      outcome, parts := begin.error, Parts(opening, [], [], []);
    } else {
      outcome, parts := Work(state, world, maxPages, opening);
    }
    log := Log(parts);
    PartsConcluded(start, parts, world);
  }

  lemma PartsConcluded(db: Db, parts: Parts, world: World)
    requires OpenRecInRange(db) && NoPages(parts.opening) && NoPages(parts.details) && NoPages(parts.closing)
    requires Fed(Run(db, parts.opening), parts.pages, world.pages, |parts.pages|)
    ensures Run(db, Log(parts)) == Run(Run(Run(Run(db, parts.opening), parts.pages), parts.details), parts.closing)
    ensures exists used: nat :: Fed(db, Log(parts), world.pages, used)
  {
    PartsRun(db, parts);
    PartsFed(db, parts, world);
  }

  lemma PartsRun(db: Db, parts: Parts)
    requires OpenRecInRange(db)
    ensures Run(db, Log(parts)) == Run(Run(Run(Run(db, parts.opening), parts.pages), parts.details), parts.closing)
  {
    RunConcat(db, parts.opening, parts.pages);
    RunConcat(db, parts.opening + parts.pages, parts.details);
    RunConcat(db, parts.opening + parts.pages + parts.details, parts.closing);
  }

  lemma PartsFed(db: Db, parts: Parts, world: World)
    requires OpenRecInRange(db) && NoPages(parts.opening) && NoPages(parts.details) && NoPages(parts.closing)
    requires Fed(Run(db, parts.opening), parts.pages, world.pages, |parts.pages|)
    ensures Fed(db, Log(parts), world.pages, |parts.pages|)
  {
    FedAfterOthers(db, parts.opening, parts.pages, world.pages, |parts.pages|);
    FedByOthers(db, parts.opening + parts.pages, parts.details, world.pages, |parts.pages|);
    FedByOthers(db, parts.opening + parts.pages + parts.details, parts.closing, world.pages, |parts.pages|);
  }
}
