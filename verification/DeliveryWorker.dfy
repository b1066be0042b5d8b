/** The delivery loop (`deliver_telegram`, src-tauri/src/memory.rs): it reads the run's attempts once, and every
    store write it makes is an enabled step of the dispatch machine, whatever commands arrive meanwhile. */
module DeliveryWorker {
  import opened Wrappers
  import opened DeliveryLedger
  import opened Dispatch
  import opened DispatchSafety

  // Strict replay: every event is enabled.

  function Replay(start: World, events: seq<Event>): (w: Option<World>)
    requires WorldOk(start)
    ensures w.Some? ==> WorldOk(w.value)
  {
    if events == [] then Some(start)
    else
      var before := Replay(start, events[..|events| - 1]);
      if before.None? then None
      else
        StepKeepsWorld(before.value, events[|events| - 1]);
        Step(before.value, events[|events| - 1])
  }

  lemma {:induction false} ReplayIsPlay(start: World, events: seq<Event>)
    requires WorldOk(start) && Replay(start, events).Some?
    ensures Replay(start, events).value == Play(start, events)
  {
    if events != [] {
      ReplayIsPlay(start, events[..|events| - 1]);
    }
  }

  /** Whatever was done, the ledger evolved. */
  lemma {:induction false} ReplayEvolves(start: World, earlier: seq<Event>, later: seq<Event>)
    requires WorldOk(start) && earlier <= later && Replay(start, earlier).Some? && Replay(start, later).Some?
    ensures Evolves(Replay(start, earlier).value.rows, Replay(start, later).value.rows)
    decreases |later|
  {
    if |earlier| < |later| {
      var n := |later| - 1;
      assert earlier <= later[..n];
      ReplayEvolves(start, earlier, later[..n]);
      var before := Replay(start, later[..n]).value;
      StepKeepsWorld(before, later[n]);
      EvolvesTransitive(Replay(start, earlier).value.rows, before.rows, Replay(start, later).value.rows);
    } else {
      assert earlier == later;
    }
  }

  lemma ReplayOneMore(start: World, events: seq<Event>, e: Event)
    requires WorldOk(start) && Replay(start, events).Some?
    ensures Replay(start, events + [e]) == Step(Replay(start, events).value, e)
  {
    assert (events + [e])[..|events|] == events;
  }

  // What the worker does itself, and what it hands to Telegram.

  /** The steps that are not commands. */
  function Own(events: seq<Event>): (own: seq<Event>) {
    if events == [] then []
    else
      var n := |events| - 1;
      Own(events[..n]) + (if Concurrent(events[n]) then [] else [events[n]])
  }

  lemma OwnOneMore(events: seq<Event>, e: Event)
    ensures Own(events + [e]) == Own(events) + (if Concurrent(e) then [] else [e])
  {
    assert (events + [e])[..|events|] == events;
  }

  /** The store once the commands were tried in turn; the others, and refused ones, leave no trace. */
  function CommandsOn(w: World, events: seq<Event>): (r: World)
    requires WorldOk(w)
    ensures WorldOk(r)
  {
    if events == [] then w
    else
      var n := |events| - 1;
      var before := CommandsOn(w, events[..n]);
      StepKeepsWorld(before, events[n]);
      if Concurrent(events[n]) then After(before, events[n]) else before
  }

  /** Each dispatch in the log handed the frozen chat and text of its attempt to Telegram, in order, and nothing else
      was handed over. */
  predicate Handed(log: seq<Event>, sent: seq<Snapshot>, rows: seq<Row>)
    decreases |log|
  {
    if log == [] then sent == []
    else
      var n := |log| - 1;
      if !log[n].DispatchAttempt? then Handed(log[..n], sent, rows)
      else
        && sent != [] && log[n].i < |rows| && sent[|sent| - 1] == rows[log[n].i].snapshot
        && Handed(log[..n], sent[..|sent| - 1], rows)
  }

  lemma {:induction false} HandedStays(log: seq<Event>, sent: seq<Snapshot>, before: seq<Row>, after: seq<Row>)
    requires Handed(log, sent, before) && Evolves(before, after)
    ensures Handed(log, sent, after)
    decreases |log|
  {
    if log != [] {
      var n := |log| - 1;
      if log[n].DispatchAttempt? {
        assert SameIdentity(before[log[n].i], after[log[n].i]);
        HandedStays(log[..n], sent[..|sent| - 1], before, after);
      } else {
        HandedStays(log[..n], sent, before, after);
      }
    }
  }

  lemma HandedOneMore(log: seq<Event>, sent: seq<Snapshot>, before: seq<Row>, after: seq<Row>, e: Event)
    requires Handed(log, sent, before) && Evolves(before, after)
    ensures if e.DispatchAttempt? then e.i < |after| ==> Handed(log + [e], sent + [after[e.i].snapshot], after)
            else Handed(log + [e], sent, after)
  {
    HandedStays(log, sent, before, after);
    assert (log + [e])[..|log|] == log;
    if e.DispatchAttempt? && e.i < |after| {
      assert (sent + [after[e.i].snapshot])[..|sent|] == sent;
    }
  }

  lemma StepTaken(start: World, log: seq<Event>, w: World, next: World, e: Event)
    requires WorldOk(start) && Replay(start, log) == Some(w) && Step(w, e) == Some(next)
    ensures Replay(start, log + [e]) == Some(next)
    ensures WorldOk(next) && Evolves(w.rows, next.rows)
    ensures Own(log + [e]) == Own(log) + (if Concurrent(e) then [] else [e])
  {
    StepKeepsWorld(w, e);
    ReplayOneMore(start, log, e);
    OwnOneMore(log, e);
  }

  // The attempts of a run, in dispatch order.

  function Insert(rows: seq<Row>, sorted: seq<nat>, i: nat): (r: seq<nat>)
    requires i < |rows| && forall k :: 0 <= k < |sorted| ==> sorted[k] < |rows|
    ensures |r| == |sorted| + 1
    ensures forall k :: 0 <= k < |r| ==> r[k] < |rows|
    ensures forall x: nat {:trigger x in r} :: x in r <==> x == i || x in sorted
  {
    if sorted == [] then [i]
    else
      var n := |sorted| - 1;
      assert sorted == sorted[..n] + [sorted[n]];
      if Earlier(rows[i], rows[sorted[n]]) then Insert(rows, sorted[..n], i) + [sorted[n]] else sorted + [i]
  }

  predicate Sorted(rows: seq<Row>, order: seq<nat>)
    requires forall k :: 0 <= k < |order| ==> order[k] < |rows|
  {
    forall a, b :: 0 <= a < b < |order| ==> !Earlier(rows[order[b]], rows[order[a]])
  }

  lemma {:induction false} InsertSorts(rows: seq<Row>, sorted: seq<nat>, i: nat)
    requires i < |rows| && (forall k :: 0 <= k < |sorted| ==> sorted[k] < |rows|) && Sorted(rows, sorted)
    ensures Sorted(rows, Insert(rows, sorted, i))
  {
    if sorted != [] {
      var n := |sorted| - 1;
      var r := Insert(rows, sorted, i);
      if Earlier(rows[i], rows[sorted[n]]) {
        InsertSorts(rows, sorted[..n], i);
        forall a, b | 0 <= a < b < |r|
          ensures !Earlier(rows[r[b]], rows[r[a]])
        {
          assert r[a] in Insert(rows, sorted[..n], i);
          if r[a] != i {
            assert r[a] in sorted[..n];
          }
        }
      } else {
        forall a, b | 0 <= a < b < |r|
          ensures !Earlier(rows[r[b]], rows[r[a]])
        {
          if b == |sorted| && a < n {
            assert !Earlier(rows[sorted[n]], rows[sorted[a]]);
          }
        }
      }
    }
  }

  /** The Telegram attempts of `r` among the first `n` rows, sorted stably by chunk and creation time. */
  function Queue(rows: seq<Row>, r: nat, n: nat): (order: seq<nat>)
    requires n <= |rows|
    ensures forall k :: 0 <= k < |order| ==> order[k] < |rows|
    ensures forall i: nat {:trigger i in order} :: i in order <==> i < n && OfRun(rows[i], r)
  {
    if n == 0 then []
    else if OfRun(rows[n - 1], r) then Insert(rows, Queue(rows, r, n - 1), n - 1)
    else Queue(rows, r, n - 1)
  }

  predicate Distinct(order: seq<nat>) {
    forall a, b :: 0 <= a < b < |order| ==> order[a] != order[b]
  }

  lemma {:induction false} InsertDistinct(rows: seq<Row>, sorted: seq<nat>, i: nat)
    requires i < |rows| && (forall k :: 0 <= k < |sorted| ==> sorted[k] < |rows|) && i !in sorted
    requires Distinct(sorted)
    ensures Distinct(Insert(rows, sorted, i))
  {
    if sorted != [] {
      var n := |sorted| - 1;
      if Earlier(rows[i], rows[sorted[n]]) {
        InsertDistinct(rows, sorted[..n], i);
        var shorter := Insert(rows, sorted[..n], i);
        assert sorted[n] in sorted && sorted[n] != i;
        assert sorted[n] !in sorted[..n];
        assert sorted[n] !in shorter;
        DistinctAppend(shorter, sorted[n]);
      } else {
        DistinctAppend(sorted, i);
      }
    }
  }

  lemma DistinctAppend(order: seq<nat>, i: nat)
    requires Distinct(order) && i !in order
    ensures Distinct(order + [i])
  {
  }

  lemma {:induction false} QueueSorted(rows: seq<Row>, r: nat, n: nat)
    requires n <= |rows|
    ensures Sorted(rows, Queue(rows, r, n))
  {
    if n > 0 {
      QueueSorted(rows, r, n - 1);
      if OfRun(rows[n - 1], r) {
        InsertSorts(rows, Queue(rows, r, n - 1), n - 1);
      }
    }
  }

  lemma {:induction false} QueueDistinct(rows: seq<Row>, r: nat, n: nat)
    requires n <= |rows|
    ensures Distinct(Queue(rows, r, n))
  {
    if n > 0 {
      QueueDistinct(rows, r, n - 1);
      if OfRun(rows[n - 1], r) {
        InsertDistinct(rows, Queue(rows, r, n - 1), n - 1);
      }
    }
  }

  // The loop.

  /** What the outside world does while one attempt is handled. `before`, `whileLocking` and `whileSending` are the
      commands that arrive at each wait; `recorded` is false when the outcome cannot be stored. */
  datatype Turn = Turn(
    now: int, before: seq<Event>, whileLocking: seq<Event>, whileSending: seq<Event>,
    stopping: bool, stoppingLater: bool, credential: bool, outcome: SendOutcome, recorded: bool)

  datatype Progress = Next | Pause | Error

  /** The store agrees with what the loop read: `item` at the current position, settled rows before it, unread
      changes nowhere. */
  predicate Tracks(w: World, r: nat, receipts: seq<Row>, order: seq<nat>, k: nat, item: Row) {
    && WorldOk(w) && w.recovered && w.working == Some(r) && r < |w.runs|
    && NoneUnknown(w.rows, r)
    && order == Queue(receipts, r, |receipts|) && k <= |order|
    && |receipts| <= |w.rows|
    && (forall i :: |receipts| <= i < |w.rows| ==> !OfRun(w.rows[i], r))
    && (forall i :: 0 <= i < |receipts| ==> SameIdentity(w.rows[i], receipts[i]))
    && (forall p :: 0 <= p < k ==> Terminal(w.rows[order[p]].state))
    && (forall p :: k < p < |order| ==> w.rows[order[p]] == receipts[order[p]])
    && (k < |order| ==> w.rows[order[k]] == item)
  }

  predicate Ready(w: World, r: nat, receipts: seq<Row>, order: seq<nat>, k: nat) {
    && w.inflight.None?
    && order == Queue(receipts, r, |receipts|)
    && Tracks(w, r, receipts, order, k, if k < |order| then receipts[order[k]] else NewRow(r, Pending, Unreadable, None, None, None, 0))
  }

  lemma TrackedEarlierSettled(w: World, r: nat, receipts: seq<Row>, order: seq<nat>, k: nat, item: Row)
    requires Tracks(w, r, receipts, order, k, item) && k < |order|
    ensures EarlierSettled(w.rows, order[k]) && OfRun(item, r)
  {
    QueueSorted(receipts, r, |receipts|);
    var i := order[k];
    assert i in order;
    assert forall p :: k < p < |order| ==> !Earlier(receipts[order[p]], receipts[order[k]]);
    forall j | 0 <= j < |w.rows| && OfRun(w.rows[j], r) && Earlier(w.rows[j], w.rows[i])
      ensures Terminal(w.rows[j].state)
    {
      assert SameIdentity(w.rows[j], receipts[j]) && SameIdentity(w.rows[i], receipts[i]);
      assert j in order;
      var p :| 0 <= p < |order| && order[p] == j;
    }
  }

  /** Commands that arrive meanwhile never touch the run being delivered. */
  lemma ConcurrentStays(w: World, e: Event, r: nat, receipts: seq<Row>, order: seq<nat>, k: nat, item: Row)
    requires Tracks(w, r, receipts, order, k, item) && Concurrent(e) && Step(w, e).Some?
    ensures Tracks(Step(w, e).value, r, receipts, order, k, item)
    ensures Step(w, e).value.inflight == w.inflight
  {
    StepKeepsWorld(w, e);
    CommandRows(w, e);
    CommandKeepsWork(w, e);
    RunUntouched(w, Step(w, e).value, r, receipts, order, k, item);
  }

  lemma CommandKeepsWork(w: World, e: Event)
    requires WorldOk(w) && Concurrent(e) && Step(w, e).Some?
    ensures var w2 := Step(w, e).value;
      w2.recovered == w.recovered && w2.working == w.working && w2.inflight == w.inflight && |w2.runs| >= |w.runs|
  {
  }

  /** Changes to unknown outcomes, and rows of runs that had one, leave a run without one alone. */
  lemma RunUntouched(w: World, w2: World, r: nat, receipts: seq<Row>, order: seq<nat>, k: nat, item: Row)
    requires Tracks(w, r, receipts, order, k, item)
    requires WorldOk(w2) && w2.recovered == w.recovered && w2.working == w.working && |w2.runs| >= |w.runs|
    requires Evolves(w.rows, w2.rows)
    requires forall i :: 0 <= i < |w.rows| ==>
      w2.rows[i] == w.rows[i] || (w.rows[i].destination.Telegram? && w.rows[i].state.UnknownDelivery?)
    requires forall i :: |w.rows| <= i < |w2.rows| ==> HadUnknown(w.rows, w2.rows[i].run)
    ensures Tracks(w2, r, receipts, order, k, item)
  {
    forall i | |w.rows| <= i < |w2.rows|
      ensures !OfRun(w2.rows[i], r)
    {
      assert HadUnknown(w.rows, w2.rows[i].run);
    }
    forall i | 0 <= i < |receipts|
      ensures SameIdentity(w2.rows[i], receipts[i])
    {
      assert SameIdentity(w.rows[i], w2.rows[i]);
    }
    forall p | 0 <= p < |order|
      ensures w2.rows[order[p]] == w.rows[order[p]]
    {
      assert order[p] in order;
    }
  }

  /** The loop's own write to the attempt it is handling. */
  lemma OwnWriteTracks(w: World, w2: World, r: nat, receipts: seq<Row>, order: seq<nat>, k: nat, item: Row, row: Row)
    requires Tracks(w, r, receipts, order, k, item) && k < |order|
    requires WorldOk(w2) && w2.recovered && w2.working == w.working && w2.runs == w.runs
    requires order[k] < |w.rows| && w2.rows == w.rows[order[k] := row]
    requires SameIdentity(item, row) && !row.state.UnknownDelivery?
    ensures Tracks(w2, r, receipts, order, k, row)
  {
    QueueDistinct(receipts, r, |receipts|);
    assert order[k] in order;
    forall p | 0 <= p < |order| && p != k
      ensures w2.rows[order[p]] == w.rows[order[p]]
    {
      assert order[p] != order[k];
    }
  }

  lemma DispatchIsWrite(w: World, i: nat, item: Row, now: int)
    requires WorldOk(w) && MayDispatch(w, i, now) && w.rows[i] == item && Update(w.rows, i, SendingRow(item, now), item.state).Stored?
    ensures Step(w, DispatchAttempt(i, now))
      == Some(w.(rows := Update(w.rows, i, SendingRow(item, now), item.state).rows, inflight := Some(i)))
    ensures SameIdentity(item, SendingRow(item, now)) && !SendingRow(item, now).state.UnknownDelivery?
  {
  }

  lemma OutcomeIsWrite(w: World, i: nat, sending: Row, outcome: SendOutcome, now: int)
    requires WorldOk(w) && w.inflight == Some(i) && i < |w.rows| && w.rows[i] == sending && sending.state.Sending?
    ensures Update(w.rows, i, SettledRow(sending, outcome, now), Sending).Stored?
    ensures Step(w, Outcome(outcome, now))
      == Some(w.(rows := Update(w.rows, i, SettledRow(sending, outcome, now), Sending).rows, inflight := None))
    ensures SameIdentity(sending, SettledRow(sending, outcome, now))
  {
  }

  /** The attempt at the current position belongs to the run. */
  lemma AtOwnRow(w: World, r: nat, receipts: seq<Row>, order: seq<nat>, k: nat, item: Row)
    requires Tracks(w, r, receipts, order, k, item) && k < |order|
    ensures order[k] < |receipts| <= |w.rows| && w.rows[order[k]] == item && item.run == r && item.destination.Telegram?
  {
    assert order[k] in order;
    assert SameIdentity(w.rows[order[k]], receipts[order[k]]);
  }

  /** A settled attempt lets the loop move on. */
  lemma SettledMovesOn(w: World, r: nat, receipts: seq<Row>, order: seq<nat>, k: nat, item: Row)
    requires Tracks(w, r, receipts, order, k, item) && k < |order| && w.inflight.None? && Terminal(item.state)
    ensures Ready(w, r, receipts, order, k + 1)
  {
  }

  lemma AllHandled(w: World, r: nat, receipts: seq<Row>, order: seq<nat>)
    requires Ready(w, r, receipts, order, |order|)
    ensures AllSettled(w.rows, r)
  {
    forall i: nat | i < |w.rows| && OfRun(w.rows[i], r)
      ensures Terminal(w.rows[i].state)
    {
      assert SameIdentity(w.rows[i], receipts[i]);
      assert i in order;
    }
  }

  /** A digest is due: the report is eligible, has none yet, is not blocked, and has a recipient. */
  predicate DigestDue(w: World, r: nat, outcomeOk: bool)
    requires WorldOk(w) && r < |w.runs|
  {
    && w.runs[r].telegramEnabled && outcomeOk && !HasChunks(w.rows, r) && !Blocked(w, r) && w.runs[r].chat.Some?
  }

  /** An attempt of the digest: the `k`-th of the texts, for this chat. */
  predicate ChunkOf(row: Row, r: nat, chat: string, texts: seq<string>, k: nat)
    requires k < |texts|
  {
    && row.run == r && row.destination.Telegram? && row.revisionOf.None?
    && row.snapshot.Digest? && row.snapshot.chat == chat && row.snapshot.text == texts[k]
    && row.chunk == Some(k) && row.chunkCount == Some(|texts|)
  }

  predicate NewChunkOf(row: Row, r: nat, chat: string, texts: seq<string>, k: nat)
    requires k < |texts|
  {
    && ChunkOf(row, r, chat, texts, k)
    && row.state.Pending? && row.attempt == 0 && row.nextAttemptAt.None? && row.messageId.None? && row.error.None?
  }

  /** Exactly one pending attempt for each text, in order, and nothing else. */
  predicate DigestAdded(before: seq<Row>, after: seq<Row>, r: nat, chat: string, texts: seq<string>) {
    && |after| == |before| + |texts| && before <= after
    && forall i :: |before| <= i < |after| ==> NewChunkOf(after[i], r, chat, texts, i - |before|)
  }

  /** The attempts of the digest, from row `from` on. */
  predicate DigestAt(rows: seq<Row>, from: nat, r: nat, chat: string, texts: seq<string>) {
    |rows| >= from + |texts| && forall i :: from <= i < from + |texts| ==> ChunkOf(rows[i], r, chat, texts, i - from)
  }

  /** Exactly one settled row that carries no text and says why. */
  predicate SkipAdded(before: seq<Row>, after: seq<Row>, r: nat) {
    && |after| == |before| + 1 && before <= after
    && var row := after[|before|];
       row.run == r && row.destination.Telegram? && row.state.Skipped? && row.chunk.None? && row.snapshot.Unreadable?
       && row.error.Some? && row.revisionOf.None?
  }

  /** What there is to send is in the ledger: a digest that was due, or what was there before; the run is not sent
      because of a recorded reason, or cannot be for want of a recipient. */
  predicate Prepared(w: World, after: World, r: nat, outcomeOk: bool, texts: seq<string>, p: Progress)
    requires WorldOk(w) && r < |w.runs|
  {
    var eligible := w.runs[r].telegramEnabled && outcomeOk;
    && WorldOk(after) && after.(rows := w.rows, extra := w.extra) == w
    && (!Blocked(w, r) ==> !Blocked(after, r))
    && (if DigestDue(w, r, outcomeOk) then p.Next? && DigestAdded(w.rows, after.rows, r, w.runs[r].chat.value, texts)
        else if HasChunks(w.rows, r) || (!eligible && HasAttempts(w.rows, r)) then p.Next? && after == w
        else if eligible && !Blocked(w, r) then p.Error? && after == w
        else p.Pause? && SkipAdded(w.rows, after.rows, r))
  }

  lemma DigestStep(w: World, r: nat, outcomeOk: bool, texts: seq<string>, now: int)
    requires WorldOk(w) && w.working == Some(r) && r < |w.runs| && w.inflight.None? && DigestDue(w, r, outcomeOk)
    ensures var next := Step(w, CreateDigest(outcomeOk, texts, now));
      && next.Some? && next.value.(rows := w.rows, extra := w.extra) == w
      && DigestAdded(w.rows, next.value.rows, r, w.runs[r].chat.value, texts)
  {
    var chat := w.runs[r].chat.value;
    var after := w.rows + Intents(r, chat, texts, now);
    forall i | |w.rows| <= i < |after|
      ensures NewChunkOf(after[i], r, chat, texts, i - |w.rows|)
    {
      assert after[i] == Intents(r, chat, texts, now)[i - |w.rows|];
    }
  }

  lemma DigestStays(before: seq<Row>, after: seq<Row>, from: nat, r: nat, chat: string, texts: seq<string>)
    requires DigestAt(before, from, r, chat, texts) && Evolves(before, after)
    ensures DigestAt(after, from, r, chat, texts)
  {
    forall i | from <= i < from + |texts|
      ensures ChunkOf(after[i], r, chat, texts, i - from)
    {
      assert ChunkOf(before[i], r, chat, texts, i - from) && SameIdentity(before[i], after[i]);
    }
  }

  lemma SkipStep(w: World, r: nat, outcomeOk: bool, now: int)
    requires WorldOk(w) && w.working == Some(r) && r < |w.runs| && w.inflight.None? && !HasChunks(w.rows, r)
    requires var eligible := w.runs[r].telegramEnabled && outcomeOk;
      (eligible || !HasAttempts(w.rows, r)) && !(eligible && !Blocked(w, r))
    ensures var next := Step(w, CreateSkip(outcomeOk, now));
      && next.Some? && next.value.(rows := w.rows, extra := w.extra) == w && SkipAdded(w.rows, next.value.rows, r)
  {
  }

  // The whole digest.

  /** The messages of the open attempts, in order. */
  function Outstanding(rows: seq<Row>, order: seq<nat>): (messages: seq<Snapshot>)
    requires forall k :: 0 <= k < |order| ==> order[k] < |rows|
  {
    if order == [] then []
    else
      var n := |order| - 1;
      Outstanding(rows, order[..n]) + (if Terminal(rows[order[n]].state) then [] else [rows[order[n]].snapshot])
  }

  lemma {:induction false} NothingOutstanding(rows: seq<Row>, order: seq<nat>)
    requires forall k :: 0 <= k < |order| ==> order[k] < |rows| && Terminal(rows[order[k]].state)
    ensures Outstanding(rows, order) == []
  {
    if order != [] {
      NothingOutstanding(rows, order[..|order| - 1]);
    }
  }

  function Messages(chat: string, texts: seq<string>): (messages: seq<Snapshot>)
    ensures |messages| == |texts|
  {
    seq(|texts|, k requires 0 <= k < |texts| => Digest(chat, texts[k]))
  }

  /** Nothing is open before the new digest. */
  lemma NothingOpenBefore(before: seq<Row>, after: seq<Row>, r: nat, chat: string, texts: seq<string>)
    requires DigestAdded(before, after, r, chat, texts) && AllSettled(before, r)
    ensures Outstanding(after, Queue(after, r, |before|)) == []
  {
    var order := Queue(after, r, |before|);
    forall k | 0 <= k < |order|
      ensures Terminal(after[order[k]].state)
    {
      assert order[k] in order;
    }
    NothingOutstanding(after, order);
  }

  lemma OutstandingMore(rows: seq<Row>, order: seq<nat>, i: nat)
    requires (forall k :: 0 <= k < |order| ==> order[k] < |rows|) && i < |rows| && !Terminal(rows[i].state)
    ensures Outstanding(rows, order + [i]) == Outstanding(rows, order) + [rows[i].snapshot]
  {
    assert (order + [i])[..|order|] == order;
  }

  lemma MessagesMore(chat: string, texts: seq<string>, m: nat)
    requires 0 < m <= |texts|
    ensures Messages(chat, texts[..m]) == Messages(chat, texts[..m - 1]) + [Digest(chat, texts[m - 1])]
  {
  }

  lemma DigestQueuedMore(before: seq<Row>, after: seq<Row>, r: nat, chat: string, texts: seq<string>, m: nat)
    requires DigestAdded(before, after, r, chat, texts) && !HasChunks(before, r) && 0 < m <= |texts|
    requires Outstanding(after, Queue(after, r, |before| + m - 1)) == Messages(chat, texts[..m - 1])
    ensures Outstanding(after, Queue(after, r, |before| + m)) == Messages(chat, texts[..m])
  {
    var i := |before| + m - 1;
    LastChunkQueued(before, after, r, chat, texts, m);
    assert NewChunkOf(after[i], r, chat, texts, m - 1);
    OutstandingMore(after, Queue(after, r, i), i);
    MessagesMore(chat, texts, m);
  }

  /** A new digest is queued after everything the run had, chunk by chunk. */
  lemma {:induction false} DigestQueued(before: seq<Row>, after: seq<Row>, r: nat, chat: string, texts: seq<string>, m: nat)
    requires DigestAdded(before, after, r, chat, texts) && !HasChunks(before, r) && m <= |texts|
    requires AllSettled(before, r)
    ensures Outstanding(after, Queue(after, r, |before| + m)) == Messages(chat, texts[..m])
  {
    if m == 0 {
      NothingOpenBefore(before, after, r, chat, texts);
    } else {
      DigestQueued(before, after, r, chat, texts, m - 1);
      DigestQueuedMore(before, after, r, chat, texts, m);
    }
  }

  lemma LastChunkQueued(before: seq<Row>, after: seq<Row>, r: nat, chat: string, texts: seq<string>, m: nat)
    requires DigestAdded(before, after, r, chat, texts) && !HasChunks(before, r) && 0 < m <= |texts|
    ensures Queue(after, r, |before| + m) == Queue(after, r, |before| + m - 1) + [|before| + m - 1]
  {
    var i := |before| + m - 1;
    var queue := Queue(after, r, i);
    assert NewChunkOf(after[i], r, chat, texts, i - |before|);
    if queue != [] {
      var last := queue[|queue| - 1];
      assert last in queue;
      if last < |before| {
        assert after[last] == before[last];
      } else {
        assert NewChunkOf(after[last], r, chat, texts, last - |before|);
      }
      assert !Earlier(after[i], after[last]);
    }
  }

  /** The message goes through at once. */
  predicate GoesWell(t: Turn) {
    Undisturbed(t) && t.credential && t.recorded && t.outcome.Confirmed?
  }

  ghost predicate AllGoesWell(turns: nat -> Turn) {
    forall k: nat :: GoesWell(turns(k))
  }

  predicate AllSettled(rows: seq<Row>, r: nat) {
    forall i :: 0 <= i < |rows| && OfRun(rows[i], r) ==> Terminal(rows[i].state)
  }

  /** Since `start` nothing but the messages of the attempts in `order` went out, and those attempts are confirmed. */
  predicate Gone(start: World, w: World, r: nat, receipts: seq<Row>, order: seq<nat>, sent0: seq<Snapshot>, sent: seq<Snapshot>)
    requires forall k :: 0 <= k < |order| ==> order[k] < |receipts|
  {
    && WorldOk(w) && r < |w.runs| && !Blocked(w, r)
    && w.enabled == start.enabled && w.chat == start.chat
    && sent == sent0 + Outstanding(receipts, order)
    && |receipts| <= |w.rows|
    && forall q :: 0 <= q < |order| ==> w.rows[order[q]].state.Succeeded? || Terminal(receipts[order[q]].state)
  }

  /** Every open attempt of the run is due and addressed to the selected chat. */
  ghost predicate Deliverable(w: World, r: nat, turns: nat -> Turn)
    requires WorldOk(w) && r < |w.runs|
  {
    && w.enabled && NoneUnknown(w.rows, r) && !Blocked(w, r)
    && forall i :: 0 <= i < |w.rows| && OfRun(w.rows[i], r) && !Terminal(w.rows[i].state) ==>
      Selected(w, w.rows[i]) && AlwaysDue(w.rows[i], turns)
  }

  ghost predicate AlwaysDue(row: Row, turns: nat -> Turn) {
    forall k: nat :: Due(row, turns(k).now)
  }

  /** One attempt more. */
  lemma GoneOneMore(start: World, before: World, after: World, r: nat, receipts: seq<Row>, order: seq<nat>, k: nat,
                    sent0: seq<Snapshot>, sent: seq<Snapshot>, sentMore: seq<Snapshot>)
    requires k < |order| && forall q :: 0 <= q < |order| ==> order[q] < |receipts|
    requires Gone(start, before, r, receipts, order[..k], sent0, sent)
    requires WorldOk(after) && r < |after.runs| && !Blocked(after, r) && Evolves(before.rows, after.rows)
    requires after.enabled == before.enabled && after.chat == before.chat
    requires if Terminal(receipts[order[k]].state) then sentMore == sent
             else
               && sentMore == sent + [receipts[order[k]].snapshot]
               && order[k] < |after.rows| && after.rows[order[k]].state.Succeeded?
    ensures Gone(start, after, r, receipts, order[..k + 1], sent0, sentMore)
  {
    assert order[..k + 1][..k] == order[..k];
    forall q | 0 <= q < k + 1
      ensures after.rows[order[q]].state.Succeeded? || Terminal(receipts[order[q]].state)
    {
      if q < k {
        assert order[..k][q] == order[q];
      }
    }
  }

  /** A digest that is due and addressed to the selected chat can be delivered once it is stored. */
  lemma DigestDeliverable(w: World, after: World, r: nat, texts: seq<string>, turns: nat -> Turn)
    requires WorldOk(w) && WorldOk(after) && r < |w.runs| && Deliverable(w, r, turns) && w.chat.Some?
    requires DigestAdded(w.rows, after.rows, r, w.chat.value, texts) && after.(rows := w.rows, extra := w.extra) == w
    requires !Blocked(after, r)
    ensures Deliverable(after, r, turns)
  {
    forall i | 0 <= i < |after.rows| && OfRun(after.rows[i], r)
      ensures !after.rows[i].state.UnknownDelivery?
      ensures Terminal(after.rows[i].state)
        || (Selected(after, after.rows[i]) && AlwaysDue(after.rows[i], turns))
    {
      if i < |w.rows| {
        assert after.rows[i] == w.rows[i];
      } else {
        assert NewChunkOf(after.rows[i], r, w.chat.value, texts, i - |w.rows|);
      }
    }
  }

  /** What the loop over a new digest sends, and what it leaves. */
  lemma DigestGone(before: seq<Row>, start: World, w: World, r: nat, chat: string, texts: seq<string>,
                   sent0: seq<Snapshot>, sent: seq<Snapshot>)
    requires DigestAdded(before, start.rows, r, chat, texts) && !HasChunks(before, r)
    requires AllSettled(before, r)
    requires Gone(start, w, r, start.rows, Queue(start.rows, r, |start.rows|), sent0, sent)
    ensures sent == sent0 + Messages(chat, texts)
    ensures ConfirmedFrom(w.rows, |before|, |texts|)
  {
    DigestQueued(before, start.rows, r, chat, texts, |texts|);
    assert texts[..|texts|] == texts;
    forall i: nat | |before| <= i < |before| + |texts|
      ensures w.rows[i].state.Succeeded?
    {
      ChunkGone(before, start, w, r, chat, texts, sent0, sent, i);
    }
  }

  lemma ChunkGone(before: seq<Row>, start: World, w: World, r: nat, chat: string, texts: seq<string>,
                  sent0: seq<Snapshot>, sent: seq<Snapshot>, i: nat)
    requires DigestAdded(before, start.rows, r, chat, texts) && |before| <= i < |start.rows|
    requires Gone(start, w, r, start.rows, Queue(start.rows, r, |start.rows|), sent0, sent)
    ensures i < |w.rows| && w.rows[i].state.Succeeded?
  {
    var order := Queue(start.rows, r, |start.rows|);
    assert NewChunkOf(start.rows[i], r, chat, texts, i - |before|);
    assert i in order;
    var q :| 0 <= q < |order| && order[q] == i;
    assert w.rows[order[q]].state.Succeeded?;
  }

  /** Nothing stops or disturbs the delivery, and every open attempt can be sent. */
  ghost predicate Smooth(w: World, r: nat, stopping: bool, turns: nat -> Turn)
    requires WorldOk(w) && r < |w.runs|
  {
    !stopping && AllGoesWell(turns) && Deliverable(w, r, turns)
  }

  /** A digest that is due, for the selected chat, in a run with nothing else to send. */
  predicate FreshDigest(w: World, r: nat, outcomeOk: bool)
    requires WorldOk(w) && r < |w.runs|
  {
    DigestDue(w, r, outcomeOk) && w.chat == w.runs[r].chat && AllSettled(w.rows, r)
  }

  lemma DeliveryConcludes(w: World, prepared: World, after: World, r: nat, outcomeOk: bool, texts: seq<string>, stopping: bool,
                          turns: nat -> Turn, p: Progress, sent0: seq<Snapshot>, sent: seq<Snapshot>)
    requires WorldOk(w) && r < |w.runs| && Prepared(w, prepared, r, outcomeOk, texts, Next)
    requires WorldOk(prepared) && r < |prepared.runs| && Evolves(prepared.rows, after.rows)
    requires Smooth(prepared, r, stopping, turns) ==>
      p.Next? && Gone(prepared, after, r, prepared.rows, Queue(prepared.rows, r, |prepared.rows|), sent0, sent)
    ensures DigestDue(w, r, outcomeOk) ==> DigestAt(after.rows, |w.rows|, r, w.runs[r].chat.value, texts)
    ensures Smooth(w, r, stopping, turns) && HasChunks(w.rows, r) ==>
      p.Next? && sent == sent0 + Outstanding(w.rows, Queue(w.rows, r, |w.rows|))
    ensures Smooth(w, r, stopping, turns) && FreshDigest(w, r, outcomeOk) ==>
      p.Next? && sent == sent0 + Messages(w.runs[r].chat.value, texts) && ConfirmedFrom(after.rows, |w.rows|, |texts|)
  {
    if DigestDue(w, r, outcomeOk) {
      var chat := w.runs[r].chat.value;
      DigestIsAt(w.rows, prepared.rows, r, chat, texts);
      DigestStays(prepared.rows, after.rows, |w.rows|, r, chat, texts);
      if Smooth(w, r, stopping, turns) && FreshDigest(w, r, outcomeOk) {
        DigestDeliverable(w, prepared, r, texts, turns);
        DigestGone(w.rows, prepared, after, r, chat, texts, sent0, sent);
      }
    }
  }

  predicate ConfirmedFrom(rows: seq<Row>, from: nat, count: nat) {
    |rows| >= from + count && forall i :: from <= i < from + count ==> rows[i].state.Succeeded?
  }

  lemma DigestIsAt(before: seq<Row>, after: seq<Row>, r: nat, chat: string, texts: seq<string>)
    requires DigestAdded(before, after, r, chat, texts)
    ensures DigestAt(after, |before|, r, chat, texts)
  {
    forall i | |before| <= i < |after|
      ensures ChunkOf(after[i], r, chat, texts, i - |before|)
    {
      assert NewChunkOf(after[i], r, chat, texts, i - |before|);
    }
  }

  lemma CreationAdds(w: World, r: nat, e: Event)
    requires WorldOk(w) && (e.CreateSkip? || e.CreateDigest?) && w.working == Some(r) && Step(w, e).Some?
    ensures var after := Step(w, e).value.rows;
      && |after| >= |w.rows|
      && (forall i :: 0 <= i < |w.rows| ==> after[i] == w.rows[i])
      && (forall i :: |w.rows| <= i < |after| ==> after[i].run == r)
  {
  }

  /** In this turn an attempt that is not settled can be sent. */
  ghost predicate WouldSend(w: World, r: nat, item: Row, t: Turn)
    requires WorldOk(w) && r < |w.runs|
  {
    GoesWell(t) && (Terminal(item.state) || (Selected(w, item) && Due(item, t.now)))
  }

  lemma RoundGoesWell(w: World, r: nat, order: seq<nat>, k: nat, turns: nat -> Turn)
    requires WorldOk(w) && r < |w.runs| && AllGoesWell(turns) && Deliverable(w, r, turns)
    requires order == Queue(w.rows, r, |w.rows|) && k < |order|
    ensures order[k] < |w.rows| && WouldSend(w, r, w.rows[order[k]], turns(k))
  {
    assert order[k] in order;
  }

  lemma SendsWhenDeliverable(w: World, r: nat, item: Row, t: Turn)
    requires WorldOk(w) && r < |w.runs| && Undisturbed(t) && t.credential && !Blocked(w, r)
    requires !Terminal(item.state) && Due(item, t.now) && Selected(w, item)
    ensures Sends(w, r, item, t)
  {
    assert CommandsOn(w, []) == w;
  }

  /** The checks of the loop, made on what it read, allow the dispatch in the store as it is. */
  lemma ChecksAllowDispatch(w: World, r: nat, receipts: seq<Row>, order: seq<nat>, k: nat, item: Row, now: int)
    requires Tracks(w, r, receipts, order, k, item) && k < |order| && w.inflight.None?
    requires item.snapshot.Digest? && Due(item, now)
    requires w.enabled && w.chat == Some(item.snapshot.chat)
    requires item.revisionOf.None? ==> !Blocked(w, r)
    ensures MayDispatch(w, order[k], now)
    ensures Update(w.rows, order[k], SendingRow(item, now), item.state).Stored?
    ensures Update(w.rows, order[k], NoCredentialRow(item, now), item.state).Stored?
  {
    TrackedEarlierSettled(w, r, receipts, order, k, item);
  }

  /** The loop's own write cannot block the run it works for. */
  lemma OwnWriteBlocksNothing(w: World, w2: World, r: nat, i: nat, row: Row)
    requires WorldOk(w) && WorldOk(w2) && r < |w.runs| && w2.runs == w.runs
    requires i < |w.rows| && w2.rows == w.rows[i := row] && w.rows[i].run == r && row.run == r
    ensures Blocked(w2, r) ==> Blocked(w, r)
  {
    OwnRowsBlockNothing(w, w2, r);
  }

  lemma OwnWriteHolds(w: World, w2: World, r: nat, receipts: seq<Row>, order: seq<nat>, k: nat, item: Row, row: Row)
    requires Tracks(w, r, receipts, order, k, item) && k < |order| && SameIdentity(item, row) && WorldOk(w2)
    requires Update(w.rows, order[k], row, item.state).Stored?
    requires w2.(inflight := w.inflight) == w.(rows := Update(w.rows, order[k], row, item.state).rows)
    ensures order[k] < |w2.rows| && w2.rows == w.rows[order[k] := row]
    ensures !row.state.UnknownDelivery? ==> Tracks(w2, r, receipts, order, k, row)
    ensures r < |w2.runs| && (!Blocked(w, r) ==> !Blocked(w2, r))
  {
    AtOwnRow(w, r, receipts, order, k, item);
    OwnWriteBlocksNothing(w, w2, r, order[k], row);
    if !row.state.UnknownDelivery? {
      OwnWriteTracks(w, w2, r, receipts, order, k, item, row);
    }
  }

  /** The loop gets as far as the credential: the attempt is due and readable, its chat is selected, nothing stops or
      blocks the run. */
  predicate Reached(w: World, r: nat, item: Row, t: Turn)
    requires WorldOk(w) && r < |w.runs|
  {
    && !Terminal(item.state) && Due(item, t.now) && item.snapshot.Digest?
    && var first := CommandsOn(w, t.before);
       Selected(first, item) && !t.stopping && (item.revisionOf.None? ==> r < |first.runs| && !Blocked(first, r))
  }

  /** The attempt goes to Telegram: there is a credential, and its chat is still selected once the dispatch lock is held. */
  predicate Sends(w: World, r: nat, item: Row, t: Turn)
    requires WorldOk(w) && r < |w.runs|
  {
    && Reached(w, r, item, t) && t.credential
    && Selected(CommandsOn(CommandsOn(w, t.before), t.whileLocking), item) && !t.stoppingLater
  }

  /** Whatever the commands do, nothing is sent while the worker is stopping, before its time, without a credential, to
      another chat than the one selected before and after the wait, or, as a first attempt, for a blocked run. */
  lemma SendsOnlyWhen(w: World, r: nat, item: Row, t: Turn)
    requires WorldOk(w) && r < |w.runs| && Sends(w, r, item, t)
    ensures !t.stopping && !t.stoppingLater && t.credential
    ensures item.snapshot.Digest? && (item.nextAttemptAt.Some? ==> item.nextAttemptAt.value <= t.now)
    ensures item.state.Pending? || item.state.Sending? || item.state.UnknownDelivery? || item.state.Conflict?
      || (item.state.Failed? && item.nextAttemptAt.Some?)
    ensures var first := CommandsOn(w, t.before);
      var second := CommandsOn(first, t.whileLocking);
      && first.enabled && first.chat == Some(item.snapshot.chat)
      && second.enabled && second.chat == Some(item.snapshot.chat)
      && (item.revisionOf.None? ==> r < |first.runs| && !Blocked(first, r))
  {
  }

  predicate Selected(w: World, item: Row) {
    w.enabled && item.snapshot.Digest? && w.chat == Some(item.snapshot.chat)
  }

  /** No command arrives and nothing stops the worker. */
  predicate Undisturbed(t: Turn) {
    t.before == [] && t.whileLocking == [] && t.whileSending == [] && !t.stopping && !t.stoppingLater
  }

  /** The worker's view of the store, with the steps taken since `start` and the messages handed to Telegram. */
  class Worker {
    const start: World
    var w: World
    var log: seq<Event>
    var sent: seq<Snapshot>

    predicate Replayed()
      reads this
    {
      WorldOk(start) && Replay(start, log) == Some(w)
    }

    predicate Valid()
      reads this
    {
      Replayed() && Handed(log, sent, w.rows)
    }

    constructor (store: World)
      requires WorldOk(store)
      ensures Valid() && w == start == store && log == [] && sent == []
    {
      start, w, log, sent := store, store, [], [];
    }

    /** One enabled step, other than a send. */
    method Perform(e: Event)
      requires Valid() && WorldOk(w) && Step(w, e).Some? && !e.DispatchAttempt?
      modifies this`w, this`log
      ensures Valid() && log == old(log) + [e] && Own(log) == Own(old(log)) + (if Concurrent(e) then [] else [e])
      ensures WorldOk(old(w)) && Step(old(w), e) == Some(w)
      ensures WorldOk(w) && Evolves(old(w.rows), w.rows)
    {
      var next := Step(w, e).value;
      StepTaken(start, log, w, next, e);
      HandedOneMore(log, sent, w.rows, next.rows, e);
      w, log := next, log + [e];
    }

    /** Commands that arrive while the worker waits; refused ones leave no trace. */
    method Meanwhile(events: seq<Event>, r: nat, receipts: seq<Row>, order: seq<nat>, k: nat, item: Row)
      requires Valid() && Tracks(w, r, receipts, order, k, item)
      modifies this`w, this`log
      ensures Valid() && old(log) <= log && Own(log) == Own(old(log))
      ensures Tracks(w, r, receipts, order, k, item) && w.inflight == old(w.inflight)
      ensures !Blocked(old(w), r) ==> !Blocked(w, r)
      ensures w == CommandsOn(old(w), events)
    {
      for n := 0 to |events|
        invariant Valid() && old(log) <= log && Own(log) == Own(old(log))
        invariant Tracks(w, r, receipts, order, k, item) && w.inflight == old(w.inflight)
        invariant !Blocked(old(w), r) ==> !Blocked(w, r)
        invariant w == CommandsOn(old(w), events[..n])
      {
        var e := events[n];
        assert events[..n + 1][..n] == events[..n];
        if Concurrent(e) && Step(w, e).Some? {
          ConcurrentStays(w, e, r, receipts, order, k, item);
          if !Blocked(w, r) {
            UnblockedStays(w, e, r);
          }
          Perform(e);
        }
      }
      assert events[..|events|] == events;
    }

    /** The store's guarded update, recorded as the step that it is. */
    method UpdateDelivery(i: nat, row: Row, expected: State, inflight: Option<nat>, e: Event) returns (ok: bool)
      requires Replayed() && !Concurrent(e)
      requires Update(w.rows, i, row, expected).Stored? ==>
        Step(w, e) == Some(w.(rows := Update(w.rows, i, row, expected).rows, inflight := inflight))
      modifies this`w, this`log
      ensures Replayed() && ok == Update(old(w).rows, i, row, expected).Stored?
      ensures ok ==> Step(old(w), e) == Some(w) && log == old(log) + [e] && Own(log) == Own(old(log)) + [e]
      ensures ok ==> WorldOk(old(w)) && WorldOk(w) && Evolves(old(w.rows), w.rows)
      ensures !ok ==> w == old(w) && log == old(log)
    {
      var written := Update(w.rows, i, row, expected);
      if written.Stored? {
        var next := w.(rows := written.rows, inflight := inflight);
        StepTaken(start, log, w, next, e);
        w, log := next, log + [e];
      }
      return written.Stored?;
    }

    /** One accepted dispatch: the intent is stored before the send, the outcome after it. */
    method Send(r: nat, receipts: seq<Row>, order: seq<nat>, k: nat, item: Row, t: Turn) returns (p: Progress)
      requires Valid() && w.inflight.None? && k < |order|
      requires Tracks(w, r, receipts, order, k, item)
      requires MayDispatch(w, order[k], t.now)
      requires Update(w.rows, order[k], SendingRow(item, t.now), item.state).Stored?
      modifies this
      ensures Valid() && old(log) <= log && w.inflight.None?
      ensures Attempted(old(log), old(sent), order[k], item, t, p)
      ensures p.Next? ==> Ready(w, r, receipts, order, k + 1)
      ensures r < |w.runs| && (!Blocked(old(w), r) ==> !Blocked(w, r))
      ensures t.whileSending == [] ==> w.enabled == old(w.enabled) && w.chat == old(w.chat)
    {
      var sending := BeginSend(r, receipts, order, k, item, t.now);
      Meanwhile(t.whileSending, r, receipts, order, k, sending);
      p := Conclude(r, receipts, order, k, sending, t);
    }

    /** The outcome of the send, if it can be stored. */
    method Conclude(r: nat, receipts: seq<Row>, order: seq<nat>, k: nat, sending: Row, t: Turn) returns (p: Progress)
      requires Valid() && k < |order| && w.inflight == Some(order[k])
      requires Tracks(w, r, receipts, order, k, sending) && sending.state.Sending?
      modifies this`w, this`log
      ensures Valid() && old(log) <= log && w.inflight.None?
      ensures Own(log) == Own(old(log)) + [if t.recorded then Outcome(t.outcome, t.now) else OutcomeLost(order[k])]
      ensures p == (if !t.recorded then Error else if t.outcome.Confirmed? then Next else Pause)
      ensures p.Next? ==> Ready(w, r, receipts, order, k + 1)
      ensures p.Next? ==> order[k] < |w.rows| && w.rows[order[k]].state.Succeeded? && w.rows[order[k]].messageId == Some(t.outcome.id)
      ensures w.enabled == old(w.enabled) && w.chat == old(w.chat)
      ensures r < |w.runs| && (!Blocked(old(w), r) ==> !Blocked(w, r))
    {
      AtOwnRow(w, r, receipts, order, k, sending);
      if !t.recorded {
        Lose(r, order[k]);
        return Error;
      }
      p := Record(r, receipts, order, k, sending, t);
    }

    /** The outcome cannot be stored. */
    method Lose(r: nat, i: nat)
      requires Valid() && WorldOk(w) && w.inflight == Some(i) && i < |w.rows| && r < |w.runs|
      modifies this`w, this`log
      ensures Valid() && log == old(log) + [OutcomeLost(i)] && Own(log) == Own(old(log)) + [OutcomeLost(i)]
      ensures WorldOk(w) && w.inflight.None?
      ensures w.enabled == old(w.enabled) && w.chat == old(w.chat)
      ensures r < |w.runs| && (!Blocked(old(w), r) ==> !Blocked(w, r))
    {
      Perform(OutcomeLost(i));
    }

    /** One of the loop's own writes, to the attempt it is handling; the message of a dispatch is still to be sent. */
    method WriteOwn(r: nat, receipts: seq<Row>, order: seq<nat>, k: nat, item: Row, row: Row, inflight: Option<nat>, e: Event)
      requires Valid() && k < |order| && !Concurrent(e) && (e.DispatchAttempt? ==> e.i == order[k])
      requires Tracks(w, r, receipts, order, k, item) && SameIdentity(item, row)
      requires Update(w.rows, order[k], row, item.state).Stored?
      requires Step(w, e) == Some(w.(rows := Update(w.rows, order[k], row, item.state).rows, inflight := inflight))
      modifies this`w, this`log
      ensures if e.DispatchAttempt? then Replayed() && Handed(log, sent + [row.snapshot], w.rows) else Valid()
      ensures log == old(log) + [e] && Own(log) == Own(old(log)) + [e]
      ensures w.inflight == inflight && w.enabled == old(w.enabled) && w.chat == old(w.chat) && w.runs == old(w.runs)
      ensures order[k] < |w.rows| && w.rows == old(w.rows)[order[k] := row]
      ensures WorldOk(w)
      ensures !row.state.UnknownDelivery? ==> Tracks(w, r, receipts, order, k, row)
      ensures r < |w.runs| && (!Blocked(old(w), r) ==> !Blocked(w, r))
    {
      ghost var before, logged := w, log;
      var stored := UpdateDelivery(order[k], row, item.state, inflight, e);
      assert stored;
      HandedOneMore(logged, sent, before.rows, w.rows, e);
      OwnWriteHolds(before, w, r, receipts, order, k, item, row);
    }

    /** Store the intent to send, then send. */
    method BeginSend(r: nat, receipts: seq<Row>, order: seq<nat>, k: nat, item: Row, now: int) returns (sending: Row)
      requires Valid() && w.inflight.None? && k < |order|
      requires Tracks(w, r, receipts, order, k, item)
      requires MayDispatch(w, order[k], now)
      requires Update(w.rows, order[k], SendingRow(item, now), item.state).Stored?
      modifies this
      ensures Valid() && log == old(log) + [DispatchAttempt(order[k], now)]
      ensures Own(log) == Own(old(log)) + [DispatchAttempt(order[k], now)] && sent == old(sent) + [item.snapshot]
      ensures w.inflight == Some(order[k]) && sending == SendingRow(item, now)
      ensures Tracks(w, r, receipts, order, k, sending)
      ensures w.enabled == old(w.enabled) && w.chat == old(w.chat)
      ensures r < |w.runs| && (!Blocked(old(w), r) ==> !Blocked(w, r))
    {
      sending := SendingRow(item, now);
      DispatchIsWrite(w, order[k], item, now);
      WriteOwn(r, receipts, order, k, item, sending, Some(order[k]), DispatchAttempt(order[k], now));
      sent := sent + [item.snapshot];
    }

    method Record(r: nat, receipts: seq<Row>, order: seq<nat>, k: nat, sending: Row, t: Turn) returns (p: Progress)
      requires Valid() && k < |order| && w.inflight == Some(order[k])
      requires Tracks(w, r, receipts, order, k, sending) && sending.state.Sending?
      modifies this`w, this`log
      ensures Valid() && old(log) <= log && w.inflight.None?
      ensures Own(log) == Own(old(log)) + [Outcome(t.outcome, t.now)]
      ensures p == if t.outcome.Confirmed? then Next else Pause
      ensures p.Next? ==> Ready(w, r, receipts, order, k + 1)
      ensures p.Next? ==> order[k] < |w.rows| && w.rows[order[k]].state.Succeeded? && w.rows[order[k]].messageId == Some(t.outcome.id)
      ensures w.enabled == old(w.enabled) && w.chat == old(w.chat)
      ensures r < |w.runs| && (!Blocked(old(w), r) ==> !Blocked(w, r))
    {
      var settled := SettledRow(sending, t.outcome, t.now);
      AtOwnRow(w, r, receipts, order, k, sending);
      OutcomeIsWrite(w, order[k], sending, t.outcome, t.now);
      WriteOwn(r, receipts, order, k, sending, settled, None, Outcome(t.outcome, t.now));
      if !t.outcome.Confirmed? {
        return Pause;
      }
      SettledMovesOn(w, r, receipts, order, k, settled);
      return Next;
    }

    /** One attempt of the loop. Its own steps and its message are exactly these: nothing for an attempt that is settled,
        not due or not allowed; a missing credential is recorded; otherwise intent, message, outcome. */
    method HandleAttempt(r: nat, receipts: seq<Row>, order: seq<nat>, k: nat, t: Turn) returns (p: Progress)
      requires Valid() && Ready(w, r, receipts, order, k) && k < |order|
      modifies this
      ensures Valid() && old(log) <= log && w.inflight.None?
      ensures p.Next? ==> Ready(w, r, receipts, order, k + 1)
      ensures var item, i := receipts[order[k]], order[k];
        if Sends(old(w), r, item, t) then Attempted(old(log), old(sent), i, item, t, p)
        else
          && sent == old(sent)
          && Own(log) == Own(old(log))
             + (if Reached(old(w), r, item, t) && !t.credential then [CredentialMissing(i, t.now)] else [])
          && (p.Next? <==> Terminal(item.state))
          && (p.Error? <==> !Terminal(item.state) && Due(item, t.now) && item.snapshot.Unreadable?)
      ensures r < |w.runs| && (!Blocked(old(w), r) ==> !Blocked(w, r))
      ensures Undisturbed(t) ==> w.enabled == old(w.enabled) && w.chat == old(w.chat)
    {
      var item := receipts[order[k]];
      if Terminal(item.state) {
        SettledMovesOn(w, r, receipts, order, k, item);
        return Next;
      }
      if !Due(item, t.now) {
        return Pause;
      }
      if item.snapshot.Unreadable? {
        return Error;
      }
      p := HandleDue(r, receipts, order, k, item, t);
    }

    /** Intent, message and outcome of one attempt. */
    predicate Attempted(log0: seq<Event>, sent0: seq<Snapshot>, i: nat, item: Row, t: Turn, p: Progress)
      reads this
    {
      && sent == sent0 + [item.snapshot]
      && Own(log) == Own(log0) + [DispatchAttempt(i, t.now), if t.recorded then Outcome(t.outcome, t.now) else OutcomeLost(i)]
      && p == (if !t.recorded then Error else if t.outcome.Confirmed? then Next else Pause)
      && (p.Next? ==> i < |w.rows| && w.rows[i].state.Succeeded? && w.rows[i].messageId == Some(t.outcome.id))
    }

    /** An open attempt that is due. */
    method HandleDue(r: nat, receipts: seq<Row>, order: seq<nat>, k: nat, item: Row, t: Turn) returns (p: Progress)
      requires Valid() && w.inflight.None? && k < |order|
      requires Tracks(w, r, receipts, order, k, item)
      requires item.snapshot.Digest? && Due(item, t.now) && !Terminal(item.state)
      modifies this
      ensures Valid() && old(log) <= log && w.inflight.None?
      ensures p.Next? ==> Ready(w, r, receipts, order, k + 1)
      ensures if Sends(old(w), r, item, t) then Attempted(old(log), old(sent), order[k], item, t, p)
        else
          && sent == old(sent) && p.Pause?
          && Own(log) == Own(old(log))
             + (if Reached(old(w), r, item, t) && !t.credential then [CredentialMissing(order[k], t.now)] else [])
      ensures r < |w.runs| && (!Blocked(old(w), r) ==> !Blocked(w, r))
      ensures Undisturbed(t) ==> w.enabled == old(w.enabled) && w.chat == old(w.chat)
    {
      Meanwhile(t.before, r, receipts, order, k, item);
      if !w.enabled || w.chat != Some(item.snapshot.chat) || t.stopping {
        return Pause;
      }
      if item.revisionOf.None? && Blocked(w, r) {
        return Pause;
      }
      p := DispatchChecked(r, receipts, order, k, item, t);
    }

    /** Credential, dispatch lock, and the second look at the settings. */
    method DispatchChecked(r: nat, receipts: seq<Row>, order: seq<nat>, k: nat, item: Row, t: Turn) returns (p: Progress)
      requires Valid() && w.inflight.None? && k < |order|
      requires Tracks(w, r, receipts, order, k, item)
      requires item.snapshot.Digest? && Due(item, t.now)
      requires w.enabled && w.chat == Some(item.snapshot.chat)
      requires item.revisionOf.None? ==> !Blocked(w, r)
      modifies this
      ensures Valid() && old(log) <= log && w.inflight.None?
      ensures p.Next? ==> Ready(w, r, receipts, order, k + 1)
      ensures if t.credential && Selected(CommandsOn(old(w), t.whileLocking), item) && !t.stoppingLater
        then Attempted(old(log), old(sent), order[k], item, t, p)
        else
          && sent == old(sent) && p.Pause?
          && Own(log) == Own(old(log)) + (if t.credential then [] else [CredentialMissing(order[k], t.now)])
      ensures r < |w.runs| && (!Blocked(old(w), r) ==> !Blocked(w, r))
      ensures t.whileLocking == [] && t.whileSending == [] ==> w.enabled == old(w.enabled) && w.chat == old(w.chat)
    {
      var i := order[k];
      ChecksAllowDispatch(w, r, receipts, order, k, item, t.now);
      if !t.credential {
        WriteOwn(r, receipts, order, k, item, NoCredentialRow(item, t.now), None, CredentialMissing(i, t.now));
        return Pause;
      }
      Meanwhile(t.whileLocking, r, receipts, order, k, item);
      if !w.enabled || w.chat != Some(item.snapshot.chat) || t.stoppingLater {
        return Pause;
      }
      ChecksAllowDispatch(w, r, receipts, order, k, item, t.now);
      p := Send(r, receipts, order, k, item, t);
    }

    /** Create the digest's attempts, one for each text, or the row that says why there is none. */
    method Prepare(r: nat, outcomeOk: bool, texts: seq<string>, now: int) returns (p: Progress)
      requires Valid() && w.recovered && w.inflight.None? && w.working == Some(r) && r < |w.runs|
      modifies this`w, this`log
      ensures Valid() && old(log) <= log && Evolves(old(w.rows), w.rows)
      ensures Prepared(old(w), w, r, outcomeOk, texts, p)
    {
      var eligible := w.runs[r].telegramEnabled && outcomeOk;
      if HasChunks(w.rows, r) || (!eligible && HasAttempts(w.rows, r)) {
        return Next;
      }
      var blocked := Blocked(w, r);
      if eligible && !blocked && w.runs[r].chat.None? {
        return Error;
      }
      if !eligible || blocked {
        SkipStep(w, r, outcomeOk, now);
        Create(r, CreateSkip(outcomeOk, now));
        return Pause;
      }
      DigestStep(w, r, outcomeOk, texts, now);
      Create(r, CreateDigest(outcomeOk, texts, now));
      return Next;
    }

    method Create(r: nat, e: Event)
      requires Valid() && WorldOk(w) && r < |w.runs| && (e.CreateSkip? || e.CreateDigest?) && w.working == Some(r)
      requires Step(w, e).Some? && Step(w, e).value.(rows := w.rows, extra := w.extra) == w
      modifies this`w, this`log
      ensures Valid() && old(log) <= log && Evolves(old(w.rows), w.rows)
      ensures Step(old(w), e) == Some(w) && WorldOk(w)
      ensures r < |w.runs| && (!Blocked(old(w), r) ==> !Blocked(w, r))
    {
      label before:
      Perform(e);
      CreationAdds(old@before(w), r, e);
      OwnRowsBlockNothing(old@before(w), w, r);
    }

    /** `deliver_telegram`. When it runs to the end, every attempt of the run is settled, among them one for each text
        of a digest that was due. When nothing disturbs it, it does run to the end, and sends exactly the open messages,
        those of a new digest in the order of its texts. */
    method Deliver(r: nat, outcomeOk: bool, texts: seq<string>, now: int, stopping: bool, turns: nat -> Turn)
        returns (p: Progress)
      requires Valid() && w.recovered && w.inflight.None? && w.working == Some(r) && r < |w.runs|
      modifies this
      ensures Valid() && old(log) <= log && w.inflight.None? && Evolves(old(w.rows), w.rows)
      ensures p.Next? ==> AllSettled(w.rows, r)
      ensures DigestDue(old(w), r, outcomeOk) ==>
        DigestAt(w.rows, |old(w.rows)|, r, old(w).runs[r].chat.value, texts)
      ensures Smooth(old(w), r, stopping, turns) && HasChunks(old(w.rows), r) ==>
        p.Next? && sent == old(sent) + Outstanding(old(w.rows), Queue(old(w.rows), r, |old(w.rows)|))
      ensures Smooth(old(w), r, stopping, turns) && FreshDigest(old(w), r, outcomeOk) ==>
        && p.Next? && sent == old(sent) + Messages(old(w).runs[r].chat.value, texts)
        && ConfirmedFrom(w.rows, |old(w.rows)|, |texts|)
    {
      p := Prepare(r, outcomeOk, texts, now);
      if !p.Next? {
        return;
      }
      ghost var prepared := w;
      p := Drain(r, stopping, turns);
      EvolvesTransitive(old(w.rows), prepared.rows, w.rows);
      DeliveryConcludes(old(w), prepared, w, r, outcomeOk, texts, stopping, turns, p, old(sent), sent);
    }

    /** The settings, the rows as they are now, and the loop over the attempts in the order of their chunks. */
    method Drain(r: nat, stopping: bool, turns: nat -> Turn) returns (p: Progress)
      requires Valid() && w.recovered && w.inflight.None? && w.working == Some(r) && r < |w.runs|
      modifies this
      ensures Valid() && old(log) <= log && w.inflight.None? && Evolves(old(w.rows), w.rows)
      ensures p.Next? ==> AllSettled(w.rows, r)
      ensures Smooth(old(w), r, stopping, turns) ==>
        && p.Next?
        && Gone(old(w), w, r, old(w.rows), Queue(old(w.rows), r, |old(w.rows)|), old(sent), sent)
    {
      var receipts := w.rows;
      if !w.enabled || stopping || !NoneUnknown(receipts, r) {
        return Pause;
      }
      var order := Queue(receipts, r, |receipts|);
      p := Rounds(r, receipts, order, turns, AllGoesWell(turns) && Deliverable(w, r, turns));
      if p.Next? {
        AllHandled(w, r, receipts, order);
      }
      ReplayEvolves(start, old(log), log);
    }

    method Rounds(r: nat, receipts: seq<Row>, order: seq<nat>, turns: nat -> Turn, ghost well: bool) returns (p: Progress)
      requires Valid() && Ready(w, r, receipts, order, 0) && receipts == w.rows
      requires well ==> WorldOk(w) && r < |w.runs| && AllGoesWell(turns) && Deliverable(w, r, turns)
      modifies this
      ensures Valid() && old(log) <= log && w.inflight.None?
      ensures p.Next? ==> Ready(w, r, receipts, order, |order|)
      ensures well ==> p.Next? && Gone(old(w), w, r, receipts, order, old(sent), sent)
    {
      ghost var was, sentBefore := w, sent;
      assert order[..0] == [];
      for k := 0 to |order|
        invariant Valid() && old(log) <= log && Ready(w, r, receipts, order, k)
        invariant well ==> Gone(was, w, r, receipts, order[..k], sentBefore, sent)
      {
        if well {
          RoundGoesWell(was, r, order, k, turns);
        }
        p := DrainOne(r, receipts, order, k, turns(k), well, was, sentBefore);
        if !p.Next? {
          return;
        }
      }
      assert order[..|order|] == order;
      return Next;
    }

    /** One round: what has gone well so far goes on. */
    method DrainOne(r: nat, receipts: seq<Row>, order: seq<nat>, k: nat, t: Turn, ghost well: bool, ghost start: World,
                    ghost sent0: seq<Snapshot>)
        returns (p: Progress)
      requires Valid() && Ready(w, r, receipts, order, k) && k < |order|
      requires well ==> WorldOk(start) && r < |start.runs| && WouldSend(start, r, receipts[order[k]], t)
      requires well ==> Gone(start, w, r, receipts, order[..k], sent0, sent)
      modifies this
      ensures Valid() && old(log) <= log && w.inflight.None?
      ensures p.Next? ==> Ready(w, r, receipts, order, k + 1)
      ensures well ==> p.Next? && Gone(start, w, r, receipts, order[..k + 1], sent0, sent)
    {
      ghost var before, item, sentBefore := w, receipts[order[k]], sent;
      if well && !Terminal(item.state) {
        SendsWhenDeliverable(w, r, item, t);
      }
      p := HandleAttempt(r, receipts, order, k, t);
      if well {
        ReplayEvolves(this.start, old(log), log);
        GoneOneMore(start, before, w, r, receipts, order, k, sent0, sentBefore, sent);
      }
    }
  }
}
