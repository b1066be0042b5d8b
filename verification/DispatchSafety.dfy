/** What every run of the delivery machine keeps. */
module DispatchSafety {
  import opened Wrappers
  import opened Bytes
  import opened DeliveryLedger
  import opened Retarget
  import opened Dispatch

  /** Disabled events change nothing. */
  function After(w: World, e: Event): (r: World)
    requires WorldOk(w)
  {
    var s := Step(w, e);
    if s.Some? then s.value else w
  }

  /** Not a send, and not the end of one. */
  predicate IsQuiet(e: Event) {
    !e.DispatchAttempt? && !e.CredentialMissing? && !e.Outcome? && !e.OutcomeLost?
  }

  // The tables.

  lemma UpdateKeepsWorld(w: World, i: nat, row: Row, expected: State)
    requires WorldOk(w) && WithRow(w, i, row, expected).Some?
    requires row.destination.Telegram? ==> row.snapshot.Digest? && !row.state.Conflict?
    ensures var r := WithRow(w, i, row, expected).value;
      WorldOk(r) && Evolves(w.rows, r.rows) && r.rows == w.rows[i := row] && i < |w.rows|
  {
    RewriteKeepsOk(w.rows, w.rows[i := row]);
  }

  lemma IntentsKeepWorld(w: World, r: nat, chat: string, texts: seq<string>, now: int)
    requires WorldOk(w) && r < |w.runs|
    ensures var rows := w.rows + Intents(r, chat, texts, now);
      LedgerOk(rows) && Evolves(w.rows, rows) && forall i :: 0 <= i < |rows| ==> rows[i].run < |w.runs|
  {
    var rows := w.rows + Intents(r, chat, texts, now);
    forall i | 0 <= i < |rows|
      ensures RowOk(rows, i)
    {
      if i < |w.rows| {
        assert RowOk(w.rows, i);
      }
    }
  }

  lemma RetryKeepsWorld(w: World, e: Event)
    requires WorldOk(w) && e.Retry?
    ensures var rows := RetryRows(w, e);
      && LedgerOk(rows) && Evolves(w.rows, rows)
      && forall i :: 0 <= i < |rows| ==> rows[i].run < |w.runs|
  {
    var mid := AfterRedirect(w, e.of, e.reviewed, e.created, e.now);
    var rows := RetryRows(w, e);
    if TargetOf(w.chat).Some? {
      ProgressedKeepsOk(w.rows, e.of, TargetOf(w.chat).value, e.reviewed, e.created, e.now);
      ProgressedRows(w.rows, e.of, TargetOf(w.chat).value, e.reviewed, e.created, e.now);
    }
    forall i | 0 <= i < |mid|
      ensures mid[i].run < |w.runs|
    {
      assert RowOk(mid, i);
    }
    RewriteKeepsOk(mid, rows);
    assert Evolves(mid, rows);
    EvolvesTransitive(w.rows, mid, rows);
  }

  /** The rows a retry leaves, finished or not. */
  function RetryRows(w: World, e: Event): (rows: seq<Row>)
    requires e.Retry?
    ensures |rows| >= |w.rows|
  {
    ResetRows(AfterRedirect(w, e.of, e.reviewed, e.created, e.now), e.of, e.reset, e.now)
  }

  lemma RetryWrites(w: World, e: Event)
    requires WorldOk(w) && e.Retry? && Step(w, e).Some?
    ensures Step(w, e).value.rows == RetryRows(w, e) && Step(w, e).value.chat == w.chat
  {
  }

  lemma ResolveKeepsWorld(w: World, i: nat, resend: bool, now: int)
    requires WorldOk(w) && Step(w, ResolveUnknown(i, resend, now)).Some?
    ensures var r := Step(w, ResolveUnknown(i, resend, now)).value;
      WorldOk(r) && Evolves(w.rows, r.rows)
  {
    var row := w.rows[i];
    var reviewed := w.rows[i := ReviewedRow(row, now)];
    assert RowOk(w.rows, i);
    forall k | 0 <= k < |w.rows|
      ensures RowOk(reviewed, k)
    {
      assert RowOk(w.rows, k);
    }
    if resend {
      AppendKeepsOk(reviewed, ResendRow(row, i, now));
    }
  }

  lemma RecoveryKeepsWorld(w: World, now: int)
    requires WorldOk(w)
    ensures LedgerOk(Recover(w.rows, now)) && Evolves(w.rows, Recover(w.rows, now))
  {
    var rows := Recover(w.rows, now);
    forall i | 0 <= i < |rows|
      ensures RowOk(rows, i)
    {
      assert RowOk(w.rows, i);
    }
  }

  lemma CreationKeepsWorld(w: World, e: Event)
    requires WorldOk(w) && (e.CreateSkip? || e.CreateDigest? || e.FileCreate?) && Step(w, e).Some?
    ensures WorldOk(Step(w, e).value) && Evolves(w.rows, Step(w, e).value.rows)
  {
    match e
    case CreateSkip(_, now) =>
      AppendKeepsOk(w.rows, NewRow(w.working.value, Skipped, Unreadable, None, None, Some(DeliveryFailed), now));
    case CreateDigest(_, texts, now) =>
      IntentsKeepWorld(w, w.working.value, w.runs[w.working.value].chat.value, texts, now);
    case FileCreate(file, revisionOf, state, now) =>
      AppendKeepsOk(w.rows, NewRow(w.working.value, state, Unreadable, None, None, None, now)
        .(destination := file, revisionOf := revisionOf));
  }

  lemma WriteKeepsWorld(w: World, e: Event)
    requires WorldOk(w) && (!IsQuiet(e) || e.FileUpdate?) && Step(w, e).Some?
    ensures WorldOk(Step(w, e).value) && Evolves(w.rows, Step(w, e).value.rows)
  {
    match e
    case FileUpdate(i, state, now) =>
      UpdateKeepsWorld(w, i, w.rows[i].(state := state, updatedAt := now), w.rows[i].state);
    case DispatchAttempt(i, now) => UpdateKeepsWorld(w, i, SendingRow(w.rows[i], now), w.rows[i].state);
    case CredentialMissing(i, now) => UpdateKeepsWorld(w, i, NoCredentialRow(w.rows[i], now), w.rows[i].state);
    case Outcome(outcome, now) =>
      var i := w.inflight.value;
      assert RowOk(w.rows, i);
      UpdateKeepsWorld(w, i, SettledRow(w.rows[i], outcome, now), Sending);
    case OutcomeLost(_) =>
  }

  lemma StepKeepsWorld(w: World, e: Event)
    requires WorldOk(w)
    ensures WorldOk(After(w, e)) && Evolves(w.rows, After(w, e).rows)
  {
    if Step(w, e).Some? {
      if e.CreateSkip? || e.CreateDigest? || e.FileCreate? {
        CreationKeepsWorld(w, e);
      } else if !IsQuiet(e) || e.FileUpdate? {
        WriteKeepsWorld(w, e);
      } else if e.Retry? {
        RetryKeepsWorld(w, e);
      } else if e.ResolveUnknown? {
        ResolveKeepsWorld(w, e.i, e.resend, e.now);
      } else if e.Recovery? {
        RecoveryKeepsWorld(w, e.now);
      }
    }
  }

  // How single attempts move.

  predicate Kept(w: World, w2: World, i: nat)
    requires WorldOk(w) && WorldOk(w2) && i < |w.rows| <= |w2.rows|
  {
    w2.rows[i] == w.rows[i] && w2.extra[i] == w.extra[i]
  }

  predicate Closed(w: World, w2: World, i: nat)
    requires WorldOk(w) && WorldOk(w2) && i < |w.rows| <= |w2.rows|
  {
    && !Terminal(w.rows[i].state) && !w.rows[i].state.Sending? && w2.rows[i].state.Reviewed?
    && w2.rows[i].attempt == w.rows[i].attempt && w2.extra[i] == w.extra[i]
  }

  predicate Requeued(w: World, w2: World, i: nat)
    requires WorldOk(w) && WorldOk(w2) && i < |w.rows| <= |w2.rows|
  {
    && w.rows[i].state.Failed? && w2.rows[i].state.Pending? && w2.rows[i].nextAttemptAt.None?
    && w2.rows[i].attempt == w.rows[i].attempt && w2.extra[i] == w.extra[i] + 1
  }

  predicate Interrupted(w: World, w2: World, i: nat)
    requires WorldOk(w) && WorldOk(w2) && i < |w.rows| <= |w2.rows|
  {
    && w.rows[i].state.Sending? && w2.rows[i].state.UnknownDelivery?
    && w2.rows[i].attempt == w.rows[i].attempt && w2.extra[i] == w.extra[i]
  }

  /** A row just created: never sent, nothing granted. */
  predicate Unsent(w: World, i: nat)
    requires WorldOk(w) && i < |w.rows|
  {
    && w.rows[i].attempt == 0 && w.extra[i] == 0 && w.rows[i].nextAttemptAt.None?
    && (w.rows[i].state.Pending? || w.rows[i].state.Skipped?)
  }

  /** A step in which nothing is sent and no outcome arrives. */
  predicate Quiet(w: World, w2: World)
    requires WorldOk(w) && WorldOk(w2)
  {
    && |w.rows| <= |w2.rows|
    && (forall i :: 0 <= i < |w.rows| && w2.rows[i].destination.Telegram? ==>
      Kept(w, w2, i) || Closed(w, w2, i) || Requeued(w, w2, i) || Interrupted(w, w2, i))
    && (forall i :: |w.rows| <= i < |w2.rows| && w2.rows[i].destination.Telegram? ==> Unsent(w2, i))
  }

  /** What the redirect half of a retry does to one row. */
  lemma RedirectMoves(w: World, e: Event, i: nat)
    requires e.Retry? && i < |RetryRows(w, e)|
    ensures var row := AfterRedirect(w, e.of, e.reviewed, e.created, e.now)[i];
      if i < |w.rows| then
        || row == w.rows[i]
        || ((w.rows[i].state.Pending? || w.rows[i].state.Failed?) && row == ReviewedRow(w.rows[i], e.now))
      else row.state.Pending? && row.attempt == 0 && row.nextAttemptAt.None? && row.revisionOf.Some?
  {
    if TargetOf(w.chat).Some? {
      ProgressedRows(w.rows, e.of, TargetOf(w.chat).value, e.reviewed, e.created, e.now);
    }
  }

  lemma RetryIsQuiet(w: World, e: Event)
    requires WorldOk(w) && e.Retry? && Step(w, e).Some? && WorldOk(Step(w, e).value)
    ensures Quiet(w, Step(w, e).value)
  {
    var w2 := Step(w, e).value;
    var mid := AfterRedirect(w, e.of, e.reviewed, e.created, e.now);
    forall i | 0 <= i < |w2.rows| && w2.rows[i].destination.Telegram?
      ensures i < |w.rows| ==> Kept(w, w2, i) || Closed(w, w2, i) || Requeued(w, w2, i)
      ensures i >= |w.rows| ==> Unsent(w2, i)
    {
      RedirectMoves(w, e, i);
      assert w2.rows[i] == if i in e.reset then ResetRow(mid[i], e.of, e.now) else mid[i];
    }
  }

  lemma FilesAreQuiet(w: World, e: Event)
    requires WorldOk(w) && (e.FileCreate? || e.FileUpdate?) && Step(w, e).Some?
    requires WorldOk(Step(w, e).value)
    ensures Quiet(w, Step(w, e).value)
  {
  }

  lemma CreationIsQuiet(w: World, e: Event)
    requires WorldOk(w) && (e.CreateSkip? || e.CreateDigest?) && Step(w, e).Some?
    requires WorldOk(Step(w, e).value)
    ensures Quiet(w, Step(w, e).value)
  {
  }

  lemma ResolutionIsQuiet(w: World, e: Event)
    requires WorldOk(w) && (e.ResolveUnknown? || e.Recovery?) && Step(w, e).Some?
    requires WorldOk(Step(w, e).value)
    ensures Quiet(w, Step(w, e).value)
  {
  }

  lemma QuietSteps(w: World, e: Event)
    requires WorldOk(w) && IsQuiet(e)
    ensures WorldOk(After(w, e)) && Quiet(w, After(w, e))
  {
    StepKeepsWorld(w, e);
    if Step(w, e).Some? {
      if e.Retry? {
        RetryIsQuiet(w, e);
      } else if e.FileCreate? || e.FileUpdate? {
        FilesAreQuiet(w, e);
      } else if e.CreateSkip? || e.CreateDigest? {
        CreationIsQuiet(w, e);
      } else if e.ResolveUnknown? || e.Recovery? {
        ResolutionIsQuiet(w, e);
      }
    }
  }

  // The invariants.

  /** The attempt awaiting its outcome is a sending row of the run being delivered. */
  predicate InflightOk(w: World)
    requires WorldOk(w)
  {
    w.inflight.Some? ==>
      && w.inflight.value < |w.rows| && w.recovered
      && var row := w.rows[w.inflight.value];
         row.destination.Telegram? && row.state.Sending? && w.working == Some(row.run)
  }

  predicate Confirmed(w: World, i: nat) {
    i < |w.rows| && w.rows[i].destination.Telegram? && w.rows[i].state.Succeeded?
  }

  predicate RootAttempt(row: Row) {
    row.destination.Telegram? && row.revisionOf.None?
  }

  predicate Related(w: World, i: nat, j: nat)
    requires WorldOk(w) && i < |w.rows| && j < |w.rows|
  {
    Root(w.runs, w.rows[i].run) == Root(w.runs, w.rows[j].run)
  }

  /** All confirmed root attempts of a family belong to one run, and while a root attempt is in flight no other
      run of its family has any confirmed attempt. */
  predicate OneRunPerFamily(w: World)
    requires WorldOk(w)
  {
    && (forall i, j ::
      (&& 0 <= i < |w.rows| && 0 <= j < |w.rows| && Confirmed(w, i) && Confirmed(w, j)
       && RootAttempt(w.rows[i]) && RootAttempt(w.rows[j]) && Related(w, i, j)) ==> w.rows[i].run == w.rows[j].run)
    && (w.inflight.Some? && w.inflight.value < |w.rows| && RootAttempt(w.rows[w.inflight.value]) ==>
      forall i :: 0 <= i < |w.rows| && Confirmed(w, i) && Related(w, i, w.inflight.value) ==>
        w.rows[i].run == w.rows[w.inflight.value].run)
  }

  /** The least time an automatic retry must wait for. */
  function EarliestRetry(row: Row): (at: int)
    requires 1 <= row.attempt <= 3
  {
    DelayedUntil(row.updatedAt, RETRY_SECONDS[row.attempt - 1])
  }

  /** At most four automatic sends, plus one for each explicit retry and each unrecorded outcome; a scheduled
      retry is the first, second or third and never before its delay. */
  predicate AttemptsBounded(w: World, i: nat)
    requires WorldOk(w) && i < |w.rows|
  {
    var row, extra := w.rows[i], w.extra[i];
    && row.attempt <= 4 + extra
    && (row.state.Pending? ==> row.attempt <= 3 + extra)
    && (row.state.Pending? || row.state.Sending? ==> row.nextAttemptAt.None?)
    && (row.state.Sending? ==> row.attempt >= 1)
    && (row.state.Failed? && row.nextAttemptAt.Some? ==>
      1 <= row.attempt <= 3 && row.nextAttemptAt.value >= EarliestRetry(row))
    && (row.state.Sending? && w.recovered && w.inflight != Some(i) ==> row.attempt <= 3 + extra)
  }

  predicate Bounded(w: World)
    requires WorldOk(w)
  {
    forall i :: 0 <= i < |w.rows| && w.rows[i].destination.Telegram? ==> AttemptsBounded(w, i)
  }

  predicate ChunkBefore(a: Row, b: Row) {
    b.chunk.Some? && (a.chunk.None? || a.chunk.value < b.chunk.value)
  }

  /** Once a chunk of a digest was ever sent, every earlier chunk of the same digest is settled. */
  predicate InOrder(w: World)
    requires WorldOk(w)
  {
    forall j, k ::
      (&& 0 <= j < |w.rows| && 0 <= k < |w.rows| && RootAttempt(w.rows[j]) && RootAttempt(w.rows[k])
       && w.rows[j].run == w.rows[k].run && w.rows[j].attempt > 0 && ChunkBefore(w.rows[k], w.rows[j])) ==>
      Terminal(w.rows[k].state)
  }

  predicate Inv(w: World) {
    WorldOk(w) && InflightOk(w) && OneRunPerFamily(w) && Bounded(w) && InOrder(w)
  }

  // Quiet steps.

  lemma InflightStays(w: World, e: Event)
    requires WorldOk(w) && InflightOk(w)
    ensures WorldOk(After(w, e)) && InflightOk(After(w, e))
  {
    StepKeepsWorld(w, e);
  }

  /** Families only gain runs. */
  predicate SameFamilies(w: World, w2: World)
    requires WorldOk(w) && WorldOk(w2)
  {
    && |w.runs| <= |w2.runs|
    && forall r :: 0 <= r < |w.runs| ==> Root(w2.runs, r) == Root(w.runs, r)
  }

  lemma FamiliesStay(w: World, e: Event)
    requires WorldOk(w)
    ensures WorldOk(After(w, e)) && SameFamilies(w, After(w, e))
  {
    StepKeepsWorld(w, e);
    if e.Enqueue? && Step(w, e).Some? {
      forall r | 0 <= r < |w.runs|
        ensures Root(w.runs + [e.run], r) == Root(w.runs, r)
      {
        RootStays(w.runs, e.run, r);
      }
    }
  }

  lemma QuietKeepsFamily(w: World, w2: World)
    requires WorldOk(w) && WorldOk(w2) && Quiet(w, w2) && Evolves(w.rows, w2.rows) && SameFamilies(w, w2)
    requires w2.inflight.None? || (w2.inflight == w.inflight && w.inflight.value < |w.rows|)
    requires OneRunPerFamily(w)
    ensures OneRunPerFamily(w2)
  {
    forall i | 0 <= i < |w2.rows| && Confirmed(w2, i)
      ensures i < |w.rows| && Confirmed(w, i) && w2.rows[i] == w.rows[i]
    {
    }
  }

  lemma QuietKeepsBounds(w: World, w2: World)
    requires WorldOk(w) && WorldOk(w2) && Quiet(w, w2) && Evolves(w.rows, w2.rows)
    requires
      || !w2.recovered
      || (w2.recovered == w.recovered && w2.inflight == w.inflight)
      || (forall i :: 0 <= i < |w2.rows| && w2.rows[i].destination.Telegram? ==> !w2.rows[i].state.Sending?)
    requires Bounded(w)
    ensures Bounded(w2)
  {
    forall i | 0 <= i < |w2.rows| && w2.rows[i].destination.Telegram?
      ensures AttemptsBounded(w2, i)
    {
      if i < |w.rows| {
        assert AttemptsBounded(w, i);
        assert Kept(w, w2, i) || Closed(w, w2, i) || Requeued(w, w2, i) || Interrupted(w, w2, i);
      } else {
        assert Unsent(w2, i);
      }
    }
  }

  /** New root attempts come after every sent one of their run, or are settled at once. */
  predicate FreshInOrder(w: World, w2: World)
    requires WorldOk(w) && WorldOk(w2) && |w.rows| <= |w2.rows|
  {
    forall k :: |w.rows| <= k < |w2.rows| && RootAttempt(w2.rows[k]) ==>
      Terminal(w2.rows[k].state) || !HasChunks(w.rows, w2.rows[k].run)
  }

  lemma QuietKeepsOrder(w: World, w2: World)
    requires WorldOk(w) && WorldOk(w2) && Quiet(w, w2) && Evolves(w.rows, w2.rows) && FreshInOrder(w, w2)
    requires InOrder(w)
    ensures InOrder(w2)
  {
    forall j, k | 0 <= j < |w2.rows| && 0 <= k < |w2.rows| && RootAttempt(w2.rows[j]) && RootAttempt(w2.rows[k])
        && w2.rows[j].run == w2.rows[k].run && w2.rows[j].attempt > 0 && ChunkBefore(w2.rows[k], w2.rows[j])
      ensures Terminal(w2.rows[k].state)
    {
      assert SameIdentity(w.rows[j], w2.rows[j]) && w.rows[j].attempt == w2.rows[j].attempt;
      if k < |w.rows| {
        assert SameIdentity(w.rows[k], w2.rows[k]);
        assert Terminal(w.rows[k].state);
      }
    }
  }

  lemma CreatedInOrder(w: World, e: Event)
    requires WorldOk(w) && (e.CreateSkip? || e.CreateDigest?) && Step(w, e).Some?
    requires WorldOk(Step(w, e).value)
    ensures FreshInOrder(w, Step(w, e).value)
  {
  }

  /** A resend points back; every other remaining step adds no attempt. */
  lemma OthersInOrder(w: World, e: Event)
    requires WorldOk(w) && IsQuiet(e) && !e.CreateSkip? && !e.CreateDigest? && !e.Retry? && Step(w, e).Some?
    requires WorldOk(Step(w, e).value) && |w.rows| <= |Step(w, e).value.rows|
    ensures FreshInOrder(w, Step(w, e).value)
  {
  }

  lemma FreshAttemptsInOrder(w: World, e: Event)
    requires WorldOk(w) && IsQuiet(e)
    ensures WorldOk(After(w, e)) && |w.rows| <= |After(w, e).rows| && FreshInOrder(w, After(w, e))
  {
    StepKeepsWorld(w, e);
    if Step(w, e).Some? {
      if e.Retry? {
        RetryAddsNoRoots(w, e);
      } else if e.CreateSkip? || e.CreateDigest? {
        CreatedInOrder(w, e);
      } else {
        OthersInOrder(w, e);
      }
    }
  }

  lemma RetryAddsNoRoots(w: World, e: Event)
    requires e.Retry?
    ensures forall k :: |w.rows| <= k < |RetryRows(w, e)| ==> RetryRows(w, e)[k].revisionOf.Some?
  {
    forall k | |w.rows| <= k < |RetryRows(w, e)|
      ensures RetryRows(w, e)[k].revisionOf.Some?
    {
      RedirectMoves(w, e, k);
    }
  }

  lemma QuietKeepsInv(w: World, e: Event)
    requires Inv(w) && IsQuiet(e)
    ensures Inv(After(w, e))
  {
    var w2 := After(w, e);
    StepKeepsWorld(w, e);
    QuietSteps(w, e);
    FamiliesStay(w, e);
    InflightStays(w, e);
    QuietInflight(w, e);
    QuietKeepsFamily(w, w2);
    QuietKeepsBounds(w, w2);
    FreshAttemptsInOrder(w, e);
    QuietKeepsOrder(w, w2);
  }

  lemma QuietInflight(w: World, e: Event)
    requires WorldOk(w) && InflightOk(w) && IsQuiet(e)
    ensures var w2 := After(w, e);
      && (w2.inflight.None? || w2.inflight == w.inflight)
      && (|| !w2.recovered
          || (w2.recovered == w.recovered && w2.inflight == w.inflight)
          || (forall i :: 0 <= i < |w2.rows| && w2.rows[i].destination.Telegram? ==> !w2.rows[i].state.Sending?))
  {
  }

  // Sends and outcomes.

  lemma SentKeepsBounds(w: World, w2: World, i: nat, now: int)
    requires Inv(w) && WorldOk(w2) && MayDispatch(w, i, now)
    requires w2.rows == w.rows[i := SendingRow(w.rows[i], now)] && w2.inflight == Some(i) && w2.extra == w.extra
    ensures Bounded(w2)
  {
    assert OfRun(w.rows[i], w.rows[i].run) && !w.rows[i].state.UnknownDelivery?;
    assert RowOk(w.rows, i);
    forall k | 0 <= k < |w2.rows| && w2.rows[k].destination.Telegram?
      ensures AttemptsBounded(w2, k)
    {
      assert AttemptsBounded(w, k);
    }
  }

  lemma SentKeepsInv(w: World, i: nat, now: int)
    requires Inv(w) && Step(w, DispatchAttempt(i, now)).Some?
    ensures Inv(Step(w, DispatchAttempt(i, now)).value)
  {
    var w2 := Step(w, DispatchAttempt(i, now)).value;
    var sent := SendingRow(w.rows[i], now);
    UpdateKeepsWorld(w, i, sent, w.rows[i].state);
    assert w2.rows == w.rows[i := sent];
    SentKeepsFamily(w, w2, i, now);
    SentKeepsBounds(w, w2, i, now);
    assert InOrder(w2);
  }

  lemma SentKeepsFamily(w: World, w2: World, i: nat, now: int)
    requires Inv(w) && WorldOk(w2) && MayDispatch(w, i, now)
    requires w2.runs == w.runs && w2.rows == w.rows[i := SendingRow(w.rows[i], now)] && w2.inflight == Some(i)
    ensures OneRunPerFamily(w2)
  {
    forall k | 0 <= k < |w2.rows| && Confirmed(w2, k)
      ensures k != i && Confirmed(w, k) && w2.rows[k] == w.rows[k]
    {
    }
    if RootAttempt(w.rows[i]) {
      assert !FamilyBlocked(w.runs, w.rows, w.rows[i].run);
    }
  }

  lemma NoCredentialKeepsInv(w: World, i: nat, now: int)
    requires Inv(w) && Step(w, CredentialMissing(i, now)).Some?
    ensures Inv(Step(w, CredentialMissing(i, now)).value)
  {
    var w2 := Step(w, CredentialMissing(i, now)).value;
    var row := NoCredentialRow(w.rows[i], now);
    UpdateKeepsWorld(w, i, row, w.rows[i].state);
    assert w2.rows == w.rows[i := row];
    forall k | 0 <= k < |w2.rows| && Confirmed(w2, k)
      ensures k != i && Confirmed(w, k) && w2.rows[k] == w.rows[k]
    {
    }
    forall k | 0 <= k < |w2.rows| && w2.rows[k].destination.Telegram?
      ensures AttemptsBounded(w2, k)
    {
      assert AttemptsBounded(w, k);
    }
    RewriteKeepsOrder(w, w2);
  }

  lemma SettledKeepsFamily(w: World, w2: World, i: nat, row: Row)
    requires Inv(w) && WorldOk(w2) && w.inflight == Some(i) && SameIdentity(w.rows[i], row)
    requires w2.runs == w.runs && w2.rows == w.rows[i := row] && w2.inflight.None?
    ensures OneRunPerFamily(w2)
  {
    forall k | 0 <= k < |w2.rows| && Confirmed(w2, k) && k != i
      ensures Confirmed(w, k) && w2.rows[k] == w.rows[k]
    {
    }
  }

  lemma SettledRowBounded(row: Row, outcome: SendOutcome, now: int, extra: nat)
    requires row.destination.Telegram? && row.state.Sending? && 1 <= row.attempt <= 4 + extra
    requires row.nextAttemptAt.None?
    ensures var r := SettledRow(row, outcome, now);
      && r.attempt == row.attempt && !r.state.Pending? && !r.state.Sending?
      && (r.state.Failed? && r.nextAttemptAt.Some? ==>
        1 <= r.attempt <= 3 && r.nextAttemptAt.value >= EarliestRetry(r))
  {
  }

  lemma SettledKeepsBounds(w: World, w2: World, i: nat, outcome: SendOutcome, now: int)
    requires Inv(w) && WorldOk(w2) && w.inflight == Some(i) && i < |w.rows|
    requires w2.rows == w.rows[i := SettledRow(w.rows[i], outcome, now)] && w2.extra == w.extra && w2.recovered == w.recovered
    ensures Bounded(w2)
  {
    SettledRowBounded(w.rows[i], outcome, now, w.extra[i]) by {
      assert AttemptsBounded(w, i);
    }
    forall k | 0 <= k < |w2.rows| && w2.rows[k].destination.Telegram?
      ensures AttemptsBounded(w2, k)
    {
      assert AttemptsBounded(w, k);
    }
  }

  /** No row is sent, and a settled one stays settled. */
  lemma RewriteKeepsOrder(w: World, w2: World)
    requires WorldOk(w) && WorldOk(w2) && InOrder(w) && Evolves(w.rows, w2.rows) && |w2.rows| == |w.rows|
    requires forall i :: 0 <= i < |w.rows| ==> w2.rows[i].attempt == w.rows[i].attempt
    ensures InOrder(w2)
  {
    forall j, k | 0 <= j < |w2.rows| && 0 <= k < |w2.rows| && RootAttempt(w2.rows[j]) && RootAttempt(w2.rows[k])
        && w2.rows[j].run == w2.rows[k].run && w2.rows[j].attempt > 0 && ChunkBefore(w2.rows[k], w2.rows[j])
      ensures Terminal(w2.rows[k].state)
    {
      assert SameIdentity(w.rows[j], w2.rows[j]) && SameIdentity(w.rows[k], w2.rows[k]);
      assert Terminal(w.rows[k].state);
    }
  }

  lemma OutcomeKeepsInv(w: World, outcome: SendOutcome, now: int)
    requires Inv(w) && Step(w, Outcome(outcome, now)).Some?
    ensures Inv(Step(w, Outcome(outcome, now)).value)
  {
    var w2 := Step(w, Outcome(outcome, now)).value;
    var i := w.inflight.value;
    var row := SettledRow(w.rows[i], outcome, now);
    assert RowOk(w.rows, i);
    UpdateKeepsWorld(w, i, row, Sending);
    SettledKeepsFamily(w, w2, i, row);
    SettledKeepsBounds(w, w2, i, outcome, now);
    RewriteKeepsOrder(w, w2);
  }

  lemma LostKeepsInv(w: World, i: nat)
    requires Inv(w) && Step(w, OutcomeLost(i)).Some?
    ensures Inv(Step(w, OutcomeLost(i)).value)
  {
    var w2 := Step(w, OutcomeLost(i)).value;
    forall k | 0 <= k < |w2.rows| && w2.rows[k].destination.Telegram?
      ensures AttemptsBounded(w2, k)
    {
      assert AttemptsBounded(w, k);
    }
    RewriteKeepsOrder(w, w2);
    assert forall k :: 0 <= k < |w2.rows| ==> (Confirmed(w2, k) <==> Confirmed(w, k));
  }

  lemma StepKeepsInv(w: World, e: Event)
    requires Inv(w)
    ensures Inv(After(w, e))
  {
    if IsQuiet(e) {
      QuietKeepsInv(w, e);
    } else if Step(w, e).Some? {
      match e
      case DispatchAttempt(i, now) => SentKeepsInv(w, i, now);
      case CredentialMissing(i, now) => NoCredentialKeepsInv(w, i, now);
      case Outcome(outcome, now) => OutcomeKeepsInv(w, outcome, now);
      case OutcomeLost(i) => LostKeepsInv(w, i);
    }
  }

  // Commands that arrive while a run is being delivered.

  /** The commands that can run while a run is being delivered; the others are refused as busy. */
  predicate Concurrent(e: Event) {
    e.Settings? || e.Enqueue? || e.ResolveUnknown?
  }

  predicate HadUnknown(rows: seq<Row>, run: nat) {
    exists u :: 0 <= u < |rows| && rows[u].run == run && rows[u].destination.Telegram? && rows[u].state.UnknownDelivery?
  }

  lemma {:induction false} AncestorsStay(runs: seq<Run>, more: seq<Run>, rows: seq<Row>, after: seq<Row>, ancestor: Option<nat>)
    requires RunsOk(runs) && RunsOk(more) && runs <= more
    requires ancestor.Some? ==> ancestor.value < |runs|
    requires |rows| <= |after|
    requires forall i :: 0 <= i < |rows| ==>
      || after[i] == rows[i]
      || (rows[i].run == after[i].run && rows[i].destination.Telegram? && rows[i].state.UnknownDelivery?)
    requires forall i :: |rows| <= i < |after| ==> HadUnknown(rows, after[i].run)
    ensures AncestorBlocked(more, after, ancestor) ==> AncestorBlocked(runs, rows, ancestor)
    decreases if ancestor.Some? then ancestor.value + 1 else 0
  {
    if ancestor.Some? {
      var a := ancestor.value;
      if exists i :: 0 <= i < |after| && after[i].run == a && after[i].destination.Telegram?
          && (after[i].state.Succeeded? || after[i].state.UnknownDelivery? || after[i].state.Pending? || after[i].state.Sending?)
      {
        var i :| 0 <= i < |after| && after[i].run == a && after[i].destination.Telegram?
          && (after[i].state.Succeeded? || after[i].state.UnknownDelivery? || after[i].state.Pending? || after[i].state.Sending?);
        if i < |rows| {
          assert rows[i].run == a;
        } else {
          assert HadUnknown(rows, after[i].run);
        }
      } else {
        AncestorsStay(runs, more, rows, after, runs[a].revisionOf);
      }
    }
  }

  /** Changing or adding rows of one run does not block the runs before it. */
  lemma {:induction false} AncestorsIgnore(runs: seq<Run>, rows: seq<Row>, after: seq<Row>, r: nat, ancestor: Option<nat>)
    requires RunsOk(runs) && |after| >= |rows|
    requires ancestor.Some? ==> ancestor.value < r && ancestor.value < |runs|
    requires forall i :: 0 <= i < |rows| ==> after[i] == rows[i] || (rows[i].run == r && after[i].run == r)
    requires forall i :: |rows| <= i < |after| ==> after[i].run == r
    ensures AncestorBlocked(runs, after, ancestor) ==> AncestorBlocked(runs, rows, ancestor)
    decreases if ancestor.Some? then ancestor.value + 1 else 0
  {
    if ancestor.Some? {
      var a := ancestor.value;
      AncestorsIgnore(runs, rows, after, r, runs[a].revisionOf);
    }
  }

  /** Work on a run cannot block it. */
  lemma OwnRowsBlockNothing(w: World, w2: World, r: nat)
    requires WorldOk(w) && WorldOk(w2) && r < |w.runs| && w2.runs == w.runs && |w2.rows| >= |w.rows|
    requires forall i :: 0 <= i < |w.rows| ==> w2.rows[i] == w.rows[i] || (w.rows[i].run == r && w2.rows[i].run == r)
    requires forall i :: |w.rows| <= i < |w2.rows| ==> w2.rows[i].run == r
    ensures Blocked(w2, r) ==> Blocked(w, r)
  {
    AncestorsIgnore(w.runs, w.rows, w2.rows, r, w.runs[r].revisionOf);
  }

  /** A resolution is the only concurrent command that touches the rows. */
  lemma CommandRows(w: World, e: Event)
    requires WorldOk(w) && Concurrent(e) && Step(w, e).Some?
    ensures var after := Step(w, e).value.rows;
      && |w.rows| <= |after|
      && (forall i :: 0 <= i < |w.rows| ==>
        || after[i] == w.rows[i]
        || (w.rows[i].run == after[i].run && w.rows[i].destination.Telegram? && w.rows[i].state.UnknownDelivery?
            && after[i].state.Reviewed?))
      && (forall i :: |w.rows| <= i < |after| ==> HadUnknown(w.rows, after[i].run) && after[i].state.Pending?)
  {
    if e.ResolveUnknown? {
      assert w.rows[e.i].destination.Telegram? && w.rows[e.i].state.UnknownDelivery?;
    }
  }

  /** A run that may deliver cannot be blocked by commands that arrive before its dispatch. */
  lemma UnblockedStays(w: World, e: Event, r: nat)
    requires WorldOk(w) && r < |w.runs| && Concurrent(e) && Step(w, e).Some? && !Blocked(w, r)
    ensures WorldOk(Step(w, e).value) && r < |Step(w, e).value.runs| && !Blocked(Step(w, e).value, r)
  {
    var w2 := Step(w, e).value;
    StepKeepsWorld(w, e);
    FamiliesStay(w, e);
    CommandRows(w, e);
    assert w2.runs[r] == w.runs[r] && w.runs <= w2.runs;
    AncestorsStay(w.runs, w2.runs, w.rows, w2.rows, w.runs[r].revisionOf);
  }

  // Whole runs.

  /** The world after `events`, from a machine that has never delivered anything. */
  function Play(start: World, events: seq<Event>): (w: World)
    requires WorldOk(start)
    ensures WorldOk(w)
  {
    if events == [] then start
    else
      var before := Play(start, events[..|events| - 1]);
      StepKeepsWorld(before, events[|events| - 1]);
      After(before, events[|events| - 1])
  }

  const NEVER_STARTED: World := World([], [], [], [], false, None, false, None, None)

  lemma {:induction false} PlayKeepsInv(events: seq<Event>)
    ensures Inv(Play(NEVER_STARTED, events))
  {
    if events != [] {
      PlayKeepsInv(events[..|events| - 1]);
      StepKeepsInv(Play(NEVER_STARTED, events[..|events| - 1]), events[|events| - 1]);
    }
  }

  /** One run per family: in every run of the machine, all confirmed root attempts of one revision family
      belong to a single report run. */
  lemma OneRunDelivers(events: seq<Event>, i: nat, j: nat)
    requires var w := Play(NEVER_STARTED, events);
      Confirmed(w, i) && Confirmed(w, j) && RootAttempt(w.rows[i]) && RootAttempt(w.rows[j]) && Related(w, i, j)
    ensures var w := Play(NEVER_STARTED, events); w.rows[i].run == w.rows[j].run
  {
    PlayKeepsInv(events);
  }

  /** Runs in sequence. */
  lemma {:induction false} PlayConcat(start: World, a: seq<Event>, b: seq<Event>)
    requires WorldOk(start)
    ensures Play(start, a + b) == Play(Play(start, a), b)
    decreases |b|
  {
    if b == [] {
      assert a + b == a;
    } else {
      var n := |b| - 1;
      assert (a + b)[..|a + b| - 1] == a + b[..n];
      PlayConcat(start, a, b[..n]);
    }
  }

  lemma PlayOne(start: World, e: Event)
    requires WorldOk(start)
    ensures WorldOk(After(start, e)) && Play(start, [e]) == After(start, e)
  {
    StepKeepsWorld(start, e);
    assert [e][..0] == [];
  }

  lemma PlayMore(start: World, events: seq<Event>, e: Event)
    requires WorldOk(start)
    ensures WorldOk(After(Play(start, events), e)) && Play(start, events + [e]) == After(Play(start, events), e)
  {
    StepKeepsWorld(Play(start, events), e);
    assert (events + [e])[..|events|] == events;
  }

  /** In-order delivery: a chunk is only ever sent once every earlier chunk of its digest is settled. */
  lemma DeliveredInOrder(events: seq<Event>, j: nat, k: nat)
    requires var w := Play(NEVER_STARTED, events);
      && j < |w.rows| && k < |w.rows| && RootAttempt(w.rows[j]) && RootAttempt(w.rows[k])
      && w.rows[j].run == w.rows[k].run && w.rows[j].attempt > 0 && ChunkBefore(w.rows[k], w.rows[j])
    ensures Terminal(Play(NEVER_STARTED, events).rows[k].state)
  {
    PlayKeepsInv(events);
  }

  /** Settled attempts are final, and unknown ones stay unknown until an explicit resolution names them. */
  lemma {:induction false} SettledIsFinal(start: World, events: seq<Event>, i: nat)
    requires WorldOk(start) && i < |start.rows|
    ensures i < |Play(start, events).rows|
    ensures SameIdentity(start.rows[i], Play(start, events).rows[i])
    ensures Terminal(start.rows[i].state) ==> Play(start, events).rows[i] == start.rows[i]
    ensures
      (&& start.rows[i].destination.Telegram? && start.rows[i].state.UnknownDelivery?
       && (forall k :: 0 <= k < |events| && events[k].ResolveUnknown? ==> events[k].i != i)) ==>
      Play(start, events).rows[i] == start.rows[i]
  {
    if events != [] {
      var n := |events| - 1;
      SettledIsFinal(start, events[..n], i);
      var w := Play(start, events[..n]);
      StepKeepsWorld(w, events[n]);
      if start.rows[i].state.UnknownDelivery? && (forall k :: 0 <= k < |events| && events[k].ResolveUnknown? ==> events[k].i != i) {
        assert forall k :: 0 <= k < n ==> events[..n][k] == events[k];
        if start.rows[i].destination.Telegram? {
          UnknownStays(w, events[n], i);
        }
      }
    }
  }

  lemma UnknownStays(w: World, e: Event, i: nat)
    requires WorldOk(w) && i < |w.rows| && w.rows[i].destination.Telegram? && w.rows[i].state.UnknownDelivery?
    requires e.ResolveUnknown? ==> e.i != i
    ensures i < |After(w, e).rows| && After(w, e).rows[i] == w.rows[i]
  {
    if e.Retry? && Step(w, e).Some? {
      RedirectMoves(w, e, i);
    }
  }

  /** The only step into sending is a dispatch, and everything a dispatch needs held: all earlier attempts of the
      run settled, none unknown, the selected chat the frozen one, the retry time reached, and for a root
      attempt no confirmed or unknown delivery anywhere else in the family. */
  lemma SendingNeedsDispatch(w: World, e: Event, i: nat)
    requires Inv(w) && i < |After(w, e).rows|
    requires After(w, e).rows[i].destination.Telegram? && After(w, e).rows[i].state.Sending?
    requires i < |w.rows| ==> After(w, e).rows[i] != w.rows[i]
    ensures e.DispatchAttempt? && e.i == i && i < |w.rows|
    ensures w.rows[i].snapshot.Digest? && w.enabled && w.chat == Some(w.rows[i].snapshot.chat)
    ensures EarlierSettled(w.rows, i) && NoneUnknown(w.rows, w.rows[i].run)
    ensures w.rows[i].nextAttemptAt.Some? ==>
      1 <= w.rows[i].attempt <= 3 && EarliestRetry(w.rows[i]) <= w.rows[i].nextAttemptAt.value <= e.now
    ensures RootAttempt(w.rows[i]) ==>
      forall k ::
        (0 <= k < |w.rows| && w.rows[k].destination.Telegram? && w.rows[k].run != w.rows[i].run && Related(w, k, i)) ==>
        !w.rows[k].state.Succeeded? && !w.rows[k].state.UnknownDelivery?
  {
    if IsQuiet(e) {
      QuietSendsNothing(w, e, i);
      assert false;
    } else {
      SendingIsDispatch(w, e, i);
      assert AttemptsBounded(w, i) && RowOk(w.rows, i);
      assert OfRun(w.rows[i], w.rows[i].run);
      if RootAttempt(w.rows[i]) {
        assert !FamilyBlocked(w.runs, w.rows, w.rows[i].run);
      }
    }
  }

  lemma QuietSendsNothing(w: World, e: Event, i: nat)
    requires WorldOk(w) && IsQuiet(e) && i < |After(w, e).rows|
    requires After(w, e).rows[i].destination.Telegram? && After(w, e).rows[i].state.Sending?
    ensures i < |w.rows| && After(w, e).rows[i] == w.rows[i]
  {
    QuietSteps(w, e);
  }

  lemma SendingIsDispatch(w: World, e: Event, i: nat)
    requires WorldOk(w) && !IsQuiet(e) && i < |After(w, e).rows|
    requires After(w, e).rows[i].state.Sending?
    requires i < |w.rows| ==> After(w, e).rows[i] != w.rows[i]
    ensures e.DispatchAttempt? && e.i == i && MayDispatch(w, i, e.now)
  {
  }
}
