/** An explicit retry readdresses a digest to the trimmed chat id, while a send compares the chat id as it was
    configured (src-tauri/src/memory.rs). */
module PaddedChat {
  import opened Wrappers
  import opened DeliveryLedger
  import opened Retarget
  import opened Dispatch
  import opened DispatchSafety

  /** Everything a send needs, except that the attempt is addressed to the selected chat. */
  predicate OtherGuards(w: World, i: nat, now: int)
    requires WorldOk(w)
  {
    && i < |w.rows|
    && var row := w.rows[i];
       && w.recovered && w.inflight.None? && w.working == Some(row.run)
       && row.destination.Telegram? && row.snapshot.Digest? && w.enabled
       && NoneUnknown(w.rows, row.run) && EarlierSettled(w.rows, i) && Due(row, now)
       && (row.revisionOf.None? ==> !Blocked(w, row.run))
  }

  /** A row that a retry adds is addressed to the selected chat exactly when that chat has no blanks around it. */
  lemma AddedForTrimmedChat(w: World, e: Event, i: nat)
    requires e.Retry? && |w.rows| <= i < |RetryRows(w, e)|
    ensures var row := RetryRows(w, e)[i];
      && w.chat.Some? && row.destination.Telegram? && row.snapshot.Digest? && row.state.Pending? && row.attempt == 0
      && (ToChat(row, w.chat.value) <==> TargetOf(w.chat) == w.chat)
  {
    ProgressedRows(w.rows, e.of, TargetOf(w.chat).value, e.reviewed, e.created, e.now);
    var row := AfterRedirect(w, e.of, e.reviewed, e.created, e.now)[i];
    assert row == ReplacementOf(w.rows[row.revisionOf.value], row.revisionOf.value, TargetOf(w.chat).value, e.now);
  }

  predicate NoSettings(events: seq<Event>) {
    forall k :: 0 <= k < |events| ==> !events[k].Settings?
  }

  lemma {:induction false} ChatStays(start: World, events: seq<Event>)
    requires WorldOk(start) && NoSettings(events)
    ensures Play(start, events).chat == start.chat && Play(start, events).enabled == start.enabled
  {
    if events != [] {
      ChatStays(start, events[..|events| - 1]);
      SettingsStay(Play(start, events[..|events| - 1]), events[|events| - 1]);
    }
  }

  lemma SettingsStay(w: World, e: Event)
    requires WorldOk(w) && !e.Settings?
    ensures After(w, e).chat == w.chat && After(w, e).enabled == w.enabled
  {
  }

  /** An attempt for another chat waits for the settings. */
  lemma {:induction false} OtherChatWaits(start: World, events: seq<Event>, i: nat)
    requires WorldOk(start) && NoSettings(events) && i < |start.rows| && start.rows[i].destination.Telegram?
    requires start.rows[i].snapshot.Digest? && Some(start.rows[i].snapshot.chat) != start.chat
    ensures var w := Play(start, events); i < |w.rows| && w.rows[i].attempt == start.rows[i].attempt
  {
    SettledIsFinal(start, events, i);
    if events != [] {
      var n := |events| - 1;
      OtherChatWaits(start, events[..n], i);
      ChatStays(start, events[..n]);
      SettledIsFinal(start, events[..n], i);
      NotSentNow(Play(start, events[..n]), events[n], i);
    }
  }

  lemma DispatchNeedsChat(w: World, i: nat, now: int)
    requires WorldOk(w) && i < |w.rows| && w.rows[i].snapshot.Digest?
    ensures MayDispatch(w, i, now) <==> OtherGuards(w, i, now) && w.chat == Some(w.rows[i].snapshot.chat)
  {
  }

  lemma AddedRow(start: World, e: Event, i: nat)
    requires WorldOk(start) && e.Retry? && Step(start, e).Some? && |start.rows| <= i < |Step(start, e).value.rows|
    ensures WorldOk(After(start, e)) && After(start, e).chat == start.chat
    ensures var row := After(start, e).rows[i];
      && row.destination.Telegram? && row.snapshot.Digest? && row.attempt == 0
      && (start.chat == Some(row.snapshot.chat) <==> TargetOf(start.chat) == start.chat)
  {
    StepKeepsWorld(start, e);
    RetryWrites(start, e);
    AddedForTrimmedChat(start, e, i);
    assert After(start, e).rows == RetryRows(start, e);
  }

  /** As long as the settings stay, a row that a retry added may be sent exactly when the chat id is trimmed and
      the other guards hold; otherwise none of them is ever sent. */
  lemma AddedRowsDispatch(start: World, e: Event, events: seq<Event>, i: nat, now: int)
    requires WorldOk(start) && e.Retry? && Step(start, e).Some? && NoSettings(events)
    requires |start.rows| <= i < |Step(start, e).value.rows|
    ensures WorldOk(After(start, e))
    ensures var w := Play(After(start, e), events);
      && i < |w.rows|
      && (MayDispatch(w, i, now) <==> OtherGuards(w, i, now) && TargetOf(start.chat) == start.chat)
      && (TargetOf(start.chat) != start.chat ==> w.rows[i].attempt == 0)
  {
    AddedRow(start, e, i);
    WaitingRow(After(start, e), events, i, now);
  }

  lemma WaitingRow(start: World, events: seq<Event>, i: nat, now: int)
    requires WorldOk(start) && NoSettings(events) && i < |start.rows| && start.rows[i].destination.Telegram?
    requires start.rows[i].snapshot.Digest?
    ensures var w := Play(start, events);
      && i < |w.rows|
      && (MayDispatch(w, i, now) <==> OtherGuards(w, i, now) && start.chat == Some(start.rows[i].snapshot.chat))
      && (start.chat != Some(start.rows[i].snapshot.chat) ==> w.rows[i].attempt == start.rows[i].attempt)
  {
    SettledIsFinal(start, events, i);
    ChatStays(start, events);
    DispatchNeedsChat(Play(start, events), i, now);
    if start.chat != Some(start.rows[i].snapshot.chat) {
      OtherChatWaits(start, events, i);
    }
  }

  /** Only a dispatch of it counts an attempt up. */
  lemma NotSentNow(w: World, e: Event, i: nat)
    requires WorldOk(w) && i < |w.rows| && w.rows[i].destination.Telegram?
    requires e.DispatchAttempt? ==> !MayDispatch(w, i, e.now)
    ensures i < |After(w, e).rows| && After(w, e).rows[i].attempt == w.rows[i].attempt
  {
    StepKeepsWorld(w, e);
    assert SameIdentity(w.rows[i], After(w, e).rows[i]);
    if IsQuiet(e) {
      QuietSteps(w, e);
    } else {
      OutcomesKeepAttempts(w, e, i);
    }
  }

  lemma OutcomesKeepAttempts(w: World, e: Event, i: nat)
    requires WorldOk(w) && i < |w.rows| && !IsQuiet(e)
    requires e.DispatchAttempt? ==> !MayDispatch(w, i, e.now)
    ensures i < |After(w, e).rows| && After(w, e).rows[i].attempt == w.rows[i].attempt
  {
  }

  // The run as a whole.

  /** Unfinished, never in flight, and not addressed to the selected chat. */
  predicate Misaddressed(row: Row, chat: Option<string>) {
    (row.state.Pending? || row.state.Failed?) && (row.snapshot.Digest? ==> Some(row.snapshot.chat) != chat)
  }

  predicate StalledRows(rows: seq<Row>, chat: Option<string>, r: nat) {
    HasChunks(rows, r)
    && forall i :: 0 <= i < |rows| && OfRun(rows[i], r) ==> Terminal(rows[i].state) || Misaddressed(rows[i], chat)
  }

  /** The digest of `r` exists and no attempt of it can be sent. */
  predicate Stalled(w: World, r: nat) {
    StalledRows(w.rows, w.chat, r)
  }

  /** An attempt that was not in flight or unknown is settled or readdressed. */
  lemma OldRowStalls(w: World, e: Event, i: nat)
    requires WorldOk(w) && e.Retry? && i < |w.rows| && OfRun(w.rows[i], e.of) && i in e.reviewed
    requires TargetOf(w.chat).Some? && TargetOf(w.chat) != w.chat
    requires !w.rows[i].state.Sending? && !w.rows[i].state.UnknownDelivery?
    ensures var row := RetryRows(w, e)[i]; Terminal(row.state) || Misaddressed(row, w.chat)
  {
    ProgressedRows(w.rows, e.of, TargetOf(w.chat).value, e.reviewed, e.created, e.now);
    assert RowOk(w.rows, i);
  }

  lemma ChunksEvolve(before: seq<Row>, after: seq<Row>, r: nat)
    requires Evolves(before, after) && HasChunks(before, r)
    ensures HasChunks(after, r)
  {
    var i :| 0 <= i < |before| && OfRun(before[i], r) && before[i].chunk.Some?;
    assert SameIdentity(before[i], after[i]);
  }

  /** A finished retry stalls the run when the chat id is padded and nothing of it was in flight or unknown. */
  lemma RetryStalls(w: World, e: Event)
    requires WorldOk(w) && e.Retry? && Step(w, e).Some? && HasChunks(w.rows, e.of)
    requires Listing(w.rows, e.of, e.reviewed) && TargetOf(w.chat).Some? && TargetOf(w.chat) != w.chat
    requires forall i :: 0 <= i < |w.rows| && OfRun(w.rows[i], e.of) ==>
      !w.rows[i].state.Sending? && !w.rows[i].state.UnknownDelivery?
    ensures Stalled(Step(w, e).value, e.of)
  {
    var rows := RetryRows(w, e);
    RetryKeepsWorld(w, e);
    ChunksEvolve(w.rows, rows, e.of);
    forall i | 0 <= i < |rows| && OfRun(rows[i], e.of)
      ensures Terminal(rows[i].state) || Misaddressed(rows[i], w.chat)
    {
      if i >= |w.rows| {
        AddedForTrimmedChat(w, e, i);
      } else {
        assert SameIdentity(w.rows[i], rows[i]) && i in e.reviewed;
        OldRowStalls(w, e, i);
      }
    }
    assert StalledRows(rows, w.chat, e.of);
    RetryWrites(w, e);
  }

  lemma ChunksStay(w: World, e: Event)
    requires WorldOk(w)
    ensures forall r :: HasChunks(w.rows, r) ==> HasChunks(After(w, e).rows, r)
  {
    StepKeepsWorld(w, e);
    forall r | HasChunks(w.rows, r)
      ensures HasChunks(After(w, e).rows, r)
    {
      var i :| 0 <= i < |w.rows| && OfRun(w.rows[i], r) && w.rows[i].chunk.Some?;
      assert SameIdentity(w.rows[i], After(w, e).rows[i]);
    }
  }

  lemma RowStaysStalled(w: World, e: Event, r: nat, i: nat)
    requires WorldOk(w) && e.Retry? && TargetOf(w.chat) != w.chat && Stalled(w, r) && i < |RetryRows(w, e)|
    requires OfRun(RetryRows(w, e)[i], r)
    ensures var row := RetryRows(w, e)[i]; Terminal(row.state) || Misaddressed(row, w.chat)
  {
    if i >= |w.rows| {
      AddedForTrimmedChat(w, e, i);
    } else {
      RedirectMoves(w, e, i);
      assert OfRun(w.rows[i], r);
    }
  }

  lemma StalledByRetry(w: World, e: Event, r: nat)
    requires WorldOk(w) && e.Retry? && Step(w, e).Some? && TargetOf(w.chat) != w.chat && Stalled(w, r)
    ensures Stalled(Step(w, e).value, r)
  {
    var rows := RetryRows(w, e);
    RetryKeepsWorld(w, e);
    ChunksEvolve(w.rows, rows, r);
    forall i | 0 <= i < |rows| && OfRun(rows[i], r)
      ensures Terminal(rows[i].state) || Misaddressed(rows[i], w.chat)
    {
      RowStaysStalled(w, e, r, i);
    }
    assert StalledRows(rows, w.chat, r);
    RetryWrites(w, e);
  }

  lemma StalledByWrite(w: World, e: Event, r: nat)
    requires WorldOk(w) && (!IsQuiet(e) || e.FileUpdate? || e.Recovery?) && Step(w, e).Some? && Stalled(w, r)
    ensures Stalled(Step(w, e).value, r)
  {
    ChunksStay(w, e);
    var w2 := Step(w, e).value;
    assert w2.chat == w.chat && |w2.rows| == |w.rows|;
    forall i | 0 <= i < |w2.rows| && OfRun(w2.rows[i], r)
      ensures Terminal(w2.rows[i].state) || Misaddressed(w2.rows[i], w2.chat)
    {
      assert OfRun(w.rows[i], r);
    }
  }

  lemma StalledByOther(w: World, e: Event, r: nat)
    requires WorldOk(w) && IsQuiet(e) && !e.FileUpdate? && !e.Recovery? && !e.Retry? && !e.Settings?
    requires Step(w, e).Some? && Stalled(w, r)
    ensures Stalled(Step(w, e).value, r)
  {
    ChunksStay(w, e);
    var w2 := Step(w, e).value;
    forall i | 0 <= i < |w2.rows| && OfRun(w2.rows[i], r)
      ensures Terminal(w2.rows[i].state) || Misaddressed(w2.rows[i], w2.chat)
    {
      if i < |w.rows| {
        assert OfRun(w.rows[i], r) ==> Terminal(w.rows[i].state) || Misaddressed(w.rows[i], w.chat);
      }
    }
  }

  /** Over every run that leaves the settings alone, a stalled digest stays stalled, whatever is retried. */
  lemma {:induction false} StalledStays(start: World, events: seq<Event>, r: nat, i: nat, now: int)
    requires WorldOk(start) && NoSettings(events) && Stalled(start, r) && TargetOf(start.chat) != start.chat
    ensures var w := Play(start, events);
      Stalled(w, r) && (i < |w.rows| && OfRun(w.rows[i], r) ==> !MayDispatch(w, i, now))
  {
    ChatStays(start, events);
    if events != [] {
      var n := |events| - 1;
      StalledStays(start, events[..n], r, i, now);
      var w := Play(start, events[..n]);
      ChatStays(start, events[..n]);
      if Step(w, events[n]).Some? {
        if events[n].Retry? {
          StalledByRetry(w, events[n], r);
        } else if !IsQuiet(events[n]) || events[n].FileUpdate? || events[n].Recovery? {
          StalledByWrite(w, events[n], r);
        } else {
          StalledByOther(w, events[n], r);
        }
      }
    }
  }

  // One padded chat.

  const PADDED: string := " A"
  const REPORT: Dispatch.Run := Dispatch.Run(None, true, Some(PADDED))
  const ADDRESSED: Row := NewRow(0, Pending, Digest(PADDED, "x"), Some(0), Some(1), None, 0)

  lemma PaddedTarget()
    ensures TargetOf(Some(PADDED)) == Some("A") && Some("A") != Some(PADDED)
  {
    assert TrimStart(" A") == TrimStart("A") == "A" by {
      assert " A"[1..] == "A";
    }
    assert TrimEnd("A") == "A";
    assert |"A"| != |PADDED|;
  }

  function Delivering(rows: seq<Row>, extra: seq<nat>, phase: Phase, working: Option<nat>): (w: World) {
    World([REPORT], [Status(phase, true)], rows, extra, true, Some(PADDED), true, working, None)
  }

  const REPORTED: seq<Event> := [Recovery(0), Settings(true, Some(PADDED)), Enqueue(REPORT), Claim(0, true)]

  lemma ReportIsSaved()
    ensures WorldOk(Delivering([], [], Closed, Some(0))) && Play(NEVER_STARTED, REPORTED) == Delivering([], [], Closed, Some(0))
  {
    var e := REPORTED;
    PlayOne(NEVER_STARTED, e[0]);
    PlayMore(NEVER_STARTED, [e[0]], e[1]);
    PlayMore(NEVER_STARTED, [e[0]] + [e[1]], e[2]);
    PlayMore(NEVER_STARTED, [e[0]] + [e[1]] + [e[2]], e[3]);
    assert REPORTED == [e[0]] + [e[1]] + [e[2]] + [e[3]];
  }

  const CREATED: seq<Event> := REPORTED + [CreateDigest(true, ["x"], 0)]

  lemma ReadyToSend()
    ensures var w := Delivering([ADDRESSED], [0], Closed, Some(0)); WorldOk(w) && MayDispatch(w, 0, 0)
  {
    var w := Delivering([ADDRESSED], [0], Closed, Some(0));
    assert RowOk(w.rows, 0);
    assert !FamilyBlocked(w.runs, w.rows, 0);
  }

  /** The digest is created for the padded chat. */
  lemma DigestIsCreated()
    ensures Play(NEVER_STARTED, CREATED) == Delivering([ADDRESSED], [0], Closed, Some(0))
  {
    ReportIsSaved();
    var w := Delivering([], [], Closed, Some(0));
    assert !FamilyBlocked(w.runs, w.rows, 0) && !HasChunks(w.rows, 0);
    assert Intents(0, PADDED, ["x"], 0) == [ADDRESSED] && [] + [ADDRESSED] == [ADDRESSED];
    assert [] + Zeros(1) == [0];
    PlayMore(NEVER_STARTED, REPORTED, CreateDigest(true, ["x"], 0));
  }

  const STOPPED: World := Delivering([ADDRESSED], [0], Closed, None)

  lemma StopsDelivering()
    ensures WorldOk(STOPPED) && Play(NEVER_STARTED, CREATED + [Stop]) == STOPPED
  {
    DigestIsCreated();
    ReadyToSend();
    PlayMore(NEVER_STARTED, CREATED, Stop);
  }

  const RETRY: Event := Retry(0, [0], [0], [0, 1], true, 0)

  lemma RetriedOnce()
    ensures RetryRows(STOPPED, RETRY) == [ReviewedRow(ADDRESSED, 0), ReplacementOf(ADDRESSED, 0, "A", 0)]
  {
    PaddedTarget();
    var rows := [ADDRESSED];
    assert Needs(rows, 0, "A", 0);
    assert [0][..0] == [];
    assert Needed(rows, 0, "A", [0]) == [0];
    assert Marked(rows, 0, "A", [0], 0) == [ReviewedRow(ADDRESSED, 0)];
    assert Replacements(rows, 0, "A", [0], 0) == [ReplacementOf(ADDRESSED, 0, "A", 0)];
  }

  lemma RetryStallsReport()
    ensures WorldOk(STOPPED) && Step(STOPPED, RETRY).Some? && Stalled(Step(STOPPED, RETRY).value, 0)
  {
    StopsDelivering();
    PaddedTarget();
    assert HasChunks(STOPPED.rows, 0) by {
      assert OfRun(STOPPED.rows[0], 0);
    }
    assert Listing(STOPPED.rows, 0, [0]);
    RetryStalls(STOPPED, RETRY);
  }

  /** The retry is granted and stalls the report. */
  lemma PlayedRetry()
    ensures var w := Play(NEVER_STARTED, CREATED + [Stop] + [RETRY]);
      w.rows == RetryRows(STOPPED, RETRY) && w.chat == Some(PADDED) && Stalled(w, 0)
  {
    StopsDelivering();
    RetryStallsReport();
    AfterTheRetry(NEVER_STARTED, CREATED + [Stop], STOPPED, RETRY, 0);
  }

  lemma AfterTheRetry(start: World, events: seq<Event>, w: World, e: Event, r: nat)
    requires WorldOk(start) && Play(start, events) == w && WorldOk(w) && e.Retry? && Step(w, e).Some?
    requires Stalled(Step(w, e).value, r)
    ensures var w2 := Play(start, events + [e]); w2.rows == RetryRows(w, e) && w2.chat == w.chat && Stalled(w2, r)
  {
    PlayAfter(start, events, w, e);
    RetryWrites(w, e);
  }

  lemma PlayAfter(start: World, events: seq<Event>, w: World, e: Event)
    requires WorldOk(start) && Play(start, events) == w && WorldOk(w) && Step(w, e).Some?
    ensures Play(start, events + [e]) == Step(w, e).value
  {
    PlayMore(start, events, e);
    assert Play(start, events + [e]) == After(w, e);
  }

  /** Chat " A": the digest may be sent until the user retries; after that neither the old row nor the new one is
      ever sent, however the run continues, unless the settings change. */
  lemma PaddedChatStalls(events: seq<Event>, i: nat, now: int)
    requires NoSettings(events)
    ensures MayDispatch(Play(NEVER_STARTED, CREATED), 0, 0)
    ensures var stopped := Play(NEVER_STARTED, CREATED + [Stop]);
      var retried := Play(NEVER_STARTED, CREATED + [Stop] + [RETRY]);
      && stopped.rows == [ADDRESSED]
      && retried.rows == [ReviewedRow(ADDRESSED, 0), ReplacementOf(ADDRESSED, 0, "A", 0)]
      && var w := Play(retried, events);
         i < |w.rows| && OfRun(w.rows[i], 0) ==> !MayDispatch(w, i, now)
  {
    DigestIsCreated();
    ReadyToSend();
    StopsDelivering();
    RetriedOnce();
    PlayedRetry();
    PaddedTarget();
    StalledStays(Play(NEVER_STARTED, CREATED + [Stop] + [RETRY]), events, 0, i, now);
  }
}
