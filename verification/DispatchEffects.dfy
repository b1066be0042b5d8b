/** What each step of the delivery machine does to the table, field by field: the one attempt it concerns changes as
    promised, and nothing else changes (src-tauri/src/memory.rs, crates/store/src/memory.rs). */
module DispatchEffects {
  import opened Wrappers
  import opened Bytes
  import opened DeliveryLedger
  import opened Retarget
  import opened Dispatch
  import opened DispatchSafety

  /** Row `i` changed, and not in what identifies it; all others are as they were. */
  predicate OnlyRow(before: seq<Row>, after: seq<Row>, i: nat) {
    && i < |before| == |after| && SameIdentity(before[i], after[i])
    && forall k :: 0 <= k < |before| && k != i ==> after[k] == before[k]
  }

  /** A send counts up and clears what the last try left. */
  lemma DispatchEffect(w: World, i: nat, now: int)
    requires WorldOk(w) && Step(w, DispatchAttempt(i, now)).Some?
    ensures var w2 := Step(w, DispatchAttempt(i, now)).value;
      && OnlyRow(w.rows, w2.rows, i) && w2.(rows := w.rows, inflight := w.inflight) == w && w2.inflight == Some(i)
      && var row := w2.rows[i];
         && row.state.Sending? && row.attempt == w.rows[i].attempt + 1
         && row.nextAttemptAt.None? && row.error.None? && row.messageId == w.rows[i].messageId
  {
  }

  /** The pause before the next automatic try, in seconds. */
  function Pause(attempt: nat): (seconds: nat)
    requires 1 <= attempt <= 3
  {
    if attempt == 1 then 30 else if attempt == 2 then 120 else 600
  }

  /** A first attempt goes out only while no earlier revision of its report, however far back, has an attempt that is
      open, in flight, confirmed or unknown. */
  lemma DispatchNeedsAncestors(w: World, i: nat, now: int, a: nat, k: nat)
    requires WorldOk(w) && Step(w, DispatchAttempt(i, now)).Some? && w.rows[i].revisionOf.None?
    ensures !HeldBy(w.runs, w.rows, w.rows[i].run, a, k)
  {
    AncestorBlockedWhen(w.runs, w.rows, w.rows[i].run);
  }

  function Least(a: int, b: int): (m: int) {
    if a < b then a else b
  }

  /** An outcome is recorded for what it is: a confirmation with its message, an unknown one as unknown, a permanent
      rejection without a next try, a temporary one with a next try after 30, 120 or 600 seconds, or after the server's
      longer pause, and none after the fourth. */
  lemma OutcomeEffect(w: World, outcome: SendOutcome, now: int)
    requires Inv(w) && Step(w, Outcome(outcome, now)).Some? && IsI64(now)
    ensures var w2, i := Step(w, Outcome(outcome, now)).value, w.inflight.value;
      && OnlyRow(w.rows, w2.rows, i) && w2.(rows := w.rows, inflight := w.inflight) == w && w2.inflight.None?
      && var was, row := w.rows[i], w2.rows[i];
         && row.attempt == was.attempt
         && match outcome
            case Confirmed(id) => row.state.Succeeded? && row.messageId == Some(id) && row.nextAttemptAt.None?
            case Unknown => row.state.UnknownDelivery? && row.error.Some? && row.messageId == was.messageId && row.nextAttemptAt.None?
            case Permanent => row.state.Failed? && row.error.Some? && row.messageId == was.messageId && row.nextAttemptAt.None?
            case Retryable(secs) =>
              && row.state.Failed? && row.error.Some? && row.messageId == was.messageId
              && (if was.attempt <= 3 then
                    && 1 <= was.attempt && row.nextAttemptAt.Some?
                    && var pause := if secs > Pause(was.attempt) then secs else Pause(was.attempt);
                       0 <= now ==> row.nextAttemptAt.value == Least(I64_MAX, now + 1000 * pause)
                  else row.nextAttemptAt.None?)
  {
    var i := w.inflight.value;
    assert AttemptsBounded(w, i);
  }

  /** Without a credential the attempt fails until the user acts; nothing was sent. */
  lemma CredentialEffect(w: World, i: nat, now: int)
    requires WorldOk(w) && Step(w, CredentialMissing(i, now)).Some?
    ensures var w2 := Step(w, CredentialMissing(i, now)).value;
      && OnlyRow(w.rows, w2.rows, i) && w2.(rows := w.rows) == w
      && var row := w2.rows[i];
         && row.state.Failed? && row.nextAttemptAt.None? && row.error == Some(CredentialUnavailable)
         && row.attempt == w.rows[i].attempt && row.messageId == w.rows[i].messageId
  {
  }

  /** A resolution is granted exactly for an unknown Telegram attempt. It is reviewed; a resend adds one attempt with
      the same recipient, text and place in the digest. */
  lemma ResolutionEffect(w: World, i: nat, resend: bool, now: int)
    requires WorldOk(w)
    ensures Step(w, ResolveUnknown(i, resend, now)).Some? <==>
      i < |w.rows| && w.rows[i].destination.Telegram? && w.rows[i].state.UnknownDelivery?
    ensures Step(w, ResolveUnknown(i, resend, now)).Some? ==>
      var w2 := Step(w, ResolveUnknown(i, resend, now)).value;
      && |w2.rows| == |w.rows| + (if resend then 1 else 0) && OnlyRow(w.rows, w2.rows[..|w.rows|], i)
      && w2.(rows := w.rows, extra := w.extra) == w
      && w2.rows[i].state.Reviewed? && w2.rows[i].messageId == w.rows[i].messageId && w2.rows[i].error == w.rows[i].error
      && w2.rows[i].attempt == w.rows[i].attempt
      && (resend ==>
        var row, was := w2.rows[|w.rows|], w.rows[i];
        && row.revisionOf == Some(i) && row.run == was.run && row.destination.Telegram?
        && row.snapshot == was.snapshot && row.chunk == was.chunk && row.chunkCount == was.chunkCount
        && row.state.Pending? && row.attempt == 0 && row.nextAttemptAt.None? && row.messageId.None? && row.error.None?)
  {
    if Step(w, ResolveUnknown(i, resend, now)).Some? {
      var w2 := Step(w, ResolveUnknown(i, resend, now)).value;
      assert w2.rows[..|w.rows|] == w.rows[i := ReviewedRow(w.rows[i], now)];
    }
  }

  /** After a restart nothing is in flight: a Telegram attempt that was is unknown, a file attempt is pending again;
      interrupted generation is queued, and everything else is as it was. */
  lemma RecoveryEffect(w: World, now: int)
    requires WorldOk(w) && !w.recovered
    ensures Step(w, Recovery(now)).Some?
    ensures var w2 := Step(w, Recovery(now)).value;
      && w2.recovered && w2.(rows := w.rows, status := w.status, recovered := false) == w
      && |w2.rows| == |w.rows| && |w2.status| == |w.status|
      && (forall i :: 0 <= i < |w.rows| ==>
        if !w.rows[i].state.Sending? then w2.rows[i] == w.rows[i]
        else
          && SameIdentity(w.rows[i], w2.rows[i]) && w2.rows[i].attempt == w.rows[i].attempt
          && w2.rows[i].messageId == w.rows[i].messageId
          && (if w.rows[i].destination.Telegram? then
                w2.rows[i].state.UnknownDelivery? && w2.rows[i].nextAttemptAt.None? && w2.rows[i].error.Some?
              else w2.rows[i].state.Pending?))
      && (forall r :: 0 <= r < |w.status| ==>
        w2.status[r].saved == w.status[r].saved
        && w2.status[r].phase == if w.status[r].phase.Running? then Queued else w.status[r].phase)
  {
  }

  /** A regeneration is accepted only for a closed run while the worker is idle; the new run waits with nothing saved. */
  lemma EnqueueEffect(w: World, run: Dispatch.Run)
    requires WorldOk(w)
    ensures Step(w, Enqueue(run)).Some? <==>
      (run.revisionOf.Some? ==>
        w.working.None? && run.revisionOf.value < |w.runs| && w.status[run.revisionOf.value].phase.Closed?)
    ensures Step(w, Enqueue(run)).Some? ==>
      var w2 := Step(w, Enqueue(run)).value;
      && w2.(runs := w.runs, status := w.status) == w
      && w2.runs == w.runs + [run] && w2.status == w.status + [Status(Queued, false)]
  {
  }

  /** A queued run is claimed by the idle, recovered worker; afterwards it is closed, saved if it was or generation
      succeeded, and being delivered. A saved run is taken up again without being queued when there is something to do. */
  lemma ClaimEffect(w: World, r: nat, generated: bool, now: int)
    requires WorldOk(w)
    ensures Step(w, Claim(r, generated)).Some? <==> w.recovered && w.working.None? && r < |w.runs| && w.status[r].phase.Queued?
    ensures Step(w, Claim(r, generated)).Some? ==>
      var w2 := Step(w, Claim(r, generated)).value;
      && w2.(working := w.working, status := w.status) == w && w2.working == Some(r)
      && w2.status == w.status[r := Status(Closed, w.status[r].saved || generated)]
    ensures Step(w, Resume(r, now)).Some? <==>
      w.recovered && w.working.None? && r < |w.runs| && w.status[r].saved && PickedUp(w.rows, r, now)
    ensures Step(w, Resume(r, now)).Some? ==> Step(w, Resume(r, now)).value == w.(working := Some(r))
  {
  }

  /** A digest is created exactly when the report may be sent, has none, is not blocked, and names a recipient; the row
      that says why not exactly when it may not be sent or is blocked, and nothing says so yet. */
  lemma CreationGrantedWhen(w: World, r: nat, outcomeOk: bool, texts: seq<string>, now: int)
    requires WorldOk(w) && w.working == Some(r) && r < |w.runs| && w.inflight.None?
    ensures Step(w, CreateDigest(outcomeOk, texts, now)).Some? <==>
      && w.runs[r].telegramEnabled && outcomeOk && !Blocked(w, r) && w.runs[r].chat.Some?
      && forall i :: 0 <= i < |w.rows| && OfRun(w.rows[i], r) ==> w.rows[i].chunk.None?
    ensures Step(w, CreateSkip(outcomeOk, now)).Some? <==>
      && (forall i :: 0 <= i < |w.rows| && OfRun(w.rows[i], r) ==> w.rows[i].chunk.None?)
      && (if w.runs[r].telegramEnabled && outcomeOk then Blocked(w, r)
          else forall i :: 0 <= i < |w.rows| ==> !OfRun(w.rows[i], r))
  {
  }

  /** The run is taken up again exactly when a destination has no row, a file is still to be written, or an attempt
      waits and its time has come. */
  lemma PickedUpWhen(rows: seq<Row>, r: nat, now: int)
    ensures PickedUp(rows, r, now) <==>
      || Lacks(rows, r, Vault) || Lacks(rows, r, Index) || Lacks(rows, r, Telegram)
      || exists i :: 0 <= i < |rows| && rows[i].run == r && Waits(rows[i], now)
  {
    if exists i :: 0 <= i < |rows| && OfRun(rows[i], r) && ToSend(rows[i], now) {
      var i :| 0 <= i < |rows| && OfRun(rows[i], r) && ToSend(rows[i], now);
      assert rows[i].run == r && Waits(rows[i], now);
    }
    if exists i :: 0 <= i < |rows| && rows[i].run == r && Waits(rows[i], now) {
      var i :| 0 <= i < |rows| && rows[i].run == r && Waits(rows[i], now);
      assert rows[i].destination.Telegram? ==> OfRun(rows[i], r) && ToSend(rows[i], now);
    }
    if Lacks(rows, r, Vault) || Lacks(rows, r, Index) || Lacks(rows, r, Telegram) {
      assert Lacks(rows, r, Telegram) ==> !HasAttempts(rows, r);
    }
    if !HasAttempts(rows, r) {
      assert Lacks(rows, r, Telegram);
    }
  }

  predicate Lacks(rows: seq<Row>, r: nat, destination: Destination) {
    forall i :: 0 <= i < |rows| && rows[i].run == r ==> rows[i].destination != destination
  }

  predicate Waits(row: Row, now: int) {
    row.state.Pending? || (row.destination.Telegram? && row.state.Failed? && row.nextAttemptAt.Some? && row.nextAttemptAt.value <= now)
  }

  // Retries.

  /** What became of a row of the retried run: an unfinished attempt for another chat is reviewed, a failed one waits
      to be sent again, a conflict over a file is reviewed, and anything else is untouched. */
  predicate Retried(was: Row, row: Row, chat: Option<string>) {
    && SameIdentity(was, row) && row.attempt == was.attempt && row.messageId == was.messageId
    && (if was.destination.Telegram? then
          if (was.state.Pending? || was.state.Failed?) && was.snapshot.Digest? && TargetOf(chat).Some?
            && was.snapshot.chat != TargetOf(chat).value
          then row.state.Reviewed?
          else if was.state.Failed? then row.state.Pending? && row.nextAttemptAt.None? && row.error.None?
          else row == was
        else if was.state.Conflict? then row.state.Reviewed?
        else row == was)
  }

  /** A row that a retry adds: the same message for the selected chat, in the place of the attempt it revises. */
  predicate CarriesOn(rows: seq<Row>, row: Row, r: nat, target: string) {
    && row.run == r && row.revisionOf.Some? && row.revisionOf.value < |rows|
    && var was := rows[row.revisionOf.value];
       && row.destination.Telegram? && was.snapshot.Digest? && row.snapshot == Digest(target, was.snapshot.text)
       && row.chunk == was.chunk && row.chunkCount == was.chunkCount
       && row.state.Pending? && row.attempt == 0 && row.nextAttemptAt.None? && row.messageId.None? && row.error.None?
       && was.run == r && was.destination.Telegram? && was.snapshot.chat != target
       && (was.state.Pending? || was.state.Failed? || was.state.Succeeded?)
  }

  /** A finished retry queues its run, does to each row of it what `Retried` says and to no other row anything, and
      adds only attempts that carry on. It is granted exactly for a closed run while the worker is idle. */
  lemma RetryEffect(w: World, e: Event)
    requires WorldOk(w) && e.Retry? && e.finished && (forall i: nat :: i < |RetryRows(w, e)| && RetryRows(w, e)[i].run == e.of ==> i in e.reset)
    requires Listing(w.rows, e.of, e.reviewed)
    ensures Step(w, e).Some? <==> w.working.None? && e.of < |w.runs| && w.status[e.of].phase.Closed?
    ensures Step(w, e).Some? ==>
      var w2 := Step(w, e).value;
      && w2.(rows := w.rows, extra := w.extra, status := w.status) == w
      && |w.rows| <= |w2.rows| && |w2.status| == |w.status|
      && (forall i :: 0 <= i < |w.rows| ==>
        if w.rows[i].run == e.of then Retried(w.rows[i], w2.rows[i], w.chat) else w2.rows[i] == w.rows[i])
      && (forall i :: |w.rows| <= i < |w2.rows| ==>
        TargetOf(w.chat).Some? && CarriesOn(w.rows, w2.rows[i], e.of, TargetOf(w.chat).value))
      && (forall k :: 0 <= k < |w.status| ==>
        w2.status[k] == if k == e.of then w.status[k].(phase := Queued) else w.status[k])
  {
    if Step(w, e).Some? {
      var w2 := Step(w, e).value;
      RetryKeepsWorld(w, e);
      forall i | 0 <= i < |w.rows|
        ensures if w.rows[i].run == e.of then Retried(w.rows[i], w2.rows[i], w.chat) else w2.rows[i] == w.rows[i]
      {
        OldRowRetried(w, e, i);
      }
      forall i | |w.rows| <= i < |w2.rows|
        ensures TargetOf(w.chat).Some? && CarriesOn(w.rows, w2.rows[i], e.of, TargetOf(w.chat).value)
      {
        NewRowCarriesOn(w, e, i);
      }
    }
  }

  lemma OldRowRetried(w: World, e: Event, i: nat)
    requires WorldOk(w) && e.Retry? && i < |w.rows| && Listing(w.rows, e.of, e.reviewed)
    requires w.rows[i].run == e.of ==> i in e.reset
    ensures var row := RetryRows(w, e)[i];
      if w.rows[i].run == e.of then Retried(w.rows[i], row, w.chat) else row == w.rows[i]
  {
    if TargetOf(w.chat).Some? {
      ProgressedRows(w.rows, e.of, TargetOf(w.chat).value, e.reviewed, e.created, e.now);
    }
  }

  lemma NewRowCarriesOn(w: World, e: Event, i: nat)
    requires WorldOk(w) && e.Retry? && |w.rows| <= i < |RetryRows(w, e)|
    ensures TargetOf(w.chat).Some? && CarriesOn(w.rows, RetryRows(w, e)[i], e.of, TargetOf(w.chat).value)
  {
    ProgressedRows(w.rows, e.of, TargetOf(w.chat).value, e.reviewed, e.created, e.now);
  }
}
