/** Every run of the single delivery worker, interleaved with the commands and with crashes (src-tauri/src/memory.rs). */
module Dispatch {
  import opened Wrappers
  import opened Bytes
  import opened DeliveryLedger
  import opened Retarget

  /** A report run: the run it revises, and the recipient settings frozen when it was enqueued. */
  datatype Run = Run(revisionOf: Option<nat>, telegramEnabled: bool, chat: Option<string>)

  /** `Closed` is finished or blocked; `saved` says that the report's output is stored. */
  datatype Phase = Queued | Running | Closed
  datatype Status = Status(phase: Phase, saved: bool)

  /** `working` is the run the worker is delivering, `inflight` the attempt whose outcome it awaits.
      `extra` counts, per attempt, the explicit retries and the outcomes that could not be recorded. */
  datatype World = World(
    runs: seq<Run>, status: seq<Status>, rows: seq<Row>, extra: seq<nat>, enabled: bool, chat: Option<string>,
    recovered: bool, working: Option<nat>, inflight: Option<nat>)

  datatype SendOutcome = Confirmed(id: int) | Unknown | Permanent | Retryable(afterSecs: nat)

  /** `Claim` includes generation, which saves an output or not; `ClaimInterrupted` is one whose end was not stored.
      A `Retry` that stops part way has visited fewer rows than it lists and is not `finished`. */
  datatype Event =
    | Settings(on: bool, to: Option<string>)
    | Enqueue(run: Run)
    | Claim(of: nat, generated: bool)
    | ClaimInterrupted(of: nat)
    | Resume(of: nat, now: int)
    | Stop
    | FileCreate(file: Destination, revisionOf: Option<nat>, state: State, now: int)
    | FileUpdate(i: nat, state: State, now: int)
    | CreateSkip(outcomeOk: bool, now: int)
    | CreateDigest(outcomeOk: bool, texts: seq<string>, now: int)
    | DispatchAttempt(i: nat, now: int)
    | CredentialMissing(i: nat, now: int)
    | Outcome(outcome: SendOutcome, now: int)
    | OutcomeLost(i: nat)
    | Retry(of: nat, reviewed: seq<nat>, created: seq<nat>, reset: seq<nat>, finished: bool, now: int)
    | ResolveUnknown(i: nat, resend: bool, now: int)
    | Crash
    | Recovery(now: int)

  // Revision families.

  predicate RunsOk(runs: seq<Run>) {
    forall r :: 0 <= r < |runs| && runs[r].revisionOf.Some? ==> runs[r].revisionOf.value < r
  }

  function Root(runs: seq<Run>, r: nat): (root: nat)
    requires RunsOk(runs) && r < |runs|
    ensures root <= r
    decreases r
  {
    if runs[r].revisionOf.None? then r else Root(runs, runs[r].revisionOf.value)
  }

  lemma {:induction false} RootStays(runs: seq<Run>, run: Run, r: nat)
    requires RunsOk(runs + [run]) && RunsOk(runs) && r < |runs|
    ensures Root(runs + [run], r) == Root(runs, r)
    decreases r
  {
    assert (runs + [run])[r] == runs[r];
    if runs[r].revisionOf.Some? {
      RootStays(runs, run, runs[r].revisionOf.value);
    }
  }

  /** The family listing: everything reached from the root through `revisionOf`. */
  predicate Descends(runs: seq<Run>, r: nat, ancestor: nat)
    requires RunsOk(runs) && r < |runs|
    decreases r
  {
    r == ancestor || (runs[r].revisionOf.Some? && Descends(runs, runs[r].revisionOf.value, ancestor))
  }

  lemma {:induction false} DescendsFromRoot(runs: seq<Run>, r: nat, root: nat)
    requires RunsOk(runs) && r < |runs| && root < |runs| && runs[root].revisionOf.None?
    ensures Descends(runs, r, root) <==> Root(runs, r) == root
    decreases r
  {
    if runs[r].revisionOf.Some? {
      DescendsFromRoot(runs, runs[r].revisionOf.value, root);
    }
  }

  lemma {:induction false} RootHasNoParent(runs: seq<Run>, r: nat)
    requires RunsOk(runs) && r < |runs|
    ensures runs[Root(runs, r)].revisionOf.None?
    decreases r
  {
    if runs[r].revisionOf.Some? {
      RootHasNoParent(runs, runs[r].revisionOf.value);
    }
  }

  /** Walking up to the root and listing everything below it gives exactly the runs with the same root. */
  lemma FamilyIsConnected(runs: seq<Run>, r: nat, other: nat)
    requires RunsOk(runs) && r < |runs| && other < |runs|
    ensures Descends(runs, other, Root(runs, r)) <==> Root(runs, other) == Root(runs, r)
  {
    RootHasNoParent(runs, r);
    DescendsFromRoot(runs, other, Root(runs, r));
  }

  /** `family_delivery_block`: another run of the family has a confirmed or unknown attempt. */
  predicate FamilyBlocked(runs: seq<Run>, rows: seq<Row>, r: nat)
    requires RunsOk(runs) && r < |runs|
    requires forall i :: 0 <= i < |rows| ==> rows[i].run < |runs|
  {
    exists i :: 0 <= i < |rows| && rows[i].run != r && Root(runs, rows[i].run) == Root(runs, r)
      && rows[i].destination.Telegram? && (rows[i].state.Succeeded? || rows[i].state.UnknownDelivery?)
  }

  /** The walk over earlier revisions. */
  predicate AncestorBlocked(runs: seq<Run>, rows: seq<Row>, ancestor: Option<nat>)
    requires RunsOk(runs)
    decreases if ancestor.Some? then ancestor.value + 1 else 0
  {
    ancestor.Some? &&
    (|| ancestor.value >= |runs|
     || (exists i :: 0 <= i < |rows| && rows[i].run == ancestor.value && rows[i].destination.Telegram?
          && (rows[i].state.Succeeded? || rows[i].state.UnknownDelivery?
              || rows[i].state.Pending? || rows[i].state.Sending?))
     || AncestorBlocked(runs, rows, runs[ancestor.value].revisionOf))
  }

  /** An attempt that keeps the revisions of its run from being sent. */
  predicate Holds(row: Row, run: nat) {
    row.run == run && row.destination.Telegram?
    && (row.state.Succeeded? || row.state.UnknownDelivery? || row.state.Pending? || row.state.Sending?)
  }

  predicate HeldBy(runs: seq<Run>, rows: seq<Row>, r: nat, a: nat, i: nat)
    requires RunsOk(runs) && r < |runs|
  {
    a != r && Descends(runs, r, a) && i < |rows| && Holds(rows[i], a)
  }

  /** The walk finds a block exactly when some earlier revision, however far back, has an attempt that is open, in
      flight, confirmed or unknown. */
  lemma {:induction false} AncestorBlockedWhen(runs: seq<Run>, rows: seq<Row>, r: nat)
    requires RunsOk(runs) && r < |runs|
    ensures AncestorBlocked(runs, rows, runs[r].revisionOf) <==> exists a: nat, i: nat :: HeldBy(runs, rows, r, a, i)
    decreases r
  {
    if runs[r].revisionOf.Some? {
      var p := runs[r].revisionOf.value;
      AncestorBlockedWhen(runs, rows, p);
      AncestorsAreEarlier(runs, p);
      if exists i :: 0 <= i < |rows| && Holds(rows[i], p) {
        var i :| 0 <= i < |rows| && Holds(rows[i], p);
        assert HeldBy(runs, rows, r, p, i);
      } else if exists a: nat, i: nat :: HeldBy(runs, rows, p, a, i) {
        var a: nat, i: nat :| HeldBy(runs, rows, p, a, i);
        assert HeldBy(runs, rows, r, a, i);
      } else if exists a: nat, i: nat :: HeldBy(runs, rows, r, a, i) {
        var a: nat, i: nat :| HeldBy(runs, rows, r, a, i);
        assert HeldBy(runs, rows, p, a, i);
      }
    }
  }

  lemma {:induction false} AncestorsAreEarlier(runs: seq<Run>, r: nat)
    requires RunsOk(runs) && r < |runs|
    ensures forall a: nat :: Descends(runs, r, a) ==> a <= r
    decreases r
  {
    if runs[r].revisionOf.Some? {
      AncestorsAreEarlier(runs, runs[r].revisionOf.value);
    }
  }

  /** `ancestor_delivery_block`. */
  predicate Blocked(w: World, r: nat)
    requires WorldOk(w) && r < |w.runs|
  {
    FamilyBlocked(w.runs, w.rows, r) || AncestorBlocked(w.runs, w.rows, w.runs[r].revisionOf)
  }

  predicate WorldOk(w: World) {
    && RunsOk(w.runs) && LedgerOk(w.rows) && |w.extra| == |w.rows| && |w.status| == |w.runs|
    && forall i :: 0 <= i < |w.rows| ==> w.rows[i].run < |w.runs|
  }

  // Order and eligibility.

  predicate OfRun(row: Row, r: nat) {
    row.run == r && row.destination.Telegram?
  }

  /** Dispatch order: chunk first, then creation time. */
  predicate Earlier(a: Row, b: Row) {
    if a.chunk == b.chunk then a.createdAt < b.createdAt
    else b.chunk.Some? && (a.chunk.None? || a.chunk.value < b.chunk.value)
  }

  predicate EarlierSettled(rows: seq<Row>, i: nat)
    requires i < |rows|
  {
    forall k :: 0 <= k < |rows| && OfRun(rows[k], rows[i].run) && Earlier(rows[k], rows[i]) ==> Terminal(rows[k].state)
  }

  predicate NoneUnknown(rows: seq<Row>, r: nat) {
    forall k :: 0 <= k < |rows| && OfRun(rows[k], r) ==> !rows[k].state.UnknownDelivery?
  }

  /** Not settled, and no explicit action or later time is being waited for. */
  predicate Due(row: Row, now: int) {
    && !Terminal(row.state) && !(row.state.Failed? && row.nextAttemptAt.None?)
    && (row.nextAttemptAt.Some? ==> row.nextAttemptAt.value <= now)
  }

  /** What the loop of `deliver_telegram` has checked when it reaches an attempt. */
  predicate MayDispatch(w: World, i: nat, now: int)
    requires WorldOk(w)
  {
    && i < |w.rows|
    && var row := w.rows[i];
       && w.recovered && w.inflight.None? && w.working == Some(row.run)
       && row.destination.Telegram? && row.snapshot.Digest?
       && w.enabled && w.chat == Some(row.snapshot.chat)
       && NoneUnknown(w.rows, row.run) && EarlierSettled(w.rows, i) && Due(row, now)
       && (row.revisionOf.None? ==> !Blocked(w, row.run))
  }

  predicate HasChunks(rows: seq<Row>, r: nat) {
    exists i :: 0 <= i < |rows| && OfRun(rows[i], r) && rows[i].chunk.Some?
  }

  predicate HasAttempts(rows: seq<Row>, r: nat) {
    exists i :: 0 <= i < |rows| && OfRun(rows[i], r)
  }

  function NewRow(run: nat, state: State, snapshot: Snapshot, chunk: Option<nat>, count: Option<nat>,
                  error: Option<ErrorCode>, now: int): (row: Row) {
    Row(run, Telegram, state, None, snapshot, chunk, count, None, error, None, 0, now, now)
  }

  function Intents(run: nat, chat: string, texts: seq<string>, now: int): (rows: seq<Row>)
    ensures |rows| == |texts|
  {
    seq(|texts|, k requires 0 <= k < |texts| =>
      NewRow(run, Pending, Digest(chat, texts[k]), Some(k), Some(|texts|), None, now))
  }

  function Zeros(n: nat): (z: seq<nat>)
    ensures |z| == n
  {
    seq(n, _ => 0)
  }

  // Outcomes.

  const RETRY_SECONDS: seq<nat> := [30, 120, 600]

  /** `retry_delay`, in seconds. */
  function RetryDelay(attempt: nat, serverSecs: nat): (delay: Option<nat>) {
    var k := if attempt == 0 then 0 else attempt - 1;
    if k >= 3 then None
    else Some(if RETRY_SECONDS[k] > serverSecs then RETRY_SECONDS[k] else serverSecs)
  }

  /** `now_ms().saturating_add(i64::try_from(delay_ms).unwrap_or(i64::MAX))`. */
  function DelayedUntil(now: int, seconds: nat): (at: int) {
    var ms := if seconds * 1000 > I64_MAX then I64_MAX else seconds * 1000;
    if now + ms > I64_MAX then I64_MAX else now + ms
  }

  function SendingRow(row: Row, now: int): (r: Row) {
    row.(state := Sending, attempt := row.attempt + 1, nextAttemptAt := None, error := None, updatedAt := now)
  }

  function SettledRow(row: Row, outcome: SendOutcome, now: int): (r: Row) {
    match outcome
    case Confirmed(id) => row.(state := Succeeded, messageId := Some(id), updatedAt := now)
    case Unknown => row.(state := UnknownDelivery, error := Some(DeliveryFailed), updatedAt := now)
    case Permanent => row.(state := Failed, error := Some(DeliveryFailed), updatedAt := now)
    case Retryable(secs) =>
      var delay := RetryDelay(row.attempt, secs);
      row.(state := Failed, error := Some(DeliveryFailed), updatedAt := now,
           nextAttemptAt := if delay.None? then None else Some(DelayedUntil(now, delay.value)))
  }

  function NoCredentialRow(row: Row, now: int): (r: Row) {
    row.(state := Failed, nextAttemptAt := None, error := Some(CredentialUnavailable), updatedAt := now)
  }

  // Commands.

  /** The redirect half of a retry, as far as it got. */
  function AfterRedirect(w: World, r: nat, reviewed: seq<nat>, created: seq<nat>, now: int): (rows: seq<Row>)
    ensures |rows| >= |w.rows|
  {
    match TargetOf(w.chat)
    case None => w.rows
    case Some(target) => Progressed(w.rows, r, target, reviewed, created, now)
  }

  /** `retry_memory_report`'s own loop: failed attempts become pending again, file conflicts are reviewed. */
  function ResetRow(row: Row, r: nat, now: int): (x: Row) {
    if row.run != r then row
    else if row.destination.Telegram? && row.state.Failed? then
      row.(state := Pending, nextAttemptAt := None, error := None, updatedAt := now)
    else if !row.destination.Telegram? && row.state.Conflict? then row.(state := Reviewed, updatedAt := now)
    else row
  }

  function ResetRows(rows: seq<Row>, r: nat, visited: seq<nat>, now: int): (x: seq<Row>)
    ensures |x| == |rows|
  {
    seq(|rows|, i requires 0 <= i < |rows| => if i in visited then ResetRow(rows[i], r, now) else rows[i])
  }

  function Granted(rows: seq<Row>, extra: seq<nat>, r: nat, visited: seq<nat>): (x: seq<nat>)
    requires |extra| <= |rows|
    ensures |x| == |rows|
  {
    seq(|rows|, i requires 0 <= i < |rows| =>
      (if i < |extra| then extra[i] else 0)
      + (if i in visited && OfRun(rows[i], r) && rows[i].state.Failed? then 1 else 0))
  }

  function ResendRow(row: Row, i: nat, now: int): (x: Row) {
    row.(revisionOf := Some(i), state := Pending, messageId := None, error := None, attempt := 0,
         nextAttemptAt := None, createdAt := now, updatedAt := now)
  }

  function WithRow(w: World, i: nat, row: Row, expected: State): (r: Option<World>) {
    var written := Update(w.rows, i, row, expected);
    if written.Stored? then Some(w.(rows := written.rows)) else None
  }

  // What the worker takes up.

  predicate MayClaim(w: World, r: nat)
    requires WorldOk(w)
  {
    w.recovered && w.working.None? && r < |w.runs| && w.status[r].phase.Queued?
  }

  /** A destination without a row, a file still to write, or an attempt to send now. A sending attempt is none of these. */
  predicate PickedUp(rows: seq<Row>, r: nat, now: int) {
    || (forall i :: 0 <= i < |rows| && rows[i].run == r ==> !rows[i].destination.Vault?)
    || (forall i :: 0 <= i < |rows| && rows[i].run == r ==> !rows[i].destination.Index?)
    || !HasAttempts(rows, r)
    || (exists i :: 0 <= i < |rows| && rows[i].run == r && !rows[i].destination.Telegram? && rows[i].state.Pending?)
    || (exists i :: 0 <= i < |rows| && OfRun(rows[i], r) && ToSend(rows[i], now))
  }

  predicate ToSend(row: Row, now: int) {
    row.state.Pending? || (row.state.Failed? && row.nextAttemptAt.Some? && row.nextAttemptAt.value <= now)
  }

  /** Interrupted generation is queued again. */
  function Reopened(status: seq<Status>): (s: seq<Status>)
    ensures |s| == |status|
  {
    seq(|status|, r requires 0 <= r < |status| =>
      if status[r].phase.Running? then status[r].(phase := Queued) else status[r])
  }

  // Steps. An event that the code would not perform in this state has no effect.

  function Step(w: World, e: Event): (r: Option<World>)
    requires WorldOk(w)
  {
    match e
    case Settings(on, to) => Some(w.(enabled := on, chat := to))
    case Enqueue(run) =>
      if run.revisionOf.Some? && (w.working.Some? || run.revisionOf.value >= |w.runs|
        || !w.status[run.revisionOf.value].phase.Closed?) then None
      else Some(w.(runs := w.runs + [run], status := w.status + [Status(Queued, false)]))
    case Claim(r, generated) =>
      if !MayClaim(w, r) then None
      else Some(w.(working := Some(r), status := w.status[r := Status(Closed, w.status[r].saved || generated)]))
    case ClaimInterrupted(r) =>
      if !MayClaim(w, r) then None
      else Some(w.(status := w.status[r := w.status[r].(phase := Running)]))
    case Resume(r, now) =>
      if !w.recovered || w.working.Some? || r >= |w.runs| || !w.status[r].saved || !PickedUp(w.rows, r, now) then None
      else Some(w.(working := Some(r)))
    case Stop => if w.inflight.Some? then None else Some(w.(working := None))
    case FileCreate(file, revisionOf, state, now) =>
      if w.working.None? || w.inflight.Some? || w.working.value >= |w.runs| || file.Telegram? then None
      else
        var row := NewRow(w.working.value, state, Unreadable, None, None, None, now).(destination := file, revisionOf := revisionOf);
        if !RowOk(w.rows + [row], |w.rows|) then None else Some(w.(rows := w.rows + [row], extra := w.extra + [0]))
    case FileUpdate(i, state, now) =>
      if w.inflight.Some? || i >= |w.rows| || w.rows[i].destination.Telegram? || w.working != Some(w.rows[i].run) then None
      else WithRow(w, i, w.rows[i].(state := state, updatedAt := now), w.rows[i].state)
    case CreateSkip(outcomeOk, now) =>
      if w.working.None? || w.inflight.Some? || w.working.value >= |w.runs| then None
      else
        var r := w.working.value;
        var eligible := w.runs[r].telegramEnabled && outcomeOk;
        if HasChunks(w.rows, r) || !(eligible || !HasAttempts(w.rows, r)) || (eligible && !Blocked(w, r)) then None
        else
          var row := NewRow(r, Skipped, Unreadable, None, None, Some(DeliveryFailed), now);
          Some(w.(rows := w.rows + [row], extra := w.extra + [0]))
    case CreateDigest(outcomeOk, texts, now) =>
      if w.working.None? || w.inflight.Some? || w.working.value >= |w.runs| then None
      else
        var r := w.working.value;
        if HasChunks(w.rows, r) || !w.runs[r].telegramEnabled || !outcomeOk || Blocked(w, r) || w.runs[r].chat.None?
        then None
        else
          var intents := Intents(r, w.runs[r].chat.value, texts, now);
          Some(w.(rows := w.rows + intents, extra := w.extra + Zeros(|intents|)))
    case DispatchAttempt(i, now) =>
      if !MayDispatch(w, i, now) then None
      else
        var sent := WithRow(w, i, SendingRow(w.rows[i], now), w.rows[i].state);
        if sent.None? then None else Some(sent.value.(inflight := Some(i)))
    case CredentialMissing(i, now) =>
      if !MayDispatch(w, i, now) then None
      else WithRow(w, i, NoCredentialRow(w.rows[i], now), w.rows[i].state)
    case Outcome(outcome, now) =>
      if w.inflight.None? || w.inflight.value >= |w.rows| then None
      else
        var i := w.inflight.value;
        var settled := WithRow(w, i, SettledRow(w.rows[i], outcome, now), Sending);
        if settled.None? then None else Some(settled.value.(inflight := None))
    case OutcomeLost(i) =>
      if w.inflight != Some(i) || i >= |w.rows| then None
      else Some(w.(inflight := None, working := None, extra := w.extra[i := w.extra[i] + 1]))
    case Retry(r, reviewed, created, reset, finished, now) =>
      if w.working.Some? || r >= |w.runs| || !w.status[r].phase.Closed? then None
      else
        var rows := AfterRedirect(w, r, reviewed, created, now);
        Some(w.(rows := ResetRows(rows, r, reset, now), extra := Granted(rows, w.extra, r, reset),
                status := if finished then w.status[r := w.status[r].(phase := Queued)] else w.status))
    case ResolveUnknown(i, resend, now) =>
      if i >= |w.rows| || !w.rows[i].destination.Telegram? || !w.rows[i].state.UnknownDelivery? then None
      else
        var row := w.rows[i];
        var resolved := Resolve(w.rows, i, ReviewedRow(row, now), if resend then Some(ResendRow(row, i, now)) else None);
        if !resolved.Stored? then None
        else Some(w.(rows := resolved.rows, extra := if resend then w.extra + [0] else w.extra))
    case Crash => Some(w.(recovered := false, working := None, inflight := None))
    case Recovery(now) =>
      if w.recovered then None
      else Some(w.(rows := Recover(w.rows, now), recovered := true, status := Reopened(w.status)))
  }
}
