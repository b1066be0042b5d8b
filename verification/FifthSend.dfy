/** The bound on sends is reached: runs without any retry in which one attempt is sent four times, and once more
    for each outcome that could not be recorded. */
module FifthSend {
  import opened Wrappers
  import opened Bytes
  import opened DeliveryLedger
  import opened Dispatch
  import opened DispatchSafety
  import opened LostOutcomes

  const CHAT: string := "A"
  const RUN: Dispatch.Run := Dispatch.Run(None, true, Some(CHAT))
  const VAULT: Row := NewRow(0, Succeeded, Unreadable, None, None, None, 0).(destination := Vault)
  const INDEX: Row := NewRow(0, Succeeded, Unreadable, None, None, None, 0).(destination := Index)
  const FIRST: Row := NewRow(0, Pending, Digest(CHAT, "x"), Some(0), Some(2), None, 0)
  const SECOND: Row := NewRow(0, Pending, Digest(CHAT, "y"), Some(1), Some(2), None, 0)

  /** The report is saved and its files are written; `row` is its first chunk, the second one is pending. */
  function Stage(row: Row, extra: nat, working: Option<nat>, inflight: Option<nat>): (w: World) {
    World([RUN], [Status(Closed, true)], [VAULT, INDEX, row, SECOND], [0, 0, extra, 0], true, Some(CHAT), true, working, inflight)
  }

  function SentRow(attempt: nat, at: int): (row: Row) {
    FIRST.(state := Sending, attempt := attempt, updatedAt := at)
  }

  /** The first chunk is in flight for the `attempt`-th time. */
  function InFlight(attempt: nat, at: int, extra: nat): (w: World) {
    Stage(SentRow(attempt, at), extra, Some(0), Some(2))
  }

  predicate FirstChunk(row: Row) {
    SameIdentity(row, FIRST) && !row.state.UnknownDelivery? && !row.state.Conflict?
  }

  lemma StageOk(row: Row, extra: nat, working: Option<nat>, inflight: Option<nat>)
    requires FirstChunk(row)
    ensures WorldOk(Stage(row, extra, working, inflight))
    ensures PickedUp(Stage(row, extra, working, inflight).rows, 0, 0)
  {
    var w := Stage(row, extra, working, inflight);
    forall i | 0 <= i < 4
      ensures RowOk(w.rows, i)
    {
    }
    assert OfRun(w.rows[3], 0) && ToSend(w.rows[3], 0);
  }

  /** Whenever the first chunk is due, the resumed worker may send it. */
  lemma StageDispatches(row: Row, extra: nat, now: int)
    requires FirstChunk(row) && Due(row, now)
    ensures WorldOk(Stage(row, extra, Some(0), None)) && MayDispatch(Stage(row, extra, Some(0), None), 2, now)
  {
    var w := Stage(row, extra, Some(0), None);
    StageOk(row, extra, Some(0), None);
    forall k | 0 <= k < 4 && OfRun(w.rows[k], 0)
      ensures k >= 2 && !w.rows[k].state.UnknownDelivery? && !Earlier(w.rows[k], w.rows[2])
    {
    }
    assert !FamilyBlocked(w.runs, w.rows, 0);
  }

  /** Resume and send. */
  lemma SendsAgain(row: Row, extra: nat, now: int)
    requires FirstChunk(row) && Due(row, now) && !Terminal(row.state)
    ensures WorldOk(Stage(row, extra, None, None))
    ensures Play(Stage(row, extra, None, None), [Resume(0, now), DispatchAttempt(2, now)])
      == Stage(SendingRow(row, now), extra, Some(0), Some(2))
  {
    StageOk(row, extra, None, None);
    StageDispatches(row, extra, now);
    var idle, ready := Stage(row, extra, None, None), Stage(row, extra, Some(0), None);
    assert PickedUp(idle.rows, 0, now) by {
      assert OfRun(idle.rows[3], 0) && ToSend(idle.rows[3], now);
    }
    PlayOne(idle, Resume(0, now));
    PlayMore(idle, [Resume(0, now)], DispatchAttempt(2, now));
    assert After(idle, Resume(0, now)) == ready;
    assert ready.rows[2 := SendingRow(row, now)] == [VAULT, INDEX, SendingRow(row, now), SECOND];
    assert [Resume(0, now)] + [DispatchAttempt(2, now)] == [Resume(0, now), DispatchAttempt(2, now)];
  }

  // An outcome that could not be recorded.

  function LossCycle(now: int): (events: seq<Event>) {
    [OutcomeLost(2)] + [Resume(0, now), DispatchAttempt(2, now)]
  }

  lemma LossSendsAgain(attempt: nat, at: int, extra: nat, now: int)
    ensures WorldOk(InFlight(attempt, at, extra))
    ensures Play(InFlight(attempt, at, extra), LossCycle(now)) == InFlight(attempt + 1, now, extra + 1)
  {
    var row := SentRow(attempt, at);
    var w := InFlight(attempt, at, extra);
    StageOk(row, extra, Some(0), Some(2));
    PlayOne(w, OutcomeLost(2));
    assert w.extra[2 := extra + 1] == [0, 0, extra + 1, 0];
    assert After(w, OutcomeLost(2)) == Stage(row, extra + 1, None, None);
    SendsAgain(row, extra + 1, now);
    PlayConcat(w, [OutcomeLost(2)], [Resume(0, now), DispatchAttempt(2, now)]);
    assert SendingRow(row, now) == SentRow(attempt + 1, now);
  }

  // A temporary rejection, retried by itself.

  function RejectedRow(attempt: nat, at: int): (row: Row) {
    SettledRow(SentRow(attempt, at), Retryable(0), at)
  }

  function RejectionCycle(at: int, now: int): (events: seq<Event>) {
    [Outcome(Retryable(0), at)] + ([Stop] + [Resume(0, now), DispatchAttempt(2, now)])
  }

  lemma RejectionSendsAgain(attempt: nat, at: int, now: int)
    requires 1 <= attempt <= 3 && 0 <= at && at + 600_000 <= now < I64_MAX
    ensures WorldOk(InFlight(attempt, at, 0))
    ensures Play(InFlight(attempt, at, 0), RejectionCycle(at, now)) == InFlight(attempt + 1, now, 0)
  {
    var w := InFlight(attempt, at, 0);
    var row := RejectedRow(attempt, at);
    StageOk(SentRow(attempt, at), 0, Some(0), Some(2));
    StageOk(row, 0, Some(0), None);
    PlayOne(w, Outcome(Retryable(0), at));
    assert w.rows[2 := row] == [VAULT, INDEX, row, SECOND];
    assert After(w, Outcome(Retryable(0), at)) == Stage(row, 0, Some(0), None);
    PlayOne(Stage(row, 0, Some(0), None), Stop);
    RejectedIsDue(attempt, at, now);
    SendsAgain(row, 0, now);
    PlayConcat(Stage(row, 0, Some(0), None), [Stop], [Resume(0, now), DispatchAttempt(2, now)]);
    PlayConcat(w, [Outcome(Retryable(0), at)], [Stop] + [Resume(0, now), DispatchAttempt(2, now)]);
    assert SendingRow(row, now) == SentRow(attempt + 1, now);
  }

  lemma RejectedIsDue(attempt: nat, at: int, now: int)
    requires 1 <= attempt <= 3 && 0 <= at && at + 600_000 <= now < I64_MAX
    ensures RejectedRow(attempt, at).nextAttemptAt.Some? && Due(RejectedRow(attempt, at), now)
  {
  }

  // From the start.

  const OPENING: seq<Event> := [
    Recovery(0), Settings(true, Some(CHAT)), Enqueue(RUN), Claim(0, true),
    FileCreate(Vault, None, Succeeded, 0), FileCreate(Index, None, Succeeded, 0)]

  lemma OpensTheReport()
    ensures Play(NEVER_STARTED, OPENING)
      == World([RUN], [Status(Closed, true)], [VAULT, INDEX], [0, 0], true, Some(CHAT), true, Some(0), None)
  {
    var e := OPENING;
    PlayOne(NEVER_STARTED, e[0]);
    PlayMore(NEVER_STARTED, [e[0]], e[1]);
    PlayMore(NEVER_STARTED, [e[0]] + [e[1]], e[2]);
    PlayMore(NEVER_STARTED, [e[0]] + [e[1]] + [e[2]], e[3]);
    var claimed := World([RUN], [Status(Closed, true)], [], [], true, Some(CHAT), true, Some(0), None);
    assert Play(NEVER_STARTED, [e[0]] + [e[1]] + [e[2]] + [e[3]]) == claimed;
    WritesTheFiles(claimed);
    PlayConcat(NEVER_STARTED, [e[0]] + [e[1]] + [e[2]] + [e[3]], [e[4], e[5]]);
    assert OPENING == [e[0]] + [e[1]] + [e[2]] + [e[3]] + [e[4], e[5]];
  }

  lemma WritesTheFiles(claimed: World)
    requires claimed == World([RUN], [Status(Closed, true)], [], [], true, Some(CHAT), true, Some(0), None)
    ensures WorldOk(claimed)
    ensures Play(claimed, [FileCreate(Vault, None, Succeeded, 0), FileCreate(Index, None, Succeeded, 0)])
      == claimed.(rows := [VAULT, INDEX], extra := [0, 0])
  {
    var vault, index := FileCreate(Vault, None, Succeeded, 0), FileCreate(Index, None, Succeeded, 0);
    PlayOne(claimed, vault);
    assert [] + [VAULT] == [VAULT] && RowOk([VAULT], 0);
    assert After(claimed, vault) == claimed.(rows := [VAULT], extra := [0]);
    PlayMore(claimed, [vault], index);
    assert [VAULT] + [INDEX] == [VAULT, INDEX] && RowOk([VAULT, INDEX], 1);
    assert [vault] + [index] == [vault, index];
  }

  const FIRST_SEND: seq<Event> := [CreateDigest(true, ["x", "y"], 0), DispatchAttempt(2, 0)]

  lemma CreatesTheDigest(written: World)
    requires written == World([RUN], [Status(Closed, true)], [VAULT, INDEX], [0, 0], true, Some(CHAT), true, Some(0), None)
    ensures WorldOk(written) && Play(written, [CreateDigest(true, ["x", "y"], 0)]) == Stage(FIRST, 0, Some(0), None)
  {
    var create := CreateDigest(true, ["x", "y"], 0);
    forall i | 0 <= i < 2
      ensures RowOk(written.rows, i)
    {
    }
    assert !FamilyBlocked(written.runs, written.rows, 0) && !HasChunks(written.rows, 0);
    assert Intents(0, CHAT, ["x", "y"], 0) == [FIRST, SECOND];
    assert [VAULT, INDEX] + [FIRST, SECOND] == [VAULT, INDEX, FIRST, SECOND];
    assert [0, 0] + Zeros(2) == [0, 0, 0, 0];
    PlayOne(written, create);
  }

  lemma SendsTheFirst(written: World)
    requires written == World([RUN], [Status(Closed, true)], [VAULT, INDEX], [0, 0], true, Some(CHAT), true, Some(0), None)
    ensures WorldOk(written) && Play(written, FIRST_SEND) == InFlight(1, 0, 0)
  {
    var create := CreateDigest(true, ["x", "y"], 0);
    CreatesTheDigest(written);
    StageDispatches(FIRST, 0, 0);
    PlayMore(written, [create], DispatchAttempt(2, 0));
    assert Stage(FIRST, 0, Some(0), None).rows[2 := SendingRow(FIRST, 0)] == [VAULT, INDEX, SendingRow(FIRST, 0), SECOND];
    assert [create] + [DispatchAttempt(2, 0)] == FIRST_SEND;
  }

  const REJECTIONS: seq<Event> := RejectionCycle(0, 1_000_000) + (RejectionCycle(1_000_000, 2_000_000) + RejectionCycle(2_000_000, 3_000_000))

  const LATER: int := 3_000_000

  /** Three temporary rejections: the fourth send is in flight. */
  lemma FourSends()
    ensures WorldOk(InFlight(1, 0, 0)) && Play(InFlight(1, 0, 0), REJECTIONS) == InFlight(4, 3_000_000, 0)
  {
    RejectionSendsAgain(1, 0, 1_000_000);
    RejectionSendsAgain(2, 1_000_000, 2_000_000);
    RejectionSendsAgain(3, 2_000_000, 3_000_000);
    PlayConcat(InFlight(2, 1_000_000, 0), RejectionCycle(1_000_000, 2_000_000), RejectionCycle(2_000_000, 3_000_000));
    PlayConcat(InFlight(1, 0, 0), RejectionCycle(0, 1_000_000),
               RejectionCycle(1_000_000, 2_000_000) + RejectionCycle(2_000_000, 3_000_000));
  }

  function Losses(n: nat, now: int): (events: seq<Event>)
    decreases n, now
  {
    if n == 0 then [] else Losses(n - 1, now) + LossCycle(now)
  }

  lemma {:induction false} LossesSendAgain(n: nat, now: int)
    ensures WorldOk(InFlight(4, now, 0)) && Play(InFlight(4, now, 0), Losses(n, now)) == InFlight(4 + n, now, n)
    decreases n
  {
    StageOk(SentRow(4, now), 0, Some(0), Some(2));
    if n > 0 {
      LossesSendAgain(n - 1, now);
      LossSendsAgain(3 + n, now, n - 1, now);
      PlayThen(InFlight(4, now, 0), Losses(n - 1, now), InFlight(3 + n, now, n - 1), LossCycle(now), InFlight(4 + n, now, n));
    }
  }

  lemma PlayThen(start: World, a: seq<Event>, mid: World, b: seq<Event>, end: World)
    requires WorldOk(start) && WorldOk(mid) && Play(start, a) == mid && Play(mid, b) == end
    ensures Play(start, a + b) == end
  {
    PlayConcat(start, a, b);
  }

  /** One digest of two chunks; the first is rejected three times for now, then `n` outcomes are lost. */
  function LossyRun(n: nat): (events: seq<Event>) {
    OPENING + (FIRST_SEND + (REJECTIONS + Losses(n, LATER)))
  }

  lemma {:induction false} ChargesConcat(a: seq<Event>, b: seq<Event>, i: nat, r: nat)
    ensures Charges(a + b, i, r) == Charges(a, i, r) + Charges(b, i, r)
    decreases |b|
  {
    if b == [] {
      assert a + b == a;
    } else {
      assert (a + b)[..|a + b| - 1] == a + b[..|b| - 1];
      ChargesConcat(a, b[..|b| - 1], i, r);
    }
  }

  lemma {:induction false} LossesCharge(n: nat, now: int)
    ensures Charges(Losses(n, now), 2, 0) == n
    decreases n
  {
    if n > 0 {
      LossesCharge(n - 1, now);
      LossCharges(now);
      ChargesConcat(Losses(n - 1, now), LossCycle(now), 2, 0);
    }
  }

  lemma LossCharges(now: int)
    ensures Charges(LossCycle(now), 2, 0) == 1
  {
    ChargesConcat([OutcomeLost(2)], [Resume(0, now), DispatchAttempt(2, now)], 2, 0);
    NoCharges([Resume(0, now), DispatchAttempt(2, now)], 2, 0);
    assert [OutcomeLost(2)][..0] == [];
    assert Charges([OutcomeLost(2)], 2, 0) == 1;
  }

  predicate NoRetry(events: seq<Event>) {
    forall k :: 0 <= k < |events| ==> !events[k].Retry?
  }

  lemma {:induction false} LossesDoNotRetry(n: nat, now: int)
    ensures NoRetry(Losses(n, now))
    decreases n
  {
    if n > 0 {
      LossesDoNotRetry(n - 1, now);
      NoRetryConcat(Losses(n - 1, now), LossCycle(now));
    }
  }

  lemma LossyRunSends(n: nat)
    ensures Play(NEVER_STARTED, LossyRun(n)) == InFlight(4 + n, LATER, n)
  {
    OpensTheReport();
    var written := Play(NEVER_STARTED, OPENING);
    SendsTheFirst(written);
    FourSends();
    LossesSendAgain(n, LATER);
    var end := InFlight(4 + n, LATER, n);
    PlayThen(InFlight(1, 0, 0), REJECTIONS, InFlight(4, LATER, 0), Losses(n, LATER), end);
    PlayThen(written, FIRST_SEND, InFlight(1, 0, 0), REJECTIONS + Losses(n, LATER), end);
    PlayThen(NEVER_STARTED, OPENING, written, FIRST_SEND + (REJECTIONS + Losses(n, LATER)), end);
  }

  lemma LossyRunCharges(n: nat)
    ensures Charges(LossyRun(n), 2, 0) == n
  {
    LossesCharge(n, LATER);
    NoCharges(OPENING, 2, 0);
    NoCharges(FIRST_SEND, 2, 0);
    NoCharges(REJECTIONS, 2, 0);
    ChargesConcat(REJECTIONS, Losses(n, LATER), 2, 0);
    ChargesConcat(FIRST_SEND, REJECTIONS + Losses(n, LATER), 2, 0);
    ChargesConcat(OPENING, FIRST_SEND + (REJECTIONS + Losses(n, LATER)), 2, 0);
  }

  lemma NoRetryConcat(a: seq<Event>, b: seq<Event>)
    requires NoRetry(a) && NoRetry(b)
    ensures NoRetry(a + b)
  {
  }

  lemma LossyRunDoesNotRetry(n: nat)
    ensures NoRetry(LossyRun(n))
  {
    LossesDoNotRetry(n, LATER);
    NoRetryConcat(REJECTIONS, Losses(n, LATER));
    NoRetryConcat(FIRST_SEND, REJECTIONS + Losses(n, LATER));
    NoRetryConcat(OPENING, FIRST_SEND + (REJECTIONS + Losses(n, LATER)));
  }

  /** The bound is exact: for every `n` a run without retries, with `n` unrecorded outcomes of one attempt, in which
      that attempt is sent `4 + n` times. One loss is enough for a fifth send. */
  lemma BoundIsReached(n: nat)
    ensures NoRetry(LossyRun(n)) && Charges(LossyRun(n), 2, 0) == n
    ensures var w := Play(NEVER_STARTED, LossyRun(n)); 2 < |w.rows| && w.rows[2].attempt == 4 + n
  {
    LossyRunDoesNotRetry(n);
    LossyRunCharges(n);
    LossyRunSends(n);
  }
}
