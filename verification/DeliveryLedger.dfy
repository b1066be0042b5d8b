/** The delivery table (crates/store/src/memory.rs): rows are only added, or changed by guarded updates. */
module DeliveryLedger {
  import opened Wrappers

  datatype Destination = Vault | Index | Telegram

  datatype State = Pending | Sending | Succeeded | Conflict | Failed | Skipped | UnknownDelivery | Reviewed

  /** The frozen recipient and text, or a snapshot that does not parse as one. */
  datatype Snapshot = Unreadable | Digest(chat: string, text: string)

  datatype ErrorCode = DeliveryFailed | CredentialUnavailable | FileConflict

  /** One delivery attempt. Its id is its position, so a row can only point back with `revisionOf`. */
  datatype Row = Row(
    run: nat, destination: Destination, state: State, revisionOf: Option<nat>, snapshot: Snapshot,
    chunk: Option<nat>, chunkCount: Option<nat>, messageId: Option<int>, error: Option<ErrorCode>,
    nextAttemptAt: Option<int>, attempt: nat, createdAt: int, updatedAt: int)

  /** `Stored`; `NotExpected` when the guard on the old state fails; `Refused` for a forbidden transition. */
  datatype Written = Stored(rows: seq<Row>) | NotExpected | Refused

  predicate SameIdentity(a: Row, b: Row) {
    && a.run == b.run && a.destination == b.destination && a.snapshot == b.snapshot
    && a.revisionOf == b.revisionOf && a.createdAt == b.createdAt
    && a.chunk == b.chunk && a.chunkCount == b.chunkCount
  }

  predicate Terminal(s: State) {
    s.Succeeded? || s.Skipped? || s.Reviewed?
  }

  /** `update_report_delivery`: a compare-and-set on the state. */
  function Update(rows: seq<Row>, id: nat, row: Row, expected: State): (w: Written) {
    if id >= |rows| then NotExpected
    else if !SameIdentity(rows[id], row) then Refused
    else if rows[id].state != expected then NotExpected
    else if Terminal(rows[id].state) || rows[id].state.UnknownDelivery? then Refused
    else Stored(rows[id := row])
  }

  /** `resolve_report_delivery`: the only way out of an unknown outcome. */
  function Resolve(rows: seq<Row>, id: nat, previous: Row, replacement: Option<Row>): (w: Written) {
    if id >= |rows| || !rows[id].state.UnknownDelivery? then NotExpected
    else if !SameIdentity(rows[id], previous) || !previous.state.Reviewed?
      || previous.messageId != rows[id].messageId || previous.error != rows[id].error then Refused
    else if replacement.None? then Stored(rows[id := previous])
    else if replacement.value.revisionOf != Some(id) || replacement.value.run != rows[id].run
      || !replacement.value.state.Pending? then Refused
    else Stored(rows[id := previous] + [replacement.value])
  }

  function RecoveredRow(row: Row, now: int): (r: Row) {
    if !row.state.Sending? then row
    else if row.destination.Telegram? then
      row.(state := UnknownDelivery, nextAttemptAt := None, error := Some(DeliveryFailed), updatedAt := now)
    else row.(state := Pending, updatedAt := now)
  }

  /** `recover_report_work`, run once before the worker starts. */
  function Recover(rows: seq<Row>, now: int): (r: seq<Row>)
    ensures |r| == |rows|
    ensures forall i :: 0 <= i < |rows| ==> r[i] == RecoveredRow(rows[i], now)
  {
    seq(|rows|, i requires 0 <= i < |rows| => RecoveredRow(rows[i], now))
  }

  /** Rows never disappear or change identity; settled rows never change; an unknown outcome changes only to reviewed. */
  predicate Evolves(before: seq<Row>, after: seq<Row>) {
    && |before| <= |after|
    && forall i :: 0 <= i < |before| ==>
      && SameIdentity(before[i], after[i])
      && (Terminal(before[i].state) ==> after[i] == before[i])
      && (before[i].state.UnknownDelivery? ==> after[i] == before[i] || after[i].state.Reviewed?)
  }

  lemma EvolvesTransitive(a: seq<Row>, b: seq<Row>, c: seq<Row>)
    requires Evolves(a, b) && Evolves(b, c)
    ensures Evolves(a, c)
  {
    forall i | 0 <= i < |a|
      ensures SameIdentity(a[i], c[i])
      ensures Terminal(a[i].state) ==> c[i] == a[i]
      ensures a[i].state.UnknownDelivery? ==> c[i] == a[i] || c[i].state.Reviewed?
    {
      assert SameIdentity(a[i], b[i]) && SameIdentity(b[i], c[i]);
    }
  }

  lemma StoreEvolves(rows: seq<Row>, id: nat, row: Row, expected: State, replacement: Option<Row>, now: int)
    ensures Update(rows, id, row, expected).Stored? ==> Evolves(rows, Update(rows, id, row, expected).rows)
    ensures Resolve(rows, id, row, replacement).Stored? ==> Evolves(rows, Resolve(rows, id, row, replacement).rows)
    ensures Evolves(rows, Recover(rows, now))
    ensures Evolves(rows, rows + [row])
  {
  }

  /** A replacement repeats its predecessor's run, destination and chunk, and always carries a readable snapshot;
      a row that was ever sent carries one too; only files can conflict. */
  predicate RowOk(rows: seq<Row>, i: nat)
    requires i < |rows|
  {
    var row := rows[i];
    && (row.revisionOf.Some? ==>
      && row.revisionOf.value < i
      && var prior := rows[row.revisionOf.value];
         prior.run == row.run && prior.destination == row.destination && prior.chunk == row.chunk
         && prior.chunkCount == row.chunkCount)
    && (row.destination.Telegram? ==>
      && !row.state.Conflict?
      && (row.revisionOf.Some? || row.state.Sending? || row.state.UnknownDelivery? || row.state.Succeeded? ==>
        row.snapshot.Digest?))
  }

  predicate LedgerOk(rows: seq<Row>) {
    forall i :: 0 <= i < |rows| ==> RowOk(rows, i)
  }

  /** Updating states in place keeps the ledger sound when no row becomes sent or conflicting without cause. */
  lemma RewriteKeepsOk(before: seq<Row>, after: seq<Row>)
    requires LedgerOk(before) && |after| == |before|
    requires forall i :: 0 <= i < |before| ==> SameIdentity(before[i], after[i])
    requires forall i :: 0 <= i < |before| && after[i] != before[i] && after[i].destination.Telegram? ==>
      && !after[i].state.Conflict?
      && (after[i].state.Sending? || after[i].state.UnknownDelivery? || after[i].state.Succeeded? ==>
        after[i].snapshot.Digest?)
    ensures LedgerOk(after)
  {
    forall i | 0 <= i < |after|
      ensures RowOk(after, i)
    {
      assert RowOk(before, i);
    }
  }

  lemma AppendKeepsOk(rows: seq<Row>, row: Row)
    requires LedgerOk(rows) && RowOk(rows + [row], |rows|)
    ensures LedgerOk(rows + [row])
  {
    forall i | 0 <= i < |rows|
      ensures RowOk(rows + [row], i)
    {
      assert RowOk(rows, i);
    }
  }
}
