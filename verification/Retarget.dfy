/** An explicit retry moves a digest's unfinished chunks to the selected chat
    (`redirect_stale_telegram_deliveries`, src-tauri/src/memory.rs). */
module Retarget {
  import opened Wrappers
  import opened DeliveryLedger

  predicate IsWhitespace(c: char) {
    var v := c as int;
    || 0x9 <= v <= 0xD || v in {0x20, 0x85, 0xA0, 0x1680, 0x2028, 0x2029, 0x202F, 0x205F, 0x3000}
    || 0x2000 <= v <= 0x200A
  }

  function TrimStart(s: string): (r: string) {
    if s != "" && IsWhitespace(s[0]) then TrimStart(s[1..]) else s
  }

  function TrimEnd(s: string): (r: string) {
    if s != "" && IsWhitespace(s[|s| - 1]) then TrimEnd(s[..|s| - 1]) else s
  }

  /** The trimmed chat id, unless it is missing or blank. */
  function TargetOf(chat: Option<string>): (target: Option<string>) {
    if chat.None? || TrimEnd(TrimStart(chat.value)) == "" then None else Some(TrimEnd(TrimStart(chat.value)))
  }

  lemma {:induction false} TrimmedFront(s: string) returns (n: nat)
    ensures n <= |s| && TrimStart(s) == s[n..] && (n < |s| ==> !IsWhitespace(s[n]))
    ensures forall k :: 0 <= k < n ==> IsWhitespace(s[k])
  {
    n := 0;
    if s != "" && IsWhitespace(s[0]) {
      var m := TrimmedFront(s[1..]);
      assert s[1..][m..] == s[m + 1..];
      assert forall k :: 1 <= k < m + 1 ==> s[k] == s[1..][k - 1];
      n := m + 1;
    }
  }

  lemma {:induction false} TrimmedBack(s: string) returns (n: nat)
    ensures n <= |s| && TrimEnd(s) == s[..n] && (n > 0 ==> !IsWhitespace(s[n - 1]))
    ensures forall k :: n <= k < |s| ==> IsWhitespace(s[k])
  {
    n := |s|;
    if s != "" && IsWhitespace(s[|s| - 1]) {
      n := TrimmedBack(s[..|s| - 1]);
      assert s[..|s| - 1][..n] == s[..n];
      assert forall k :: n <= k < |s| - 1 ==> s[k] == s[..|s| - 1][k];
    }
  }

  /** The target is the chat id without the blanks around it; there is none exactly when nothing else is in it. */
  lemma TargetIsTrimmed(chat: string)
    ensures match TargetOf(Some(chat))
      case None => forall k :: 0 <= k < |chat| ==> IsWhitespace(chat[k])
      case Some(target) =>
        && target != "" && !IsWhitespace(target[0]) && !IsWhitespace(target[|target| - 1])
        && exists from: nat, to: nat :: CutTo(chat, from, to, target)
  {
    var from := TrimmedFront(chat);
    var rest := TrimStart(chat);
    var n := TrimmedBack(rest);
    assert rest[..n] == chat[from..from + n];
    assert forall k :: from + n <= k < |chat| ==> chat[k] == rest[k - from];
    if n > 0 {
      assert CutTo(chat, from, from + n, TrimEnd(rest));
    }
  }

  /** `target` is this part of the chat id, and the rest is blank. */
  predicate CutTo(chat: string, from: nat, to: nat, target: string) {
    && from <= to <= |chat| && target == chat[from..to]
    && (forall k :: 0 <= k < from ==> IsWhitespace(chat[k]))
    && (forall k :: to <= k < |chat| ==> IsWhitespace(chat[k]))
  }

  predicate ToChat(row: Row, chat: string) {
    row.snapshot.Digest? && row.snapshot.chat == chat
  }

  predicate Open(s: State) {
    s.Pending? || s.Failed? || s.Succeeded?
  }

  /** An attempt bound to another chat. */
  predicate Stale(row: Row, run: nat, target: string) {
    && row.run == run && row.destination.Telegram? && Open(row.state)
    && row.snapshot.Digest? && row.snapshot.chat != target
  }

  predicate ConfirmedAt(rows: seq<Row>, run: nat, chunk: Option<nat>, target: string) {
    chunk.Some? &&
    exists j :: 0 <= j < |rows| && rows[j].run == run && rows[j].destination.Telegram?
      && rows[j].state.Succeeded? && rows[j].chunk == chunk && ToChat(rows[j], target)
  }

  predicate LiveReplacement(rows: seq<Row>, run: nat, i: nat, j: nat) {
    && j < |rows| && rows[j].run == run && rows[j].revisionOf == Some(i) && rows[j].destination.Telegram?
    && !rows[j].state.Reviewed? && !rows[j].state.Skipped?
  }

  predicate Replaced(rows: seq<Row>, run: nat, i: nat) {
    exists j :: 0 <= j < |rows| && LiveReplacement(rows, run, i, j)
  }

  /** The attempts that get a fresh replacement. */
  predicate Needs(rows: seq<Row>, run: nat, target: string, i: nat) {
    i < |rows| && Stale(rows[i], run, target) && !Replaced(rows, run, i)
    && !ConfirmedAt(rows, run, rows[i].chunk, target)
  }

  function ReplacementOf(item: Row, id: nat, target: string, now: int): (r: Row)
    requires item.snapshot.Digest?
  {
    item.(revisionOf := Some(id), state := Pending, snapshot := Digest(target, item.snapshot.text),
          messageId := None, error := None, nextAttemptAt := None, attempt := 0,
          createdAt := now, updatedAt := now)
  }

  predicate ToReview(row: Row, run: nat, target: string) {
    Stale(row, run, target) && !row.state.Succeeded?
  }

  function ReviewedRow(row: Row, now: int): (r: Row) {
    row.(state := Reviewed, updatedAt := now)
  }

  /** The rows after the stale unfinished attempts among `visited` were closed. */
  function Marked(rows: seq<Row>, run: nat, target: string, visited: seq<nat>, now: int): (r: seq<Row>)
    ensures |r| == |rows|
  {
    seq(|rows|, i requires 0 <= i < |rows| =>
      if i in visited && ToReview(rows[i], run, target) then ReviewedRow(rows[i], now) else rows[i])
  }

  /** The visited attempts that need a replacement, in visiting order. */
  function Needed(rows: seq<Row>, run: nat, target: string, visited: seq<nat>): (r: seq<nat>)
    ensures forall k :: 0 <= k < |r| ==> r[k] < |rows| && rows[r[k]].snapshot.Digest? && Needs(rows, run, target, r[k])
    ensures forall i: nat :: i in r <==> i in visited && Needs(rows, run, target, i)
  {
    if visited == [] then []
    else
      var n := |visited| - 1;
      var before := Needed(rows, run, target, visited[..n]);
      assert visited == visited[..n] + [visited[n]];
      if Needs(rows, run, target, visited[n]) then before + [visited[n]] else before
  }

  function Replacements(rows: seq<Row>, run: nat, target: string, needed: seq<nat>, now: int): (r: seq<Row>)
    requires forall k :: 0 <= k < |needed| ==> needed[k] < |rows| && rows[needed[k]].snapshot.Digest?
    ensures |r| == |needed|
  {
    seq(|needed|, k requires 0 <= k < |needed| => ReplacementOf(rows[needed[k]], needed[k], target, now))
  }

  /** What a call has stored once it has reviewed `reviewed` and created replacements for `created`.
      A finished call has both equal to the whole listing; a crash leaves one of its prefixes, with
      `created` possibly one attempt ahead. */
  function Progressed(rows: seq<Row>, run: nat, target: string, reviewed: seq<nat>, created: seq<nat>, now: int): (r: seq<Row>) {
    Marked(rows, run, target, reviewed, now) + Replacements(rows, run, target, Needed(rows, run, target, created), now)
  }

  function Redirected(rows: seq<Row>, run: nat, target: string, listing: seq<nat>, now: int): (r: seq<Row>) {
    Progressed(rows, run, target, listing, listing, now)
  }

  /** The rows of a run in whatever order the store lists them. */
  ghost predicate Listing(rows: seq<Row>, run: nat, listing: seq<nat>) {
    && (forall i: nat :: i in listing <==> i < |rows| && rows[i].run == run)
    && (forall a, b :: 0 <= a < b < |listing| ==> listing[a] != listing[b])
  }

  class Ledger {
    var rows: seq<Row>

    constructor (initial: seq<Row>)
      ensures rows == initial
    {
      rows := initial;
    }

    method Create(row: Row)
      modifies this
      ensures rows == old(rows) + [row]
    {
      rows := rows + [row];
    }

    method UpdateDelivery(id: nat, row: Row, expected: State) returns (w: Written)
      modifies this
      ensures w == Update(old(rows), id, row, expected)
      ensures rows == if w.Stored? then w.rows else old(rows)
    {
      w := Update(rows, id, row, expected);
      if w.Stored? {
        rows := w.rows;
      }
    }
  }

  /** One attempt: creation before review; every decision reads the first listing. */
  method Visit(ledger: Ledger, receipts: seq<Row>, run: nat, target: string, listing: seq<nat>, k: nat, now: int)
      returns (ok: bool)
    requires Listing(receipts, run, listing) && k < |listing|
    requires ledger.rows == Progressed(receipts, run, target, listing[..k], listing[..k], now)
    modifies ledger
    ensures ok
    ensures ledger.rows == Progressed(receipts, run, target, listing[..k + 1], listing[..k + 1], now)
  {
    var i := listing[k];
    assert i in listing;
    CreatedOne(receipts, run, target, listing, k, now);
    ReviewedOne(receipts, run, target, listing, k, now);
    if !Stale(receipts[i], run, target) {
      return true;
    }
    if !Replaced(receipts, run, i) && !ConfirmedAt(receipts, run, receipts[i].chunk, target) {
      ledger.Create(ReplacementOf(receipts[i], i, target, now));
    }
    if !receipts[i].state.Succeeded? {
      var w := ledger.UpdateDelivery(i, ReviewedRow(receipts[i], now), receipts[i].state);
      return w.Stored?;
    }
    return true;
  }

  /** `redirect_stale_telegram_deliveries`. */
  method Redirect(ledger: Ledger, run: nat, chat: Option<string>, listing: seq<nat>, now: int) returns (ok: bool)
    requires Listing(ledger.rows, run, listing)
    modifies ledger
    ensures ok
    ensures ledger.rows == match TargetOf(chat)
                           case None => old(ledger.rows)
                           case Some(target) => Redirected(old(ledger.rows), run, target, listing, now)
  {
    if TargetOf(chat).None? {
      return true;
    }
    var target := TargetOf(chat).value;
    var receipts := ledger.rows;
    NothingVisited(receipts, run, target, now);
    for k := 0 to |listing|
      invariant ledger.rows == Progressed(receipts, run, target, listing[..k], listing[..k], now)
    {
      var stored := Visit(ledger, receipts, run, target, listing, k, now);
      if !stored {
        return false;
      }
    }
    assert listing[..|listing|] == listing;
    return true;
  }

  lemma NothingVisited(rows: seq<Row>, run: nat, target: string, now: int)
    ensures Progressed(rows, run, target, [], [], now) == rows
  {
  }

  /** The creation half of one visit. */
  lemma CreatedOne(rows: seq<Row>, run: nat, target: string, listing: seq<nat>, k: nat, now: int)
    requires k < |listing|
    ensures Progressed(rows, run, target, listing[..k], listing[..k + 1], now)
      == Progressed(rows, run, target, listing[..k], listing[..k], now)
         + (if Needs(rows, run, target, listing[k]) then [ReplacementOf(rows[listing[k]], listing[k], target, now)] else [])
  {
    assert listing[..k + 1][..k] == listing[..k];
    var before, after := Needed(rows, run, target, listing[..k]), Needed(rows, run, target, listing[..k + 1]);
    assert Replacements(rows, run, target, after, now)
      == Replacements(rows, run, target, before, now)
         + (if Needs(rows, run, target, listing[k]) then [ReplacementOf(rows[listing[k]], listing[k], target, now)] else []);
  }

  lemma MarkedOne(rows: seq<Row>, run: nat, target: string, visited: seq<nat>, i: nat, now: int)
    requires i < |rows|
    ensures Marked(rows, run, target, visited + [i], now)
      == if ToReview(rows[i], run, target) then Marked(rows, run, target, visited, now)[i := ReviewedRow(rows[i], now)]
         else Marked(rows, run, target, visited, now)
  {
  }

  lemma UpdateInFront(front: seq<Row>, back: seq<Row>, i: nat, row: Row)
    requires i < |front|
    ensures (front + back)[i := row] == front[i := row] + back
  {
  }

  /** The review half: a guarded update that the store accepts. */
  lemma ReviewedOne(rows: seq<Row>, run: nat, target: string, listing: seq<nat>, k: nat, now: int)
    requires k < |listing| && listing[k] < |rows| && listing[k] !in listing[..k]
    ensures var i := listing[k];
      var mid := Progressed(rows, run, target, listing[..k], listing[..k + 1], now);
      var done := Progressed(rows, run, target, listing[..k + 1], listing[..k + 1], now);
      if ToReview(rows[i], run, target)
      then Update(mid, i, ReviewedRow(rows[i], now), rows[i].state) == Stored(done)
      else mid == done
  {
    var i := listing[k];
    assert listing[..k + 1] == listing[..k] + [i];
    MarkedOne(rows, run, target, listing[..k], i, now);
    var front := Marked(rows, run, target, listing[..k], now);
    assert front[i] == rows[i];
    UpdateInFront(front, Replacements(rows, run, target, Needed(rows, run, target, listing[..k + 1]), now), i,
                  ReviewedRow(rows[i], now));
  }

  // What a retry leaves behind.

  /** Only stale unfinished attempts change, and only to reviewed; the rest is appended for the target. */
  lemma ProgressedRows(rows: seq<Row>, run: nat, target: string, reviewed: seq<nat>, created: seq<nat>, now: int)
    ensures var r := Progressed(rows, run, target, reviewed, created, now);
      && |rows| <= |r|
      && (forall i :: 0 <= i < |rows| ==>
        r[i] == if i in reviewed && ToReview(rows[i], run, target) then ReviewedRow(rows[i], now) else rows[i])
      && (forall j :: |rows| <= j < |r| ==>
        && r[j].revisionOf.Some? && Needs(rows, run, target, r[j].revisionOf.value)
        && r[j].revisionOf.value in created
        && r[j] == ReplacementOf(rows[r[j].revisionOf.value], r[j].revisionOf.value, target, now))
  {
    var needed := Needed(rows, run, target, created);
    var r := Progressed(rows, run, target, reviewed, created, now);
    forall j | |rows| <= j < |r|
      ensures r[j].revisionOf == Some(needed[j - |rows|]) && needed[j - |rows|] in needed
    {
    }
  }

  lemma CreatedReplacement(rows: seq<Row>, run: nat, target: string, reviewed: seq<nat>, created: seq<nat>, now: int, i: nat)
    requires i in created && Needs(rows, run, target, i)
    ensures var r := Progressed(rows, run, target, reviewed, created, now);
      exists j :: |rows| <= j < |r| && r[j] == ReplacementOf(rows[i], i, target, now)
  {
    var needed := Needed(rows, run, target, created);
    assert i in needed;
    var k :| 0 <= k < |needed| && needed[k] == i;
    assert Progressed(rows, run, target, reviewed, created, now)[|rows| + k] == ReplacementOf(rows[i], i, target, now);
  }

  lemma ProgressedKeepsOk(rows: seq<Row>, run: nat, target: string, reviewed: seq<nat>, created: seq<nat>, now: int)
    requires LedgerOk(rows)
    ensures LedgerOk(Progressed(rows, run, target, reviewed, created, now))
    ensures Evolves(rows, Progressed(rows, run, target, reviewed, created, now))
  {
    ProgressedRows(rows, run, target, reviewed, created, now);
    var r := Progressed(rows, run, target, reviewed, created, now);
    forall i | 0 <= i < |r|
      ensures RowOk(r, i)
    {
      if i < |rows| {
        assert RowOk(rows, i);
      }
    }
  }

  /** After a finished call no unfinished attempt is bound to another chat, and confirmed, unknown and
      in-flight attempts are as they were. */
  lemma NothingStaleIsLeft(rows: seq<Row>, run: nat, target: string, listing: seq<nat>, now: int)
    requires Listing(rows, run, listing)
    ensures var r := Redirected(rows, run, target, listing, now);
      && (forall i :: 0 <= i < |r| ==> !ToReview(r[i], run, target))
      && (forall i :: 0 <= i < |rows| && !rows[i].state.Pending? && !rows[i].state.Failed? ==> r[i] == rows[i])
  {
    ProgressedRows(rows, run, target, listing, listing, now);
  }

  // Coverage.

  /** Some attempt of the chunk is open for, or confirmed to, the target. */
  predicate HasTarget(rows: seq<Row>, run: nat, target: string, chunk: Option<nat>) {
    exists j :: 0 <= j < |rows| && rows[j].run == run && rows[j].destination.Telegram?
      && Open(rows[j].state) && rows[j].chunk == chunk && ToChat(rows[j], target)
  }

  /** No attempt of the chunk is in flight or of unknown outcome. */
  predicate Certain(rows: seq<Row>, run: nat, chunk: Option<nat>) {
    forall j :: 0 <= j < |rows| && rows[j].run == run && rows[j].destination.Telegram? && rows[j].chunk == chunk ==>
      !rows[j].state.Sending? && !rows[j].state.UnknownDelivery?
  }

  /** Following live replacements from a stale attempt ends at one for the target or at one that needs a replacement. */
  lemma {:induction false} ChainEnds(rows: seq<Row>, run: nat, target: string, i: nat)
    requires LedgerOk(rows) && i < |rows| && Stale(rows[i], run, target)
    requires Certain(rows, run, rows[i].chunk)
    ensures
      || HasTarget(rows, run, target, rows[i].chunk)
      || exists k: nat :: Needs(rows, run, target, k) && rows[k].chunk == rows[i].chunk
    decreases |rows| - i
  {
    if Replaced(rows, run, i) && !ConfirmedAt(rows, run, rows[i].chunk, target) {
      var j :| 0 <= j < |rows| && LiveReplacement(rows, run, i, j);
      assert RowOk(rows, j);
      if !ToChat(rows[j], target) {
        ChainEnds(rows, run, target, j);
      }
    } else if !ConfirmedAt(rows, run, rows[i].chunk, target) {
      assert Needs(rows, run, target, i);
    }
  }

  lemma TargetStays(rows: seq<Row>, run: nat, target: string, reviewed: seq<nat>, created: seq<nat>, now: int, chunk: Option<nat>)
    requires HasTarget(rows, run, target, chunk)
    ensures HasTarget(Progressed(rows, run, target, reviewed, created, now), run, target, chunk)
  {
    ProgressedRows(rows, run, target, reviewed, created, now);
    var j :| 0 <= j < |rows| && rows[j].run == run && rows[j].destination.Telegram?
      && Open(rows[j].state) && rows[j].chunk == chunk && ToChat(rows[j], target);
    assert Progressed(rows, run, target, reviewed, created, now)[j] == rows[j];
  }

  lemma CreatedIsTarget(rows: seq<Row>, run: nat, target: string, reviewed: seq<nat>, created: seq<nat>, now: int, k: nat)
    requires k in created && Needs(rows, run, target, k)
    ensures HasTarget(Progressed(rows, run, target, reviewed, created, now), run, target, rows[k].chunk)
  {
    CreatedReplacement(rows, run, target, reviewed, created, now, k);
  }

  lemma StillCertain(rows: seq<Row>, run: nat, target: string, reviewed: seq<nat>, created: seq<nat>, now: int, chunk: Option<nat>)
    requires Certain(rows, run, chunk)
    ensures Certain(Progressed(rows, run, target, reviewed, created, now), run, chunk)
  {
    ProgressedRows(rows, run, target, reviewed, created, now);
  }

  /** Retarget coverage. Even when an earlier call stopped anywhere (nothing, part, or all of it done), a
      finished call leaves every chunk that had a stale attempt, and none in flight or unknown, with an
      attempt open for, or confirmed to, the selected chat. */
  lemma RetargetCovers(rows: seq<Row>, run: nat, target: string, reviewed: seq<nat>, created: seq<nat>, earlier: int,
                       listing: seq<nat>, now: int, i: nat)
    requires LedgerOk(rows) && i < |rows| && Stale(rows[i], run, target)
    requires Certain(rows, run, rows[i].chunk)
    requires forall k :: k in reviewed ==> k in created
    requires Listing(Progressed(rows, run, target, reviewed, created, earlier), run, listing)
    ensures HasTarget(Redirected(Progressed(rows, run, target, reviewed, created, earlier), run, target, listing, now),
                      run, target, rows[i].chunk)
  {
    var chunk := rows[i].chunk;
    var mid := Progressed(rows, run, target, reviewed, created, earlier);
    ProgressedKeepsOk(rows, run, target, reviewed, created, earlier);
    ChainEnds(rows, run, target, i);
    if HasTarget(rows, run, target, chunk) {
      TargetStays(rows, run, target, reviewed, created, earlier, chunk);
    } else {
      var k: nat :| Needs(rows, run, target, k) && rows[k].chunk == chunk;
      if k in created {
        CreatedIsTarget(rows, run, target, reviewed, created, earlier, k);
      } else {
        ProgressedRows(rows, run, target, reviewed, created, earlier);
        StillCertain(rows, run, target, reviewed, created, earlier, chunk);
        assert mid[k] == rows[k];
        ChainEnds(mid, run, target, k);
      }
    }
    if HasTarget(mid, run, target, chunk) {
      TargetStays(mid, run, target, listing, listing, now, chunk);
    } else {
      var k: nat :| Needs(mid, run, target, k) && mid[k].chunk == chunk;
      assert k in listing;
      CreatedIsTarget(mid, run, target, listing, listing, now, k);
    }
  }

  /** A replacement created before a crash is found again: its attempt is reviewed, not replaced twice. */
  lemma NoSecondReplacement(rows: seq<Row>, run: nat, target: string, reviewed: seq<nat>, created: seq<nat>, now: int, i: nat)
    requires i in created && Needs(rows, run, target, i)
    ensures !Needs(Progressed(rows, run, target, reviewed, created, now), run, target, i)
  {
    CreatedReplacement(rows, run, target, reviewed, created, now, i);
    var r := Progressed(rows, run, target, reviewed, created, now);
    var j :| |rows| <= j < |r| && r[j] == ReplacementOf(rows[i], i, target, now);
    assert LiveReplacement(r, run, i, j);
  }

  // Repeated retries.

  /** A confirmed attempt whose live replacements are all unfinished and bound to yet another chat. */
  predicate Orphaned(rows: seq<Row>, run: nat, target: string, i: nat) {
    && i < |rows| && Stale(rows[i], run, target) && rows[i].state.Succeeded?
    && !ConfirmedAt(rows, run, rows[i].chunk, target)
    && Replaced(rows, run, i)
    && forall j :: 0 <= j < |rows| && LiveReplacement(rows, run, i, j) ==> ToReview(rows[j], run, target)
  }

  lemma ConfirmationsStay(rows: seq<Row>, run: nat, target: string, listing: seq<nat>, now: int, chunk: Option<nat>)
    ensures ConfirmedAt(Redirected(rows, run, target, listing, now), run, chunk, target)
      <==> ConfirmedAt(rows, run, chunk, target)
  {
    ProgressedRows(rows, run, target, listing, listing, now);
    var r := Redirected(rows, run, target, listing, now);
    if ConfirmedAt(rows, run, chunk, target) {
      var j :| 0 <= j < |rows| && rows[j].run == run && rows[j].destination.Telegram?
        && rows[j].state.Succeeded? && rows[j].chunk == chunk && ToChat(rows[j], target);
      assert r[j] == rows[j];
    }
  }

  lemma ReplacedAfterwards(rows: seq<Row>, run: nat, target: string, listing: seq<nat>, now: int, i: nat)
    requires Listing(rows, run, listing) && i < |rows|
    ensures Replaced(Redirected(rows, run, target, listing, now), run, i) <==>
      || Needs(rows, run, target, i)
      || exists j :: 0 <= j < |rows| && LiveReplacement(rows, run, i, j) && !ToReview(rows[j], run, target)
  {
    ProgressedRows(rows, run, target, listing, listing, now);
    var r := Redirected(rows, run, target, listing, now);
    if Needs(rows, run, target, i) {
      NoSecondReplacement(rows, run, target, listing, listing, now, i);
      CreatedReplacement(rows, run, target, listing, listing, now, i);
      var j :| |rows| <= j < |r| && r[j] == ReplacementOf(rows[i], i, target, now);
      assert LiveReplacement(r, run, i, j);
    } else if exists j :: 0 <= j < |rows| && LiveReplacement(rows, run, i, j) && !ToReview(rows[j], run, target) {
      var j :| 0 <= j < |rows| && LiveReplacement(rows, run, i, j) && !ToReview(rows[j], run, target);
      assert LiveReplacement(r, run, i, j);
    } else if Replaced(r, run, i) {
      var j :| 0 <= j < |r| && LiveReplacement(r, run, i, j);
      assert j < |rows|;
      assert rows[j].run == run && j in listing;
      assert LiveReplacement(rows, run, i, j);
      assert false;
    }
  }

  /** What a second call still wants to create. */
  lemma NeedsAfterwards(rows: seq<Row>, run: nat, target: string, listing: seq<nat>, now: int, i: nat)
    requires Listing(rows, run, listing)
    ensures Needs(Redirected(rows, run, target, listing, now), run, target, i) <==> Orphaned(rows, run, target, i)
  {
    ProgressedRows(rows, run, target, listing, listing, now);
    if i < |rows| {
      ConfirmationsStay(rows, run, target, listing, now, rows[i].chunk);
      ReplacedAfterwards(rows, run, target, listing, now, i);
      assert i in listing <==> rows[i].run == run;
    }
  }

  /** A second call adds a row exactly when the first one orphaned a confirmed attempt; otherwise it changes nothing. */
  lemma SecondCallAdds(rows: seq<Row>, run: nat, target: string, listing: seq<nat>, earlier: int, again: seq<nat>, now: int)
    requires Listing(rows, run, listing)
    requires Listing(Redirected(rows, run, target, listing, earlier), run, again)
    ensures var once := Redirected(rows, run, target, listing, earlier);
      var twice := Redirected(once, run, target, again, now);
      && (|twice| > |once| <==> exists i: nat :: Orphaned(rows, run, target, i))
      && (|twice| == |once| ==> twice == once)
  {
    var once := Redirected(rows, run, target, listing, earlier);
    var needed := Needed(once, run, target, again);
    forall i: nat
      ensures i in needed <==> Orphaned(rows, run, target, i)
    {
      NeedsAfterwards(rows, run, target, listing, earlier, i);
      assert Needs(once, run, target, i) ==> i in again;
    }
    if needed != [] {
      assert needed[0] in needed;
    }
    NothingStaleIsLeft(rows, run, target, listing, earlier);
    assert Marked(once, run, target, again, now) == once;
  }

  /** Two calls settle it: a third one changes nothing. */
  lemma ThirdCallIsQuiet(rows: seq<Row>, run: nat, target: string, first: seq<nat>, t1: int, second: seq<nat>, t2: int,
                         third: seq<nat>, t3: int)
    requires Listing(rows, run, first)
    requires Listing(Redirected(rows, run, target, first, t1), run, second)
    requires Listing(Redirected(Redirected(rows, run, target, first, t1), run, target, second, t2), run, third)
    ensures var twice := Redirected(Redirected(rows, run, target, first, t1), run, target, second, t2);
      Redirected(twice, run, target, third, t3) == twice
  {
    var once := Redirected(rows, run, target, first, t1);
    NothingStaleIsLeft(rows, run, target, first, t1);
    forall i: nat
      ensures !Orphaned(once, run, target, i)
    {
      if Orphaned(once, run, target, i) {
        assert false;
      }
    }
    SecondCallAdds(once, run, target, second, t2, third, t3);
  }

  function ConfirmedAtA(text: string, now: int): (a: Row) {
    Row(0, Telegram, Succeeded, None, Digest("A", text), Some(0), Some(1), Some(7), None, None, 1, now, now)
  }

  function PendingAtB(text: string, now: int): (b: Row) {
    ReplacementOf(ConfirmedAtA(text, now), 0, "B", now)
  }

  lemma FirstRetryNeeds(text: string, now: int)
    ensures var rows := [ConfirmedAtA(text, now), PendingAtB(text, now)];
      LedgerOk(rows) && !Needs(rows, 0, "C", 0) && Needs(rows, 0, "C", 1)
  {
    var rows := [ConfirmedAtA(text, now), PendingAtB(text, now)];
    assert LiveReplacement(rows, 0, 0, 1);
  }

  lemma FirstRetry(text: string, now: int)
    ensures var a, b := ConfirmedAtA(text, now), PendingAtB(text, now);
      Redirected([a, b], 0, "C", [0, 1], now) == OnceRetried(text, now)
  {
    var a, b := ConfirmedAtA(text, now), PendingAtB(text, now);
    FirstRetryNeeds(text, now);
    NeededOfTwo([a, b], "C");
    assert Needed([a, b], 0, "C", [0, 1]) == [1];
    assert Marked([a, b], 0, "C", [0, 1], now) == [a, ReviewedRow(b, now)];
  }

  function OnceRetried(text: string, now: int): (once: seq<Row>) {
    var a, b := ConfirmedAtA(text, now), PendingAtB(text, now);
    [a, ReviewedRow(b, now), ReplacementOf(b, 1, "C", now)]
  }

  lemma SecondRetryNeeds(text: string, now: int)
    ensures var once := OnceRetried(text, now);
      Needs(once, 0, "C", 0) && !Needs(once, 0, "C", 1) && !Needs(once, 0, "C", 2)
  {
    var once := OnceRetried(text, now);
    forall j | 0 <= j < |once|
      ensures !LiveReplacement(once, 0, 0, j)
      ensures !(once[j].state.Succeeded? && ToChat(once[j], "C"))
    {
    }
    assert !Replaced(once, 0, 0) && !ConfirmedAt(once, 0, once[0].chunk, "C");
  }

  lemma SecondRetry(text: string, now: int)
    ensures var once := OnceRetried(text, now);
      Redirected(once, 0, "C", [0, 1, 2], now) == once + [ReplacementOf(ConfirmedAtA(text, now), 0, "C", now)]
  {
    var once := OnceRetried(text, now);
    SecondRetryNeeds(text, now);
    NeededOfThree(once, "C");
    assert Needed(once, 0, "C", [0, 1, 2]) == [0];
    assert Marked(once, 0, "C", [0, 1, 2], now) == once;
  }

  /** Confirmed to A, its replacement for B still pending, then C is selected: the first retry replaces B's
      attempt, the second replaces A's as well, and the chunk is queued for C twice. */
  lemma ChunkQueuedTwice(text: string, now: int)
    ensures var a, b := ConfirmedAtA(text, now), PendingAtB(text, now);
      var once := Redirected([a, b], 0, "C", [0, 1], now);
      var twice := Redirected(once, 0, "C", [0, 1, 2], now);
      && LedgerOk([a, b]) && |once| == 3 && |twice| == 4
      && twice[2].chunk == twice[3].chunk && twice[2].state.Pending? && twice[3].state.Pending?
      && ToChat(twice[2], "C") && ToChat(twice[3], "C")
  {
    FirstRetryNeeds(text, now);
    FirstRetry(text, now);
    SecondRetry(text, now);
  }

  lemma NeededOfTwo(rows: seq<Row>, target: string)
    ensures Needed(rows, 0, target, [0, 1])
      == (if Needs(rows, 0, target, 0) then [0] else []) + (if Needs(rows, 0, target, 1) then [1] else [])
  {
    assert [0, 1][..1] == [0] && [0][..0] == [];
    assert Needed(rows, 0, target, [0]) == if Needs(rows, 0, target, 0) then [0] else [];
  }

  lemma NeededOfThree(rows: seq<Row>, target: string)
    ensures Needed(rows, 0, target, [0, 1, 2])
      == (if Needs(rows, 0, target, 0) then [0] else []) + (if Needs(rows, 0, target, 1) then [1] else [])
         + (if Needs(rows, 0, target, 2) then [2] else [])
  {
    NeededOfTwo(rows, target);
    assert [0, 1, 2][..2] == [0, 1];
  }
}
