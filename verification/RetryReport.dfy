/** The ledger half of an explicit retry (`retry_memory_report`, src-tauri/src/memory.rs). */
module RetryReport {
  import opened Wrappers
  import opened DeliveryLedger
  import opened Retarget
  import opened Dispatch
  import opened DispatchSafety

  /** The order in which the store lists the rows of a run. */
  ghost predicate Lists(order: seq<Row> -> seq<nat>, r: nat) {
    forall rows: seq<Row> :: Listing(rows, r, order(rows))
  }

  /** One row of the second listing. */
  method ResetOne(ledger: Ledger, rows: seq<Row>, r: nat, visited: seq<nat>, i: nat, now: int) returns (ok: bool)
    requires i < |rows| && i !in visited && ledger.rows == ResetRows(rows, r, visited, now)
    modifies ledger
    ensures ok && ledger.rows == ResetRows(rows, r, visited + [i], now)
  {
    var row := ResetRow(rows[i], r, now);
    if row == rows[i] {
      return true;
    }
    var w := ledger.UpdateDelivery(i, row, rows[i].state);
    return w.Stored?;
  }

  /** The rows of a run listed, redirected and listed again. */
  function RetriedRows(rows: seq<Row>, r: nat, chat: Option<string>, order: seq<Row> -> seq<nat>, now: int): (after: seq<Row>) {
    var mid := match TargetOf(chat) case None => rows case Some(target) => Redirected(rows, r, target, order(rows), now);
    ResetRows(mid, r, order(mid), now)
  }

  /** The finished retry of the dispatch machine stores exactly these rows. */
  lemma RetryIsTheEvent(w: World, r: nat, order: seq<Row> -> seq<nat>, now: int)
    requires WorldOk(w)
    ensures var mid := AfterRedirect(w, r, order(w.rows), order(w.rows), now);
      var e := Retry(r, order(w.rows), order(w.rows), order(mid), true, now);
      Step(w, e).Some? ==> Step(w, e).value.rows == RetriedRows(w.rows, r, w.chat, order, now)
  {
    var mid := AfterRedirect(w, r, order(w.rows), order(w.rows), now);
    var e := Retry(r, order(w.rows), order(w.rows), order(mid), true, now);
    if Step(w, e).Some? {
      RetryWrites(w, e);
      SameRedirect(w, r, order, now);
    }
  }

  lemma SameRedirect(w: World, r: nat, order: seq<Row> -> seq<nat>, now: int)
    ensures AfterRedirect(w, r, order(w.rows), order(w.rows), now)
      == match TargetOf(w.chat) case None => w.rows case Some(target) => Redirected(w.rows, r, target, order(w.rows), now)
  {
  }

  /** Redirect to the selected chat, then list again: failed sends become pending, file conflicts are reviewed. */
  method RetryDeliveries(ledger: Ledger, r: nat, chat: Option<string>, order: seq<Row> -> seq<nat>, now: int)
      returns (ok: bool)
    requires Lists(order, r)
    modifies ledger
    ensures ok
    ensures ledger.rows == RetriedRows(old(ledger.rows), r, chat, order, now)
  {
    var redirected := Redirect(ledger, r, chat, order(ledger.rows), now);
    if !redirected {
      return false;
    }
    ok := ResetListed(ledger, r, order(ledger.rows), now);
  }

  method ResetListed(ledger: Ledger, r: nat, listing: seq<nat>, now: int) returns (ok: bool)
    requires Listing(ledger.rows, r, listing)
    modifies ledger
    ensures ok && ledger.rows == ResetRows(old(ledger.rows), r, listing, now)
  {
    var rows := ledger.rows;
    assert ResetRows(rows, r, [], now) == rows;
    for k := 0 to |listing|
      invariant ledger.rows == ResetRows(rows, r, listing[..k], now)
    {
      assert listing[k] in listing && listing[k] !in listing[..k];
      assert listing[..k + 1] == listing[..k] + [listing[k]];
      var stored := ResetOne(ledger, rows, r, listing[..k], listing[k], now);
      if !stored {
        return false;
      }
    }
    assert listing[..|listing|] == listing;
    return true;
  }
}
