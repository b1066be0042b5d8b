/** One call of the consumer as a conversation with the server (examples/memory_consumer.py): which answers it got,
    which transactions they led to, and which of them were changes of the server's identity. */
module Conversation {
  import opened Wrappers
  import opened Bytes
  import opened ConsumerDb
  import opened ConsumerHistory

  /** An answer of the server: a body, a body that is not valid JSON of the right shape, or an HTTP failure. */
  datatype Answer<+T> = Body(value: T) | Garbled | Failed(status: Option<int>)

  /** What a page request gets, by request number and the cursor it sends. */
  type PageSource = (nat, Option<Cursor>) -> Answer<FramePage>

  /** Everything outside the consumer: any server at all, and the clock. A call asks for the details of a frame at
      most once, so they depend on its id alone. */
  datatype World = World(
    opening: Answer<int>, pages: PageSource, coverages: nat -> Answer<int>,
    details: int -> Answer<FrameDetail>, closing: Answer<int>, clock: nat -> int)

  datatype Outcome =
    | Finished(pagesFetched: nat, pagesCommitted: nat, textlessReread: nat, detailsMissing: nat,
               exhausted: bool, reconciliationPending: bool)
    | RaisedProtocolError
    | RaisedApiError(status: Option<int>)

  lemma RunExtend(db: Db, steps: seq<DbStep>, step: DbStep)
    requires OpenRecInRange(db)
    ensures Run(db, steps + [step]) == Apply(Run(db, steps), step)
  {
    assert (steps + [step])[..|steps|] == steps;
  }

  lemma {:induction false} RunConcat(db: Db, first: seq<DbStep>, second: seq<DbStep>)
    requires OpenRecInRange(db)
    ensures Run(db, first + second) == Run(Run(db, first), second)
  {
    if second == [] {
      assert first + second == first;
    } else {
      var n := |second| - 1;
      RunConcat(db, first, second[..n]);
      assert first + second == (first + second[..n]) + [second[n]];
      RunExtend(db, first + second[..n], second[n]);
    }
  }

  // The page loop: request `n` leads to step `n`.

  /** The coverage reads so far. */
  function Rewinds(log: seq<DbStep>): (n: nat) {
    if log == [] then 0 else Rewinds(log[..|log| - 1]) + (if log[|log| - 1].ObserveStep? then 1 else 0)
  }

  /** The answer to request `n`, sent with the cursor of the checkpoint, and the step it led to. */
  ghost predicate Heard(db: Db, n: nat, rewinds: nat, step: DbStep, world: World) {
    && !db.cp.done
    && var answer := world.pages(n, db.cp.cursor);
       match step
       case PageStep(page, now) => answer == Body(page) && now == world.clock(n)
       case BeginStep(reason, now) => answer == Failed(Some(409)) && reason == ServerHistoryChanged && now == world.clock(n)
       case ObserveStep(highWater, now) =>
         answer == Failed(Some(400)) && world.coverages(rewinds) == Body(highWater) && now == world.clock(n)
       case _ => false
  }

  ghost predicate Conversed(db: Db, log: seq<DbStep>, world: World)
    requires OpenRecInRange(db)
  {
    log == [] ||
    var n := |log| - 1;
    Conversed(db, log[..n], world) && Heard(Run(db, log[..n]), n, Rewinds(log[..n]), log[n], world)
  }

  lemma ConversedMore(db: Db, log: seq<DbStep>, step: DbStep, world: World)
    requires OpenRecInRange(db) && Conversed(db, log, world) && Heard(Run(db, log), |log|, Rewinds(log), step, world)
    ensures Conversed(db, log + [step], world)
  {
    assert (log + [step])[..|log|] == log;
  }

  /** An answer the loop can go on from: a valid page, a changed history, a proven rewind. */
  predicate Sound(db: Db, step: DbStep) {
    match step
    case PageStep(page, _) => ValidPage(db.cp, db.window, page)
    case ObserveStep(highWater, _) => InRange(highWater, 0, I64_MAX) && Decreased(db.cp, highWater)
    case _ => true
  }

  ghost predicate AllSound(db: Db, log: seq<DbStep>)
    requires OpenRecInRange(db)
  {
    log == [] || (AllSound(db, log[..|log| - 1]) && Sound(Run(db, log[..|log| - 1]), log[|log| - 1]))
  }

  // Changes of the server's identity.

  predicate Stores(db: Db, step: DbStep)
    requires OpenRecInRange(db)
  {
    step.PageStep? && ValidPage(db.cp, db.window, step.page) && Commit(db, step.page, step.now).accepted
  }

  /** A page that is valid and not stored: it shows another history, or competes with a recorded fact. */
  predicate Refuses(db: Db, step: DbStep)
    requires OpenRecInRange(db)
  {
    step.PageStep? && ValidPage(db.cp, db.window, step.page) && !Commit(db, step.page, step.now).accepted
  }

  /** A changed history was announced, and no page was read since. */
  function Announced(log: seq<DbStep>): (b: bool) {
    log != [] &&
    var last := log[|log| - 1];
    last.BeginStep? || (!last.PageStep? && Announced(log[..|log| - 1]))
  }

  /** The logical changes of a conversation: announced or found histories, competing facts, proven rewinds. An
      announcement and the page of another history that follows it are one change. */
  function Changes(db: Db, log: seq<DbStep>): (n: nat)
    requires OpenRecInRange(db)
  {
    if log == [] then 0
    else
      var front, last := log[..|log| - 1], log[|log| - 1];
      var before := Run(db, front);
      Changes(db, front) +
        if last.BeginStep? then 1
        else if last.ObserveStep? then (if Sound(before, last) then 1 else 0)
        else if Refuses(before, last) then (if Announced(front) && before.cp.history != Some(last.page.history) then 0 else 1)
        else 0
  }

  lemma ChangesMore(db: Db, log: seq<DbStep>, step: DbStep)
    requires OpenRecInRange(db)
    ensures Changes(db, log + [step]) == Changes(db, log)
      + (if step.BeginStep? then 1
         else if step.ObserveStep? then (if Sound(Run(db, log), step) then 1 else 0)
         else if Refuses(Run(db, log), step) then (if Announced(log) && Run(db, log).cp.history != Some(step.page.history) then 0 else 1)
         else 0)
    ensures Announced(log + [step]) == (step.BeginStep? || (!step.PageStep? && Announced(log)))
    ensures Rewinds(log + [step]) == Rewinds(log) + (if step.ObserveStep? then 1 else 0)
    ensures Fetched(db, log + [step]) == Fetched(db, log) + (if Refuses(Run(db, log), step) || Stores(Run(db, log), step) then 1 else 0)
    ensures Committed(db, log + [step]) == Committed(db, log) + (if Stores(Run(db, log), step) then 1 else 0)
    ensures AllSound(db, log + [step]) <==> AllSound(db, log) && Sound(Run(db, log), step)
  {
    assert (log + [step])[..|log|] == log;
  }

  /** The valid pages. */
  function Fetched(db: Db, log: seq<DbStep>): (n: nat)
    requires OpenRecInRange(db)
  {
    if log == [] then 0
    else
      var front, last := log[..|log| - 1], log[|log| - 1];
      Fetched(db, front) + if Refuses(Run(db, front), last) || Stores(Run(db, front), last) then 1 else 0
  }

  /** The stored pages. */
  function Committed(db: Db, log: seq<DbStep>): (n: nat)
    requires OpenRecInRange(db)
    ensures n <= Fetched(db, log)
  {
    if log == [] then 0
    else
      var front, last := log[..|log| - 1], log[|log| - 1];
      Committed(db, front) + if Stores(Run(db, front), last) then 1 else 0
  }

  // Why a call raises.

  /** An answer that is not what the protocol allows: garbled, or the last one, invalid. */
  ghost predicate PageFault(db: Db, log: seq<DbStep>, world: World)
    requires OpenRecInRange(db)
  {
    var answer := world.pages(|log|, Run(db, log).cp.cursor);
    || answer == Garbled
    || (answer == Failed(Some(400)) && world.coverages(Rewinds(log)) == Garbled)
    || (log != [] &&
        var before, last := Run(db, log[..|log| - 1]), log[|log| - 1];
        || (last.PageStep? && !ValidPage(before.cp, before.window, last.page))
        || (last.ObserveStep? && !InRange(last.highWater, 0, I64_MAX)))
  }

  /** The HTTP failure `status`: of a page, of the coverage read after a 400, or a 400 without a rewind. */
  ghost predicate PageFailure(db: Db, log: seq<DbStep>, world: World, status: Option<int>)
    requires OpenRecInRange(db)
  {
    var answer := world.pages(|log|, Run(db, log).cp.cursor);
    || (answer == Failed(status) && status != Some(409) && status != Some(400))
    || (answer == Failed(Some(400)) && world.coverages(Rewinds(log)) == Failed(status))
    || (status == Some(400) && log != [] &&
        var before, last := Run(db, log[..|log| - 1]), log[|log| - 1];
        last.ObserveStep? && InRange(last.highWater, 0, I64_MAX) && !Decreased(before.cp, last.highWater))
  }

  /** Why the page loop raised, if it did: two logical changes, an answer outside the protocol, an HTTP failure. Without
      raising there was at most one change, and every answer was sound. */
  ghost predicate Stopped(db: Db, log: seq<DbStep>, world: World, raised: Option<Outcome>)
    requires OpenRecInRange(db)
  {
    && (Changes(db, log) >= 2 ==> raised == Some(RaisedProtocolError))
    && match raised
       case None => AllSound(db, log)
       case Some(outcome) =>
         match outcome
         case Finished(_, _, _, _, _, _) => false
         case RaisedProtocolError => Changes(db, log) >= 2 || PageFault(db, log, world)
         case RaisedApiError(status) => PageFailure(db, log, world, status)
  }

  /** What the page loop did, and why it ended; without raising, at the end of the traversal or of the page budget. */
  ghost predicate Drained(db: Db, log: seq<DbStep>, world: World, maxPages: Option<nat>, raised: Option<Outcome>)
    requires OpenRecInRange(db)
  {
    && Conversed(db, log, world) && Stopped(db, log, world, raised)
    && (raised.None? ==> Run(db, log).cp.done || (maxPages.Some? && Fetched(db, log) == maxPages.value))
    && (maxPages.Some? ==> Fetched(db, log) <= maxPages.value)
  }

  predicate BadCoverage(answer: Answer<int>) {
    answer.Garbled? || (answer.Body? && !InRange(answer.value, 0, I64_MAX))
  }

  // The details.

  /** Stored frames of the current history that still lack text. */
  function Textless(db: Db): (ids: set<int>) {
    if db.cp.history.None? then {}
    else set k | k in db.facts && k.history == db.cp.history.value
                 && db.facts[k].current.textState == "not_available" :: k.frameId
  }

  /** The frames whose details are gone. */
  function Missing(ids: set<int>, world: World): (gone: set<int>) {
    set id | id in ids && world.details(id) == Failed(Some(404))
  }

  /** The refreshed frames. */
  function Reread(db: Db, log: seq<DbStep>): (n: nat)
    requires OpenRecInRange(db)
  {
    if log == [] then 0
    else
      var front, last := log[..|log| - 1], log[|log| - 1];
      Reread(db, front) + if last.DetailStep? && ValidDetail(Run(db, front), last.frameId, last.detail)
        && CommitDetail(Run(db, front), last.frameId, last.detail, last.now).accepted then 1 else 0
  }

  lemma RereadMore(db: Db, log: seq<DbStep>, step: DbStep)
    requires OpenRecInRange(db)
    ensures Reread(db, log + [step]) == Reread(db, log)
      + (if step.DetailStep? && ValidDetail(Run(db, log), step.frameId, step.detail)
           && CommitDetail(Run(db, log), step.frameId, step.detail, step.now).accepted then 1 else 0)
  {
    assert (log + [step])[..|log|] == log;
  }

  predicate Mentions(log: seq<DbStep>, id: int) {
    exists i :: 0 <= i < |log| && log[i].DetailStep? && log[i].frameId == id
  }

  /** Each of the frames was asked for: its answer was stored, once, or it is gone. */
  ghost predicate Asked(log: seq<DbStep>, ids: set<int>, world: World) {
    && (forall i :: 0 <= i < |log| ==>
      log[i].DetailStep? && log[i].frameId in ids && world.details(log[i].frameId) == Body(log[i].detail))
    && (forall i, j :: 0 <= i < j < |log| && log[i].DetailStep? && log[j].DetailStep? ==> log[i].frameId != log[j].frameId)
    && (forall id :: id in ids ==> Mentions(log, id) || world.details(id) == Failed(Some(404)))
  }

  lemma AskedGone(log: seq<DbStep>, ids: set<int>, id: int, world: World)
    requires Asked(log, ids, world) && id !in ids && world.details(id) == Failed(Some(404))
    ensures Asked(log, ids + {id}, world) && |Missing(ids + {id}, world)| == |Missing(ids, world)| + 1
  {
    assert Missing(ids + {id}, world) == Missing(ids, world) + {id};
  }

  lemma AskedMore(log: seq<DbStep>, ids: set<int>, step: DbStep, world: World)
    requires Asked(log, ids, world) && step.DetailStep? && step.frameId !in ids
    requires world.details(step.frameId) == Body(step.detail)
    ensures Asked(log + [step], ids + {step.frameId}, world)
    ensures Missing(ids + {step.frameId}, world) == Missing(ids, world)
  {
    var more := log + [step];
    forall id | id in ids + {step.frameId}
      ensures Mentions(more, id) || world.details(id) == Failed(Some(404))
    {
      if id == step.frameId {
        assert more[|log|] == step;
      } else if Mentions(log, id) {
        var i :| 0 <= i < |log| && log[i].DetailStep? && log[i].frameId == id;
        assert more[i] == log[i];
      }
    }
  }

  /** A detail that is garbled, or the last one, invalid. */
  ghost predicate DetailFault(db: Db, log: seq<DbStep>, world: World)
    requires OpenRecInRange(db)
  {
    || (exists id :: id in Textless(db) && world.details(id) == Garbled)
    || (log != [] &&
        var before, last := Run(db, log[..|log| - 1]), log[|log| - 1];
        && last.DetailStep? && last.frameId in Textless(db) && world.details(last.frameId) == Body(last.detail)
        && !ValidDetail(before, last.frameId, last.detail))
  }

  predicate OnlyDetails(log: seq<DbStep>) {
    forall i :: 0 <= i < |log| ==> log[i].DetailStep?
  }

  /** However many details are stored, at most one reconciliation is opened, and the traversal is undone only by one. */
  lemma {:induction false} DetailsKeepScan(db: Db, log: seq<DbStep>)
    requires OpenRecInRange(db) && OnlyDetails(log)
    ensures var after := Run(db, log);
      && |after.recs| <= |db.recs| + (if db.cp.reconciliation.None? && after.cp.reconciliation.Some? then 1 else 0)
      && (db.cp.reconciliation.Some? ==> after.cp.reconciliation.Some?)
      && (after.cp.done == db.cp.done || after.cp.reconciliation.Some?)
  {
    if log != [] {
      DetailsKeepScan(db, log[..|log| - 1]);
    }
  }

  /** What the detail pass did, and why it raised. */
  ghost predicate RereadAll(db: Db, log: seq<DbStep>, world: World, raised: Option<Outcome>)
    requires OpenRecInRange(db)
  {
    OnlyDetails(log) &&
    match raised
    case None => Asked(log, Textless(db), world)
    case Some(outcome) =>
      match outcome
      case Finished(_, _, _, _, _, _) => false
      case RaisedProtocolError => DetailFault(db, log, world)
      case RaisedApiError(status) =>
        status != Some(404) && exists id :: id in Textless(db) && world.details(id) == Failed(status)
  }

  // The whole call.

  /** The coverage read that opens a call, and the re-listing of an exhausted window whose last scan is old enough. */
  function Opening(db: Db, world: World, rescanSeconds: int): (log: seq<DbStep>)
    requires OpenRecInRange(db)
  {
    var observed := if world.opening.Body? then [ObserveStep(world.opening.value, world.clock(0))] else [];
    var cp := Run(db, observed).cp;
    if world.opening.Body? && !BadCoverage(world.opening) && cp.done
      && (cp.lastScanMs.None? || world.clock(0) - cp.lastScanMs.value >= rescanSeconds * 1000)
    then observed + [RescanStep] else observed
  }

  /** A finished traversal is listed again exactly when coverage could be read, nothing restarted it, and its last scan
      is unknown or at least `rescanSeconds` old. */
  lemma RescanWhen(db: Db, world: World, rescanSeconds: int)
    requires OpenRecInRange(db)
    ensures Opening(db, world, rescanSeconds) != [] && Opening(db, world, rescanSeconds)[|Opening(db, world, rescanSeconds)| - 1] == RescanStep <==>
      && GoodCoverage(world.opening) && db.cp.done && !Decreased(db.cp, world.opening.value)
      && (db.cp.lastScanMs.Some? ==> world.clock(0) >= db.cp.lastScanMs.value + 1000 * rescanSeconds)
  {
    if world.opening.Body? {
      var observe := ObserveStep(world.opening.value, world.clock(0));
      RunExtend(db, [], observe);
      assert [] + [observe] == [observe];
    }
  }

  // What the counts count.

  function Pages(log: seq<DbStep>): (n: nat) {
    if log == [] then 0 else Pages(log[..|log| - 1]) + if log[|log| - 1].PageStep? then 1 else 0
  }

  /** When nothing raised, every page read is counted as fetched. */
  lemma {:induction false} FetchedAreThePages(db: Db, log: seq<DbStep>)
    requires OpenRecInRange(db) && AllSound(db, log)
    ensures Fetched(db, log) == Pages(log)
  {
    if log != [] {
      FetchedAreThePages(db, log[..|log| - 1]);
    }
  }

  /** Every fetched page is stored or opens a scan, and so do announcements and rewinds: nothing is counted twice. */
  lemma {:induction false} ScansOpened(db: Db, log: seq<DbStep>, world: World)
    requires OpenRecInRange(db) && AllSound(db, log) && Conversed(db, log, world)
    ensures |Run(db, log).recs| == |db.recs| + (Fetched(db, log) - Committed(db, log)) + (|log| - Pages(log))
  {
    if log != [] {
      var n := |log| - 1;
      ScansOpened(db, log[..n], world);
      var before := Run(db, log[..n]);
      if log[n].PageStep? {
        CommitMoves(before, log[n].page, log[n].now);
      }
    }
  }

  /** The transactions of one call, by their part in it. */
  datatype Parts = Parts(opening: seq<DbStep>, pages: seq<DbStep>, details: seq<DbStep>, closing: seq<DbStep>)

  function Log(parts: Parts): (log: seq<DbStep>) {
    parts.opening + parts.pages + parts.details + parts.closing
  }

  function CoverageError(answer: Answer<int>): (raised: Outcome)
    requires answer.Body? ==> BadCoverage(answer)
  {
    if answer.Failed? then RaisedApiError(answer.status) else RaisedProtocolError
  }

  predicate GoodCoverage(answer: Answer<int>) {
    answer.Body? && !BadCoverage(answer)
  }

  /** What a call did after it was opened, and why it ended as it did: the pages, the details, the last coverage read,
      each of them only if nothing before it raised, and the counts of the summary. */
  ghost predicate Worked(begun: Db, parts: Parts, world: World, maxPages: Option<nat>, outcome: Outcome)
    requires OpenRecInRange(begun)
  {
    || (parts.details == [] && parts.closing == [] && Drained(begun, parts.pages, world, maxPages, Some(outcome)))
    || (Drained(begun, parts.pages, world, maxPages, None) && WorkedAfterPages(begun, parts, world, outcome))
  }

  ghost predicate WorkedAfterPages(begun: Db, parts: Parts, world: World, outcome: Outcome)
    requires OpenRecInRange(begun)
  {
    var drained := Run(begun, parts.pages);
    || (parts.closing == [] && RereadAll(drained, parts.details, world, Some(outcome)))
    || (&& RereadAll(drained, parts.details, world, None)
        && parts.closing == (if world.closing.Body? then [ObserveStep(world.closing.value, world.clock(0))] else [])
        && outcome == if !GoodCoverage(world.closing) then CoverageError(world.closing)
                      else Summary(begun, drained, parts, world, Run(Run(drained, parts.details), parts.closing).cp))
  }

  /** The counts of a call: valid pages, stored pages, refreshed frames and frames that are gone. */
  function Summary(begun: Db, drained: Db, parts: Parts, world: World, cp: Checkpoint): (outcome: Outcome)
    requires OpenRecInRange(begun) && OpenRecInRange(drained)
  {
    Finished(Fetched(begun, parts.pages), Committed(begun, parts.pages), Reread(drained, parts.details),
             |Missing(Textless(drained), world)|, cp.done, cp.reconciliation.Some?)
  }

  /** A whole call: the opening coverage read and, if that succeeds, the work. */
  ghost predicate Called(db: Db, parts: Parts, world: World, maxPages: Option<nat>, rescanSeconds: int, outcome: Outcome)
    requires OpenRecInRange(db)
  {
    && parts.opening == Opening(db, world, rescanSeconds)
    && if GoodCoverage(world.opening) then Worked(Run(db, parts.opening), parts, world, maxPages, outcome)
       else outcome == CoverageError(world.opening) && parts.pages == [] && parts.details == [] && parts.closing == []
  }

  // Pages and the requests they answer.

  predicate NoPages(log: seq<DbStep>) {
    forall i :: 0 <= i < |log| ==> !log[i].PageStep?
  }

  /** Every page in the log answers one of the first `used` requests, each with the cursor of the checkpoint it was
      sent for, in order. */
  ghost predicate Fed(db: Db, log: seq<DbStep>, pages: PageSource, used: nat)
    requires OpenRecInRange(db)
    decreases |log|
  {
    log == [] ||
    var n := |log| - 1;
    if !log[n].PageStep? then Fed(db, log[..n], pages, used)
    else
      var cp := Run(db, log[..n]).cp;
      !cp.done && exists k: nat :: k < used && pages(k, cp.cursor) == Body(log[n].page) && Fed(db, log[..n], pages, k)
  }

  lemma {:induction false} FedMore(db: Db, log: seq<DbStep>, pages: PageSource, used: nat, more: nat)
    requires OpenRecInRange(db) && Fed(db, log, pages, used) && used <= more
    ensures Fed(db, log, pages, more)
    decreases |log|
  {
    if log != [] && !log[|log| - 1].PageStep? {
      FedMore(db, log[..|log| - 1], pages, used, more);
    }
  }

  lemma {:induction false} FedByOthers(db: Db, first: seq<DbStep>, second: seq<DbStep>, pages: PageSource, used: nat)
    requires OpenRecInRange(db) && Fed(db, first, pages, used) && NoPages(second)
    ensures Fed(db, first + second, pages, used)
    decreases |second|
  {
    if second == [] {
      assert first + second == first;
    } else {
      var n := |second| - 1;
      assert (first + second)[..|first + second| - 1] == first + second[..n];
      FedByOthers(db, first, second[..n], pages, used);
    }
  }

  lemma FedByPage(db: Db, log: seq<DbStep>, pages: PageSource, k: nat, page: FramePage, now: int)
    requires OpenRecInRange(db) && Fed(db, log, pages, k) && !Run(db, log).cp.done
    requires pages(k, Run(db, log).cp.cursor) == Body(page)
    ensures Fed(db, log + [PageStep(page, now)], pages, k + 1)
  {
    assert (log + [PageStep(page, now)])[..|log|] == log;
  }

  /** A call without pages, and then one with them. */
  lemma {:induction false} FedAfterOthers(db: Db, first: seq<DbStep>, second: seq<DbStep>, pages: PageSource, used: nat)
    requires OpenRecInRange(db) && NoPages(first) && Fed(Run(db, first), second, pages, used)
    ensures Fed(db, first + second, pages, used)
    decreases |second|
  {
    if second == [] {
      FedByOthers(db, [], first, pages, used);
      assert [] + first == first && first + second == first;
    } else {
      var n := |second| - 1;
      assert (first + second)[..|first + second| - 1] == first + second[..n];
      RunConcat(db, first, second[..n]);
      if !second[n].PageStep? {
        FedAfterOthers(db, first, second[..n], pages, used);
      } else {
        var cp := Run(Run(db, first), second[..n]).cp;
        var k: nat :| k < used && pages(k, cp.cursor) == Body(second[n].page) && Fed(Run(db, first), second[..n], pages, k);
        FedAfterOthers(db, first, second[..n], pages, k);
        assert Fed(db, first + second[..n], pages, k);
      }
    }
  }

  lemma {:induction false} ConversedIsFed(db: Db, log: seq<DbStep>, world: World)
    requires OpenRecInRange(db) && Conversed(db, log, world)
    ensures Fed(db, log, world.pages, |log|)
  {
    if log != [] {
      var n := |log| - 1;
      ConversedIsFed(db, log[..n], world);
      if !log[n].PageStep? {
        FedMore(db, log[..n], world.pages, n, |log|);
      } else {
        assert world.pages(n, Run(db, log[..n]).cp.cursor) == Body(log[n].page);
      }
    }
  }
}
