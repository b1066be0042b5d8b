/** A call against a server that answers every page request as it should, and whose history changes at most once as the
    consumer sees it: the page loop does not raise. */
module HonestCall {
  import opened Wrappers
  import opened Bytes
  import opened ConsumerDb
  import opened ConsumerHistory
  import opened Conversation
  import opened ConsumerRuns
  import opened ConsumerFacts
  import S = FrameServer
  import W = ConsumerWorld
  import FrameCursor

  /** The HTTP answer. */
  function Replied(reply: S.Reply): (a: Answer<FramePage>) {
    match reply
    case PageReply(page) => Body(page)
    case HistoryChangedReply => Failed(Some(409))
    case BadRequestReply => Failed(Some(400))
    case StorageErrorReply => Failed(Some(500))
    case FilteredReply => Failed(Some(400))
  }

  /** Every page request is answered by the server as it is at that moment. */
  ghost predicate Faithful(pages: PageSource, srv: S.Server, moves: Moves, window: Window, limit: int, clock: nat -> int)
    requires S.ServerOk(srv) && W.WindowOk(window)
  {
    forall k: nat, cursor ::
      pages(k, cursor) == Replied(S.Answer(ServerAt(srv, moves, k), W.WireWindow(window), limit, cursor, clock(k)))
  }

  /** The history changes at most once during the call, before request `turn`. */
  ghost predicate RotatesOnce(srv: S.Server, moves: Moves, first: History, second: History, turn: nat)
    requires S.ServerOk(srv)
  {
    forall k: nat :: ServerAt(srv, moves, k).current == if k < turn then first else second
  }

  // One request.

  /** A page that should be there is there: no cursor fails to encode. */
  lemma PageComes(srv: S.Server, w: FrameCursor.EvidenceWindow, limit: nat, maximum: int, after: Option<Key>, observedAt: int)
    requires S.ServerOk(srv) && 1 <= limit && IsI64(maximum)
    ensures S.PageOf(srv, w, limit, maximum, after, observedAt).PageReply?
  {
    var s := S.CurrentStore(srv);
    var order := S.Members(s, S.WindowOf(w), maximum, after);
    if |order| > limit {
      var last := order[limit - 1];
      assert last in order;
      assert S.StoreOk(s) && last in S.Remaining(s, S.WindowOf(w), maximum, after);
      S.CursorForDecodes(w, srv.current, maximum, S.FrameKey(s, last), 1);
    }
  }

  /** What the checkpoint's request gets: a page of the current history, unless its cursor belongs to another one. */
  lemma RequestGets(w: W.World, limit: int, observedAt: int)
    requires W.Inv(w) && 1 <= limit <= FrameCursor.FRAME_PAGE_MAX_LIMIT
    ensures var reply := S.Answer(w.srv, W.WireWindow(w.db.window), limit, w.db.cp.cursor, observedAt);
      if w.db.cp.cursor.Some? && w.db.cp.history != Some(w.srv.current) then reply.HistoryChangedReply?
      else reply.PageReply? && FromCurrent(w.srv, reply.page)
  {
    var cp, window := w.db.cp, W.WireWindow(w.db.window);
    if cp.cursor.None? {
      PageComes(w.srv, window, limit, S.MaxId(S.CurrentStore(w.srv)), None, observedAt);
    } else {
      S.CursorForDecodes(window, cp.history.value, cp.snapshotMax.value, cp.last.value, limit);
      if cp.history == Some(w.srv.current) {
        PageComes(w.srv, window, limit, cp.snapshotMax.value, cp.last, observedAt);
      }
    }
    if cp.cursor.None? || cp.history == Some(w.srv.current) {
      AnswerIsCurrent(w.srv, window, limit, cp.cursor, observedAt);
    }
  }

  /** What the consumer makes of that page: it is valid, and stored unless it shows another history. */
  lemma PageIsTaken(w: W.World, limit: int, observedAt: int, now: int)
    requires W.Inv(w) && Truthful(w) && !w.db.cp.done && 1 <= limit <= FrameCursor.FRAME_PAGE_MAX_LIMIT && IsI64(observedAt)
    requires S.Answer(w.srv, W.WireWindow(w.db.window), limit, w.db.cp.cursor, observedAt).PageReply?
    ensures var page := S.Answer(w.srv, W.WireWindow(w.db.window), limit, w.db.cp.cursor, observedAt).page;
      && ValidPage(w.db.cp, w.db.window, page) && page.history == w.srv.current
      && (Commit(w.db, page, now).accepted <==> !ChangesHistory(w.db.cp, page))
  {
    var page := S.Answer(w.srv, W.WireWindow(w.db.window), limit, w.db.cp.cursor, observedAt).page;
    RequestGets(w, limit, observedAt);
    W.HonestPageIsValid(w, limit, observedAt);
    CurrentIsTrue(w.srv, page);
    PageKeepsTrue(w.srv, w.db, page, now);
  }

  // The page loop.

  lemma FaithfulIsHonest(pages: PageSource, srv: S.Server, moves: Moves, window: Window, limit: int, clock: nat -> int)
    requires S.ServerOk(srv) && W.WindowOk(window) && Faithful(pages, srv, moves, window, limit, clock)
    ensures Honest(pages, srv, moves, window, limit, clock)
  {
    forall k: nat, cursor | pages(k, cursor).Body?
      ensures S.Answer(ServerAt(srv, moves, k), W.WireWindow(window), limit, cursor, clock(k)) == S.PageReply(pages(k, cursor).value)
    {
      assert pages(k, cursor) == Replied(S.Answer(ServerAt(srv, moves, k), W.WireWindow(window), limit, cursor, clock(k)));
    }
  }

  /** After any number of requests the file and the server fit together. */
  lemma StateFits(srv: S.Server, db: Db, log: seq<DbStep>, world: World, moves: Moves, limit: int)
    requires W.Inv(W.World(srv, db, None)) && Truthful(W.World(srv, db, None))
    requires Faithful(world.pages, srv, moves, db.window, limit, world.clock) && Conversed(db, log, world)
    ensures var w := W.World(ServerAt(srv, moves, |log|), Run(db, log), None); W.Inv(w) && Truthful(w)
    ensures Run(db, log).window == db.window
  {
    var start, end := W.World(srv, db, None), W.World(ServerAt(srv, moves, |log|), Run(db, log), None);
    FaithfulIsHonest(world.pages, srv, moves, db.window, limit, world.clock);
    ConversedIsFed(db, log, world);
    LogIsReached(srv, db, log, world.pages, moves, limit, world.clock, |log|);
    var events :| W.Reaches(start, events, end);
    W.RunKeepsInv(start, events, end);
    RunKeepsTrue(start, events, end);
    RunKeeps(db, log);
  }

  /** Where the traversal stands: in the first history; in the second one, after one change; or between the two, the
      change announced and the traversal restarted. */
  predicate Phase(cp: Checkpoint, changes: nat, announced: bool, n: nat, first: History, second: History, turn: nat) {
    || (changes == 0 && !announced && (cp.history.None? || cp.history == Some(first)))
    || (changes <= 1 && !announced && cp.history == Some(second) && n > turn)
    || (changes == 1 && announced && cp.history == Some(first) && first != second && n > turn && cp.cursor.None?)
  }

  /** What one more step adds to the changes. */
  function Added(db: Db, announced: bool, step: DbStep): (n: nat)
    requires OpenRecInRange(db)
  {
    if step.BeginStep? then 1
    else if step.ObserveStep? then (if Sound(db, step) then 1 else 0)
    else if Refuses(db, step) then (if announced && db.cp.history != Some(step.page.history) then 0 else 1)
    else 0
  }

  /** The step that the server's answer leads to. */
  predicate LedBy(reply: S.Reply, step: DbStep) {
    match step
    case PageStep(page, _) => Replied(reply) == Body(page)
    case BeginStep(_, _) => Replied(reply) == Failed(Some(409))
    case ObserveStep(_, _) => Replied(reply) == Failed(Some(400))
    case _ => false
  }

  lemma PhaseStep(w: W.World, step: DbStep, n: nat, changes: nat, announced: bool, first: History, second: History, turn: nat,
                  limit: int, observedAt: int)
    requires W.Inv(w) && Truthful(w) && !w.db.cp.done && 1 <= limit <= FrameCursor.FRAME_PAGE_MAX_LIMIT && IsI64(observedAt)
    requires Phase(w.db.cp, changes, announced, n, first, second, turn)
    requires w.srv.current == if n < turn then first else second
    requires LedBy(S.Answer(w.srv, W.WireWindow(w.db.window), limit, w.db.cp.cursor, observedAt), step)
    ensures Sound(w.db, step)
    ensures Phase(Apply(w.db, step).cp, changes + Added(w.db, announced, step),
                  step.BeginStep? || (!step.PageStep? && announced), n + 1, first, second, turn)
  {
    RequestGets(w, limit, observedAt);
    var reply := S.Answer(w.srv, W.WireWindow(w.db.window), limit, w.db.cp.cursor, observedAt);
    assert w.db.cp.cursor.Some? ==> w.db.cp.history.Some?;
    if reply.PageReply? {
      PageIsTaken(w, limit, observedAt, step.now);
      PageMoves(w.db, reply.page, step.now);
    }
  }

  /** A page that is taken names the history; one that is not shows another. */
  lemma PageMoves(db: Db, page: FramePage, now: int)
    requires OpenRecInRange(db) && ValidPage(db.cp, db.window, page)
    requires Commit(db, page, now).accepted <==> !ChangesHistory(db.cp, page)
    ensures var step := PageStep(page, now);
      && Sound(db, step) && Apply(db, step).cp.history == Some(page.history)
      && (Refuses(db, step) <==> ChangesHistory(db.cp, page))
  {
    CommitMoves(db, page, now);
  }

  /** A call against a faithful server, from a file that fits it, with at most one rotation. */
  ghost predicate Setting(srv: S.Server, db: Db, world: World, moves: Moves, limit: int, first: History, second: History, turn: nat) {
    && W.Inv(W.World(srv, db, None)) && Truthful(W.World(srv, db, None))
    && Faithful(world.pages, srv, moves, db.window, limit, world.clock)
    && 1 <= limit <= FrameCursor.FRAME_PAGE_MAX_LIMIT && (forall k: nat :: IsI64(world.clock(k)))
    && RotatesOnce(srv, moves, first, second, turn) && (db.cp.history.Some? ==> db.cp.history == Some(first))
  }

  /** The state before request `|log|`, with the answer it gets. */
  lemma NextAnswer(srv: S.Server, db: Db, log: seq<DbStep>, world: World, moves: Moves, limit: int,
                   first: History, second: History, turn: nat) returns (w: W.World, reply: S.Reply)
    requires Setting(srv, db, world, moves, limit, first, second, turn) && Conversed(db, log, world)
    ensures W.Inv(w) && Truthful(w) && w.db == Run(db, log)
    ensures w.srv.current == if |log| < turn then first else second
    ensures reply == S.Answer(w.srv, W.WireWindow(w.db.window), limit, w.db.cp.cursor, world.clock(|log|))
    ensures world.pages(|log|, w.db.cp.cursor) == Replied(reply)
    ensures Replied(reply) == Failed(Some(409)) || Replied(reply).Body?
  {
    StateFits(srv, db, log, world, moves, limit);
    w := W.World(ServerAt(srv, moves, |log|), Run(db, log), None);
    reply := S.Answer(w.srv, W.WireWindow(w.db.window), limit, w.db.cp.cursor, world.clock(|log|));
    RequestGets(w, limit, world.clock(|log|));
  }

  /** Sound so far, and in one of the phases. */
  ghost predicate InPhase(db: Db, log: seq<DbStep>, first: History, second: History, turn: nat)
    requires OpenRecInRange(db)
  {
    AllSound(db, log) && Phase(Run(db, log).cp, Changes(db, log), Announced(log), |log|, first, second, turn)
  }

  /** What every answered request keeps holds of the whole conversation. */
  lemma {:induction false} AnswerByAnswer(db: Db, log: seq<DbStep>, world: World, holds: seq<DbStep> -> bool)
    requires OpenRecInRange(db) && Conversed(db, log, world) && holds([])
    requires forall front, step ::
      Conversed(db, front, world) && holds(front) && Heard(Run(db, front), |front|, Rewinds(front), step, world) ==>
      holds(front + [step])
    ensures holds(log)
    decreases |log|
  {
    if log != [] {
      var front, last := log[..|log| - 1], log[|log| - 1];
      AnswerByAnswer(db, front, world, holds);
      assert front + [last] == log;
    }
  }

  /** With faithful answers and at most one rotation there is at most one logical change, and every answer is sound. */
  lemma OneChange(srv: S.Server, db: Db, log: seq<DbStep>, world: World, moves: Moves, limit: int,
                  first: History, second: History, turn: nat)
    requires Setting(srv, db, world, moves, limit, first, second, turn) && Conversed(db, log, world)
    ensures InPhase(db, log, first, second, turn)
  {
    var holds := (front: seq<DbStep>) => InPhase(db, front, first, second, turn);
    forall front, step |
      Conversed(db, front, world) && holds(front) && Heard(Run(db, front), |front|, Rewinds(front), step, world)
      ensures holds(front + [step])
    {
      OneMoreAnswer(srv, db, front, step, world, moves, limit, first, second, turn);
    }
    AnswerByAnswer(db, log, world, holds);
  }

  lemma OneMoreAnswer(srv: S.Server, db: Db, log: seq<DbStep>, step: DbStep, world: World, moves: Moves, limit: int,
                      first: History, second: History, turn: nat)
    requires Setting(srv, db, world, moves, limit, first, second, turn) && Conversed(db, log, world)
    requires InPhase(db, log, first, second, turn)
    requires Heard(Run(db, log), |log|, Rewinds(log), step, world)
    ensures InPhase(db, log + [step], first, second, turn)
  {
    var w, reply := NextAnswer(srv, db, log, world, moves, limit, first, second, turn);
    HeardIsLed(w.db, |log|, Rewinds(log), step, world, reply);
    PhaseStep(w, step, |log|, Changes(db, log), Announced(log), first, second, turn, limit, world.clock(|log|));
    AddedIsChange(db, log, step);
  }

  lemma HeardIsLed(db: Db, n: nat, rewinds: nat, step: DbStep, world: World, reply: S.Reply)
    requires Heard(db, n, rewinds, step, world) && world.pages(n, db.cp.cursor) == Replied(reply)
    ensures LedBy(reply, step)
  {
  }

  lemma AddedIsChange(db: Db, log: seq<DbStep>, step: DbStep)
    requires OpenRecInRange(db)
    ensures Changes(db, log + [step]) == Changes(db, log) + Added(Run(db, log), Announced(log), step)
    ensures Announced(log + [step]) == (step.BeginStep? || (!step.PageStep? && Announced(log)))
    ensures AllSound(db, log + [step]) <==> AllSound(db, log) && Sound(Run(db, log), step)
    ensures Run(db, log + [step]) == Apply(Run(db, log), step)
  {
    ChangesMore(db, log, step);
    RunExtend(db, log, step);
  }

  /** So the page loop does not raise. */
  lemma PagesDoNotRaise(srv: S.Server, db: Db, log: seq<DbStep>, world: World, moves: Moves, limit: int,
                        first: History, second: History, turn: nat, maxPages: Option<nat>, raised: Option<Outcome>)
    requires Setting(srv, db, world, moves, limit, first, second, turn) && Drained(db, log, world, maxPages, raised)
    ensures raised.None? && Changes(db, log) <= 1
  {
    OneChange(srv, db, log, world, moves, limit, first, second, turn);
    var w, reply := NextAnswer(srv, db, log, world, moves, limit, first, second, turn);
    NothingAtFault(db, log, world);
  }

  /** Sound answers, followed by a page or an announced change, are no reason to raise. */
  lemma NothingAtFault(db: Db, log: seq<DbStep>, world: World)
    requires OpenRecInRange(db) && AllSound(db, log)
    requires var answer := world.pages(|log|, Run(db, log).cp.cursor); answer == Failed(Some(409)) || answer.Body?
    ensures !PageFault(db, log, world)
    ensures forall status :: !PageFailure(db, log, world, status)
  {
  }

  // The details.

  /** Every detail request gets a frame of that id, or none is there any more. */
  ghost predicate FaithfulDetails(world: World) {
    forall id :: world.details(id) == Failed(Some(404)) || FrameDetails(id, world.details(id))
  }

  ghost predicate FrameDetails(id: int, answer: Answer<FrameDetail>) {
    exists frame: Evidence :: S.ValidFrame(frame) && frame.frameId == id && answer == Body(DetailOf(frame))
  }

  lemma {:induction false} DetailsKeepHistory(db: Db, log: seq<DbStep>)
    requires OpenRecInRange(db) && OnlyDetails(log)
    ensures Run(db, log).cp.history == db.cp.history
  {
    if log != [] {
      DetailsKeepHistory(db, log[..|log| - 1]);
    }
  }

  lemma DetailsDoNotRaise(db: Db, log: seq<DbStep>, world: World, raised: Option<Outcome>)
    requires WellFormed(db) && FactsValid(db) && FaithfulDetails(world) && RereadAll(db, log, world, raised)
    ensures raised.None?
  {
    forall id
      ensures world.details(id) == Failed(Some(404)) || world.details(id).Body?
    {
      assert world.details(id) == Failed(Some(404)) || FrameDetails(id, world.details(id));
    }
    if raised == Some(RaisedProtocolError) {
      var before, last := Run(db, log[..|log| - 1]), log[|log| - 1];
      assert FrameDetails(last.frameId, world.details(last.frameId));
      var frame: Evidence :| S.ValidFrame(frame) && frame.frameId == last.frameId && world.details(last.frameId) == Body(DetailOf(frame));
      DetailsKeepHistory(db, log[..|log| - 1]);
      RunKeeps(db, log[..|log| - 1]);
      RunKeepsValid(db, log[..|log| - 1]);
      HonestDetailIsValid(before, frame);
      assert false;
    }
  }

  // The whole call.

  /** Opening a call changes neither the history nor what the file claims. */
  lemma OpeningFits(srv: S.Server, db: Db, world: World, moves: Moves, limit: int, first: History, second: History, turn: nat,
                    rescanSeconds: int)
    requires Setting(srv, db, world, moves, limit, first, second, turn) && FactsValid(db)
    ensures var begun := Run(db, Opening(db, world, rescanSeconds));
      Setting(srv, begun, world, moves, limit, first, second, turn) && FactsValid(begun)
  {
    var opening := Opening(db, world, rescanSeconds);
    var start, end := W.World(srv, db, None), W.World(srv, Run(db, opening), None);
    FedByOthers(db, [], opening, world.pages, 0);
    assert [] + opening == opening;
    FaithfulIsHonest(world.pages, srv, moves, db.window, limit, world.clock);
    LogIsReached(srv, db, opening, world.pages, moves, limit, world.clock, 0);
    var events :| W.Reaches(start, events, end);
    W.RunKeepsInv(start, events, end);
    RunKeepsTrue(start, events, end);
    RunKeeps(db, opening);
    RunKeepsValid(db, opening);
    OpeningKeepsHistory(db, world, rescanSeconds);
  }

  lemma OpeningKeepsHistory(db: Db, world: World, rescanSeconds: int)
    requires OpenRecInRange(db)
    ensures Run(db, Opening(db, world, rescanSeconds)).cp.history == db.cp.history
  {
    NoPageKeepsHistory(db, Opening(db, world, rescanSeconds));
  }

  /** Coverage reads and re-listings leave the history alone. */
  lemma {:induction false} NoPageKeepsHistory(db: Db, log: seq<DbStep>)
    requires OpenRecInRange(db) && forall i :: 0 <= i < |log| ==> log[i].ObserveStep? || log[i].RescanStep?
    ensures Run(db, log).cp.history == db.cp.history
  {
    if log != [] {
      NoPageKeepsHistory(db, log[..|log| - 1]);
    }
  }

  /** Against a faithful server that rotates at most once, with readable coverage, `consume` does not raise. Without a
      page limit it then ends exhausted or with a reconciliation pending, as every call that returns. */
  lemma HonestCallFinishes(srv: S.Server, db: Db, parts: Parts, world: World, moves: Moves, limit: int,
                           first: History, second: History, turn: nat, maxPages: Option<nat>, rescanSeconds: int, outcome: Outcome)
    requires Setting(srv, db, world, moves, limit, first, second, turn) && FactsValid(db) && FaithfulDetails(world)
    requires GoodCoverage(world.opening) && GoodCoverage(world.closing)
    requires Called(db, parts, world, maxPages, rescanSeconds, outcome)
    ensures outcome.Finished? && (maxPages.None? ==> outcome.exhausted || outcome.reconciliationPending)
    ensures Changes(Run(db, parts.opening), parts.pages) <= 1
  {
    OpeningFits(srv, db, world, moves, limit, first, second, turn, rescanSeconds);
    WorkFinishes(srv, Run(db, parts.opening), parts, world, moves, limit, first, second, turn, maxPages, outcome);
  }

  lemma WorkFinishes(srv: S.Server, begun: Db, parts: Parts, world: World, moves: Moves, limit: int,
                     first: History, second: History, turn: nat, maxPages: Option<nat>, outcome: Outcome)
    requires Setting(srv, begun, world, moves, limit, first, second, turn) && FactsValid(begun) && FaithfulDetails(world)
    requires GoodCoverage(world.closing) && Worked(begun, parts, world, maxPages, outcome)
    ensures outcome.Finished? && (maxPages.None? ==> outcome.exhausted || outcome.reconciliationPending)
    ensures Changes(begun, parts.pages) <= 1
  {
    PagesEnd(srv, begun, parts.pages, world, moves, limit, first, second, turn, maxPages, outcome);
    PagesKeepValid(begun, parts.pages);
    RestFinishes(begun, parts, world, outcome);
  }

  lemma PagesEnd(srv: S.Server, begun: Db, pages: seq<DbStep>, world: World, moves: Moves, limit: int,
                 first: History, second: History, turn: nat, maxPages: Option<nat>, outcome: Outcome)
    requires Setting(srv, begun, world, moves, limit, first, second, turn)
    ensures WellFormed(begun) && !Drained(begun, pages, world, maxPages, Some(outcome))
    ensures Drained(begun, pages, world, maxPages, None) ==> Changes(begun, pages) <= 1
  {
    if Drained(begun, pages, world, maxPages, Some(outcome)) {
      PagesDoNotRaise(srv, begun, pages, world, moves, limit, first, second, turn, maxPages, Some(outcome));
    }
    if Drained(begun, pages, world, maxPages, None) {
      PagesDoNotRaise(srv, begun, pages, world, moves, limit, first, second, turn, maxPages, None);
    }
  }

  lemma PagesKeepValid(begun: Db, pages: seq<DbStep>)
    requires WellFormed(begun) && FactsValid(begun)
    ensures WellFormed(Run(begun, pages)) && FactsValid(Run(begun, pages))
  {
    RunKeeps(begun, pages);
    RunKeepsValid(begun, pages);
  }

  lemma RestFinishes(begun: Db, parts: Parts, world: World, outcome: Outcome)
    requires OpenRecInRange(begun) && WellFormed(Run(begun, parts.pages)) && FactsValid(Run(begun, parts.pages))
    requires FaithfulDetails(world) && GoodCoverage(world.closing) && WorkedAfterPages(begun, parts, world, outcome)
    ensures outcome.Finished?
    ensures Run(begun, parts.pages).cp.done ==> outcome.exhausted || outcome.reconciliationPending
  {
    var drained := Run(begun, parts.pages);
    if RereadAll(drained, parts.details, world, Some(outcome)) {
      DetailsDoNotRaise(drained, parts.details, world, Some(outcome));
    }
    DetailsKeepScan(drained, parts.details);
    CoverageKeepsScan(Run(drained, parts.details), world);
  }

  /** A coverage read ends the traversal only by opening a scan. */
  lemma CoverageKeepsScan(db: Db, world: World)
    requires OpenRecInRange(db) && GoodCoverage(world.closing)
    ensures var after := Run(db, [ObserveStep(world.closing.value, world.clock(0))]).cp;
      (after.done == db.cp.done && after.reconciliation == db.cp.reconciliation) || after.reconciliation.Some?
  {
    RunExtend(db, [], ObserveStep(world.closing.value, world.clock(0)));
    assert [] + [ObserveStep(world.closing.value, world.clock(0))] == [ObserveStep(world.closing.value, world.clock(0))];
  }

  /** The first call on a new file is such a call. */
  lemma FirstCallFinishes(srv: S.Server, window: Window, parts: Parts, world: World, moves: Moves, limit: int,
                          first: History, second: History, turn: nat, maxPages: Option<nat>, rescanSeconds: int, outcome: Outcome)
    requires S.ServerOk(srv) && W.WindowOk(window) && RotatesOnce(srv, moves, first, second, turn)
    requires Faithful(world.pages, srv, moves, window, limit, world.clock) && FaithfulDetails(world)
    requires 1 <= limit <= FrameCursor.FRAME_PAGE_MAX_LIMIT && forall k: nat :: IsI64(world.clock(k))
    requires GoodCoverage(world.opening) && GoodCoverage(world.closing)
    requires Called(Empty(window), parts, world, maxPages, rescanSeconds, outcome)
    ensures outcome.Finished? && (maxPages.None? ==> outcome.exhausted || outcome.reconciliationPending)
  {
    EmptyIsWellFormed(window);
    HonestCallFinishes(srv, Empty(window), parts, world, moves, limit, first, second, turn, maxPages, rescanSeconds, outcome);
  }
}
