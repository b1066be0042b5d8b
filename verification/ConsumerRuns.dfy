/** A call of the consumer against the modelled server is a run of the step system: what is proved of all those
    runs holds after `consume` returns or raises. */
module ConsumerRuns {
  import opened Wrappers
  import opened ConsumerDb
  import opened ConsumerHistory
  import opened FrameServer
  import opened ConsumerWorld
  import Conversation

  /** What happens to the server before each request. */
  type Moves = nat -> seq<ServerStep>

  function Moved(srv: Server, steps: seq<ServerStep>): (r: Server)
    requires ServerOk(srv)
    ensures ServerOk(r)
    decreases |steps|
  {
    if steps == [] then srv
    else
      ApplyServerOk(srv, steps[0]);
      Moved(ApplyServer(srv, steps[0]), steps[1..])
  }

  /** The server as request `k` finds it. */
  function ServerAt(srv: Server, moves: Moves, k: nat): (r: Server)
    requires ServerOk(srv)
    ensures ServerOk(r)
  {
    if k == 0 then srv else Moved(ServerAt(srv, moves, k - 1), moves(k - 1))
  }

  /** Every page is what the server answers at that moment to the cursor sent. Requests may fail in any way. */
  ghost predicate Honest(pages: Conversation.PageSource, srv: Server, moves: Moves, window: Window, limit: int, clock: nat -> int)
    requires ServerOk(srv) && WindowOk(window)
  {
    forall k: nat, cursor :: pages(k, cursor).Body? ==>
      Answer(ServerAt(srv, moves, k), WireWindow(window), limit, cursor, clock(k)) == PageReply(pages(k, cursor).value)
  }

  ghost predicate Reachable(from: World, to: World) {
    exists events :: Reaches(from, events, to)
  }

  // Runs in sequence, for any step function.

  ghost predicate Chain<S, E>(next: (S, E) -> Option<S>, from: S, events: seq<E>, to: S)
    decreases |events|
  {
    if events == [] then to == from
    else next(from, events[0]).Some? && Chain(next, next(from, events[0]).value, events[1..], to)
  }

  lemma {:induction false} ChainConcat<S, E>(next: (S, E) -> Option<S>, a: S, first: seq<E>, b: S, second: seq<E>, c: S)
    requires Chain(next, a, first, b) && Chain(next, b, second, c)
    ensures Chain(next, a, first + second, c)
    decreases |first|
  {
    if first == [] {
      assert first + second == second;
    } else {
      ChainConcat(next, next(a, first[0]).value, first[1..], b, second, c);
      assert (first + second)[1..] == first[1..] + second;
    }
  }

  ghost function Next(w: World, event: Event): (r: Option<World>) {
    if ServerOk(w.srv) && WellFormed(w.db) && WindowOk(w.db.window) then Some(Happen(w, event)) else None
  }

  lemma {:induction false} ReachesIsChain(from: World, events: seq<Event>, to: World)
    ensures Reaches(from, events, to) <==> Chain(Next, from, events, to)
    decreases |events|
  {
    if events != [] && Next(from, events[0]).Some? {
      ReachesIsChain(Next(from, events[0]).value, events[1..], to);
    }
  }

  lemma ReachesConcat(a: World, first: seq<Event>, b: World, second: seq<Event>, c: World)
    requires Reaches(a, first, b) && Reaches(b, second, c)
    ensures Reaches(a, first + second, c)
  {
    ReachesIsChain(a, first, b);
    ReachesIsChain(b, second, c);
    ChainConcat(Next, a, first, b, second, c);
    ReachesIsChain(a, first + second, c);
  }

  lemma ReachableAgain(a: World, b: World, c: World)
    requires Reachable(a, b) && Reachable(b, c)
    ensures Reachable(a, c)
  {
    var first :| Reaches(a, first, b);
    var second :| Reaches(b, second, c);
    ReachesConcat(a, first, b, second, c);
  }

  lemma ReachableItself(a: World)
    ensures Reachable(a, a)
  {
    assert Reaches(a, [], a);
  }

  lemma ReachableOne(a: World, event: Event)
    requires ServerOk(a.srv) && WellFormed(a.db) && WindowOk(a.db.window)
    ensures Reachable(a, Happen(a, event))
  {
    assert [event][1..] == [];
    assert Reaches(Happen(a, event), [], Happen(a, event));
    assert Reaches(a, [event], Happen(a, event));
  }

  lemma ReachableKeepsInv(a: World, b: World)
    requires Inv(a) && Reachable(a, b)
    ensures Inv(b)
  {
    var events :| Reaches(a, events, b);
    RunKeepsInv(a, events, b);
  }

  lemma {:induction false} MovesAreReached(w: World, steps: seq<ServerStep>)
    requires ServerOk(w.srv) && WellFormed(w.db) && WindowOk(w.db.window)
    ensures Reachable(w, w.(srv := Moved(w.srv, steps)))
    decreases |steps|
  {
    if steps == [] {
      ReachableItself(w);
    } else {
      var next := Happen(w, ServerMoves(steps[0]));
      ApplyServerOk(w.srv, steps[0]);
      ReachableOne(w, ServerMoves(steps[0]));
      MovesAreReached(next, steps[1..]);
      ReachableAgain(w, next, w.(srv := Moved(w.srv, steps)));
    }
  }

  lemma {:induction false} LaterServerIsReached(srv: Server, moves: Moves, db: Db, k: nat, later: nat)
    requires ServerOk(srv) && WellFormed(db) && WindowOk(db.window) && k <= later
    ensures Reachable(World(ServerAt(srv, moves, k), db, None), World(ServerAt(srv, moves, later), db, None))
    decreases later - k
  {
    var w := World(ServerAt(srv, moves, k), db, None);
    if k == later {
      ReachableItself(w);
    } else {
      MovesAreReached(w, moves(k));
      LaterServerIsReached(srv, moves, db, k + 1, later);
      ReachableAgain(w, World(ServerAt(srv, moves, k + 1), db, None), World(ServerAt(srv, moves, later), db, None));
    }
  }

  /** One request and the page it brought. */
  lemma PageIsReached(w: World, limit: int, observedAt: int, page: FramePage, now: int)
    requires Inv(w) && w.inflight.None? && !w.db.cp.done
    requires Answer(w.srv, WireWindow(w.db.window), limit, w.db.cp.cursor, observedAt) == PageReply(page)
    ensures Reachable(w, World(w.srv, Apply(w.db, PageStep(page, now)), None))
  {
    var asked := Happen(w, Request(limit, observedAt));
    ReachableOne(w, Request(limit, observedAt));
    ReachableOne(asked, StorePage(now));
    ReachableAgain(w, asked, Happen(asked, StorePage(now)));
  }

  /** Whatever the consumer stored while it read from the server, in however many requests, is a run of both. */
  lemma {:induction false} LogIsReached(srv: Server, db: Db, log: seq<DbStep>, pages: Conversation.PageSource,
                                        moves: Moves, limit: int, clock: nat -> int, used: nat)
    requires Inv(World(srv, db, None)) && Honest(pages, srv, moves, db.window, limit, clock)
    requires Conversation.Fed(db, log, pages, used)
    ensures Reachable(World(srv, db, None), World(ServerAt(srv, moves, used), Run(db, log), None))
    decreases |log|
  {
    if log == [] {
      LaterServerIsReached(srv, moves, db, 0, used);
    } else {
      var n := |log| - 1;
      var start, before := World(srv, db, None), Run(db, log[..n]);
      if !log[n].PageStep? {
        LogIsReached(srv, db, log[..n], pages, moves, limit, clock, used);
        OtherIsLast(start, World(ServerAt(srv, moves, used), before, None), log[n]);
      } else {
        var k: nat :| k < used && pages(k, before.cp.cursor) == Conversation.Body(log[n].page)
          && Conversation.Fed(db, log[..n], pages, k);
        LogIsReached(srv, db, log[..n], pages, moves, limit, clock, k);
        RunKeeps(db, log[..n]);
        PageIsLast(start, srv, before, log[n].page, log[n].now, moves, limit, clock(k), k, used);
      }
    }
  }

  lemma OtherIsLast(start: World, mid: World, step: DbStep)
    requires Inv(start) && Reachable(start, mid) && mid.inflight.None? && !step.PageStep?
    ensures OpenRecInRange(mid.db) && Reachable(start, World(mid.srv, Apply(mid.db, step), None))
  {
    ReachableKeepsInv(start, mid);
    ReachableOne(mid, OtherTransaction(step));
    ReachableAgain(start, mid, Happen(mid, OtherTransaction(step)));
  }

  lemma PageIsLast(start: World, srv: Server, db: Db, page: FramePage, now: int, moves: Moves, limit: int,
                   observedAt: int, k: nat, used: nat)
    requires Inv(start) && ServerOk(srv) && Reachable(start, World(ServerAt(srv, moves, k), db, None)) && k < used
    requires !db.cp.done && WindowOk(db.window)
    requires Answer(ServerAt(srv, moves, k), WireWindow(db.window), limit, db.cp.cursor, observedAt) == PageReply(page)
    ensures OpenRecInRange(db)
    ensures Reachable(start, World(ServerAt(srv, moves, used), Apply(db, PageStep(page, now)), None))
  {
    var mid := World(ServerAt(srv, moves, k), db, None);
    ReachableKeepsInv(start, mid);
    PageIsReached(mid, limit, observedAt, page, now);
    var stored := World(mid.srv, Apply(db, PageStep(page, now)), None);
    ReachableAgain(start, mid, stored);
    ReachableKeepsInv(start, stored);
    LaterServerIsReached(srv, moves, stored.db, k, used);
    ReachableAgain(start, stored, World(ServerAt(srv, moves, used), stored.db, None));
  }

  /** The first call on a new file, however it ends, against a server that moves as it likes: the stored checkpoint
      is a true claim about the server's history. */
  lemma CallIsCovered(srv: Server, window: Window, log: seq<DbStep>, pages: Conversation.PageSource, moves: Moves,
                      limit: int, clock: nat -> int)
    requires ServerOk(srv) && WindowOk(window) && Honest(pages, srv, moves, window, limit, clock)
    requires exists used: nat :: Conversation.Fed(Empty(window), log, pages, used)
    ensures exists used: nat :: Inv(World(ServerAt(srv, moves, used), Run(Empty(window), log), None))
  {
    EmptyIsWellFormed(window);
    var used: nat :| Conversation.Fed(Empty(window), log, pages, used);
    CallKeepsInv(srv, Empty(window), log, pages, moves, limit, clock, used);
  }

  /** And so is every later call's. */
  lemma CallKeepsInv(srv: Server, db: Db, log: seq<DbStep>, pages: Conversation.PageSource, moves: Moves,
                     limit: int, clock: nat -> int, used: nat)
    requires Inv(World(srv, db, None)) && Honest(pages, srv, moves, db.window, limit, clock)
    requires Conversation.Fed(db, log, pages, used)
    ensures Inv(World(ServerAt(srv, moves, used), Run(db, log), None))
  {
    LogIsReached(srv, db, log, pages, moves, limit, clock, used);
    ReachableKeepsInv(World(srv, db, None), World(ServerAt(srv, moves, used), Run(db, log), None));
  }
}
