/** The frame feed the consumer reads: allocation, enrichment, deletion, rotation, and keyset pages. */
module FrameServer {
  import opened Wrappers
  import opened Bytes
  import opened ConsumerDb
  import CursorReading
  import FrameCursor

  /** One history: frames by id, and the allocator's high-water mark. */
  datatype Store = Store(frames: map<int, Evidence>, highWater: int)

  datatype Server = Server(stores: map<Utf8, Store>, current: Utf8)

  /** A record of the right shape, wherever its capture time lies. */
  predicate ValidFrame(e: Evidence) {
    IsI64(e.capturedAt) && ValidEvidence(e, Window(I64_MIN, I64_MAX + 1), I64_MAX)
  }

  predicate StoreOk(s: Store) {
    && 0 <= s.highWater <= I64_MAX
    && forall id :: id in s.frames ==> id <= s.highWater && s.frames[id].frameId == id && ValidFrame(s.frames[id])
  }

  predicate ServerOk(srv: Server) {
    && srv.current in srv.stores
    && forall h :: h in srv.stores ==> FrameCursor.ValidHistoryId(h) && StoreOk(srv.stores[h])
  }

  function CurrentStore(srv: Server): (s: Store)
    requires srv.current in srv.stores
  {
    srv.stores[srv.current]
  }

  datatype ServerStep =
    | Insert(content: Evidence)
    | Enrich(frameId: int, content: Evidence)
    | Delete(frameId: int)
    | Rotate(history: Utf8, initial: Store)

  function WithCurrent(srv: Server, s: Store): (r: Server) {
    srv.(stores := srv.stores[srv.current := s])
  }

  /** A refused step (allocator exhausted, no such frame, malformed identity) changes nothing. */
  function ApplyServer(srv: Server, step: ServerStep): (r: Server)
    requires srv.current in srv.stores
  {
    var s := CurrentStore(srv);
    match step
    case Insert(content) =>
      var frame := content.(frameId := s.highWater + 1);
      if s.highWater >= I64_MAX || !ValidFrame(frame) then srv
      else WithCurrent(srv, Store(s.frames[frame.frameId := frame], frame.frameId))
    case Enrich(id, content) =>
      if id !in s.frames then srv
      else
        var enriched := content.(frameId := id, capturedAt := s.frames[id].capturedAt);
        if !ValidFrame(enriched) then srv else WithCurrent(srv, s.(frames := s.frames[id := enriched]))
    case Delete(id) => WithCurrent(srv, s.(frames := s.frames - {id}))
    case Rotate(h, initial) =>
      if !FrameCursor.ValidHistoryId(h) || !StoreOk(initial) then srv
      else srv.(current := h, stores := if h in srv.stores then srv.stores else srv.stores[h := initial])
  }

  lemma ApplyServerOk(srv: Server, step: ServerStep)
    requires ServerOk(srv)
    ensures ServerOk(ApplyServer(srv, step))
  {
  }

  /** A history only gains frames above its high-water mark, which never falls; kept frames keep their key. */
  predicate Grows(before: Server, after: Server) {
    forall h :: h in before.stores ==>
      && h in after.stores
      && before.stores[h].highWater <= after.stores[h].highWater
      && forall id :: id in after.stores[h].frames && id <= before.stores[h].highWater ==>
        id in before.stores[h].frames && KeyOf(after.stores[h].frames[id]) == KeyOf(before.stores[h].frames[id])
  }

  lemma ApplyServerGrows(srv: Server, step: ServerStep)
    requires ServerOk(srv)
    ensures Grows(srv, ApplyServer(srv, step))
  {
  }

  // Pages.

  function FrameKey(s: Store, id: int): (k: Key)
    requires id in s.frames
  {
    KeyOf(s.frames[id])
  }

  /** The frames a page chooses from: inside the window, up to the frozen maximum, beyond the seek tuple. */
  function Remaining(s: Store, w: Window, maximum: int, after: Option<Key>): (ids: set<int>) {
    set id | id in s.frames && id <= maximum && w.from <= s.frames[id].capturedAt < w.to
             && After(after, FrameKey(s, id))
  }

  ghost predicate Earliest(s: Store, ids: set<int>, id: int)
    requires ids <= s.frames.Keys
  {
    id in ids && forall j :: j in ids && j != id ==> KeyLess(FrameKey(s, id), FrameKey(s, j))
  }

  lemma {:induction false} EarliestExists(s: Store, ids: set<int>)
    requires StoreOk(s) && ids <= s.frames.Keys && ids != {}
    ensures exists id :: Earliest(s, ids, id)
    decreases |ids|
  {
    if forall id :: id !in ids {
      assert false;
    }
    var any :| any in ids;
    var others := ids - {any};
    if others == {} {
      assert ids == {any};
      assert Earliest(s, ids, any);
    } else {
      EarliestExists(s, others);
      var first :| Earliest(s, others, first);
      assert ids == others + {any};
      assert Earliest(s, ids, if KeyLess(FrameKey(s, any), FrameKey(s, first)) then any else first);
    }
  }

  /** Ids in `(captured_at, id)` order. */
  ghost function Ordered(s: Store, ids: set<int>): (order: seq<int>)
    requires StoreOk(s) && ids <= s.frames.Keys
    ensures forall id :: id in order <==> id in ids
    ensures |order| == |ids|
    decreases |ids|
  {
    if ids == {} then []
    else
      EarliestExists(s, ids);
      var first :| Earliest(s, ids, first);
      [first] + Ordered(s, ids - {first})
  }

  predicate Ascending(s: Store, order: seq<int>)
    requires forall i :: 0 <= i < |order| ==> order[i] in s.frames
  {
    forall i, j :: 0 <= i < j < |order| ==> KeyLess(FrameKey(s, order[i]), FrameKey(s, order[j]))
  }

  lemma {:induction false} OrderedAscends(s: Store, ids: set<int>)
    requires StoreOk(s) && ids <= s.frames.Keys
    ensures forall i :: 0 <= i < |Ordered(s, ids)| ==> Ordered(s, ids)[i] in ids
    ensures Ascending(s, Ordered(s, ids))
    decreases |ids|
  {
    assert forall i :: 0 <= i < |Ordered(s, ids)| ==> Ordered(s, ids)[i] in Ordered(s, ids);
    if ids != {} {
      var order := Ordered(s, ids);
      var first := order[0];
      EarliestExists(s, ids);
      assert Earliest(s, ids, first);
      OrderedAscends(s, ids - {first});
      assert order[1..] == Ordered(s, ids - {first});
      forall i, j | 0 <= i < j < |order|
        ensures KeyLess(FrameKey(s, order[i]), FrameKey(s, order[j]))
      {
        assert order[j] == order[1..][j - 1];
        assert order[j] in ids - {first};
        if i > 0 {
          assert order[i] == order[1..][i - 1];
        }
      }
    }
  }

  /** The largest frame id, or 0; the allocator never hands out less. */
  ghost function MaxId(s: Store): (m: int)
    requires StoreOk(s)
    ensures 0 <= m <= s.highWater
    ensures m == 0 <==> s.frames == map[]
    ensures forall id :: id in s.frames ==> id <= m
  {
    if s.frames == map[] then 0
    else
      Largest(s.frames.Keys, s.highWater);
      var m :| m in s.frames && forall id :: id in s.frames ==> id <= m;
      m
  }

  lemma {:induction false} Largest(ids: set<int>, bound: nat)
    requires ids != {} && forall id :: id in ids ==> 1 <= id <= bound
    ensures exists m :: m in ids && forall id :: id in ids ==> id <= m
    decreases bound
  {
    if bound !in ids {
      if bound == 0 {
        if forall id :: id !in ids {
          assert false;
        }
      } else {
        Largest(ids, bound - 1);
      }
    }
  }

  datatype Reply =
    | PageReply(page: FramePage)
    | HistoryChangedReply
    | BadRequestReply
    | StorageErrorReply
    | FilteredReply

  const NO_FILTERS: FrameCursor.FrameFilters := FrameCursor.FrameFilters(None, None)

  /** The request a page freezes in its cursor. */
  function ContinuationRequest(w: FrameCursor.EvidenceWindow, history: Utf8, maximum: int, after: Key)
      : (r: Option<FrameCursor.FramePageRequest>)
  {
    if !IsI64(maximum) || !IsI64(after.capturedAt) || !IsI64(after.frameId) then None
    else Some(FrameCursor.FramePageRequest(w, NO_FILTERS, FrameCursor.FRAME_PAGE_DEFAULT_LIMIT,
      Some(FrameCursor.FrameContinuation(
        FrameCursor.FrameSnapshot(history, maximum),
        FrameCursor.FramePosition(after.capturedAt, after.frameId)))))
  }

  function CursorFor(w: FrameCursor.EvidenceWindow, history: Utf8, maximum: int, after: Key): (c: Option<Cursor>) {
    var r := ContinuationRequest(w, history, maximum, after);
    if r.None? then None
    else
      var c := FrameCursor.Encoded(r.value);
      if c.Ok? then Some(c.value) else None
  }

  /** The request behind the consumer's query: the decoded cursor, or the window from its start. */
  function RequestOf(w: FrameCursor.EvidenceWindow, limit: int, cursor: Option<Cursor>)
      : (r: Result<FrameCursor.FramePageRequest, CursorReading.BadQuery>)
  {
    if cursor.Some? then FrameCursor.Decoded(cursor.value, limit)
    else
      var r := FrameCursor.FramePageRequest(w, NO_FILTERS, limit, None);
      if FrameCursor.ValidRequest(r) then Ok(r) else Err(CursorReading.BadQuery)
  }

  function WindowOf(w: FrameCursor.EvidenceWindow): (r: Window) {
    Window(w.from, w.to)
  }

  function WiresOf(s: Store, order: seq<int>): (wires: seq<WireItem>)
    requires forall i :: 0 <= i < |order| ==> order[i] in s.frames
    ensures |wires| == |order|
    ensures forall i :: 0 <= i < |order| ==> wires[i] == Wire(s.frames[order[i]])
  {
    seq(|order|, i requires 0 <= i < |order| => Wire(s.frames[order[i]]))
  }

  ghost function Members(s: Store, w: Window, maximum: int, after: Option<Key>): (order: seq<int>)
    requires StoreOk(s)
    ensures forall i :: 0 <= i < |order| ==> order[i] in s.frames
  {
    var order := Ordered(s, Remaining(s, w, maximum, after));
    assert forall i :: 0 <= i < |order| ==> order[i] in order;
    order
  }

  function FirstRows(order: seq<int>, limit: nat): (rows: seq<int>) {
    if |order| > limit then order[..limit] else order
  }

  /** `frame_page` for an unfiltered request that starts at `after` with membership frozen at `maximum`. */
  ghost function PageOf(srv: Server, w: FrameCursor.EvidenceWindow, limit: nat, maximum: int, after: Option<Key>,
                        observedAt: int): (r: Reply)
    requires ServerOk(srv) && limit > 0
  {
    var s := CurrentStore(srv);
    var order := Members(s, WindowOf(w), maximum, after);
    var page := FramePage(WindowOf(w), "bounded_membership_live_content", srv.current,
                          WiresOf(s, FirstRows(order, limit)), None, maximum, observedAt);
    if |order| <= limit then PageReply(page)
    else
      var cursor := CursorFor(w, srv.current, maximum, FrameKey(s, order[limit - 1]));
      if cursor.None? then StorageErrorReply else PageReply(page.(nextCursor := cursor))
  }

  /** The frame route: parse, validate, check the continuation against the store, page. */
  ghost function Answer(srv: Server, w: FrameCursor.EvidenceWindow, limit: int, cursor: Option<Cursor>,
                        observedAt: int): (r: Reply)
    requires ServerOk(srv)
  {
    match RequestOf(w, limit, cursor)
    case Err(_) => BadRequestReply
    case Ok(r) =>
      if r.filters != NO_FILTERS then FilteredReply
      else if r.continuation.None? then PageOf(srv, r.window, r.limit, MaxId(CurrentStore(srv)), None, observedAt)
      else
        var c := r.continuation.value;
        if c.snapshot.historyId != srv.current then HistoryChangedReply
        else if c.snapshot.maxFrameId > CurrentStore(srv).highWater then BadRequestReply
        else PageOf(srv, r.window, r.limit, c.snapshot.maxFrameId,
                    Some(Key(c.after.capturedAt, c.after.frameId)), observedAt)
  }

  /** A cursor issued for a key inside the window and the snapshot always encodes, within 791 characters,
      and asks for exactly that continuation. */
  lemma CursorForDecodes(w: FrameCursor.EvidenceWindow, history: Utf8, maximum: int, after: Key, limit: int)
    requires FrameCursor.ValidHistoryId(history)
    requires IsI64(maximum) && 0 < after.frameId <= maximum && w.from <= after.capturedAt < w.to
    requires 1 <= limit <= FrameCursor.FRAME_PAGE_MAX_LIMIT
    ensures var c := CursorFor(w, history, maximum, after);
      && c.Some? && 1 <= |c.value| <= 791
      && RequestOf(w, limit, c) == Ok(ContinuationRequest(w, history, maximum, after).value.(limit := limit))
  {
    var r := ContinuationRequest(w, history, maximum, after).value;
    assert FrameCursor.Encodable(r);
    FrameCursor.DecodeInvertsEncode(r, limit);
    assert FrameCursor.Encoded(r).value != [];
  }
}
