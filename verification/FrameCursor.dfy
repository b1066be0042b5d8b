/** The frame page cursor (crates/api/src/history.rs): strict encoding and decoding. */
module FrameCursor {
  import opened Wrappers
  import opened Bytes
  import Base64Url
  import opened CursorReading

  const FRAME_CURSOR_MAX_BYTES: nat := 4096
  const FRAME_PAGE_DEFAULT_LIMIT: int := 100
  const FRAME_PAGE_MAX_LIMIT: int := 1000
  const CURSOR_VERSION: Byte := 1
  const CURSOR_BINARY_MAX: nat := 1 + 36 + 5 * 8 + 2 * (2 + FRAME_FILTER_MAX_BYTES)

  datatype EvidenceWindow = EvidenceWindow(from: I64, to: I64)
  datatype FrameFilters = FrameFilters(app: Option<Utf8>, windowTitle: Option<Utf8>)
  datatype FramePosition = FramePosition(capturedAt: I64, frameId: I64)
  datatype FrameSnapshot = FrameSnapshot(historyId: Utf8, maxFrameId: I64)
  datatype FrameContinuation = FrameContinuation(snapshot: FrameSnapshot, after: FramePosition)
  datatype FramePageRequest = FramePageRequest(
    window: EvidenceWindow, filters: FrameFilters, limit: int,
    continuation: Option<FrameContinuation>)

  predicate IsHexDigit(b: Byte) {
    0x30 <= b <= 0x39 || 0x41 <= b <= 0x46 || 0x61 <= b <= 0x66
  }

  predicate ValidHistoryId(s: seq<Byte>) {
    && |s| == 36
    && forall i :: 0 <= i < 36 ==> if i in {8, 13, 18, 23} then s[i] == 0x2D else IsHexDigit(s[i])
  }

  predicate ShortFilter(f: Option<Utf8>) {
    f.Some? ==> |f.value| <= FRAME_FILTER_MAX_BYTES
  }

  /** `FramePageRequest::validate`. */
  predicate ValidRequest(r: FramePageRequest) {
    && r.window.from < r.window.to
    && ShortFilter(r.filters.app)
    && ShortFilter(r.filters.windowTitle)
    && 1 <= r.limit <= FRAME_PAGE_MAX_LIMIT
    && (r.continuation.Some? ==>
      var c := r.continuation.value;
      && ValidHistoryId(c.snapshot.historyId)
      && c.snapshot.maxFrameId > 0
      && 0 < c.after.frameId <= c.snapshot.maxFrameId
      && r.window.from <= c.after.capturedAt < r.window.to)
  }

  /** The requests a cursor can carry. */
  predicate Encodable(r: FramePageRequest) {
    && ValidRequest(r)
    && r.continuation.Some?
    && ValidFilter(r.filters.app)
    && ValidFilter(r.filters.windowTitle)
  }

  function FrozenIntegers(r: FramePageRequest): (values: seq<I64>)
    requires r.continuation.Some?
    ensures |values| == 5
  {
    var c := r.continuation.value;
    [r.window.from, r.window.to, c.snapshot.maxFrameId, c.after.capturedAt, c.after.frameId]
  }

  function Payload(r: FramePageRequest): (s: seq<Byte>)
    requires Encodable(r)
  {
    [CURSOR_VERSION] + r.continuation.value.snapshot.historyId + IntegerBytes(FrozenIntegers(r))
    + FilterBytes(r.filters.app) + FilterBytes(r.filters.windowTitle)
  }

  function Encoded(r: FramePageRequest): (cursor: Result<seq<Byte>, BadQuery>) {
    if !Encodable(r) then Err(BadQuery)
    else
      var cursor := Base64Url.Encode(Payload(r));
      if |cursor| > FRAME_CURSOR_MAX_BYTES then Err(BadQuery) else Ok(cursor)
  }

  /** The fields of a payload, before the request is validated. */
  function Parsed(bytes: seq<Byte>, limit: int): (r: Option<FramePageRequest>) {
    var version := ReadBytes(bytes, 1);
    if version.None? || version.value.value != [CURSOR_VERSION] then None else
    var history := ReadBytes(version.value.rest, 36);
    if history.None? || !ValidUtf8(history.value.value) then None else
    var frozen := ReadIntegers(history.value.rest, 5);
    if frozen.None? then None else
    var app := ReadFilter(frozen.value.rest);
    if app.None? then None else
    var title := ReadFilter(app.value.rest);
    if title.None? || title.value.rest != [] then None
    else
      var v := frozen.value.value;
      Some(FramePageRequest(
        EvidenceWindow(v[0], v[1]), FrameFilters(app.value.value, title.value.value), limit,
        Some(FrameContinuation(FrameSnapshot(history.value.value, v[2]), FramePosition(v[3], v[4])))))
  }

  function Decoded(cursor: seq<Byte>, limit: int): (r: Result<FramePageRequest, BadQuery>) {
    if cursor == [] || |cursor| > FRAME_CURSOR_MAX_BYTES then Err(BadQuery)
    else
      var bytes := Base64Url.Decode(cursor);
      if bytes.None? || |bytes.value| > CURSOR_BINARY_MAX then Err(BadQuery)
      else
        var r := Parsed(bytes.value, limit);
        if r.None? || !ValidRequest(r.value) then Err(BadQuery) else Ok(r.value)
  }

  lemma PayloadBounded(r: FramePageRequest)
    requires Encodable(r)
    ensures 1 <= |Payload(r)| <= CURSOR_BINARY_MAX == 593
    ensures 2 <= |Base64Url.Encode(Payload(r))| <= 791
  {
    Base64Url.EncodedLengthMonotone(1, |Payload(r)|);
    Base64Url.EncodedLengthMonotone(|Payload(r)|, 593);
  }

  lemma ParsedPayload(r: FramePageRequest, limit: int)
    requires Encodable(r)
    ensures Parsed(Payload(r), limit) == Some(r.(limit := limit))
  {
    var history, frozen := r.continuation.value.snapshot.historyId, FrozenIntegers(r);
    var title := FilterBytes(r.filters.windowTitle);
    var filters := FilterBytes(r.filters.app) + title;
    var afterVersion := history + (IntegerBytes(frozen) + filters);
    Regroup([CURSOR_VERSION], history, IntegerBytes(frozen), FilterBytes(r.filters.app), title);
    assert Payload(r) == [CURSOR_VERSION] + afterVersion;
    assert ReadBytes(Payload(r), 1) == Some(Read([CURSOR_VERSION], afterVersion));
    assert ReadBytes(afterVersion, 36) == Some(Read(history, IntegerBytes(frozen) + filters));
    ReadWrittenIntegers(frozen, filters);
    ReadWrittenFilter(r.filters.app, title);
    ReadWrittenFilter(r.filters.windowTitle, []);
    assert title + [] == title;
  }

  lemma PayloadParsed(bytes: seq<Byte>, limit: int)
    requires Parsed(bytes, limit).Some?
    requires ValidRequest(Parsed(bytes, limit).value)
    ensures Encodable(Parsed(bytes, limit).value)
    ensures Payload(Parsed(bytes, limit).value) == bytes
  {
    var afterVersion := bytes[1..];
    var body := afterVersion[36..];
    var frozen := ReadIntegers(body, 5).value;
    var app := ReadFilter(frozen.rest).value;
    var title := ReadFilter(app.rest).value;
    assert bytes == bytes[..1] + (afterVersion[..36] + body);
    assert body == IntegerBytes(frozen.value) + frozen.rest by {
      WrittenReadIntegers(body, 5);
    }
    assert ValidFilter(app.value) && frozen.rest == FilterBytes(app.value) + app.rest by {
      WrittenReadFilter(frozen.rest);
    }
    assert ValidFilter(title.value) && app.rest == FilterBytes(title.value) by {
      WrittenReadFilter(app.rest);
      assert FilterBytes(title.value) + [] == FilterBytes(title.value);
    }
    Regroup(bytes[..1], afterVersion[..36], IntegerBytes(frozen.value),
            FilterBytes(app.value), FilterBytes(title.value));
    assert FrozenIntegers(Parsed(bytes, limit).value) == frozen.value;
  }

  /** A cursor this server issues decodes to the request it froze, with the caller's limit. */
  lemma DecodeInvertsEncode(r: FramePageRequest, limit: int)
    requires Encodable(r)
    requires 1 <= limit <= FRAME_PAGE_MAX_LIMIT
    ensures Encoded(r).Ok? && |Encoded(r).value| <= 791
    ensures Decoded(Encoded(r).value, limit) == Ok(r.(limit := limit))
  {
    PayloadBounded(r);
    Base64Url.DecodeEncode(Payload(r));
    ParsedPayload(r, limit);
  }

  /** Every accepted cursor is the one spelling of its request: no malleability. */
  lemma EncodeInvertsDecode(cursor: seq<Byte>, limit: int)
    requires Decoded(cursor, limit).Ok?
    ensures Encoded(Decoded(cursor, limit).value) == Ok(cursor)
    ensures |cursor| <= 791
  {
    var bytes := Base64Url.Decode(cursor).value;
    PayloadParsed(bytes, limit);
    Base64Url.EncodeDecode(cursor);
    PayloadBounded(Parsed(bytes, limit).value);
  }

  /** `encode_cursor`: appends field after field to one buffer. */
  method EncodeCursor(request: FramePageRequest) returns (cursor: Result<seq<Byte>, BadQuery>)
    ensures cursor == Encoded(request)
  {
    if !ValidRequest(request) || request.continuation.None? {
      return Err(BadQuery);
    }
    var values := FrozenIntegers(request);
    var bytes := [CURSOR_VERSION] + request.continuation.value.snapshot.historyId;
    ghost var head := bytes;
    for i := 0 to 5
      invariant bytes == head + IntegerBytes(values[..i])
    {
      IntegerBytesAppend(values[..i], values[i]);
      assert values[..i] + [values[i]] == values[..i + 1];
      bytes := bytes + EncodeI64(values[i]);
    }
    assert values[..5] == values;
    head := bytes;
    var filters := [request.filters.app, request.filters.windowTitle];
    for i := 0 to 2
      invariant forall k :: 0 <= k < i ==> ValidFilter(filters[k])
      invariant bytes == if i == 0 then head
                         else if i == 1 then head + FilterBytes(filters[0])
                         else head + FilterBytes(filters[0]) + FilterBytes(filters[1])
    {
      match filters[i] {
        case None =>
          bytes := bytes + BigEndian(NO_FILTER, 2);
        case Some(value) =>
          if !IsAsciiLower(value) {
            return Err(BadQuery);
          }
          bytes := bytes + (BigEndian(|value|, 2) + value);
      }
    }
    var encoded := Base64Url.Encode(bytes);
    if |encoded| > FRAME_CURSOR_MAX_BYTES {
      return Err(BadQuery);
    }
    return Ok(encoded);
  }

  /** The decoder's five integer reads, in payload order. */
  method TakeFrozen(reader: CursorReader) returns (r: Result<seq<I64>, BadQuery>)
    modifies reader
    ensures r == match ReadIntegers(old(reader.rest), 5) case None => Err(BadQuery) case Some(f) => Ok(f.value)
    ensures r.Ok? ==> reader.rest == ReadIntegers(old(reader.rest), 5).value.rest
  {
    ghost var s := reader.rest;
    ReadIntegersAt(s, 5);
    var from :- reader.Integer();
    var to :- reader.Integer();
    assert |s| >= 16 ==> s[8..][..8] == s[8..16] && s[8..][8..] == s[16..];
    var maximum :- reader.Integer();
    assert |s| >= 24 ==> s[16..][..8] == s[16..24] && s[16..][8..] == s[24..];
    var time :- reader.Integer();
    assert |s| >= 32 ==> s[24..][..8] == s[24..32] && s[24..][8..] == s[32..];
    var id :- reader.Integer();
    assert s[32..][..8] == s[32..40] && s[32..][8..] == s[40..];
    ghost var frozen := ReadIntegers(s, 5).value.value;
    assert frozen[0] == from && frozen[1] == to && frozen[2] == maximum;
    assert frozen[3] == time && frozen[4] == id;
    assert frozen == [from, to, maximum, time, id];
    return Ok([from, to, maximum, time, id]);
  }

  /** `decode_cursor`: consumes the decoded bytes field by field. */
  method DecodeCursor(cursor: seq<Byte>, limit: int) returns (r: Result<FramePageRequest, BadQuery>)
    ensures r == Decoded(cursor, limit)
  {
    if cursor == [] || |cursor| > FRAME_CURSOR_MAX_BYTES {
      return Err(BadQuery);
    }
    var bytes := Base64Url.Decode(cursor);
    if bytes.None? || |bytes.value| > CURSOR_BINARY_MAX {
      return Err(BadQuery);
    }
    var reader := new CursorReader(bytes.value);
    var version :- reader.Take(1);
    if version != [CURSOR_VERSION] {
      return Err(BadQuery);
    }
    var history :- reader.Take(36);
    if !ValidUtf8(history) {
      return Err(BadQuery);
    }
    var v :- TakeFrozen(reader);
    var app :- reader.Filter();
    var title :- reader.Filter();
    if reader.rest != [] {
      return Err(BadQuery);
    }
    var request := FramePageRequest(
      EvidenceWindow(v[0], v[1]), FrameFilters(app, title), limit,
      Some(FrameContinuation(FrameSnapshot(history, v[2]), FramePosition(v[3], v[4]))));
    if !ValidRequest(request) {
      return Err(BadQuery);
    }
    return Ok(request);
  }
}
