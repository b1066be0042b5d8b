/** The saved-report page cursor (crates/api/src/reports.rs). */
module ReportCursor {
  import opened Wrappers
  import opened Bytes
  import Base64Url
  import opened CursorReading

  const REPORT_CURSOR_MAX_BYTES: nat := 4096
  const REPORT_PAGE_MAX_LIMIT: int := 1000
  const CURSOR_VERSION: Byte := 1

  datatype RunPhase = Queued | Running | Blocked | Finished
  datatype Outcome = Complete | Partial | NoData | OutcomeBlocked | Failed

  datatype ReportWindow = ReportWindow(from: I64, to: I64)
  datatype ReportFilters = ReportFilters(phase: Option<RunPhase>, outcome: Option<Outcome>)
  datatype ReportSnapshot = ReportSnapshot(maxCreatedAt: I64, maxRunId: Utf8)
  datatype ReportPosition = ReportPosition(createdAt: I64, runId: Utf8)
  datatype ReportContinuation = ReportContinuation(snapshot: ReportSnapshot, after: ReportPosition)
  datatype ReportPageRequest = ReportPageRequest(
    window: ReportWindow, filters: ReportFilters, limit: int,
    continuation: Option<ReportContinuation>)

  /** The seek tuple sorts strictly above the frozen maximum. */
  predicate TupleAboveMax(after: ReportPosition, max: ReportSnapshot) {
    || after.createdAt > max.maxCreatedAt
    || (after.createdAt == max.maxCreatedAt && LexLess(max.maxRunId, after.runId))
  }

  predicate ValidRequest(r: ReportPageRequest) {
    && r.window.from < r.window.to
    && 1 <= r.limit <= REPORT_PAGE_MAX_LIMIT
    && (r.continuation.Some? ==>
      var c := r.continuation.value;
      c.after.runId != [] && c.snapshot.maxRunId != [] && !TupleAboveMax(c.after, c.snapshot))
  }

  /** The requests whose run ids fit their length prefixes. */
  predicate Writable(r: ReportPageRequest) {
    && ValidRequest(r)
    && r.continuation.Some?
    && |r.continuation.value.snapshot.maxRunId| < 0x1_0000
    && |r.continuation.value.after.runId| < 0x1_0000
  }

  function PhaseTag(p: Option<RunPhase>): (b: Byte) {
    match p
    case None => 0
    case Some(Queued) => 1
    case Some(Running) => 2
    case Some(Blocked) => 3
    case Some(Finished) => 4
  }

  function OutcomeTag(o: Option<Outcome>): (b: Byte) {
    match o
    case None => 0
    case Some(Complete) => 1
    case Some(Partial) => 2
    case Some(NoData) => 3
    case Some(OutcomeBlocked) => 4
    case Some(Failed) => 5
  }

  function PhaseOf(b: Byte): (p: Option<Option<RunPhase>>) {
    match b
    case 0 => Some(None)
    case 1 => Some(Some(Queued))
    case 2 => Some(Some(Running))
    case 3 => Some(Some(Blocked))
    case 4 => Some(Some(Finished))
    case _ => None
  }

  function OutcomeOf(b: Byte): (o: Option<Option<Outcome>>) {
    match b
    case 0 => Some(None)
    case 1 => Some(Some(Complete))
    case 2 => Some(Some(Partial))
    case 3 => Some(Some(NoData))
    case 4 => Some(Some(OutcomeBlocked))
    case 5 => Some(Some(Failed))
    case _ => None
  }

  function TagBytes(f: ReportFilters): (s: seq<Byte>)
    ensures |s| == 2
  {
    [PhaseTag(f.phase), OutcomeTag(f.outcome)]
  }

  /** The filters that end a payload, when `s` is exactly two known tags. */
  function ReadTags(s: seq<Byte>): (f: Option<ReportFilters>) {
    if |s| != 2 || PhaseOf(s[0]).None? || OutcomeOf(s[1]).None? then None
    else Some(ReportFilters(PhaseOf(s[0]).value, OutcomeOf(s[1]).value))
  }

  lemma ReadWrittenTags(f: ReportFilters)
    ensures ReadTags(TagBytes(f)) == Some(f)
  {
    match f.phase {
      case None =>
      case Some(v) => match v { case Queued => case Running => case Blocked => case Finished => }
    }
    match f.outcome {
      case None =>
      case Some(v) =>
        match v { case Complete => case Partial => case NoData => case OutcomeBlocked => case Failed => }
    }
  }

  lemma WrittenReadTags(s: seq<Byte>)
    requires ReadTags(s).Some?
    ensures TagBytes(ReadTags(s).value) == s
  {
  }

  function FrozenIntegers(r: ReportPageRequest): (values: seq<I64>)
    requires r.continuation.Some?
    ensures |values| == 4
  {
    var c := r.continuation.value;
    [r.window.from, r.window.to, c.snapshot.maxCreatedAt, c.after.createdAt]
  }

  function Payload(r: ReportPageRequest): (s: seq<Byte>)
    requires Writable(r)
  {
    var c := r.continuation.value;
    [CURSOR_VERSION] + IntegerBytes(FrozenIntegers(r)) + StringBytes(c.snapshot.maxRunId)
    + StringBytes(c.after.runId) + TagBytes(r.filters)
  }

  function Encoded(r: ReportPageRequest): (cursor: Result<seq<Byte>, BadQuery>) {
    if !Writable(r) then Err(BadQuery)
    else
      var cursor := Base64Url.Encode(Payload(r));
      if |cursor| > REPORT_CURSOR_MAX_BYTES then Err(BadQuery) else Ok(cursor)
  }

  function Parsed(bytes: seq<Byte>, limit: int): (r: Option<ReportPageRequest>) {
    var version := ReadBytes(bytes, 1);
    if version.None? || version.value.value != [CURSOR_VERSION] then None else
    var frozen := ReadIntegers(version.value.rest, 4);
    if frozen.None? then None else
    var maxRunId := ReadString(frozen.value.rest);
    if maxRunId.None? then None else
    var afterRunId := ReadString(maxRunId.value.rest);
    if afterRunId.None? then None else
    var filters := ReadTags(afterRunId.value.rest);
    if filters.None? then None
    else
      var v := frozen.value.value;
      Some(ReportPageRequest(
        ReportWindow(v[0], v[1]), filters.value, limit,
        Some(ReportContinuation(ReportSnapshot(v[2], maxRunId.value.value),
                                ReportPosition(v[3], afterRunId.value.value)))))
  }

  function Decoded(cursor: seq<Byte>, limit: int): (r: Result<ReportPageRequest, BadQuery>) {
    if cursor == [] || |cursor| > REPORT_CURSOR_MAX_BYTES then Err(BadQuery)
    else
      var bytes := Base64Url.Decode(cursor);
      if bytes.None? then Err(BadQuery)
      else
        var r := Parsed(bytes.value, limit);
        if r.None? || !ValidRequest(r.value) then Err(BadQuery) else Ok(r.value)
  }

  lemma ParsedPayload(r: ReportPageRequest, limit: int)
    requires Writable(r)
    ensures Parsed(Payload(r), limit) == Some(r.(limit := limit))
  {
    var c, frozen := r.continuation.value, FrozenIntegers(r);
    var tags := TagBytes(r.filters);
    var ids := StringBytes(c.snapshot.maxRunId) + (StringBytes(c.after.runId) + tags);
    var body := IntegerBytes(frozen) + ids;
    Regroup([CURSOR_VERSION], IntegerBytes(frozen), StringBytes(c.snapshot.maxRunId),
            StringBytes(c.after.runId), tags);
    assert ReadBytes(Payload(r), 1) == Some(Read([CURSOR_VERSION], body));
    ReadWrittenIntegers(frozen, ids);
    ReadWrittenString(c.snapshot.maxRunId, StringBytes(c.after.runId) + tags);
    ReadWrittenString(c.after.runId, tags);
    ReadWrittenTags(r.filters);
  }

  /** The two ids and the tags, as the bytes after the integers spell them. */
  lemma IdsParsed(bytes: seq<Byte>)
    requires ReadString(bytes).Some? && ReadString(ReadString(bytes).value.rest).Some?
    ensures var first := ReadString(bytes).value;
      var second := ReadString(first.rest).value;
      && |first.value| < 0x1_0000 && |second.value| < 0x1_0000
      && bytes == StringBytes(first.value) + (StringBytes(second.value) + second.rest)
  {
    WrittenReadString(bytes);
    WrittenReadString(ReadString(bytes).value.rest);
  }

  lemma PayloadParsed(bytes: seq<Byte>, limit: int)
    requires Parsed(bytes, limit).Some?
    requires ValidRequest(Parsed(bytes, limit).value)
    ensures Writable(Parsed(bytes, limit).value)
    ensures Payload(Parsed(bytes, limit).value) == bytes
  {
    var body := bytes[1..];
    var frozen := ReadIntegers(body, 4).value;
    var maxRunId := ReadString(frozen.rest).value;
    var afterRunId := ReadString(maxRunId.rest).value;
    assert bytes == bytes[..1] + body;
    WrittenReadIntegers(body, 4);
    IdsParsed(frozen.rest);
    WrittenReadTags(afterRunId.rest);
    Regroup(bytes[..1], IntegerBytes(frozen.value), StringBytes(maxRunId.value),
            StringBytes(afterRunId.value), afterRunId.rest);
    assert FrozenIntegers(Parsed(bytes, limit).value) == frozen.value;
  }

  /** Whatever the encoder hands out fits the cap and decodes to the same frozen request. */
  lemma DecodeInvertsEncode(r: ReportPageRequest, limit: int)
    requires Encoded(r).Ok?
    requires 1 <= limit <= REPORT_PAGE_MAX_LIMIT
    ensures |Encoded(r).value| <= REPORT_CURSOR_MAX_BYTES
    ensures Decoded(Encoded(r).value, limit) == Ok(r.(limit := limit))
  {
    Base64Url.DecodeEncode(Payload(r));
    ParsedPayload(r, limit);
    Base64Url.EncodedLengthMonotone(1, |Payload(r)|);
  }

  /** No two strings decode to one request: an accepted cursor is its request's encoding. */
  lemma EncodeInvertsDecode(cursor: seq<Byte>, limit: int)
    requires Decoded(cursor, limit).Ok?
    ensures Encoded(Decoded(cursor, limit).value) == Ok(cursor)
  {
    PayloadParsed(Base64Url.Decode(cursor).value, limit);
    Base64Url.EncodeDecode(cursor);
  }

  /** Exactly which continuations have a cursor: ids that fit their prefixes and the whole cap. */
  lemma EncodedExactly(r: ReportPageRequest)
    ensures Encoded(r).Ok? <==>
      && ValidRequest(r)
      && r.continuation.Some?
      && |r.continuation.value.snapshot.maxRunId| + |r.continuation.value.after.runId| <= 3033
  {
    if ValidRequest(r) && r.continuation.Some? {
      var c := r.continuation.value;
      var ids := |c.snapshot.maxRunId| + |c.after.runId|;
      if ids <= 3033 {
        assert Writable(r) && |Payload(r)| == 39 + ids;
        Base64Url.EncodedLengthMonotone(|Payload(r)|, 3072);
      } else if Writable(r) {
        assert |Payload(r)| == 39 + ids;
        Base64Url.EncodedLengthMonotone(3073, |Payload(r)|);
      }
    }
  }

  method PushString(bytes: seq<Byte>, value: Utf8) returns (r: Result<seq<Byte>, BadQuery>)
    ensures r == if |value| < 0x1_0000 then Ok(bytes + StringBytes(value)) else Err(BadQuery)
  {
    if |value| >= 0x1_0000 {
      return Err(BadQuery);
    }
    var pushed := bytes + BigEndian(|value|, 2);
    pushed := pushed + value;
    assert pushed == bytes + StringBytes(value);
    return Ok(pushed);
  }

  /** `encode_report_cursor`. */
  method EncodeReportCursor(request: ReportPageRequest) returns (cursor: Result<seq<Byte>, BadQuery>)
    ensures cursor == Encoded(request)
  {
    if !ValidRequest(request) || request.continuation.None? {
      return Err(BadQuery);
    }
    var c := request.continuation.value;
    var values := FrozenIntegers(request);
    var bytes: seq<Byte> := [CURSOR_VERSION];
    for i := 0 to 4
      invariant bytes == [CURSOR_VERSION] + IntegerBytes(values[..i])
    {
      IntegerBytesAppend(values[..i], values[i]);
      assert values[..i] + [values[i]] == values[..i + 1];
      bytes := bytes + EncodeI64(values[i]);
    }
    assert values[..4] == values;
    bytes :- PushString(bytes, c.snapshot.maxRunId);
    bytes :- PushString(bytes, c.after.runId);
    bytes := bytes + [PhaseTag(request.filters.phase)];
    bytes := bytes + [OutcomeTag(request.filters.outcome)];
    assert bytes == Payload(request);
    var encoded := Base64Url.Encode(bytes);
    if |encoded| > REPORT_CURSOR_MAX_BYTES {
      return Err(BadQuery);
    }
    return Ok(encoded);
  }

  /** The decoder's four integer reads, in payload order. */
  method TakeFrozen(reader: CursorReader) returns (r: Result<seq<I64>, BadQuery>)
    modifies reader
    ensures r == match ReadIntegers(old(reader.rest), 4) case None => Err(BadQuery) case Some(f) => Ok(f.value)
    ensures r.Ok? ==> reader.rest == ReadIntegers(old(reader.rest), 4).value.rest
  {
    ghost var s := reader.rest;
    ReadIntegersAt(s, 4);
    var from :- reader.Integer();
    var to :- reader.Integer();
    assert |s| >= 16 ==> s[8..][..8] == s[8..16] && s[8..][8..] == s[16..];
    var maximum :- reader.Integer();
    assert |s| >= 24 ==> s[16..][..8] == s[16..24] && s[16..][8..] == s[24..];
    var time :- reader.Integer();
    assert s[24..][..8] == s[24..32] && s[24..][8..] == s[32..];
    ghost var frozen := ReadIntegers(s, 4).value.value;
    assert frozen[0] == from && frozen[1] == to && frozen[2] == maximum && frozen[3] == time;
    assert frozen == [from, to, maximum, time];
    return Ok([from, to, maximum, time]);
  }

  /** The two tag bytes, and nothing after them. */
  method TakeTags(reader: CursorReader) returns (r: Result<ReportFilters, BadQuery>)
    modifies reader
    ensures r == match ReadTags(old(reader.rest)) case None => Err(BadQuery) case Some(f) => Ok(f)
  {
    var phase :- reader.Take(1);
    if PhaseOf(phase[0]).None? {
      return Err(BadQuery);
    }
    var outcome :- reader.Take(1);
    if OutcomeOf(outcome[0]).None? || reader.rest != [] {
      return Err(BadQuery);
    }
    return Ok(ReportFilters(PhaseOf(phase[0]).value, OutcomeOf(outcome[0]).value));
  }

  /** `decode_report_cursor`. */
  method DecodeReportCursor(cursor: seq<Byte>, limit: int) returns (r: Result<ReportPageRequest, BadQuery>)
    ensures r == Decoded(cursor, limit)
  {
    if cursor == [] || |cursor| > REPORT_CURSOR_MAX_BYTES {
      return Err(BadQuery);
    }
    var bytes := Base64Url.Decode(cursor);
    if bytes.None? {
      return Err(BadQuery);
    }
    var reader := new CursorReader(bytes.value);
    var version :- reader.Take(1);
    if version != [CURSOR_VERSION] {
      return Err(BadQuery);
    }
    var v :- TakeFrozen(reader);
    var maxRunId :- reader.String();
    var afterRunId :- reader.String();
    var filters :- TakeTags(reader);
    var request := ReportPageRequest(
      ReportWindow(v[0], v[1]), filters, limit,
      Some(ReportContinuation(ReportSnapshot(v[2], maxRunId), ReportPosition(v[3], afterRunId))));
    if !ValidRequest(request) {
      return Err(BadQuery);
    }
    return Ok(request);
  }
}
