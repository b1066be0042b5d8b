/** The texts and bytes that other programs see, each at its place: the round trips say that nothing is lost, this says
    which format it is (crates/api/src/history.rs, crates/api/src/reports.rs, crates/api/src/export.rs,
    src-tauri/src/memory_telegram.rs). */
module WireFormats {
  import opened Wrappers
  import opened Bytes
  import opened CursorReading
  import opened Decimals
  import Base64Url
  import FrameCursor
  import ReportCursor
  import CivilDate
  import DigestChunks
  import ExportStream
  import RevisionRoot

  // Integers and base64url.

  /** The byte `k` places from the end of a big-endian integer. */
  lemma {:induction false} BigEndianByte(v: int, width: nat, k: nat)
    requires k < width
    ensures BigEndian(v, width)[width - 1 - k] == v / Pow256(k) % 256
    decreases width
  {
    if k > 0 {
      BigEndianByte(v / 256, width - 1, k - 1);
      DivideTwice(v, Pow256(k - 1));
    } else {
      assert v / Pow256(0) == v;
    }
  }

  lemma DivideTwice(v: int, p: int)
    requires p > 0
    ensures v / 256 / p == v / (256 * p)
  {
    var q := v / 256 / p;
    var r := v / 256 % p;
    assert v == 256 * (q * p + r) + v % 256;
    Distribute(q, p, r);
    assert v == q * (256 * p) + (256 * r + v % 256);
    QuotientIs(v, 256 * p, q, 256 * r + v % 256);
  }

  lemma Distribute(q: int, p: int, r: int)
    ensures 256 * (q * p + r) == q * (256 * p) + 256 * r
  {
  }

  lemma QuotientIs(v: int, d: int, q: int, r: int)
    requires d > 0 && v == q * d + r && 0 <= r < d
    ensures v / d == q
  {
    var other, rest := v / d, v % d;
    if other < q {
      Monotone(other + 1, q, d);
    } else if q < other {
      Monotone(q + 1, other, d);
    }
  }

  lemma Monotone(a: int, b: int, d: int)
    requires a <= b && d > 0
    ensures a * d <= b * d
  {
  }

  /** A signed integer is its two's complement in eight bytes, most significant first. */
  lemma SignedByte(v: int, k: nat)
    requires IsI64(v) && k < 8
    ensures EncodeI64(v)[7 - k] == (if v < 0 then v + 0x1_0000_0000_0000_0000 else v) / Pow256(k) % 256
  {
    BigEndianByte(if v < 0 then v + TWO_TO_THE_64 else v, 8, k);
  }

  lemma EncodeTriple(a: Byte, b: Byte, c: Byte, rest: seq<Byte>)
    ensures Base64Url.Encode([a, b, c] + rest) == Base64Url.Encode([a, b, c]) + Base64Url.Encode(rest)
  {
    assert ([a, b, c] + rest)[3..] == rest;
    assert [a, b, c][3..] == [];
  }

  /** The test vectors of section 10 of RFC 4648, without padding: "f", "fo", "foo", "foob", "foobar". */
  lemma Base64Vectors()
    ensures Base64Url.Encode([0x66]) == [0x5A, 0x67]
    ensures Base64Url.Encode([0x66, 0x6F]) == [0x5A, 0x6D, 0x38]
    ensures Base64Url.Encode([0x66, 0x6F, 0x6F]) == [0x5A, 0x6D, 0x39, 0x76]
    ensures Base64Url.Encode([0x66, 0x6F, 0x6F, 0x62]) == [0x5A, 0x6D, 0x39, 0x76, 0x59, 0x67]
    ensures Base64Url.Encode([0x66, 0x6F, 0x6F, 0x62, 0x61, 0x72]) == [0x5A, 0x6D, 0x39, 0x76, 0x59, 0x6D, 0x46, 0x79]
  {
    EncodeTriple(0x66, 0x6F, 0x6F, []);
    assert [0x66, 0x6F, 0x6F] + [] == [0x66, 0x6F, 0x6F];
    assert [0x66, 0x6F, 0x6F][3..] == [];
    EncodeTriple(0x66, 0x6F, 0x6F, [0x62]);
    assert [0x66, 0x6F, 0x6F] + [0x62] == [0x66, 0x6F, 0x6F, 0x62];
    SecondTriple();
  }

  lemma SecondTriple()
    ensures Base64Url.Encode([0x66, 0x6F, 0x6F, 0x62, 0x61, 0x72]) == [0x5A, 0x6D, 0x39, 0x76, 0x59, 0x6D, 0x46, 0x79]
  {
    EncodeTriple(0x66, 0x6F, 0x6F, [0x62, 0x61, 0x72]);
    assert [0x66, 0x6F, 0x6F] + [0x62, 0x61, 0x72] == [0x66, 0x6F, 0x6F, 0x62, 0x61, 0x72];
    assert [0x66, 0x6F, 0x6F][3..] == [] && [0x62, 0x61, 0x72][3..] == [];
  }

  /** The two characters that make it base64url. */
  lemma UrlAlphabet()
    ensures Base64Url.Encode([0xFB, 0xEF, 0xFF]) == [0x2D, 0x2D, 0x5F, 0x5F]
  {
    assert [0xFB, 0xEF, 0xFF][3..] == [];
  }

  // The cursors.

  /** A length in two bytes, and the text. */
  function StringField(text: seq<Byte>): (s: seq<Byte>)
    requires |text| < 0x1_0000
  {
    [|text| / 256, |text| % 256] + text
  }

  /** An optional filter: 0xffff, or a string. */
  function FilterField(f: Option<Utf8>): (s: seq<Byte>)
    requires ValidFilter(f)
  {
    if f.None? then [0xFF, 0xFF] else StringField(f.value)
  }

  lemma TwoBytes(v: nat)
    requires v < 0x1_0000
    ensures BigEndian(v, 2) == [v / 256, v % 256]
  {
    assert BigEndian(v, 2) == BigEndian(v / 256, 1) + [v % 256];
    assert BigEndian(v / 256, 1) == BigEndian(v / 256 / 256, 0) + [v / 256 % 256];
  }

  lemma StringFieldIs(text: Utf8)
    requires |text| < 0x1_0000
    ensures StringBytes(text) == StringField(text)
  {
    TwoBytes(|text|);
  }

  lemma FilterFieldIs(f: Option<Utf8>)
    requires ValidFilter(f)
    ensures FilterBytes(f) == FilterField(f)
  {
    if f.None? {
      TwoBytes(NO_FILTER);
    } else {
      TwoBytes(|f.value|);
    }
  }

  lemma TwoIntegers(a: I64, b: I64)
    ensures IntegerBytes([a, b]) == EncodeI64(a) + EncodeI64(b)
  {
    IntegerBytesAppend([a], b);
    IntegerBytesAppend([], a);
    assert [] + [a] == [a] && [a] + [b] == [a, b];
  }

  lemma FourIntegers(a: I64, b: I64, c: I64, d: I64)
    ensures IntegerBytes([a, b, c, d]) == EncodeI64(a) + EncodeI64(b) + EncodeI64(c) + EncodeI64(d)
  {
    TwoIntegers(a, b);
    IntegerBytesAppend([a, b], c);
    IntegerBytesAppend([a, b, c], d);
    assert [a, b] + [c] == [a, b, c] && [a, b, c] + [d] == [a, b, c, d];
  }

  /** Version 1, the history id, the window, the frozen maximum, the last key, the two filters, and nothing else. */
  lemma FramePayloadLayout(r: FrameCursor.FramePageRequest)
    requires FrameCursor.Encodable(r)
    ensures var c := r.continuation.value;
      FrameCursor.Payload(r) == [1] + c.snapshot.historyId
        + (EncodeI64(r.window.from) + EncodeI64(r.window.to) + EncodeI64(c.snapshot.maxFrameId)
           + EncodeI64(c.after.capturedAt) + EncodeI64(c.after.frameId))
        + FilterField(r.filters.app) + FilterField(r.filters.windowTitle)
  {
    var c := r.continuation.value;
    var four: seq<I64> := [r.window.from, r.window.to, c.snapshot.maxFrameId, c.after.capturedAt];
    FourIntegers(r.window.from, r.window.to, c.snapshot.maxFrameId, c.after.capturedAt);
    IntegerBytesAppend(four, c.after.frameId);
    assert four + [c.after.frameId] == FrameCursor.FrozenIntegers(r);
    FilterFieldIs(r.filters.app);
    FilterFieldIs(r.filters.windowTitle);
  }

  predicate HexOrDash(i: nat, b: Byte) {
    if i == 8 || i == 13 || i == 18 || i == 23 then b == 0x2D
    else 0x30 <= b <= 0x39 || 0x41 <= b <= 0x46 || 0x61 <= b <= 0x66
  }

  predicate FilterFits(f: Option<Utf8>) {
    f.Some? ==> |f.value| <= 256 && forall i :: 0 <= i < |f.value| ==> !(0x41 <= f.value[i] <= 0x5A)
  }

  /** Which continuations become a cursor: a window that is not empty, a limit of 1 to 1000, lower-case filters of at
      most 256 bytes, a history id of 36 characters, and a last key inside the window and the frozen ids. */
  lemma FrameEncodedWhen(r: FrameCursor.FramePageRequest)
    ensures FrameCursor.Encoded(r).Ok? <==>
      && r.window.from < r.window.to && 1 <= r.limit <= 1000 && FilterFits(r.filters.app) && FilterFits(r.filters.windowTitle)
      && r.continuation.Some?
      && var c := r.continuation.value;
         && |c.snapshot.historyId| == 36 && (forall i :: 0 <= i < 36 ==> HexOrDash(i, c.snapshot.historyId[i]))
         && 1 <= c.after.frameId <= c.snapshot.maxFrameId && r.window.from <= c.after.capturedAt < r.window.to
  {
    LowerWhen(r.filters.app);
    LowerWhen(r.filters.windowTitle);
    if FrameCursor.Encodable(r) {
      FrameCursor.PayloadBounded(r);
    }
  }

  lemma LowerWhen(f: Option<Utf8>)
    ensures f.Some? && |f.value| <= 256 ==> (ValidFilter(f) <==> FilterFits(f))
    ensures f.None? ==> ValidFilter(f)
  {
  }

  /** Version 1, the window, the frozen newest report, the last report, the two filter tags, and nothing else. */
  lemma ReportPayloadLayout(r: ReportCursor.ReportPageRequest)
    requires ReportCursor.Writable(r)
    ensures var c := r.continuation.value;
      ReportCursor.Payload(r) == [1]
        + (EncodeI64(r.window.from) + EncodeI64(r.window.to) + EncodeI64(c.snapshot.maxCreatedAt) + EncodeI64(c.after.createdAt))
        + StringField(c.snapshot.maxRunId) + StringField(c.after.runId) + [PhaseNumber(r.filters.phase), OutcomeNumber(r.filters.outcome)]
  {
    var c := r.continuation.value;
    FourIntegers(r.window.from, r.window.to, c.snapshot.maxCreatedAt, c.after.createdAt);
    StringFieldIs(c.snapshot.maxRunId);
    StringFieldIs(c.after.runId);
  }

  function PhaseNumber(phase: Option<ReportCursor.RunPhase>): (n: Byte) {
    if phase.None? then 0
    else match phase.value case Queued => 1 case Running => 2 case Blocked => 3 case Finished => 4
  }

  function OutcomeNumber(outcome: Option<ReportCursor.Outcome>): (n: Byte) {
    if outcome.None? then 0
    else match outcome.value case Complete => 1 case Partial => 2 case NoData => 3 case OutcomeBlocked => 4 case Failed => 5
  }

  // Stamps and digests.

  function Two(n: int): (s: seq<Byte>)
    requires 0 <= n < 100
  {
    [0x30 + n / 10, 0x30 + n % 10]
  }

  function Four(n: int): (s: seq<Byte>)
    requires 0 <= n < 10_000
  {
    [0x30 + n / 1000, 0x30 + n / 100 % 10, 0x30 + n / 10 % 10, 0x30 + n % 10]
  }

  /** `yyyymmdd-hhmmss`, for the years that have four digits. */
  lemma StampLayout(ms: int, d: CivilDate.Date, t: CivilDate.Time)
    requires d == CivilDate.CivilFromDays(ms / 1000 / 86_400) && t == CivilDate.TimeOf(ms / 1000)
    requires 0 <= d.year <= 9999
    ensures CivilDate.ValidDate(d) && CivilDate.ValidTime(t)
    ensures CivilDate.UtcStamp(ms)
      == Four(d.year) + (Two(d.month) + (Two(d.day) + ([0x2D] + (Two(t.hour) + (Two(t.minute) + Two(t.second))))))
  {
    CivilDate.StampShowsTheInstant(ms, d, t);
    CivilDate.StampIsDigits(d, t);
    FourDigits(d.year);
    TwoDigits(d.month);
    TwoDigits(d.day);
    TwoDigits(t.hour);
    TwoDigits(t.minute);
    TwoDigits(t.second);
  }

  lemma TwoDigits(n: nat)
    requires n < 100
    ensures CivilDate.Digits(n, 2) == Two(n)
  {
    assert CivilDate.Digits(n, 2) == CivilDate.Digits(n / 10, 1) + [0x30 + n % 10];
    assert CivilDate.Digits(n / 10, 1) == CivilDate.Digits(n / 10 / 10, 0) + [0x30 + n / 10 % 10];
  }

  lemma FourDigits(n: nat)
    requires n < 10_000
    ensures CivilDate.Digits(n, 4) == Four(n)
  {
    var tens := n / 10;
    assert CivilDate.Digits(n, 4) == CivilDate.Digits(tens, 3) + [0x30 + n % 10];
    assert CivilDate.Digits(tens, 3) == CivilDate.Digits(tens / 10, 2) + [0x30 + tens % 10];
    TwoDigits(tens / 10);
    assert tens / 10 == n / 100 && tens / 10 / 10 == n / 1000;
  }

  /** `[2/3]` on a line of its own, for fewer than ten messages. */
  lemma LabelLayout(i: nat, total: nat)
    requires i < total < 10
    ensures DigestChunks.Label(i, total) == ['[', (0x31 + i) as char, '/', (0x30 + total) as char, ']', '\n']
  {
  }

  /** A digest is the header and the whole report, or as much of it as fits into 10000 units, followed by a notice. */
  lemma DigestLayout(header: string, body: string, shortened: string)
    requires DigestChunks.LongestFitting(shortened, body, 10_000)
    ensures DigestChunks.DigestText(header, body, shortened)
      == if DigestChunks.Units(body) <= 10_000 then header + body
         else header + shortened + "\n[Digest shortened; full report saved locally]"
  {
    assert body[..|body|] == body && body[..|shortened|] == shortened;
    assert header + shortened + "" == header + shortened;
  }

  // Exports and notes.

  /** An export with nothing in it. */
  lemma EmptyDocument()
    ensures ExportStream.Document(0, ExportStream.Window(None, Some(-5)), [], [])
      == "{\"schema\":\"screensearch.export.v1\",\"exported_at\":" + "0" + ",\"from\":" + "null" + ",\"to\":" + ("-" + "5")
         + ",\"frames\":[" + "" + "],\"marks\":[" + "" + "]}"
  {
  }

  /** The window holds its start and not its end. */
  lemma WindowEdges(w: ExportStream.Window, at: int)
    ensures ExportStream.InWindow(at, w) <==> !(w.from.Some? && at < w.from.value) && !(w.to.Some? && at >= w.to.value)
  {
  }

  /** A daily note is named after its date; a note over a range after the first and last day and the base report. */
  lemma NoteLayout(localDate: seq<Byte>, range: Option<RevisionRoot.Range>, base: Option<RevisionRoot.Id>)
    requires RevisionRoot.NoteRelativePath(localDate, range, base).Some?
    ensures RevisionRoot.NoteRelativePath(localDate, range, base).value ==
      if range.None? then RevisionRoot.Daily(localDate + Md())
      else if base.None? then RevisionRoot.Daily([])
      else RevisionRoot.Reports(range.value.startDate + [0x5F, 0x74, 0x6F, 0x5F] + range.value.endDate + [0x5F] + base.value + Md())
    ensures range.Some? ==> base.Some? && RevisionRoot.CanonicalUuid(base.value)
  {
  }

  /** ".md" */
  function Md(): (s: seq<Byte>) {
    [0x2E, 0x6D, 0x64]
  }
}
