/** The streamed JSON export (crates/api/src/export.rs): one page per step, one comma join over all pages. */
module ExportStream {
  import opened Wrappers
  import opened Bytes
  import Decimals

  type FrameId = v: int | IsI64(v)

  /** A frame row, with the JSON text it serializes to. */
  datatype Row = Row(frameId: FrameId, capturedAt: int, json: string)

  datatype Mark = Mark(capturedAt: int, json: string)

  /** The frames of the store at one moment, by id. */
  type Table = map<FrameId, Row>

  datatype Window = Window(from: Option<int>, to: Option<int>)

  predicate InWindow(at: int, w: Window) {
    (w.from.Some? ==> at >= w.from.value) && (w.to.Some? ==> at < w.to.value)
  }

  predicate Ascending(rows: seq<Row>) {
    forall i, j :: 0 <= i < j < |rows| ==> rows[i].frameId < rows[j].frameId
  }

  predicate Holds(table: Table, row: Row) {
    row.frameId in table && table[row.frameId] == row
  }

  /** A keyset page of any size: rows of the table after `after`, in id order, skipping none; empty only at the end. */
  ghost predicate PageOf(table: Table, after: FrameId, w: Window, page: seq<Row>) {
    && Ascending(page)
    && (forall i :: 0 <= i < |page| ==>
      Holds(table, page[i]) && page[i].frameId > after && InWindow(page[i].capturedAt, w))
    && (forall id ::
      (&& id in table && id > after && InWindow(table[id].capturedAt, w)
       && (page == [] || id <= page[|page| - 1].frameId)) ==> table[id] in page)
  }

  // The simple document.

  function Separator(before: bool): (s: string) {
    if before then "," else ""
  }

  function Join(items: seq<string>): (s: string) {
    if items == [] then ""
    else if |items| == 1 then items[0]
    else Join(items[..|items| - 1]) + "," + items[|items| - 1]
  }

  function RowTexts(rows: seq<Row>): (texts: seq<string>)
    ensures |texts| == |rows|
  {
    seq(|rows|, i requires 0 <= i < |rows| => rows[i].json)
  }

  function MarksInWindow(marks: seq<Mark>, w: Window): (texts: seq<string>) {
    if marks == [] then []
    else
      var n := |marks| - 1;
      MarksInWindow(marks[..n], w) + (if InWindow(marks[n].capturedAt, w) then [marks[n].json] else [])
  }

  function NumberText(v: int): (s: string) {
    if v < 0 then "-" + Decimals.Decimal(-v) else Decimals.Decimal(v)
  }

  function OptionalNumber(v: Option<int>): (s: string) {
    if v.None? then "null" else NumberText(v.value)
  }

  function Header(now: int, w: Window): (s: string) {
    "{\"schema\":\"screensearch.export.v1\",\"exported_at\":" + NumberText(now) + ",\"from\":" + OptionalNumber(w.from)
    + ",\"to\":" + OptionalNumber(w.to) + ",\"frames\":["
  }

  const MARKS: string := "],\"marks\":["
  const CLOSE: string := "]}"

  function Opened(now: int, w: Window, rows: seq<Row>): (s: string) {
    Header(now, w) + Join(RowTexts(rows))
  }

  function Document(now: int, w: Window, rows: seq<Row>, marks: seq<Mark>): (s: string) {
    Opened(now, w, rows) + MARKS + Join(MarksInWindow(marks, w)) + CLOSE
  }

  lemma JoinLast(items: seq<string>, item: string)
    ensures Join(items + [item]) == if items == [] then item else Join(items) + "," + item
  {
    assert (items + [item])[..|items|] == items;
  }

  lemma SplitLast<T>(a: seq<T>, b: seq<T>)
    requires b != []
    ensures a + b == (a + b[..|b| - 1]) + [b[|b| - 1]]
    ensures b == b[..|b| - 1] + [b[|b| - 1]]
  {
  }

  lemma {:induction false} JoinConcat(a: seq<string>, b: seq<string>)
    requires a != [] && b != []
    ensures Join(a + b) == Join(a) + "," + Join(b)
    decreases |b|
  {
    var rest, last := b[..|b| - 1], b[|b| - 1];
    SplitLast(a, b);
    JoinLast(a + rest, last);
    JoinLast(rest, last);
    if rest == [] {
      assert a + rest == a;
    } else {
      JoinConcat(a, rest);
      Regroup(Join(a), ",", Join(rest), ",", last);
    }
  }

  lemma Regroup(a: string, b: string, c: string, d: string, e: string)
    ensures a + b + c + d + e == a + b + (c + d + e)
  {
  }

  lemma JoinOne(rows: seq<Row>, i: nat)
    requires i < |rows|
    ensures Join(RowTexts(rows[..i + 1]))
      == if i == 0 then rows[i].json else Join(RowTexts(rows[..i])) + "," + rows[i].json
  {
    assert RowTexts(rows[..i + 1]) == RowTexts(rows[..i]) + [rows[i].json];
    JoinLast(RowTexts(rows[..i]), rows[i].json);
  }

  /** A page's text continues the join. */
  lemma PageContinues(head: string, rows: seq<Row>, page: seq<Row>)
    requires page != []
    ensures head + Join(RowTexts(rows)) + (Separator(rows != []) + Join(RowTexts(page)))
      == head + Join(RowTexts(rows + page))
  {
    assert RowTexts(rows + page) == RowTexts(rows) + RowTexts(page);
    if rows == [] {
      assert rows + page == page;
      EmptyPieces(head, Join(RowTexts(page)));
    } else {
      JoinConcat(RowTexts(rows), RowTexts(page));
      Associate(head, Join(RowTexts(rows)), ",", Join(RowTexts(page)));
    }
  }

  lemma OneMore(first: bool, i: nat, text: string, joined: string, json: string)
    requires text == if i == 0 then "" else Separator(!first) + joined
    ensures (if first && i == 0 then text else text + ",") + json
      == Separator(!first) + (if i == 0 then json else joined + "," + json)
  {
  }

  lemma EmptyPieces(head: string, tail: string)
    ensures head + "" + ("" + tail) == head + tail
  {
  }

  lemma Associate(a: string, b: string, c: string, d: string)
    ensures a + b + (c + d) == a + (b + c + d)
    ensures a + (b + c + d) == a + b + c + d
  {
  }

  // The stream.

  datatype Phase = AtHeader | AtFrames(afterId: FrameId, first: bool) | AtEnd

  datatype Chunk = Chunk(text: string) | Finished | Broken

  /** What the host answers to the `k`-th page query; `None` is a storage failure. */
  datatype Host = Host(now: int, page: (nat, FrameId) -> Option<seq<Row>>, marks: Option<seq<Mark>>)

  class Stream {
    const window: Window
    const host: Host
    var phase: Phase
    var queries: nat
    var frames: nat
    var marks: nat

    constructor (window: Window, host: Host)
      ensures this.window == window && this.host == host
      ensures phase == AtHeader && queries == 0 && frames == 0 && marks == 0
    {
      this.window, this.host := window, host;
      phase, queries, frames, marks := AtHeader, 0, 0, 0;
    }

    /** `collect_marks`. */
    method CollectMarks(all: seq<Mark>) returns (text: string)
      modifies this`marks
      ensures text == Join(MarksInWindow(all, window))
      ensures marks == old(marks) + |MarksInWindow(all, window)|
    {
      text := "";
      var first := true;
      for i := 0 to |all|
        invariant text == Join(MarksInWindow(all[..i], window))
        invariant marks == old(marks) + |MarksInWindow(all[..i], window)|
        invariant first <==> MarksInWindow(all[..i], window) == []
      {
        assert all[..i + 1][..i] == all[..i];
        var m := all[i];
        ghost var before := MarksInWindow(all[..i], window);
        assert before + [] == before;
        if !InWindow(m.capturedAt, window) {
          continue;
        }
        JoinLast(before, m.json);
        if !first {
          text := text + ",";
        }
        text := text + m.json;
        first := false;
        marks := marks + 1;
      }
      assert all[..|all|] == all;
    }

    /** The rows of one page, each behind a comma unless it is the first of the export. */
    method WritePage(page: seq<Row>, first: bool) returns (text: string)
      requires page != []
      ensures text == Separator(!first) + Join(RowTexts(page))
    {
      text := "";
      var isFirst := first;
      ghost var joined := "";
      for i := 0 to |page|
        invariant isFirst == (first && i == 0)
        invariant joined == Join(RowTexts(page[..i]))
        invariant text == if i == 0 then "" else Separator(!first) + joined
      {
        JoinOne(page, i);
        var before := text;
        if !isFirst {
          text := text + ",";
        }
        text := text + page[i].json;
        isFirst := false;
        OneMore(first, i, before, joined, page[i].json);
        joined := if i == 0 then page[i].json else joined + "," + page[i].json;
      }
      assert page[..|page|] == page;
    }

    /** One step of `export_json_stream`. */
    method Next() returns (c: Chunk)
      modifies this
      ensures old(phase).AtHeader? ==>
        c == Chunk(Header(host.now, window)) && phase == AtFrames(0, true) && Same(old(queries), old(frames), old(marks))
      ensures old(phase).AtFrames? ==>
        match host.page(old(queries), old(phase).afterId)
        case None => c.Broken?
        case Some(page) =>
          if page != [] then
            && c == Chunk(Separator(!old(phase).first) + Join(RowTexts(page)))
            && phase == AtFrames(page[|page| - 1].frameId, false)
            && Same(old(queries) + 1, old(frames) + |page|, old(marks))
          else if host.marks.None? then c.Broken?
          else
            && c == Chunk(MARKS + Join(MarksInWindow(host.marks.value, window)) + CLOSE)
            && phase == AtEnd
            && Same(old(queries) + 1, old(frames), old(marks) + |MarksInWindow(host.marks.value, window)|)
      ensures old(phase).AtEnd? ==> c.Finished? && phase == AtEnd && Same(old(queries), old(frames), old(marks))
    {
      match phase {
        case AtHeader =>
          phase := AtFrames(0, true);
          return Chunk(Header(host.now, window));
        case AtFrames(afterId, first) =>
          var answer := host.page(queries, afterId);
          if answer.None? {
            return Broken;
          }
          var page := answer.value;
          queries := queries + 1;
          if page == [] {
            if host.marks.None? {
              return Broken;
            }
            var marksText := CollectMarks(host.marks.value);
            phase := AtEnd;
            return Chunk(MARKS + marksText + CLOSE);
          }
          var text := WritePage(page, first);
          frames := frames + |page|;
          phase := AtFrames(page[|page| - 1].frameId, false);
          return Chunk(text);
        case AtEnd =>
          return Finished;
      }
    }

    predicate Same(queries: nat, frames: nat, marks: nat)
      reads this
    {
      this.queries == queries && this.frames == frames && this.marks == marks
    }
  }

  /** The host pages through `table(k)` at query `k`; the store may change between queries. */
  ghost predicate Pages(host: Host, w: Window, table: nat -> Table) {
    forall k: nat, after: FrameId :: host.page(k, after).Some? ==> PageOf(table(k), after, w, host.page(k, after).value)
  }

  ghost predicate WasThere(row: Row, table: nat -> Table, queries: nat) {
    exists k: nat :: k < queries && Holds(table(k), row)
  }

  /** In the window, at or before the position, and in the store unchanged at every query. */
  ghost predicate Persistent(row: Row, w: Window, table: nat -> Table, queries: nat, after: FrameId) {
    && 0 < row.frameId <= after && InWindow(row.capturedAt, w)
    && forall k: nat :: k < queries ==> Holds(table(k), row)
  }

  /** What was written so far: rows seen in the store when read, in id order, up to the position reached, none
      skipped that was there at every query. */
  ghost predicate Emitted(rows: seq<Row>, w: Window, table: nat -> Table, queries: nat, after: FrameId) {
    && Ascending(rows)
    && (rows == [] ==> after == 0)
    && (forall i :: 0 <= i < |rows| ==>
      0 < rows[i].frameId <= after && InWindow(rows[i].capturedAt, w)
      && WasThere(rows[i], table, queries))
    && (forall row: Row :: Persistent(row, w, table, queries, after) ==> row in rows)
  }

  lemma EmittedMore(rows: seq<Row>, page: seq<Row>, w: Window, table: nat -> Table, queries: nat, after: FrameId)
    requires Emitted(rows, w, table, queries, after) && PageOf(table(queries), after, w, page) && page != [] && after >= 0
    ensures Emitted(rows + page, w, table, queries + 1, page[|page| - 1].frameId)
  {
    var more, last := rows + page, page[|page| - 1].frameId;
    forall i | 0 <= i < |more|
      ensures 0 < more[i].frameId <= last && InWindow(more[i].capturedAt, w) && WasThere(more[i], table, queries + 1)
    {
      if i < |rows| {
        assert more[i] == rows[i];
        var k: nat :| k < queries && Holds(table(k), rows[i]);
        assert k < queries + 1;
      } else {
        assert more[i] == page[i - |rows|];
        assert Holds(table(queries), more[i]);
      }
    }
    forall row: Row | Persistent(row, w, table, queries + 1, last)
      ensures row in more
    {
      assert Holds(table(queries), row);
      if row.frameId <= after {
        assert Persistent(row, w, table, queries, after);
      } else {
        assert row in page;
      }
    }
  }

  /** At an empty page nothing persistent is left, wherever it lies. */
  lemma EmittedAll(rows: seq<Row>, w: Window, table: nat -> Table, queries: nat, after: FrameId, row: Row)
    requires Emitted(rows, w, table, queries, after) && PageOf(table(queries), after, w, [])
    requires row.frameId > 0 && InWindow(row.capturedAt, w)
    requires forall k: nat :: k <= queries ==> Holds(table(k), row)
    ensures row in rows
  {
    assert Holds(table(queries), row);
    assert Persistent(row, w, table, queries, after);
  }

  /** The rows of a finished export, read at queries `0..last`. */
  ghost predicate Complete(rows: seq<Row>, w: Window, table: nat -> Table, last: nat) {
    && Ascending(rows)
    && (forall i :: 0 <= i < |rows| ==> rows[i].frameId > 0 && InWindow(rows[i].capturedAt, w) && WasThere(rows[i], table, last + 1))
    && forall row: Row :: Throughout(row, w, table, last) ==> row in rows
  }

  ghost predicate Throughout(row: Row, w: Window, table: nat -> Table, last: nat) {
    row.frameId > 0 && InWindow(row.capturedAt, w) && forall k: nat :: k <= last ==> Holds(table(k), row)
  }

  lemma EmittedIsComplete(rows: seq<Row>, w: Window, table: nat -> Table, queries: nat, after: FrameId)
    requires Emitted(rows, w, table, queries, after) && PageOf(table(queries), after, w, [])
    ensures Complete(rows, w, table, queries)
  {
    forall i | 0 <= i < |rows|
      ensures WasThere(rows[i], table, queries + 1)
    {
      assert WasThere(rows[i], table, queries);
      var k: nat :| k < queries && Holds(table(k), rows[i]);
      assert k < queries + 1;
    }
    forall row: Row | Throughout(row, w, table, queries)
      ensures row in rows
    {
      EmittedAll(rows, w, table, queries, after, row);
    }
  }

  /** `rows` up to `after`, and the text that opens the document with them. */
  ghost predicate WrittenRows(w: Window, now: int, table: nat -> Table, queries: nat, after: FrameId, output: string, rows: seq<Row>) {
    after >= 0 && Emitted(rows, w, table, queries, after) && output == Opened(now, w, rows)
  }

  /** The whole document. */
  ghost predicate WrittenAll(w: Window, host: Host, table: nat -> Table, queries: nat, output: string, rows: seq<Row>) {
    && host.marks.Some? && queries > 0
    && output == Document(host.now, w, rows, host.marks.value)
    && Complete(rows, w, table, queries - 1)
  }

  /** The stream has written the document up to its position, with `rows` in it. */
  ghost predicate Written(stream: Stream, output: string, rows: seq<Row>, table: nat -> Table)
    reads stream
  {
    match stream.phase
    case AtHeader => false
    case AtFrames(after, first) =>
      && WrittenRows(stream.window, stream.host.now, table, stream.queries, after, output, rows)
      && (first <==> rows == []) && stream.frames == |rows| && stream.marks == 0
    case AtEnd =>
      && WrittenAll(stream.window, stream.host, table, stream.queries, output, rows)
      && stream.frames == |rows| && stream.marks == |MarksInWindow(stream.host.marks.value, stream.window)|
  }

  lemma DocumentCloses(now: int, w: Window, rows: seq<Row>, marks: seq<Mark>)
    ensures Opened(now, w, rows) + (MARKS + Join(MarksInWindow(marks, w)) + CLOSE) == Document(now, w, rows, marks)
  {
    Associate(Opened(now, w, rows), MARKS, Join(MarksInWindow(marks, w)), CLOSE);
  }

  lemma PageWritten(w: Window, now: int, table: nat -> Table, queries: nat, after: FrameId, output: string, rows: seq<Row>,
                    page: seq<Row>)
    requires WrittenRows(w, now, table, queries, after, output, rows)
    requires page != [] && PageOf(table(queries), after, w, page)
    ensures page[|page| - 1].frameId > after
    ensures WrittenRows(w, now, table, queries + 1, page[|page| - 1].frameId,
                        output + (Separator(rows != []) + Join(RowTexts(page))), rows + page)
  {
    EmittedMore(rows, page, w, table, queries, after);
    PageContinues(Header(now, w), rows, page);
  }

  lemma EndWritten(w: Window, host: Host, table: nat -> Table, queries: nat, after: FrameId, output: string, rows: seq<Row>)
    requires WrittenRows(w, host.now, table, queries, after, output, rows)
    requires host.marks.Some? && PageOf(table(queries), after, w, [])
    ensures WrittenAll(w, host, table, queries + 1, output + (MARKS + Join(MarksInWindow(host.marks.value, w)) + CLOSE), rows)
  {
    EmittedIsComplete(rows, w, table, queries, after);
    DocumentCloses(host.now, w, rows, host.marks.value);
  }

  /** Some read of the store fails. */
  ghost predicate Fails(host: Host) {
    host.marks.None? || exists k: nat, after: FrameId :: host.page(k, after).None?
  }

  lemma ReadFails(host: Host, k: nat, after: FrameId)
    requires host.marks.None? || host.page(k, after).None?
    ensures Fails(host)
  {
  }

  /** One step over the frames: another page, or the end. */
  method Advance(stream: Stream, output: string, ghost table: nat -> Table, ghost rows: seq<Row>)
      returns (more: Option<string>, ghost all: seq<Row>)
    requires stream.phase.AtFrames? && Written(stream, output, rows, table)
    requires Pages(stream.host, stream.window, table)
    modifies stream
    ensures more.Some? ==> Written(stream, more.value, all, table)
    ensures more.None? ==>
      stream.host.marks.None? || stream.host.page(old(stream.queries), old(stream.phase.afterId)).None?
    ensures more.Some? && stream.phase.AtFrames? ==> stream.phase.afterId > old(stream.phase.afterId)
  {
    var after, queries := stream.phase.afterId, stream.queries;
    var chunk := stream.Next();
    if chunk.Broken? {
      return None, rows;
    }
    ghost var page := stream.host.page(queries, after).value;
    assert PageOf(table(queries), after, stream.window, page);
    more := Some(output + chunk.text);
    if stream.phase.AtFrames? {
      all := rows + page;
      PageWritten(stream.window, stream.host.now, table, queries, after, output, rows, page);
      RowsWritten(stream, more.value, all, table);
    } else {
      all := rows;
      EndWritten(stream.window, stream.host, table, queries, after, output, rows);
    }
  }

  lemma RowsWritten(stream: Stream, output: string, rows: seq<Row>, table: nat -> Table)
    requires stream.phase.AtFrames? && stream.frames == |rows| && stream.marks == 0
    requires WrittenRows(stream.window, stream.host.now, table, stream.queries, stream.phase.afterId, output, rows)
    requires stream.phase.first <==> rows == []
    ensures Written(stream, output, rows, table)
  {
  }

  /** Drains the stream, as the file export and the HTTP body do. Whatever the page sizes, and even while the store
      changes, the chunks are the simple document of the rows they contain; rows come in id order, each once, each
      as it was in the store, and none that was there throughout is missing; the counters say what was written. */
  method Drain(w: Window, host: Host, ghost table: nat -> Table)
      returns (text: Option<string>, frames: nat, marks: nat, ghost rows: seq<Row>)
    requires Pages(host, w, table)
    ensures text.Some? ==>
      && host.marks.Some?
      && text.value == Document(host.now, w, rows, host.marks.value)
      && frames == |rows| && marks == |MarksInWindow(host.marks.value, w)|
      && exists last: nat :: Complete(rows, w, table, last)
    ensures text.None? ==> Fails(host)
  {
    var stream := new Stream(w, host);
    var chunk := stream.Next();
    var output := Some(chunk.text);
    rows := [];
    while stream.phase.AtFrames? && output.Some?
      invariant stream.window == w && stream.host == host
      invariant if output.Some? then Written(stream, output.value, rows, table) else Fails(host)
      decreases output.Some?, if stream.phase.AtFrames? then I64_MAX - stream.phase.afterId + 1 else 0
    {
      ghost var queries, after := stream.queries, stream.phase.afterId;
      output, rows := Advance(stream, output.value, table, rows);
      if output.None? {
        ReadFails(host, queries, after);
      }
    }
    return output, stream.frames, stream.marks, rows;
  }

  /** Over a store that does not change, a finished export holds exactly the rows of the window, once each. */
  lemma UnchangedStore(rows: seq<Row>, w: Window, table: Table, last: nat, row: Row)
    requires Complete(rows, w, (_: nat) => table, last)
    ensures row in rows <==> Holds(table, row) && row.frameId > 0 && InWindow(row.capturedAt, w)
  {
    var same := (_: nat) => table;
    if row in rows {
      var i :| 0 <= i < |rows| && rows[i] == row;
      assert WasThere(rows[i], same, last + 1);
    }
    if Holds(table, row) && row.frameId > 0 && InWindow(row.capturedAt, w) {
      assert Throughout(row, w, same, last);
    }
  }

  /** So the document does not depend on how the pages were cut. */
  lemma PagesDoNotMatter(a: seq<Row>, b: seq<Row>, w: Window, table: Table, lastA: nat, lastB: nat)
    requires Complete(a, w, (_: nat) => table, lastA) && Complete(b, w, (_: nat) => table, lastB)
    ensures a == b
  {
    forall row: Row
      ensures row in a <==> row in b
    {
      UnchangedStore(a, w, table, lastA, row);
      UnchangedStore(b, w, table, lastB, row);
    }
    AscendingUnique(a, b);
  }

  lemma {:induction false} AscendingUnique(a: seq<Row>, b: seq<Row>)
    requires Ascending(a) && Ascending(b) && forall row: Row :: row in a <==> row in b
    ensures a == b
  {
    assert a != [] ==> a[0] in b;
    assert b != [] ==> b[0] in a;
    if a != [] && b != [] {
      var m, n := |a| - 1, |b| - 1;
      assert a[m] in b && b[n] in a;
      assert a[m] == b[n];
      forall row: Row
        ensures row in a[..m] <==> row in b[..n]
      {
        assert row in a <==> row in a[..m] || row == a[m];
        assert row in b <==> row in b[..n] || row == b[n];
      }
      AscendingUnique(a[..m], b[..n]);
      assert a == a[..m] + [a[m]] && b == b[..n] + [b[n]];
    }
  }
}
