/** Splitting a digest into messages by UTF-16 length (src-tauri/src/memory_telegram.rs). */
module DigestChunks {
  import opened Wrappers
  import opened Decimals

  const BODY_UNITS: nat := 10_000
  const CHUNK_UNITS: nat := 3500
  const MESSAGE_UNITS: nat := 4096

  /** UTF-16 units of one scalar. */
  function Width(c: char): (w: nat)
    ensures 1 <= w <= 2
  {
    if c as int < 0x1_0000 then 1 else 2
  }

  function Units(s: string): (n: nat)
    ensures |s| <= n
  {
    if s == "" then 0 else Units(s[..|s| - 1]) + Width(s[|s| - 1])
  }

  lemma {:induction false} UnitsAdd(a: string, b: string)
    ensures Units(a + b) == Units(a) + Units(b)
  {
    if b == "" {
      assert a + b == a;
    } else {
      UnitsAdd(a, b[..|b| - 1]);
      assert (a + b)[..|a + b| - 1] == a + b[..|b| - 1];
    }
  }

  lemma UnitsPush(s: string, c: char)
    ensures Units(s + [c]) == Units(s) + Width(c)
  {
    assert (s + [c])[..|s|] == s;
  }

  lemma UnitsOfPrefix(s: string, n: nat, m: nat)
    requires n <= m <= |s|
    ensures Units(s[..n]) <= Units(s[..m])
  {
    UnitsAdd(s[..n], s[n..m]);
    assert s[..n] + s[n..m] == s[..m];
  }

  /** The longest prefix of at most `max` units. */
  predicate LongestFitting(r: string, text: string, max: nat) {
    && r <= text && Units(r) <= max
    && forall n :: 0 <= n <= |text| && Units(text[..n]) <= max ==> n <= |r|
  }

  lemma LongestUnique(a: string, b: string, text: string, max: nat)
    requires LongestFitting(a, text, max) && LongestFitting(b, text, max)
    ensures a == b
  {
    assert text[..|a|] == a && text[..|b|] == b;
  }

  /** A prefix that the next scalar would push over the limit is the longest. */
  lemma FullIsLongest(text: string, n: nat, max: nat)
    requires n <= |text| && Units(text[..n]) <= max
    requires n < |text| ==> Units(text[..n]) + Width(text[n]) > max
    ensures LongestFitting(text[..n], text, max)
  {
    if n < |text| {
      UnitsPush(text[..n], text[n]);
      assert text[..n + 1] == text[..n] + [text[n]];
    }
    forall m | 0 <= m <= |text| && Units(text[..m]) <= max
      ensures m <= n
    {
      if m > n {
        UnitsOfPrefix(text, n + 1, m);
      }
    }
  }

  /** `bounded`: scalars are taken while the running count fits. */
  method Bounded(text: string, max: nat) returns (r: string)
    ensures LongestFitting(r, text, max)
  {
    var units := 0;
    r := "";
    while |r| < |text| && units + Width(text[|r|]) <= max
      invariant r <= text && units == Units(r) <= max
      decreases |text| - |r|
    {
      var c := text[|r|];
      UnitsPush(r, c);
      assert r + [c] == text[..|r| + 1];
      r := r + [c];
      units := units + Width(c);
    }
    assert text[..|r|] == r;
    FullIsLongest(text, |r|, max);
  }

  function Joined(chunks: seq<string>): (s: string) {
    if chunks == [] then "" else Joined(chunks[..|chunks| - 1]) + chunks[|chunks| - 1]
  }

  predicate Fits(chunk: string) {
    Units(chunk) <= CHUNK_UNITS
  }

  /** The next chunk's first scalar did not fit any more. */
  predicate Full(chunks: seq<string>, i: nat)
    requires i + 1 < |chunks|
  {
    chunks[i + 1] != "" && Units(chunks[i]) + Width(chunks[i + 1][0]) > CHUNK_UNITS
  }

  /** Every chunk but the last is the longest prefix that fits of what was left. */
  predicate Greedy(chunks: seq<string>, text: string) {
    && Joined(chunks) == text
    && (forall i :: 0 <= i < |chunks| ==> chunks[i] != "" && Fits(chunks[i]))
    && (forall i :: 0 <= i < |chunks| - 1 ==> Full(chunks, i))
  }

  lemma JoinedMore(chunks: seq<string>, chunk: string)
    ensures Joined(chunks + [chunk]) == Joined(chunks) + chunk
  {
    assert (chunks + [chunk])[..|chunks|] == chunks;
  }

  lemma PushedFirst(c: char)
    ensures Units([c]) == Width(c) && Greedy([[c]], [c])
  {
    UnitsOfOne(c);
    var one: seq<string> := [[c]];
    assert one[..0] == [];
    assert Joined(one) == Joined([]) + [c] == [c];
    assert |one| == 1 && one[0] == [c];
  }

  lemma UnitsOfOne(c: char)
    ensures Units([c]) == Width(c)
  {
    UnitsPush("", c);
    assert "" + [c] == [c];
  }

  /** One scalar more into the open chunk. */
  lemma PushedInto(chunks: seq<string>, current: string, text: string, c: char)
    requires current != "" && Greedy(chunks + [current], text) && Units(current) + Width(c) <= CHUNK_UNITS
    ensures Greedy(chunks + [current + [c]], text + [c])
  {
    UnitsPush(current, c);
    JoinedMore(chunks, current);
    JoinedMore(chunks, current + [c]);
    var open, same := chunks + [current], chunks + [current + [c]];
    assert (current + [c])[0] == current[0];
    forall i | 0 <= i < |chunks|
      ensures Full(same, i)
    {
      assert Full(open, i);
    }
  }

  /** One scalar that opens the next chunk. */
  lemma PushedAfter(chunks: seq<string>, current: string, text: string, c: char)
    requires current != "" && Greedy(chunks + [current], text) && Units(current) + Width(c) > CHUNK_UNITS
    ensures Greedy(chunks + [current] + [[c]], text + [c])
  {
    PushedFirst(c);
    JoinedMore(chunks + [current], [c]);
    var open, more := chunks + [current], chunks + [current] + [[c]];
    forall i | 0 <= i < |open|
      ensures Full(more, i)
    {
      assert i < |chunks| ==> Full(open, i);
    }
  }

  /** The finished chunks and the open one, over the text read so far. */
  predicate Open(chunks: seq<string>, current: string, text: string) {
    if current == "" then chunks == [] && text == "" else Greedy(chunks + [current], text)
  }

  lemma PushedStart(chunks: seq<string>, current: string, text: string, c: char)
    requires Open(chunks, current, text) && current == ""
    ensures Units(current) + Width(c) <= CHUNK_UNITS && Open(chunks, current + [c], text + [c])
  {
    PushedFirst(c);
    assert current + [c] == [c] && text + [c] == [c] && chunks + [[c]] == [[c]];
  }

  lemma Pushed(chunks: seq<string>, current: string, text: string, c: char)
    requires Open(chunks, current, text)
    ensures Units(current) + Width(c) <= CHUNK_UNITS ==> Open(chunks, current + [c], text + [c])
    ensures Units(current) + Width(c) > CHUNK_UNITS ==> Open(chunks + [current], [c], text + [c])
  {
    if current == "" {
      PushedStart(chunks, current, text, c);
    } else if Units(current) + Width(c) <= CHUNK_UNITS {
      PushedInto(chunks, current, text, c);
    } else {
      PushedAfter(chunks, current, text, c);
    }
  }

  /** The splitting loop of `digest_chunks`. */
  method Split(text: string) returns (chunks: seq<string>)
    ensures Greedy(chunks, text)
  {
    chunks := [];
    var current, units := "", 0;
    for n := 0 to |text|
      invariant units == Units(current)
      invariant Open(chunks, current, text[..n])
    {
      var c := text[n];
      assert text[..n + 1] == text[..n] + [c];
      Pushed(chunks, current, text[..n], c);
      if units + Width(c) > CHUNK_UNITS {
        chunks := chunks + [current];
        current, units := "", 0;
        assert current + [c] == [c];
      }
      UnitsPush(current, c);
      current := current + [c];
      units := units + Width(c);
    }
    assert text[..|text|] == text;
    if current != "" {
      chunks := chunks + [current];
    }
  }

  // Minimality.

  /** A part that starts no later than a slice that is too long ends inside it. */
  lemma EndsInside(text: string, other: nat, from: nat, to: nat, reach: nat)
    requires other <= from <= to < |text| && other <= reach <= |text|
    requires Units(text[from..to + 1]) > CHUNK_UNITS && Fits(text[other..reach])
    ensures reach <= to
  {
    if reach > to {
      UnitsOfSlice(text, other, from, to + 1, reach);
    }
  }

  /** The first `n` chunks of a greedy split reach at least as far as the first `n` parts of any other. */
  lemma {:induction false} GreedyStaysAhead(chunks: seq<string>, parts: seq<string>, text: string, n: nat)
    requires Greedy(chunks, text) && Joined(parts) == text
    requires forall i :: 0 <= i < |parts| ==> Fits(parts[i])
    requires n <= |chunks| && n <= |parts|
    ensures |Joined(parts[..n])| <= |Joined(chunks[..n])|
    decreases n
  {
    if n > 0 {
      GreedyStaysAhead(chunks, parts, text, n - 1);
      JoinedPrefix(chunks, n);
      JoinedPrefix(parts, n);
      if n < |chunks| {
        assert Full(chunks, n - 1);
        NextStarts(chunks, n);
        UnitsPush(chunks[n - 1], chunks[n][0]);
        EndsInside(text, |Joined(parts[..n - 1])|, |Joined(chunks[..n - 1])|, |Joined(chunks[..n])|, |Joined(parts[..n])|);
      } else {
        assert chunks[..n] == chunks;
      }
    }
  }

  /** Slices of the text that the chunks are. */
  lemma {:induction false} JoinedPrefix(chunks: seq<string>, n: nat)
    requires 0 < n <= |chunks|
    ensures Joined(chunks[..n]) == Joined(chunks[..n - 1]) + chunks[n - 1]
    ensures |Joined(chunks[..n])| <= |Joined(chunks)|
    ensures Joined(chunks)[|Joined(chunks[..n - 1])|..|Joined(chunks[..n])|] == chunks[n - 1]
    decreases |chunks|
  {
    assert chunks[..n][..n - 1] == chunks[..n - 1];
    if n < |chunks| {
      var shorter := chunks[..|chunks| - 1];
      JoinedPrefix(shorter, n);
      assert shorter[..n] == chunks[..n] && shorter[..n - 1] == chunks[..n - 1];
    } else {
      assert chunks[..n] == chunks;
    }
  }

  lemma NextStarts(chunks: seq<string>, n: nat)
    requires 0 < n < |chunks| && chunks[n] != ""
    ensures var from, to := |Joined(chunks[..n - 1])|, |Joined(chunks[..n])|;
      && from <= to < |Joined(chunks)|
      && Joined(chunks)[from..to + 1] == chunks[n - 1] + [chunks[n][0]]
  {
    JoinedPrefix(chunks, n);
    JoinedPrefix(chunks, n + 1);
    var text, from, to, end := Joined(chunks), |Joined(chunks[..n - 1])|, |Joined(chunks[..n])|, |Joined(chunks[..n + 1])|;
    assert text[to] == text[to..end][0];
    assert text[from..to + 1] == text[from..to] + [text[to]];
  }

  lemma UnitsOfSlice(s: string, a: nat, b: nat, c: nat, d: nat)
    requires a <= b <= c <= d <= |s|
    ensures Units(s[b..c]) <= Units(s[a..d])
  {
    assert s[a..d] == s[a..b] + (s[b..c] + s[c..d]);
    UnitsAdd(s[a..b], s[b..c] + s[c..d]);
    UnitsAdd(s[b..c], s[c..d]);
  }

  /** No order-preserving split into fitting parts has fewer parts. */
  lemma GreedyIsMinimal(chunks: seq<string>, parts: seq<string>, text: string)
    requires Greedy(chunks, text) && Joined(parts) == text
    requires forall i :: 0 <= i < |parts| ==> Fits(parts[i])
    ensures |chunks| <= |parts|
  {
    if |parts| < |chunks| {
      var n := |parts|;
      GreedyStaysAhead(chunks, parts, text, n);
      assert parts[..n] == parts;
      JoinedPrefix(chunks, n + 1);
      assert false;
    }
  }

  // Labels.

  function Label(i: nat, total: nat): (s: string) {
    "[" + Decimal(i + 1) + "/" + Decimal(total) + "]\n"
  }

  lemma {:induction false} AsciiUnits(s: string)
    requires Ascii(s)
    ensures Units(s) == |s|
  {
    if s != "" {
      AsciiUnits(s[..|s| - 1]);
    }
  }

  lemma LabelUnits(i: nat, total: nat)
    requires i < total
    ensures Units(Label(i, total)) <= 4 + 2 * |Decimal(total)|
  {
    DecimalGrows(i + 1, total);
    DecimalGrows(total, total);
    AsciiUnits(Label(i, total));
  }

  /** Unless the number of chunks has more than 296 digits, every labelled chunk is a message Telegram accepts. */
  lemma LabelledFits(chunks: seq<string>, text: string, i: nat)
    requires Greedy(chunks, text) && i < |chunks| && |Decimal(|chunks|)| <= 296
    ensures Units(Label(i, |chunks|) + chunks[i]) <= MESSAGE_UNITS
  {
    LabelUnits(i, |chunks|);
    UnitsAdd(Label(i, |chunks|), chunks[i]);
  }

  lemma {:induction false} ChunksAreFull(chunks: seq<string>, text: string, n: nat)
    requires Greedy(chunks, text) && n < |chunks|
    ensures Units(Joined(chunks[..n])) >= 3499 * n
    decreases n
  {
    if n > 0 {
      ChunksAreFull(chunks, text, n - 1);
      JoinedPrefix(chunks, n);
      UnitsAdd(Joined(chunks[..n - 1]), chunks[n - 1]);
      assert Full(chunks, n - 1);
    }
  }

  // The whole digest.

  const SHORTENED: string := "\n[Digest shortened; full report saved locally]"

  function DigestText(header: string, body: string, shortened: string): (text: string) {
    header + shortened + (if |shortened| < |body| then SHORTENED else "")
  }

  lemma ShortenedNotice()
    ensures Units(SHORTENED) <= 100
  {
    UnitsAtMost(SHORTENED);
  }

  lemma {:induction false} UnitsAtMost(s: string)
    ensures Units(s) <= 2 * |s|
  {
    if s != "" {
      UnitsAtMost(s[..|s| - 1]);
    }
  }

  /** All chunks but the last are full. */
  lemma ChunkCount(chunks: seq<string>, text: string)
    requires Greedy(chunks, text) && chunks != []
    ensures 3499 * (|chunks| - 1) < Units(text)
  {
    var n := |chunks| - 1;
    ChunksAreFull(chunks, text, n);
    JoinedPrefix(chunks, n + 1);
    UnitsAdd(Joined(chunks[..n]), chunks[n]);
    assert chunks[..n + 1] == chunks;
    assert Units(chunks[n]) >= |chunks[n]| > 0;
  }

  /** A digest is at most three messages: its body is cut at 10000 units. */
  lemma AtMostThreeMessages(chunks: seq<string>, header: string, body: string, shortened: string)
    requires LongestFitting(shortened, body, BODY_UNITS) && Units(header) <= 390
    requires Greedy(chunks, DigestText(header, body, shortened))
    ensures |chunks| <= 3
  {
    var tail := if |shortened| < |body| then SHORTENED else "";
    ShortenedNotice();
    UnitsAdd(header, shortened);
    UnitsAdd(header + shortened, tail);
    if chunks != [] {
      ChunkCount(chunks, DigestText(header, body, shortened));
    }
  }

  /** `digest_chunks`, for a report that is sent: cut, split, label. */
  method LabelledChunks(header: string, body: string) returns (messages: seq<string>)
    ensures exists chunks: seq<string>, shortened: string ::
      && LongestFitting(shortened, body, BODY_UNITS)
      && Greedy(chunks, DigestText(header, body, shortened))
      && |messages| == |chunks|
      && forall i :: 0 <= i < |chunks| ==> messages[i] == Label(i, |chunks|) + chunks[i]
    ensures Units(header) <= 390 ==>
      |messages| <= 3 && forall i :: 0 <= i < |messages| ==> Units(messages[i]) <= MESSAGE_UNITS
  {
    var shortened := Bounded(body, BODY_UNITS);
    var chunks := Split(DigestText(header, body, shortened));
    messages := [];
    for i := 0 to |chunks|
      invariant |messages| == i
      invariant forall k :: 0 <= k < i ==> messages[k] == Label(k, |chunks|) + chunks[k]
    {
      messages := messages + [Label(i, |chunks|) + chunks[i]];
    }
    if Units(header) <= 390 {
      AtMostThreeMessages(chunks, header, body, shortened);
      assert |Decimal(|chunks|)| == 1;
      forall i | 0 <= i < |messages|
        ensures Units(messages[i]) <= MESSAGE_UNITS
      {
        LabelledFits(chunks, DigestText(header, body, shortened), i);
      }
    }
  }
}
