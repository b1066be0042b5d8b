/** The report a revision belongs to, and the note both are written to
    (`base_report_id`, src-tauri/src/memory.rs; `note_relative_path`, src-tauri/src/memory_files.rs). */
module RevisionRoot {
  import opened Wrappers
  import opened Bytes
  import CivilDate
  import Sets

  type Id = seq<Byte>

  datatype Range = Range(startDate: seq<Byte>, endDate: seq<Byte>)

  datatype Run = Run(
    runId: Id, sourceId: seq<Byte>, revisionOf: Option<Id>, range: Option<Range>,
    windowStart: int, windowEnd: int, localDate: seq<Byte>)

  datatype Unavailable = InvalidChain | Missing | Mismatch

  /** The stored runs by id. Nothing is assumed about `revisionOf`: it may dangle or run in circles. */
  type Runs = map<Id, Run>

  predicate SameScope(a: Run, b: Run) {
    a.sourceId == b.sourceId && a.range == b.range && a.windowStart == b.windowStart && a.windowEnd == b.windowEnd
  }

  /** The walk to the first report, from `current` with `seen` ids behind it. */
  function Walk(runs: Runs, run: Run, current: Run, seen: set<Id>): (r: Result<Id, Unavailable>)
    decreases |runs.Keys - seen|
  {
    if current.revisionOf.None? then Ok(current.runId)
    else
      var parent := current.revisionOf.value;
      if parent in seen then Err(InvalidChain)
      else if parent !in runs then Err(Missing)
      else if !SameScope(runs[parent], run) then Err(Mismatch)
      else
        assert runs.Keys - (seen + {parent}) < runs.Keys - seen by {
          assert parent in runs.Keys - seen;
        }
        Sets.ProperSubsetSmaller(runs.Keys - (seen + {parent}), runs.Keys - seen);
        Walk(runs, run, runs[parent], seen + {parent})
  }

  function BaseReportId(runs: Runs, run: Run): (r: Result<Option<Id>, Unavailable>) {
    if run.range.None? then Ok(None)
    else match Walk(runs, run, run, {}) case Ok(id) => Ok(Some(id)) case Err(e) => Err(e)
  }

  /** `base_report_id`: the loop ends on every store, cyclic ones included. */
  method FindBaseReport(runs: Runs, run: Run) returns (r: Result<Option<Id>, Unavailable>)
    ensures r == BaseReportId(runs, run)
  {
    if run.range.None? {
      return Ok(None);
    }
    var current := run;
    var seen: set<Id> := {};
    while current.revisionOf.Some?
      invariant Walk(runs, run, current, seen) == Walk(runs, run, run, {})
      decreases |runs.Keys - seen|, current.revisionOf.Some?
    {
      var parent := current.revisionOf.value;
      if parent in seen {
        return Err(InvalidChain);
      }
      if parent !in runs {
        return Err(Missing);
      }
      if !SameScope(runs[parent], run) {
        return Err(Mismatch);
      }
      assert parent in runs.Keys - seen;
      Sets.ProperSubsetSmaller(runs.Keys - (seen + {parent}), runs.Keys - seen);
      seen := seen + {parent};
      current := runs[parent];
    }
    return Ok(Some(current.runId));
  }

  // The reference: a finite chain of stored parents of one scope.

  predicate HasParent(runs: Runs, run: Run, current: Run) {
    current.revisionOf.Some? && current.revisionOf.value in runs && SameScope(runs[current.revisionOf.value], run)
  }

  /** From `current` through parents of the scope of `run` to a report that revises nothing. */
  predicate ChainFrom(runs: Runs, run: Run, current: Run, path: seq<Run>)
    decreases |path|
  {
    && path != [] && path[0] == current
    && if |path| == 1 then current.revisionOf.None?
       else HasParent(runs, run, current) && ChainFrom(runs, run, runs[current.revisionOf.value], path[1..])
  }

  predicate ChainTo(runs: Runs, run: Run, path: seq<Run>, root: Id) {
    ChainFrom(runs, run, run, path) && path[|path| - 1].runId == root
  }

  lemma {:induction false} WalkFindsChain(runs: Runs, run: Run, current: Run, seen: set<Id>) returns (path: seq<Run>)
    requires Walk(runs, run, current, seen).Ok?
    ensures ChainFrom(runs, run, current, path)
    ensures path[|path| - 1].runId == Walk(runs, run, current, seen).value
    decreases |runs.Keys - seen|
  {
    if current.revisionOf.None? {
      path := [current];
    } else {
      var parent := current.revisionOf.value;
      assert parent in runs.Keys - seen;
      Sets.ProperSubsetSmaller(runs.Keys - (seen + {parent}), runs.Keys - seen);
      var rest := WalkFindsChain(runs, run, runs[parent], seen + {parent});
      path := [current] + rest;
      assert path[1..] == rest;
    }
  }

  /** From one run there is at most one chain. */
  lemma {:induction false} ChainUnique(runs: Runs, run: Run, current: Run, a: seq<Run>, b: seq<Run>)
    requires ChainFrom(runs, run, current, a) && ChainFrom(runs, run, current, b)
    ensures a == b
    decreases |a|
  {
    if |a| > 1 {
      ChainUnique(runs, run, runs[current.revisionOf.value], a[1..], b[1..]);
      assert a == [current] + a[1..] && b == [current] + b[1..];
    } else {
      assert a == [current] && b == [current];
    }
  }

  /** The chain from this id is at least `n` long, so a shorter chain does not come back to it. */
  ghost predicate Behind(runs: Runs, run: Run, id: Id, n: nat) {
    id in runs && exists p: seq<Run> :: ChainFrom(runs, run, runs[id], p) && |p| >= n
  }

  /** The walk follows a chain to its end: nothing it has seen can be ahead. */
  lemma {:induction false} WalkFollowsChain(runs: Runs, run: Run, current: Run, path: seq<Run>, seen: set<Id>)
    requires ChainFrom(runs, run, current, path)
    requires forall id :: id in seen ==> Behind(runs, run, id, |path|)
    ensures Walk(runs, run, current, seen) == Ok(path[|path| - 1].runId)
    decreases |path|
  {
    if |path| > 1 {
      var parent := current.revisionOf.value;
      var rest := path[1..];
      if parent in seen {
        var p: seq<Run> :| ChainFrom(runs, run, runs[parent], p) && |p| >= |path|;
        ChainUnique(runs, run, runs[parent], p, rest);
        assert false;
      }
      forall id | id in seen + {parent}
        ensures Behind(runs, run, id, |rest|)
      {
        if id != parent {
          var p: seq<Run> :| ChainFrom(runs, run, runs[id], p) && |p| >= |path|;
        }
      }
      WalkFollowsChain(runs, run, runs[parent], rest, seen + {parent});
      assert path[|path| - 1] == rest[|rest| - 1];
    }
  }

  /** The walk succeeds exactly when a finite chain of same-scope parents exists, and returns its last run. */
  lemma BaseIsChainEnd(runs: Runs, run: Run, root: Id)
    requires run.range.Some?
    ensures BaseReportId(runs, run) == Ok(Some(root)) <==> exists path: seq<Run> :: ChainTo(runs, run, path, root)
  {
    if BaseReportId(runs, run) == Ok(Some(root)) {
      var path := WalkFindsChain(runs, run, run, {});
      assert ChainTo(runs, run, path, root);
    } else if exists path: seq<Run> :: ChainTo(runs, run, path, root) {
      var path: seq<Run> :| ChainTo(runs, run, path, root);
      WalkFollowsChain(runs, run, run, path, {});
      assert false;
    }
  }

  /** Parents of the scope of `run`, one after the other, as far as the walk got. */
  predicate Trail(runs: Runs, run: Run, current: Run, path: seq<Run>)
    decreases |path|
  {
    && path != [] && path[0] == current
    && (|path| > 1 ==> HasParent(runs, run, current) && Trail(runs, run, runs[current.revisionOf.value], path[1..]))
  }

  /** The ids that were followed. */
  function Followed(path: seq<Run>): (ids: set<Id>) {
    if |path| <= 1 || path[0].revisionOf.None? then {} else {path[0].revisionOf.value} + Followed(path[1..])
  }

  /** Why the walk cannot go on from the end of the trail. */
  predicate Broken(runs: Runs, run: Run, last: Run, behind: set<Id>, error: Unavailable) {
    && last.revisionOf.Some?
    && match error
       case InvalidChain => last.revisionOf.value in behind
       case Missing => last.revisionOf.value !in runs && last.revisionOf.value !in behind
       case Mismatch =>
         last.revisionOf.value in runs && last.revisionOf.value !in behind && !SameScope(runs[last.revisionOf.value], run)
  }

  lemma FollowedMore(current: Run, rest: seq<Run>, seen: set<Id>)
    requires current.revisionOf.Some? && rest != []
    ensures seen + Followed([current] + rest) == seen + {current.revisionOf.value} + Followed(rest)
  {
    assert ([current] + rest)[1..] == rest;
  }

  lemma {:induction false} WalkBreaks(runs: Runs, run: Run, current: Run, seen: set<Id>) returns (path: seq<Run>)
    requires Walk(runs, run, current, seen).Err?
    ensures Trail(runs, run, current, path)
    ensures Broken(runs, run, path[|path| - 1], seen + Followed(path), Walk(runs, run, current, seen).error)
    decreases |runs.Keys - seen|
  {
    var parent := current.revisionOf.value;
    if parent in seen || parent !in runs || !SameScope(runs[parent], run) {
      path := [current];
    } else {
      assert parent in runs.Keys - seen;
      Sets.ProperSubsetSmaller(runs.Keys - (seen + {parent}), runs.Keys - seen);
      var rest := WalkBreaks(runs, run, runs[parent], seen + {parent});
      path := [current] + rest;
      assert path[1..] == rest;
      assert path[|path| - 1] == rest[|rest| - 1];
      FollowedMore(current, rest, seen);
    }
  }

  /** The error says what is wrong at the first run where something is: its parent was met before, is not stored, or is
      a report of another scope. */
  lemma WhyNoBase(runs: Runs, run: Run) returns (path: seq<Run>)
    requires BaseReportId(runs, run).Err?
    ensures Trail(runs, run, run, path)
    ensures Broken(runs, run, path[|path| - 1], Followed(path), BaseReportId(runs, run).error)
  {
    path := WalkBreaks(runs, run, run, {});
    assert {} + Followed(path) == Followed(path);
  }

  /** Runs of one scope follow the same chains. */
  lemma {:induction false} ChainOfScope(runs: Runs, run: Run, other: Run, current: Run, path: seq<Run>)
    requires SameScope(run, other) && ChainFrom(runs, run, current, path)
    ensures ChainFrom(runs, other, current, path)
    decreases |path|
  {
    if |path| > 1 {
      ChainOfScope(runs, run, other, runs[current.revisionOf.value], path[1..]);
    }
  }

  /** A revision has a base exactly when its parent is stored, has the same scope and has that base. */
  lemma RevisionSharesBase(runs: Runs, run: Run, root: Id)
    requires run.range.Some? && run.revisionOf.Some?
    ensures BaseReportId(runs, run) == Ok(Some(root)) <==>
      && run.revisionOf.value in runs
      && SameScope(runs[run.revisionOf.value], run)
      && BaseReportId(runs, runs[run.revisionOf.value]) == Ok(Some(root))
  {
    BaseIsChainEnd(runs, run, root);
    if HasParent(runs, run, run) {
      var parent := runs[run.revisionOf.value];
      BaseIsChainEnd(runs, parent, root);
      if BaseReportId(runs, run) == Ok(Some(root)) {
        var path: seq<Run> :| ChainTo(runs, run, path, root);
        ChainOfScope(runs, run, parent, parent, path[1..]);
        assert ChainTo(runs, parent, path[1..], root);
      } else if BaseReportId(runs, parent) == Ok(Some(root)) {
        var path: seq<Run> :| ChainTo(runs, parent, path, root);
        ChainOfScope(runs, parent, run, parent, path);
        var longer := [run] + path;
        assert longer[1..] == path;
        assert ChainTo(runs, run, longer, root);
      }
    }
  }

  // Note paths.

  predicate IsDigit(b: Byte) {
    0x30 <= b <= 0x39
  }

  function NumberOf(s: seq<Byte>): (n: int) {
    if s == [] then 0 else 10 * NumberOf(s[..|s| - 1]) + (s[|s| - 1] as int) - 0x30
  }

  /** `parse_date`: exactly YYYY-MM-DD, naming a day of the calendar. */
  function ParseDate(s: seq<Byte>): (d: Option<CivilDate.Date>) {
    if |s| != 10 || s[4] != 0x2D || s[7] != 0x2D || !(forall i :: 0 <= i < 10 && i != 4 && i != 7 ==> IsDigit(s[i]))
    then None
    else
      var date := CivilDate.Date(NumberOf(s[..4]), NumberOf(s[5..7]), NumberOf(s[8..]));
      if CivilDate.ValidDate(date) then Some(date) else None
  }

  predicate IsLowerHex(b: Byte) {
    IsDigit(b) || 0x61 <= b <= 0x66
  }

  /** A UUID in the spelling it is printed in. */
  predicate CanonicalUuid(s: seq<Byte>) {
    |s| == 36 && forall i :: 0 <= i < 36 ==> if i in {8, 13, 18, 23} then s[i] == 0x2D else IsLowerHex(s[i])
  }

  datatype NotePath = Daily(name: seq<Byte>) | Reports(name: seq<Byte>)

  const MD: seq<Byte> := [0x2E, 0x6D, 0x64]
  const TO: seq<Byte> := [0x5F, 0x74, 0x6F, 0x5F]
  const UNDERSCORE: seq<Byte> := [0x5F]

  /** `note_relative_path`. */
  function NoteRelativePath(localDate: seq<Byte>, range: Option<Range>, base: Option<Id>): (p: Option<NotePath>) {
    match range
    case None => if ParseDate(localDate).None? then None else Some(Daily(localDate + MD))
    case Some(r) =>
      var first, last := ParseDate(r.startDate), ParseDate(r.endDate);
      if first.None? || last.None? || CivilDate.Before(last.value, first.value) then None
      else if base.None? || !CanonicalUuid(base.value) then None
      else Some(Reports(r.startDate + TO + r.endDate + UNDERSCORE + base.value + MD))
  }

  /** What one path says about the report that wrote it. */
  lemma PathIsInjective(d1: seq<Byte>, r1: Option<Range>, b1: Option<Id>, d2: seq<Byte>, r2: Option<Range>, b2: Option<Id>)
    requires NoteRelativePath(d1, r1, b1).Some?
    requires NoteRelativePath(d1, r1, b1) == NoteRelativePath(d2, r2, b2)
    ensures r1 == r2
    ensures if r1.None? then d1 == d2 else b1 == b2
  {
    var p := NoteRelativePath(d1, r1, b1).value.name;
    if r1.None? {
      assert p[..10] == d1 && p[..10] == d2;
    } else {
      assert p[..10] == r1.value.startDate && p[..10] == r2.value.startDate;
      assert p[14..24] == r1.value.endDate && p[14..24] == r2.value.endDate;
      assert p[25..61] == b1.value && p[25..61] == b2.value;
    }
  }

  function NoteOf(runs: Runs, run: Run): (p: Option<NotePath>) {
    var base := BaseReportId(runs, run);
    if base.Err? then None else NoteRelativePath(run.localDate, run.range, base.value)
  }

  /** A revision of a selected-range report is written to the note of the run it revises. */
  lemma RevisionSharesNote(runs: Runs, run: Run)
    requires run.range.Some? && run.revisionOf.Some? && BaseReportId(runs, run).Ok?
    ensures run.revisionOf.value in runs && NoteOf(runs, run) == NoteOf(runs, runs[run.revisionOf.value])
  {
    RevisionSharesBase(runs, run, BaseReportId(runs, run).value.value);
  }

  /** All runs between a revision and its base, both included, have this base and are written to one note. */
  lemma {:induction false} RevisionsShareOneNote(runs: Runs, run: Run, path: seq<Run>, root: Id, i: nat)
    requires run.range.Some? && ChainTo(runs, run, path, root) && i < |path|
    ensures BaseReportId(runs, path[i]) == Ok(Some(root)) && NoteOf(runs, path[i]) == NoteOf(runs, run)
    decreases i
  {
    BaseIsChainEnd(runs, run, root);
    if i > 0 {
      var parent := runs[run.revisionOf.value];
      ChainOfScope(runs, run, parent, parent, path[1..]);
      assert ChainTo(runs, parent, path[1..], root);
      RevisionSharesNote(runs, run);
      RevisionsShareOneNote(runs, parent, path[1..], root, i - 1);
    }
  }

  /** Reports of different ranges, or with different bases, are never written to the same note. */
  lemma OneNoteOneReport(runs: Runs, a: Run, b: Run)
    requires NoteOf(runs, a).Some? && NoteOf(runs, a) == NoteOf(runs, b)
    ensures a.range == b.range
    ensures if a.range.None? then a.localDate == b.localDate else BaseReportId(runs, a) == BaseReportId(runs, b)
  {
    PathIsInjective(a.localDate, a.range, BaseReportId(runs, a).value, b.localDate, b.range, BaseReportId(runs, b).value);
  }
}
