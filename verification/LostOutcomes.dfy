/** How often one attempt can be sent: the exact bound over whole runs, and when an outcome that could not be
    recorded makes the worker send again (src-tauri/src/memory.rs). */
module LostOutcomes {
  import opened Wrappers
  import opened Bytes
  import opened DeliveryLedger
  import opened Retarget
  import opened Dispatch
  import opened DispatchSafety

  // While an attempt is in flight its dispatch conditions stay true, but for the settings.

  predicate Guarded(w: World)
    requires WorldOk(w)
  {
    w.inflight.Some? && w.inflight.value < |w.rows| ==>
      var row := w.rows[w.inflight.value];
      && row.snapshot.Digest? && NoneUnknown(w.rows, row.run) && EarlierSettled(w.rows, w.inflight.value)
      && (RootAttempt(row) ==> !Blocked(w, row.run))
  }

  lemma DispatchGuards(w: World, i: nat, now: int)
    requires Inv(w) && Step(w, DispatchAttempt(i, now)).Some?
    ensures WorldOk(Step(w, DispatchAttempt(i, now)).value) && Guarded(Step(w, DispatchAttempt(i, now)).value)
  {
    SentKeepsInv(w, i, now);
    var w2 := Step(w, DispatchAttempt(i, now)).value;
    var r := w.rows[i].run;
    assert w2.rows == w.rows[i := SendingRow(w.rows[i], now)];
    if RootAttempt(w.rows[i]) {
      AncestorsIgnore(w.runs, w.rows, w2.rows, r, w.runs[r].revisionOf);
    }
  }

  lemma CommandKeepsGuarded(w: World, e: Event)
    requires Inv(w) && Guarded(w) && w.inflight.Some? && Concurrent(e) && Step(w, e).Some?
    ensures WorldOk(Step(w, e).value) && Guarded(Step(w, e).value)
  {
    StepKeepsWorld(w, e);
    var i := w.inflight.value;
    if RootAttempt(w.rows[i]) {
      UnblockedStays(w, e, w.rows[i].run);
    }
  }

  /** Only commands can come between a dispatch and its end. */
  lemma InflightMeansCommand(w: World, e: Event)
    requires Inv(w) && w.inflight.Some? && Step(w, e).Some? && Step(w, e).value.inflight.Some?
    ensures Concurrent(e)
  {
  }

  lemma {:induction false} PlayGuards(events: seq<Event>)
    ensures Inv(Play(NEVER_STARTED, events)) && Guarded(Play(NEVER_STARTED, events))
  {
    PlayKeepsInv(events);
    if events != [] {
      var n := |events| - 1;
      PlayGuards(events[..n]);
      var w, e := Play(NEVER_STARTED, events[..n]), events[n];
      if Step(w, e).Some? && Step(w, e).value.inflight.Some? {
        if w.inflight.Some? {
          InflightMeansCommand(w, e);
          CommandKeepsGuarded(w, e);
        } else {
          OnlyDispatchStarts(w, e);
          DispatchGuards(w, e.i, e.now);
        }
      }
    }
  }

  lemma OnlyDispatchStarts(w: World, e: Event)
    requires WorldOk(w) && w.inflight.None? && Step(w, e).Some? && Step(w, e).value.inflight.Some?
    ensures e.DispatchAttempt?
  {
  }

  // When a lost outcome is sent again.

  /** The worker's next pass delivers the run: it is queued, or saved with something to do. */
  predicate TakenUp(w: World, r: nat, now: int)
    requires WorldOk(w) && r < |w.runs|
  {
    w.status[r].phase.Queued? || (w.status[r].saved && PickedUp(w.rows, r, now))
  }

  /** The next pass over `r`, as the worker loop decides it. */
  function NextPass(w: World, r: nat, generated: bool, now: int): (next: Option<World>)
    requires WorldOk(w) && r < |w.runs|
  {
    if w.status[r].phase.Queued? then Step(w, Claim(r, generated)) else Step(w, Resume(r, now))
  }

  predicate SentByNextPass(w: World, i: nat, generated: bool, now: int)
    requires WorldOk(w) && i < |w.rows|
  {
    var next := NextPass(w, w.rows[i].run, generated, now);
    next.Some? && WorldOk(next.value) && MayDispatch(next.value, i, now)
  }

  /** In every reachable state: an attempt whose outcome could not be recorded is sent again by the next pass
      exactly when its run is taken up for another reason and its chat is still selected. */
  lemma LostOutcomeIsSentAgain(events: seq<Event>, generated: bool, now: int)
    requires Play(NEVER_STARTED, events).inflight.Some?
    ensures var w := Play(NEVER_STARTED, events);
      var i := w.inflight.value;
      && i < |w.rows|
      && var lost := After(w, OutcomeLost(i));
         && WorldOk(lost) && i < |lost.rows| && w.rows[i].snapshot.Digest?
         && (SentByNextPass(lost, i, generated, now) <==>
           TakenUp(w, w.rows[i].run, now) && w.enabled && w.chat == Some(w.rows[i].snapshot.chat))
  {
    var w := Play(NEVER_STARTED, events);
    PlayGuards(events);
    LostThenPassed(w, generated, now);
  }

  lemma LostThenPassed(w: World, generated: bool, now: int)
    requires Inv(w) && Guarded(w) && w.inflight.Some?
    ensures var i := w.inflight.value;
      var lost := After(w, OutcomeLost(i));
      && WorldOk(lost) && i < |lost.rows|
      && (SentByNextPass(lost, i, generated, now) <==>
        TakenUp(w, w.rows[i].run, now) && w.enabled && w.chat == Some(w.rows[i].snapshot.chat))
  {
    var i := w.inflight.value;
    var r := w.rows[i].run;
    StepKeepsWorld(w, OutcomeLost(i));
    var lost := After(w, OutcomeLost(i));
    assert lost.rows == w.rows && lost.runs == w.runs && lost.status == w.status;
    assert AttemptsBounded(w, i);
    assert NextPass(lost, r, generated, now).Some? <==> TakenUp(w, r, now);
    if TakenUp(w, r, now) {
      var next := NextPass(lost, r, generated, now).value;
      assert next.rows == w.rows && next.runs == w.runs;
      SameBlocks(w, next, r);
    }
  }

  lemma SameBlocks(w: World, w2: World, r: nat)
    requires WorldOk(w) && WorldOk(w2) && w2.rows == w.rows && w2.runs == w.runs && r < |w.runs|
    ensures Blocked(w, r) == Blocked(w2, r)
  {
  }

  /** A lost attempt that is the last open work of a closed run is left alone: no pass takes the run up. */
  lemma LoneAttemptIsLeft(w: World, i: nat, now: int)
    requires WorldOk(w) && i < |w.rows| && w.rows[i].destination.Telegram? && w.rows[i].state.Sending?
    requires w.status[w.rows[i].run].phase.Closed?
    requires exists v :: 0 <= v < |w.rows| && w.rows[v].run == w.rows[i].run && w.rows[v].destination.Vault?
    requires exists x :: 0 <= x < |w.rows| && w.rows[x].run == w.rows[i].run && w.rows[x].destination.Index?
    requires forall k :: 0 <= k < |w.rows| && k != i && w.rows[k].run == w.rows[i].run ==>
      Terminal(w.rows[k].state) || (w.rows[k].state.Conflict? && !w.rows[k].destination.Telegram?)
    ensures !TakenUp(w, w.rows[i].run, now)
  {
    assert OfRun(w.rows[i], w.rows[i].run);
  }

  // The bound, counted in events.

  /** An event that allows attempt `i` of run `r` one more send. */
  predicate Charged(e: Event, i: nat, r: nat) {
    e == OutcomeLost(i) || (e.Retry? && e.of == r && i in e.reset)
  }

  function Charges(events: seq<Event>, i: nat, r: nat): (n: nat) {
    if events == [] then 0
    else Charges(events[..|events| - 1], i, r) + (if Charged(events[|events| - 1], i, r) then 1 else 0)
  }

  lemma ExtraStep(w: World, e: Event, i: nat)
    requires WorldOk(w) && i < |After(w, e).rows| && WorldOk(After(w, e)) && After(w, e).rows[i].destination.Telegram?
    ensures var before := if i < |w.rows| then w.extra[i] else 0;
      After(w, e).extra[i] <= before + (if Charged(e, i, After(w, e).rows[i].run) then 1 else 0)
  {
    if IsQuiet(e) {
      QuietSteps(w, e);
      if e.Retry? && Step(w, e).Some? {
        GrantedOnlyReset(w, e, i);
      } else if i < |w.rows| {
        assert !Requeued(w, After(w, e), i);
      }
    }
  }

  lemma GrantedOnlyReset(w: World, e: Event, i: nat)
    requires WorldOk(w) && e.Retry? && Step(w, e).Some? && i < |Step(w, e).value.rows| == |Step(w, e).value.extra|
    requires Step(w, e).value.rows[i].destination.Telegram?
    ensures var before := if i < |w.rows| then w.extra[i] else 0;
      Step(w, e).value.extra[i] <= before + (if Charged(e, i, Step(w, e).value.rows[i].run) then 1 else 0)
  {
    var mid := AfterRedirect(w, e.of, e.reviewed, e.created, e.now);
    assert Step(w, e).value.rows[i] == if i in e.reset then ResetRow(mid[i], e.of, e.now) else mid[i];
  }

  lemma {:induction false} ExtraIsCharged(events: seq<Event>, i: nat)
    requires i < |Play(NEVER_STARTED, events).rows| && Play(NEVER_STARTED, events).rows[i].destination.Telegram?
    ensures var w := Play(NEVER_STARTED, events); w.extra[i] <= Charges(events, i, w.rows[i].run)
  {
    if events != [] {
      var n := |events| - 1;
      var w := Play(NEVER_STARTED, events[..n]);
      StepKeepsWorld(w, events[n]);
      ExtraStep(w, events[n], i);
      if i < |w.rows| {
        assert SameIdentity(w.rows[i], After(w, events[n]).rows[i]);
        ExtraIsCharged(events[..n], i);
      }
    }
  }

  /** Bounded sends: over any run an attempt is sent at most four times, plus once for each explicit retry that
      reset it and each outcome of it that could not be recorded. */
  lemma AtMostFourAutomaticSends(events: seq<Event>, i: nat)
    requires i < |Play(NEVER_STARTED, events).rows| && Play(NEVER_STARTED, events).rows[i].destination.Telegram?
    ensures var w := Play(NEVER_STARTED, events); w.rows[i].attempt <= 4 + Charges(events, i, w.rows[i].run)
  {
    PlayKeepsInv(events);
    assert AttemptsBounded(Play(NEVER_STARTED, events), i);
    ExtraIsCharged(events, i);
  }

  lemma {:induction false} NoCharges(events: seq<Event>, i: nat, r: nat)
    requires forall k :: 0 <= k < |events| ==> !Charged(events[k], i, r)
    ensures Charges(events, i, r) == 0
  {
    if events != [] {
      NoCharges(events[..|events| - 1], i, r);
    }
  }

  /** With every outcome of it recorded and no retry of its run, an attempt is sent at most four times. */
  lemma FourSendsWithoutLossOrRetry(events: seq<Event>, i: nat)
    requires i < |Play(NEVER_STARTED, events).rows| && Play(NEVER_STARTED, events).rows[i].destination.Telegram?
    requires forall k :: 0 <= k < |events| ==>
      events[k] != OutcomeLost(i) && !(events[k].Retry? && events[k].of == Play(NEVER_STARTED, events).rows[i].run)
    ensures Play(NEVER_STARTED, events).rows[i].attempt <= 4
  {
    AtMostFourAutomaticSends(events, i);
    NoCharges(events, i, Play(NEVER_STARTED, events).rows[i].run);
  }
}
