/**
 Crash safety of every run, exactly.  A run may crash anywhere, in the loader's window too,
 and may go on after a receive error that took records.  It is crash-safe at every point
 iff each durable save and each durable acknowledgement in it meets a condition on the log,
 the stored state and the state in memory (`Guarded`).  The two windows of `Consolidator.TidyStep`
 are then worked out: when what follows them is harmless, and when it is not.
 */
module ConsolidatorSafety {
  import opened Wrappers
  import opened State
  import opened ReducerLaws
  import opened EventLog
  import opened SnapshotStore
  import opened Consolidator
  import opened Replay

  // ------------------------------------------------------------------ the guard

  /** The change from `memory` that event `next` asks for is one the log itself makes, no later than the commit. */
  ghost predicate SaveGuard(r: Reducer, log: seq<Event>, committed: nat, memory: Snapshot, next: nat)
    requires committed <= next < |log|
  {
    exists j :: 0 <= j <= committed && At(r, log, j) == Ok(memory) && r.Apply(memory, log[j]) == r.Apply(memory, log[next])
  }

  /** Every event the commit is about to pass is a no-op on the latest stored snapshot. */
  ghost predicate AckGuard(r: Reducer, log: seq<Event>, committed: nat, latest: Snapshot, next: nat)
    requires committed <= next < |log|
  {
    AllNoOps(r, latest, log[committed..next + 1])
  }

  ghost predicate Guarded(r: Reducer, w: World, a: Action) {
    && (a.Save? && a.durable && w.process.Idle? && w.committed <= w.process.next < |w.log| ==>
          SaveGuard(r, w.log, w.committed, w.process.memory, w.process.next))
    && (a.Ack? && a.durable && (w.process.Idle? || w.process.InMemory?) && w.committed <= w.process.next < |w.log| ==>
          AckGuard(r, w.log, w.committed, Latest(w), w.process.next))
  }

  ghost predicate AllGuarded(r: Reducer, w: World, actions: seq<Action>)
    decreases |actions|
  {
    |actions| == 0 ||
    var front := actions[..|actions| - 1];
    && AllGuarded(r, w, front)
    && (Run(r, w, front).Some? ==> Guarded(r, Run(r, w, front).value, actions[|actions| - 1]))
  }

  /** A canonical state no newer than the latest stored one. */
  ghost predicate NoNewer(r: Reducer, w: World, s: Snapshot) {
    IsPrefixState(r, w.log, s) && s.revision <= Latest(w).revision
  }

  /** Crash-safe, with what the process carries no newer than what is stored and nowhere behind the commit. */
  ghost predicate Coherent(r: Reducer, w: World) {
    && CrashSafe(r, w) && w.loader <= |w.saved|
    && match w.process
       case Down => true
       case Loading(_, best) => NoNewer(r, w, best)
       case Loaded(best) => NoNewer(r, w, best)
       case Idle(memory, next) => NoNewer(r, w, memory) && w.committed <= next <= |w.log|
       case Saved(_, next, proposal) => NoNewer(r, w, proposal) && w.committed <= next < |w.log|
       case InMemory(memory, next) => NoNewer(r, w, memory) && w.committed <= next < |w.log|
       case Failed(_) => true
  }

  // ------------------------------------------------------------------ saving

  /** The event that turned one canonical state into the next. */
  lemma {:induction false} Predecessor(r: Reducer, log: seq<Event>, k: nat, before: Snapshot, after: Snapshot) returns (j: nat)
    requires k <= |log| && At(r, log, k) == Ok(after) && after.revision == before.revision + 1
    requires IsPrefixState(r, log, before)
    ensures j < k && At(r, log, j) == Ok(before) && r.Apply(before, log[j]) == Ok(Applied(after, true))
    decreases k
  {
    hide Reducer.Apply;
    assert At(r, log, 0) == Ok(EMPTY);
    if k == 0 {
      assert false;
    } else {
      ReachableEvolves(r, log, k - 1, k);
      AtStep(r, log, k - 1);
      var t := At(r, log, k - 1).value;
      ApplyAdvances(r, t, log[k - 1]);
      if r.Apply(t, log[k - 1]).value.changed {
        var m :| 0 <= m <= |log| && At(r, log, m) == Ok(before);
        RevisionIdentifiesState(r, log, m, k - 1);
        j := k - 1;
      } else {
        j := Predecessor(r, log, k - 1, before, after);
      }
    }
  }

  /** Revisions along one log do not decrease. */
  lemma RevisionsGrow(r: Reducer, log: seq<Event>, m: nat, n: nat)
    requires m <= n <= |log| && At(r, log, n).Ok?
    ensures At(r, log, m).Ok? && At(r, log, m).value.revision <= At(r, log, n).value.revision
  {
    ReachableEvolves(r, log, m, n);
  }

  /** Storing the next state keeps everything canonical and at the frontier iff the save is guarded. */
  lemma SaveSafeExactly(r: Reducer, log: seq<Event>, committed: nat, latest: Snapshot, memory: Snapshot, next: nat, after: Snapshot)
    requires committed <= next < |log| && AtOrOnePast(r, log, committed, latest)
    requires IsPrefixState(r, log, memory) && memory.revision <= latest.revision
    requires r.Apply(memory, log[next]) == Ok(Applied(after, true))
    ensures (IsPrefixState(r, log, after) && AtOrOnePast(r, log, committed, Better(latest, after)))
            <==> SaveGuard(r, log, committed, memory, next)
  {
    hide Reducer.Apply, At;
    ApplyAdvances(r, memory, log[next]);
    if SaveGuard(r, log, committed, memory, next) {
      GuardedSaveIsSafe(r, log, committed, latest, memory, next, after);
    }
    if IsPrefixState(r, log, after) && AtOrOnePast(r, log, committed, Better(latest, after)) {
      SafeSaveIsGuarded(r, log, committed, latest, memory, next, after);
    }
  }

  lemma GuardedSaveIsSafe(r: Reducer, log: seq<Event>, committed: nat, latest: Snapshot, memory: Snapshot, next: nat, after: Snapshot)
    requires committed <= next < |log| && AtOrOnePast(r, log, committed, latest)
    requires memory.revision <= latest.revision && after.revision == memory.revision + 1
    requires r.Apply(memory, log[next]) == Ok(Applied(after, true)) && SaveGuard(r, log, committed, memory, next)
    ensures IsPrefixState(r, log, after) && AtOrOnePast(r, log, committed, Better(latest, after))
  {
    hide Reducer.Apply, At;
    var j :| 0 <= j <= committed && At(r, log, j) == Ok(memory) && r.Apply(memory, log[j]) == r.Apply(memory, log[next]);
    AtStep(r, log, j);
    assert At(r, log, j + 1) == Ok(after);
    if after.revision > latest.revision && j < committed {
      if At(r, log, committed) == Ok(latest) {
        RevisionsGrow(r, log, j + 1, committed);
      } else {
        RevisionsGrow(r, log, j + 1, committed + 1);
      }
      assert false;
    }
  }

  lemma SafeSaveIsGuarded(r: Reducer, log: seq<Event>, committed: nat, latest: Snapshot, memory: Snapshot, next: nat, after: Snapshot)
    requires committed <= next < |log| && AtOrOnePast(r, log, committed, latest)
    requires IsPrefixState(r, log, memory) && memory.revision <= latest.revision && after.revision == memory.revision + 1
    requires r.Apply(memory, log[next]) == Ok(Applied(after, true))
    requires IsPrefixState(r, log, after) && AtOrOnePast(r, log, committed, Better(latest, after))
    ensures SaveGuard(r, log, committed, memory, next)
  {
    hide Reducer.Apply, At;
    var k :| 0 <= k <= |log| && At(r, log, k) == Ok(after);
    var j := Predecessor(r, log, k, memory, after);
    if committed < j {
      RevisionsGrow(r, log, committed + 1, j);
      RevisionsGrow(r, log, committed, committed + 1);
      assert false;
    }
  }

  // ------------------------------------------------------------------ acknowledging

  /** Committing past an event leaves the latest snapshot at the frontier iff the acknowledgement is guarded. */
  lemma AckSafeExactly(r: Reducer, log: seq<Event>, committed: nat, latest: Snapshot, next: nat)
    requires committed <= next < |log| && AtOrOnePast(r, log, committed, latest)
    ensures AtOrOnePast(r, log, next + 1, latest) <==> AckGuard(r, log, committed, latest, next)
    ensures AckGuard(r, log, committed, latest, next) ==> At(r, log, next + 1) == Ok(latest)
  {
    hide Reducer.Apply, At, Fold, Reducer.NoOp;
    var passed := log[committed..next + 1];
    FoldFromFrontier(r, log, committed, next + 1, latest);
    ReplayIsSilentExactly(r, latest, passed);
    if AtOrOnePast(r, log, next + 1, latest) && At(r, log, next + 1) != Ok(latest) {
      RevisionsGrow(r, log, next + 1, next + 2);
      FoldKeeps(r, latest, passed);
      assert false;
    }
  }

  // ------------------------------------------------------------------ steps

  lemma AppendStaysCoherent(r: Reducer, w: World, e: Event)
    requires Coherent(r, w)
    ensures Coherent(r, w.(log := w.log + [e]))
  {
    hide Reducer.Apply, At, Fold;
    var longer := w.log + [e];
    forall k | 0 <= k <= |w.log| ensures At(r, longer, k) == At(r, w.log, k) {
      AtGrows(r, w.log, longer, k);
    }
    forall s | IsPrefixState(r, w.log, s) ensures IsPrefixState(r, longer, s) {
      PrefixStatesGrow(r, w.log, longer, s);
    }
  }

  /** Reading another stored snapshot gives one that is stored, or what was there before. */
  lemma LoadStaysCoherent(r: Reducer, w: World)
    requires Coherent(r, w) && Step(r, w, LoadRecord).Some?
    ensures Coherent(r, Step(r, w, LoadRecord).value)
  {
    hide Reducer.Apply, At, Greatest, IsPrefixState;
    GreatestIsMaximal(EMPTY, w.saved);
    assert IsPrefixState(r, w.log, w.saved[w.loader]);
  }

  lemma PublishStaysCoherent(r: Reducer, w: World, durable: bool, confirmed: bool)
    requires Coherent(r, w) && Step(r, w, Publish(durable, confirmed)).Some?
    ensures Coherent(r, Step(r, w, Publish(durable, confirmed)).value)
  {
    hide Reducer.Apply, At, Greatest, IsPrefixState;
    GreatestSnoc(EMPTY, w.saved, w.process.best);
    StoredStaysPrefixStates(r, w.log, w.saved, w.process.best);
  }

  /** A durable save is safe iff it is guarded; one that did not take effect always is. */
  lemma SaveStepExactly(r: Reducer, w: World, durable: bool, confirmed: bool)
    requires Coherent(r, w) && Step(r, w, Save(durable, confirmed)).Some?
    ensures var after := Step(r, w, Save(durable, confirmed)).value;
            && (CrashSafe(r, after) <==> Guarded(r, w, Save(durable, confirmed)))
            && (CrashSafe(r, after) ==> Coherent(r, after))
  {
    hide Reducer.Apply, At, Greatest, IsPrefixState;
    var m, n := w.process.memory, w.process.next;
    var s := r.Apply(m, w.log[n]).value.next;
    SaveSafeExactly(r, w.log, w.committed, Latest(w), m, n, s);
    GreatestSnoc(EMPTY, w.saved, s);
    hide SaveGuard;
    if durable {
      var longer := w.saved + [s];
      if AllPrefixStates(r, w.log, longer) {
        assert longer[|w.saved|] == s;
      }
      if IsPrefixState(r, w.log, s) {
        StoredStaysPrefixStates(r, w.log, w.saved, s);
      }
    }
  }

  /** A durable acknowledgement is safe iff it is guarded; one that did not take effect always is. */
  lemma AckStepExactly(r: Reducer, w: World, durable: bool, confirmed: bool)
    requires Coherent(r, w) && Step(r, w, Ack(durable, confirmed)).Some?
    ensures var after := Step(r, w, Ack(durable, confirmed)).value;
            && (CrashSafe(r, after) <==> Guarded(r, w, Ack(durable, confirmed)))
            && (CrashSafe(r, after) ==> Coherent(r, after))
  {
    hide Reducer.Apply, At, Greatest, IsPrefixState, AllPrefixStates, AckGuard;
    AckSafeExactly(r, w.log, w.committed, Latest(w), w.process.next);
  }

  lemma OtherStepsStayCoherent(r: Reducer, w: World, a: Action)
    requires Coherent(r, w) && Step(r, w, a).Some?
    requires !a.Append? && !a.LoadRecord? && !a.Publish? && !a.Save? && !a.Ack?
    ensures Coherent(r, Step(r, w, a).value)
  {
    hide Reducer.Apply, Greatest, AllPrefixStates;
    assert At(r, w.log, 0) == Ok(EMPTY);
    assert IsPrefixState(r, w.log, EMPTY);
    hide At, IsPrefixState;
  }

  /** From a coherent world, whatever the process, the store or a crash does next is safe iff it is guarded. */
  lemma StepSafeExactly(r: Reducer, w: World, a: Action)
    requires Coherent(r, w) && Step(r, w, a).Some?
    ensures var after := Step(r, w, a).value;
            && (CrashSafe(r, after) <==> Guarded(r, w, a))
            && (CrashSafe(r, after) ==> Coherent(r, after))
  {
    hide CrashSafe, NoNewer;
    if a.Save? {
      SaveStepExactly(r, w, a.durable, a.confirmed);
    } else if a.Ack? {
      AckStepExactly(r, w, a.durable, a.confirmed);
    } else {
      if a.Append? {
        AppendStaysCoherent(r, w, a.event);
      } else if a.LoadRecord? {
        LoadStaysCoherent(r, w);
      } else if a.Publish? {
        PublishStaysCoherent(r, w, a.durable, a.confirmed);
      } else {
        OtherStepsStayCoherent(r, w, a);
      }
      CoherentIsSafe(r, Step(r, w, a).value);
    }
  }

  lemma CoherentIsSafe(r: Reducer, w: World)
    requires Coherent(r, w)
    ensures CrashSafe(r, w)
  {
  }

  // ------------------------------------------------------------------ runs

  /** Crash-safe after each of the actions. */
  ghost predicate SafeThroughout(r: Reducer, w: World, actions: seq<Action>)
    decreases |actions|
  {
    && (|actions| > 0 ==> SafeThroughout(r, w, actions[..|actions| - 1]))
    && (Run(r, w, actions).Some? ==> CrashSafe(r, Run(r, w, actions).value))
  }

  /** From a coherent world, a run is crash-safe at every point iff every step of it is guarded. */
  lemma {:induction false} RunSafeExactly(r: Reducer, w: World, actions: seq<Action>)
    requires Coherent(r, w) && Run(r, w, actions).Some?
    ensures SafeThroughout(r, w, actions) <==> AllGuarded(r, w, actions)
    ensures AllGuarded(r, w, actions) ==> Coherent(r, Run(r, w, actions).value)
    decreases |actions|
  {
    hide Step, Coherent, CrashSafe, Guarded;
    if actions == [] {
      CoherentIsSafe(r, w);
    } else {
      var front := actions[..|actions| - 1];
      RunSafeExactly(r, w, front);
      if AllGuarded(r, w, front) {
        StepSafeExactly(r, Run(r, w, front).value, actions[|actions| - 1]);
      }
    }
  }

  lemma InitialIsCoherent(r: Reducer)
    ensures Coherent(r, INITIAL)
  {
    assert At(r, [], 0) == Ok(EMPTY);
  }

  /**
   Crash safety of every run from the beginning: it holds at every point, and each effective
   event is counted once, iff every durable save and acknowledgement on the way is guarded.
   */
  lemma CrashSafetyExactly(r: Reducer, actions: seq<Action>)
    requires Run(r, INITIAL, actions).Some?
    ensures SafeThroughout(r, INITIAL, actions) <==> AllGuarded(r, INITIAL, actions)
    ensures SafeThroughout(r, INITIAL, actions) ==>
              CrashSafe(r, Run(r, INITIAL, actions).value) && CountsOnce(r, Run(r, INITIAL, actions).value)
  {
    hide Run, Step, Coherent, CountsOnce, AllGuarded;
    InitialIsCoherent(r);
    RunSafeExactly(r, INITIAL, actions);
    if SafeThroughout(r, INITIAL, actions) {
      SafeCountsOnce(r, Run(r, INITIAL, actions).value);
    }
  }

  /** Tidy runs are safe throughout, so all their saves and acknowledgements are guarded. */
  lemma {:induction false} TidyIsGuarded(r: Reducer, actions: seq<Action>)
    requires Run(r, INITIAL, actions).Some? && Tidy(r, INITIAL, actions)
    ensures SafeThroughout(r, INITIAL, actions) && AllGuarded(r, INITIAL, actions)
    decreases |actions|
  {
    hide Step, CrashSafe, CountsOnce, Guarded;
    CrashSafety(r, actions);
    if actions != [] {
      TidyIsGuarded(r, actions[..|actions| - 1]);
    }
    CrashSafetyExactly(r, actions);
  }

  // ------------------------------------------------------------------ after dropped records

  lemma InvIsCoherent(r: Reducer, w: World)
    requires Inv(r, w)
    ensures Coherent(r, w)
  {
    hide Reducer.Apply, At, Greatest, Ascending;
    LatestIsPrefixState(r, w);
    GreatestIsMaximal(EMPTY, w.saved);
    if w.process.Loading? {
      var read := w.saved[w.process.start..w.loader];
      GreatestIsMaximal(EMPTY, read);
      EmptyIsPrefixState(r, w.log);
      assert forall i :: 0 <= i < |read| ==> read[i] == w.saved[w.process.start + i];
    }
    if w.process.Saved? {
      assert IsPrefixState(r, w.log, w.process.memory);
    }
  }

  lemma EmptyIsPrefixState(r: Reducer, log: seq<Event>)
    ensures IsPrefixState(r, log, EMPTY)
  {
    assert At(r, log, 0) == Ok(EMPTY);
  }

  /** With the latest state in memory, a save is guarded iff the first uncommitted event makes the same change. */
  lemma SaveGuardAtLatest(r: Reducer, log: seq<Event>, committed: nat, latest: Snapshot, next: nat)
    requires committed <= next < |log| && AtOrOnePast(r, log, committed, latest)
    requires r.Apply(latest, log[next]).Ok? && r.Apply(latest, log[next]).value.changed
    ensures SaveGuard(r, log, committed, latest, next) <==> r.Apply(latest, log[committed]) == r.Apply(latest, log[next])
  {
    hide Reducer.Apply, At;
    if SaveGuard(r, log, committed, latest, next) {
      var j :| 0 <= j <= committed && At(r, log, j) == Ok(latest) && r.Apply(latest, log[j]) == r.Apply(latest, log[next]);
      if j < committed {
        AtStep(r, log, j);
        ApplyAdvances(r, latest, log[j]);
        if At(r, log, committed) == Ok(latest) {
          RevisionsGrow(r, log, j + 1, committed);
        } else {
          RevisionsGrow(r, log, j + 1, committed + 1);
        }
        assert false;
      }
    }
    if r.Apply(latest, log[committed]) == r.Apply(latest, log[next]) && At(r, log, committed) != Ok(latest) {
      AtStep(r, log, committed);
      ApplyIsIdempotent(r, At(r, log, committed).value, log[committed]);
      assert false;
    }
  }

  /** The world after a receive error under an expired context that took `dropped` records. */
  function Skipped(w: World, dropped: nat): World
    requires w.process.Idle?
  {
    w.(process := Idle(w.process.memory, w.process.next + dropped))
  }

  lemma SkippedIsCoherent(r: Reducer, w: World, dropped: nat)
    requires Inv(r, w) && w.process.Idle? && w.process.next + dropped <= |w.log|
    ensures Step(r, w, ReceiveError(true, dropped)) == Some(Skipped(w, dropped)) && Coherent(r, Skipped(w, dropped))
    ensures w.process.next == w.committed && w.process.memory == Latest(w) && AtOrOnePast(r, w.log, w.committed, Latest(w))
  {
    hide Reducer.Apply, At, Greatest, IsPrefixState, AllPrefixStates, Ascending;
    InvIsCoherent(r, w);
    OtherStepsStayCoherent(r, w, ReceiveError(true, dropped));
  }

  /**
   Going on after dropped records, the next event being effective: storing its result is safe
   iff the first dropped event makes the very same change; so never if the dropped events
   were all no-ops.
   */
  lemma DropThenSaveExactly(r: Reducer, w: World, dropped: nat, confirmed: bool, stored: World)
    requires Inv(r, w) && w.process.Idle? && 0 < dropped && w.process.next + dropped < |w.log|
    requires Step(r, Skipped(w, dropped), Save(true, confirmed)) == Some(stored)
    ensures var n, q, m := w.process.next, w.process.next + dropped, w.process.memory;
            && (CrashSafe(r, stored) <==> r.Apply(m, w.log[n]) == r.Apply(m, w.log[q]))
            && (AllNoOps(r, m, w.log[n..q]) ==> !CrashSafe(r, stored))
  {
    hide Reducer.Apply, At, Inv, Coherent, CrashSafe, SaveGuard;
    var n, q, m := w.process.next, w.process.next + dropped, w.process.memory;
    SkippedIsCoherent(r, w, dropped);
    SaveStepExactly(r, Skipped(w, dropped), true, confirmed);
    SaveGuardAtLatest(r, w.log, n, m, q);
    if AllNoOps(r, m, w.log[n..q]) {
      assert r.NoOp(m, w.log[n..q][0]);
    }
  }

  /**
   The next event being a no-op: acknowledging it is safe iff the dropped events were all
   no-ops, and then it is as if nothing had happened.
   */
  lemma DropThenNoOpExactly(r: Reducer, w: World, dropped: nat, confirmed: bool, acked: World)
    requires Inv(r, w) && w.process.Idle? && 0 < dropped && w.process.next + dropped < |w.log|
    requires Step(r, Skipped(w, dropped), Ack(true, confirmed)) == Some(acked)
    ensures CrashSafe(r, acked) <==> AllNoOps(r, w.process.memory, w.log[w.process.next..w.process.next + dropped])
    ensures CrashSafe(r, acked) ==> Inv(r, acked)
  {
    hide Reducer.Apply, Reducer.NoOp, At, CrashSafe, Coherent, Inv, AllNoOps, Greatest;
    var n, q, m := w.process.next, w.process.next + dropped, w.process.memory;
    SkippedIsCoherent(r, w, dropped);
    AckStepExactly(r, Skipped(w, dropped), true, confirmed);
    assert w.log[n..q + 1] == w.log[n..q] + [w.log[q]];
    OneMoreNoOp(r, m, w.log[n..q], w.log[q]);
    if CrashSafe(r, acked) {
      AckSafeExactly(r, w.log, n, m, q);
      MendedByAck(r, w, Skipped(w, dropped), q, confirmed);
    }
  }

  lemma OneMoreNoOp(r: Reducer, s: Snapshot, events: seq<Event>, e: Event)
    requires r.NoOp(s, e)
    ensures AllNoOps(r, s, events + [e]) <==> AllNoOps(r, s, events)
  {
    hide Reducer.NoOp;
    if AllNoOps(r, s, events + [e]) {
      forall i | 0 <= i < |events| ensures r.NoOp(s, events[i]) {
        assert events[i] == (events + [e])[i];
      }
    }
  }

  lemma MendedByAck(r: Reducer, w: World, after: World, q: nat, confirmed: bool)
    requires Inv(r, w) && w.process.Idle? && q < |w.log| && after == w.(process := Idle(Latest(w), q))
    requires r.NoOp(Latest(w), w.log[q]) && At(r, w.log, q + 1) == Ok(Latest(w))
    ensures Step(r, after, Ack(true, confirmed)).Some? && Inv(r, Step(r, after, Ack(true, confirmed)).value)
  {
    hide Reducer.Apply, At, Greatest, AllPrefixStates, Ascending;
    LatestIsPrefixState(r, w);
  }

  /**
   Once the same change is stored safely, acknowledging it is safe iff the dropped events are
   no-ops on the stored state, and then it is as if nothing had happened.
   */
  lemma DropThenAckExactly(r: Reducer, w: World, dropped: nat, stored: World, confirmed: bool, acked: World)
    requires Inv(r, w) && w.process.Idle? && 0 < dropped && w.process.next + dropped < |w.log|
    requires Step(r, Skipped(w, dropped), Save(true, true)) == Some(stored) && CrashSafe(r, stored)
    requires Run(r, stored, [Install, Ack(true, confirmed)]) == Some(acked)
    ensures CrashSafe(r, acked) <==> AllNoOps(r, Latest(stored), w.log[w.process.next..w.process.next + dropped])
    ensures CrashSafe(r, acked) ==> Inv(r, acked)
  {
    hide Reducer.Apply, At, CrashSafe, Coherent, Inv, AllNoOps, Greatest, Run;
    var n, q, m := w.process.next, w.process.next + dropped, w.process.memory;
    SkippedIsCoherent(r, w, dropped);
    SaveStepExactly(r, Skipped(w, dropped), true, true);
    var s := r.Apply(m, w.log[q]).value.next;
    var held := stored.(process := InMemory(s, q));
    InstallThenAck(r, stored, confirmed);
    OtherStepsStayCoherent(r, stored, Install);
    AckStepExactly(r, held, true, confirmed);
    GreatestSnoc(EMPTY, w.saved, s);
    ApplyAdvances(r, m, w.log[q]);
    ApplyIsIdempotent(r, m, w.log[q]);
    assert w.log[n..q + 1] == w.log[n..q] + [w.log[q]];
    OneMoreNoOp(r, s, w.log[n..q], w.log[q]);
    if CrashSafe(r, acked) {
      FrontierOf(r, held);
      AckSafeExactly(r, w.log, n, s, q);
      MendedBySave(r, w, s, q, acked);
    }
  }

  lemma InstallThenAck(r: Reducer, stored: World, confirmed: bool)
    requires stored.process.Saved?
    ensures Step(r, stored, Install) == Some(stored.(process := InMemory(stored.process.proposal, stored.process.next)))
    ensures Run(r, stored, [Install, Ack(true, confirmed)]) ==
            Step(r, stored.(process := InMemory(stored.process.proposal, stored.process.next)), Ack(true, confirmed))
  {
    RunSnoc(r, stored, [], Install);
    RunSnoc(r, stored, [Install], Ack(true, confirmed));
    assert [] + [Install] == [Install] && [Install] + [Ack(true, confirmed)] == [Install, Ack(true, confirmed)];
  }

  lemma FrontierOf(r: Reducer, w: World)
    requires Coherent(r, w)
    ensures w.committed <= |w.log| && AtOrOnePast(r, w.log, w.committed, Latest(w))
  {
  }

  lemma MendedBySave(r: Reducer, w: World, s: Snapshot, q: nat, acked: World)
    requires Inv(r, w) && w.process.Idle? && q < |w.log| && Latest(w).revision <= s.revision && At(r, w.log, q + 1) == Ok(s)
    requires acked.log == w.log && acked.loader == w.loader && acked.saved == w.saved + [s] && acked.committed == q + 1
    requires acked.process == Idle(s, q + 1) || acked.process == Failed(s)
    ensures Inv(r, acked)
  {
    hide Reducer.Apply, At, Greatest;
    assert IsPrefixState(r, w.log, s);
    AppendIsLatest(r, w.log, w.saved, s);
  }

  /** Otherwise a drop is as good as none: further drops add up, and a stop forgets them. */
  lemma DropsAddAndStopsForget(r: Reducer, w: World, one: nat, more: nat)
    requires Inv(r, w) && w.process.Idle? && w.process.next + one + more <= |w.log|
    ensures Step(r, Skipped(w, one), ReceiveError(true, more)) == Some(Skipped(w, one + more))
    ensures Step(r, Skipped(w, one), Crash) == Some(w.(process := Down)) && Inv(r, w.(process := Down))
    ensures Step(r, Skipped(w, one), ReceiveError(false, more)) == Some(w.(process := Failed(w.process.memory)))
    ensures Inv(r, w.(process := Failed(w.process.memory)))
  {
    hide Reducer.Apply, At, AllPrefixStates, Ascending;
    LatestIsPrefixState(r, w);
  }

  // ------------------------------------------------------------------ after the loader's window

  /** Every event the empty snapshot accepts changes it. */
  lemma EmptyHasNoNoOps(r: Reducer, e: Event)
    ensures r.Apply(EMPTY, e).Ok? ==> r.Apply(EMPTY, e).value.changed
  {
  }

  /** With the empty snapshot in memory, a save is guarded iff the log's first event makes the same change. */
  lemma SaveGuardAtEmpty(r: Reducer, log: seq<Event>, committed: nat, next: nat)
    requires committed <= next < |log|
    ensures SaveGuard(r, log, committed, EMPTY, next) <==> r.Apply(EMPTY, log[0]) == r.Apply(EMPTY, log[next])
  {
    hide Reducer.Apply;
    assert At(r, log, 0) == Ok(EMPTY);
    hide At;
    if SaveGuard(r, log, committed, EMPTY, next) {
      var j :| 0 <= j <= committed && At(r, log, j) == Ok(EMPTY) && r.Apply(EMPTY, log[j]) == r.Apply(EMPTY, log[next]);
      if j > 0 {
        RevisionsGrow(r, log, 1, j);
        AtStep(r, log, 0);
        EmptyHasNoNoOps(r, log[0]);
        ApplyAdvances(r, EMPTY, log[0]);
        assert false;
      }
    }
  }

  /** The process after a stop inside the loader's window and the start that follows it. */
  function BegunEmpty(w: World): World {
    w.(loader := 0, saved := w.saved + [EMPTY], process := Idle(EMPTY, w.committed))
  }

  lemma PublishedEmpty(r: Reducer, w: World, stop: Action)
    requires Inv(r, w) && InLoaderWindow(w)
    requires stop == Crash || stop == LoadAbort(false)
    ensures Run(r, w, [stop, Boot, LoadClose] + [Publish(true, true)]) == Some(BegunEmpty(w)) && Coherent(r, BegunEmpty(w))
    ensures Latest(BegunEmpty(w)) == Latest(w)
  {
    hide Reducer.Apply, At, Greatest, Run, IsPrefixState, AllPrefixStates, Ascending;
    StopThenLoad(r, w, stop);
    RunSnoc(r, w, [stop, Boot, LoadClose], Publish(true, true));
    InvIsCoherent(r, w);
    EmptyIsPrefixState(r, w.log);
    PublishStaysCoherent(r, w.(loader := 0, process := Loaded(EMPTY)), true, true);
    GreatestSnoc(EMPTY, w.saved, EMPTY);
  }

  /**
   What follows a stop inside the loader's window: the next start publishes the empty snapshot
   and goes on from it.  The event at the committed offset is then rejected, or stored; and
   storing its result is safe iff it makes the same change as the log's first event.
   */
  lemma WindowThenSaveExactly(r: Reducer, w: World, stop: Action, confirmed: bool, stored: World)
    requires Inv(r, w) && InLoaderWindow(w) && w.committed < |w.log|
    requires stop == Crash || stop == LoadAbort(false)
    requires Step(r, BegunEmpty(w), Save(true, confirmed)) == Some(stored)
    ensures Run(r, w, [stop, Boot, LoadClose] + [Publish(true, true)]) == Some(BegunEmpty(w))
    ensures CrashSafe(r, stored) <==> r.Apply(EMPTY, w.log[0]) == r.Apply(EMPTY, w.log[w.committed])
  {
    hide Reducer.Apply, At, Greatest, CrashSafe, Coherent, Inv, SaveGuard, Run;
    PublishedEmpty(r, w, stop);
    SaveStepExactly(r, BegunEmpty(w), true, confirmed);
    SaveGuardAtEmpty(r, w.log, w.committed, w.committed);
  }

  /** Once it is stored safely, acknowledging it is safe iff the event is a no-op on the latest stored state. */
  lemma WindowThenAckExactly(r: Reducer, w: World, stored: World, confirmed: bool, acked: World)
    requires Inv(r, w) && InLoaderWindow(w) && w.committed < |w.log|
    requires Step(r, BegunEmpty(w), Save(true, true)) == Some(stored) && CrashSafe(r, stored)
    requires Run(r, stored, [Install, Ack(true, confirmed)]) == Some(acked)
    ensures CrashSafe(r, acked) <==> r.NoOp(Latest(w), w.log[w.committed])
  {
    hide Reducer.Apply, At, Greatest, CrashSafe, Coherent, Inv, Run;
    var c := w.committed;
    var e := w.log[c];
    PublishedEmpty(r, w, Crash);
    SaveStepExactly(r, BegunEmpty(w), true, true);
    var s := r.Apply(EMPTY, e).value.next;
    InstallThenAck(r, stored, confirmed);
    OtherStepsStayCoherent(r, stored, Install);
    AckStepExactly(r, stored.(process := InMemory(s, c)), true, confirmed);
    ApplyAdvances(r, EMPTY, e);
    GreatestSnoc(EMPTY, w.saved + [EMPTY], s);
    assert w.log[c..c + 1] == [e];
    assert AllNoOps(r, Latest(w), [e]) <==> r.NoOp(Latest(w), [e][0]);
  }
}
