/**
 The consolidator as a step system: one log of events, one committed offset, one
 append-only snapshot destination, the durable progress of the snapshot loader, and a
 process that can crash between any two operations.  Lost responses are steps too: a
 write can take effect although the process saw an error.

 `CrashSafety` holds for every run of these steps that avoids two windows, `Tidy`.  Module
 `ConsolidatorSafety` says of every run, through the windows as well, exactly when it holds.
 */
module Consolidator {
  import opened Wrappers
  import opened State
  import opened ReducerLaws
  import opened EventLog
  import opened SnapshotStore
  import Replay

  datatype Process =
    | Down
    | Loading(start: nat, best: Snapshot)
    | Loaded(best: Snapshot)
    | Idle(memory: Snapshot, next: nat)
    | Saved(memory: Snapshot, next: nat, proposal: Snapshot)
    | InMemory(memory: Snapshot, next: nat)
    | Failed(memory: Snapshot)

  datatype World = World(
    log: seq<Event>,
    committed: nat,
    saved: seq<Snapshot>,
    loader: nat,
    process: Process)

  const INITIAL := World([], 0, [], 0, Down)

  datatype Action =
    | Append(event: Event)                        // any process adds an event to the log
    | Boot                                        // open the snapshot loader at its durable progress
    | LoadRecord                                  // read, compare and acknowledge one stored snapshot
    | LoadClose                                   // caught up: delete the loader's progress
    | LoadAbort(deleted: bool)                    // loading or deleting failed; Start returns an error
    | Publish(durable: bool, confirmed: bool)     // re-save the loaded snapshot, open events at committed
    | Save(durable: bool, confirmed: bool)        // store the snapshot produced by the next event
    | Install                                     // make it the served snapshot
    | Ack(durable: bool, confirmed: bool)         // commit the event
    | RejectEvent                                 // the next event cannot be reduced
    | ReceiveError(expired: bool, dropped: nat)   // a fetch error, possibly after taking records
    | Crash                                       // or an orderly stop

  function AfterSave(saved: seq<Snapshot>, s: Snapshot, durable: bool): seq<Snapshot> {
    if durable then saved + [s] else saved
  }

  /** The world after an action, or `None` where the program cannot take it. */
  function Step(r: Reducer, w: World, a: Action): Option<World> {
    match a
    case Append(e) =>
      if r.ValidEvent(e) then Some(w.(log := w.log + [e])) else None
    case Boot =>
      if w.process.Down? then Some(w.(process := Loading(w.loader, EMPTY))) else None
    case LoadRecord =>
      if w.process.Loading? && w.loader < |w.saved|
      then Some(w.(loader := w.loader + 1,
                   process := w.process.(best := Better(w.process.best, w.saved[w.loader]))))
      else None
    case LoadClose =>
      if w.process.Loading? && w.loader == |w.saved|
      then Some(w.(loader := 0, process := Loaded(w.process.best)))
      else None
    case LoadAbort(deleted) =>
      if w.process.Loading? then Some(w.(loader := if deleted then 0 else w.loader, process := Down)) else None
    case Publish(durable, confirmed) =>
      if w.process.Loaded? && (confirmed ==> durable)
      then Some(w.(saved := AfterSave(w.saved, w.process.best, durable),
                   process := if confirmed then Idle(w.process.best, w.committed) else Down))
      else None
    case Save(durable, confirmed) =>
      if w.process.Idle? && w.process.next < |w.log| && (confirmed ==> durable) then
        var result := r.Apply(w.process.memory, w.log[w.process.next]);
        if result.Ok? && result.value.changed
        then Some(w.(saved := AfterSave(w.saved, result.value.next, durable),
                     process := if confirmed then Saved(w.process.memory, w.process.next, result.value.next)
                                else Failed(w.process.memory)))
        else None
      else None
    case Install =>
      if w.process.Saved? then Some(w.(process := InMemory(w.process.proposal, w.process.next))) else None
    case Ack(durable, confirmed) =>
      if (confirmed ==> durable)
         && (w.process.InMemory?
             || (w.process.Idle? && w.process.next < |w.log|
                 && r.NoOp(w.process.memory, w.log[w.process.next])))
      then Some(w.(committed := if durable then w.process.next + 1 else w.committed,
                   process := if confirmed then Idle(w.process.memory, w.process.next + 1)
                              else Failed(w.process.memory)))
      else None
    case RejectEvent =>
      if w.process.Idle? && w.process.next < |w.log|
         && r.Apply(w.process.memory, w.log[w.process.next]).Err?
      then Some(w.(process := Failed(w.process.memory)))
      else None
    case ReceiveError(expired, dropped) =>
      if w.process.Idle? && w.process.next + dropped <= |w.log|
      then Some(w.(process := if expired then Idle(w.process.memory, w.process.next + dropped)
                              else Failed(w.process.memory)))
      else None
    case Crash => Some(w.(process := Down))
  }

  function Run(r: Reducer, w: World, actions: seq<Action>): Option<World>
    decreases |actions|
  {
    if |actions| == 0 then Some(w)
    else
      var before := Run(r, w, actions[..|actions| - 1]);
      if before.None? then None else Step(r, before.value, actions[|actions| - 1])
  }

  /** The loader has acknowledged every record, some record matters, and its progress still exists. */
  ghost predicate InLoaderWindow(w: World) {
    w.process.Loading? && w.loader == |w.saved| && Greatest(EMPTY, w.saved).revision > 0
  }

  /**
   The action stays out of the two windows: it does not stop the loader between its last
   acknowledgement and the deletion of its progress, and it does not continue after a
   receive error that took records.
   */
  ghost predicate TidyStep(w: World, a: Action) {
    && (a.Crash? || a == LoadAbort(false) ==> !InLoaderWindow(w))
    && (a.ReceiveError? && a.expired ==> a.dropped == 0)
  }

  ghost predicate Tidy(r: Reducer, w: World, actions: seq<Action>)
    decreases |actions|
  {
    |actions| == 0 ||
    var front := actions[..|actions| - 1];
    && Tidy(r, w, front)
    && (Run(r, w, front).Some? ==> TidyStep(Run(r, w, front).value, actions[|actions| - 1]))
  }

  /** `s` is the canonical state after some prefix of the log. */
  ghost predicate IsPrefixState(r: Reducer, log: seq<Event>, s: Snapshot) {
    exists k :: 0 <= k <= |log| && At(r, log, k) == Ok(s)
  }

  ghost predicate AllPrefixStates(r: Reducer, log: seq<Event>, saved: seq<Snapshot>) {
    forall i :: 0 <= i < |saved| ==> IsPrefixState(r, log, saved[i])
  }

  /** `s` is the canonical state at `n` or one event past it. */
  ghost predicate AtOrOnePast(r: Reducer, log: seq<Event>, n: nat, s: Snapshot)
    requires n <= |log|
  {
    At(r, log, n) == Ok(s) || (n < |log| && At(r, log, n + 1) == Ok(s))
  }

  function Latest(w: World): Snapshot {
    Greatest(EMPTY, w.saved)
  }

  /** What is on disk makes sense on its own, whatever the process is doing. */
  ghost predicate Durable(r: Reducer, w: World) {
    && w.committed <= |w.log|
    && w.loader <= |w.saved|
    && AllPrefixStates(r, w.log, w.saved)
    && Ascending(w.saved)
    && AtOrOnePast(r, w.log, w.committed, Latest(w))
  }

  ghost predicate ProcessInv(r: Reducer, w: World)
    requires w.loader <= |w.saved|
  {
    match w.process
    case Down => w.loader < |w.saved| || Latest(w).revision == 0
    case Loading(start, best) =>
      && start <= w.loader
      && (start < |w.saved| || Latest(w).revision == 0)
      && best == Greatest(EMPTY, w.saved[start..w.loader])
    case Loaded(best) => w.loader == 0 && best == Latest(w)
    case Idle(memory, next) => w.loader == 0 && next == w.committed && memory == Latest(w)
    case Saved(memory, next, proposal) =>
      && w.loader == 0 && next == w.committed < |w.log|
      && At(r, w.log, next) == Ok(memory)
      && At(r, w.log, next + 1) == Ok(proposal) && proposal == Latest(w)
    case InMemory(memory, next) =>
      && w.loader == 0 && next == w.committed < |w.log|
      && At(r, w.log, next + 1) == Ok(memory) && memory == Latest(w)
    case Failed(memory) => w.loader == 0 && IsPrefixState(r, w.log, memory)
  }

  ghost predicate Inv(r: Reducer, w: World) {
    Durable(r, w) && ProcessInv(r, w)
  }

  // ------------------------------------------------------------------ helpers

  lemma PrefixStatesGrow(r: Reducer, log: seq<Event>, longer: seq<Event>, s: Snapshot)
    requires log <= longer && IsPrefixState(r, log, s)
    ensures IsPrefixState(r, longer, s)
  {
    var k :| 0 <= k <= |log| && At(r, log, k) == Ok(s);
    AtGrows(r, log, longer, k);
  }

  lemma PrefixStatesAgree(r: Reducer, log: seq<Event>, saved: seq<Snapshot>)
    requires AllPrefixStates(r, log, saved)
    ensures OneStatePerRevision(EMPTY, saved)
    ensures forall i :: 0 <= i < |saved| && saved[i].revision == 0 ==> saved[i] == EMPTY
  {
    hide Reducer.Apply;
    forall i, j | 0 <= i < |saved| && 0 <= j < |saved| && saved[i].revision == saved[j].revision
      ensures saved[i] == saved[j]
    {
      var m :| 0 <= m <= |log| && At(r, log, m) == Ok(saved[i]);
      var n :| 0 <= n <= |log| && At(r, log, n) == Ok(saved[j]);
      RevisionIdentifiesState(r, log, m, n);
    }
    forall i | 0 <= i < |saved| && saved[i].revision == 0 ensures saved[i] == EMPTY {
      var m :| 0 <= m <= |log| && At(r, log, m) == Ok(saved[i]);
      assert At(r, log, 0) == Ok(EMPTY);
      RevisionIdentifiesState(r, log, m, 0);
    }
  }

  /** Publishing a state that is not behind the latest one makes it the latest one. */
  lemma AppendIsLatest(r: Reducer, log: seq<Event>, saved: seq<Snapshot>, s: Snapshot)
    requires AllPrefixStates(r, log, saved) && Ascending(saved)
    requires IsPrefixState(r, log, s) && Greatest(EMPTY, saved).revision <= s.revision
    ensures AllPrefixStates(r, log, saved + [s]) && Ascending(saved + [s])
    ensures Greatest(EMPTY, saved + [s]) == s
  {
    hide Reducer.Apply, At, Greatest, IsPrefixState;
    GreatestIsMaximal(EMPTY, saved);
    StoredStaysPrefixStates(r, log, saved, s);
    PrefixStatesAgree(r, log, saved + [s]);
    GreatestOfAscending(EMPTY, saved + [s]);
  }

  lemma StoredStaysPrefixStates(r: Reducer, log: seq<Event>, saved: seq<Snapshot>, s: Snapshot)
    requires AllPrefixStates(r, log, saved) && IsPrefixState(r, log, s)
    ensures AllPrefixStates(r, log, saved + [s])
  {
    hide IsPrefixState;
    var longer := saved + [s];
    forall i | 0 <= i < |longer| ensures IsPrefixState(r, log, longer[i]) {
      if i < |saved| { assert longer[i] == saved[i]; }
    }
  }

  lemma LatestIsPrefixState(r: Reducer, w: World)
    requires Durable(r, w)
    ensures IsPrefixState(r, w.log, Latest(w))
  {
  }

  /** The state one event past `n` already contains event `n`; the state at `n` may not. */
  lemma NextEventAtFrontier(r: Reducer, log: seq<Event>, n: nat, s: Snapshot)
    requires n < |log| && AtOrOnePast(r, log, n, s)
    ensures r.Apply(s, log[n]).Ok? ==> At(r, log, n + 1) == Ok(r.Apply(s, log[n]).value.next)
    ensures r.Apply(s, log[n]).Ok? && r.Apply(s, log[n]).value.changed ==> At(r, log, n) == Ok(s)
  {
    hide Reducer.Apply;
    AtStep(r, log, n);
    if At(r, log, n + 1) == Ok(s) {
      var before := At(r, log, n);
      assert before.Ok? && r.Apply(before.value, log[n]).Ok?;
      ApplyIsIdempotent(r, before.value, log[n]);
    }
  }

  // -------------------------------------------------------- each step keeps Inv

  lemma InitialInv(r: Reducer)
    ensures Inv(r, INITIAL)
  {
    assert At(r, [], 0) == Ok(EMPTY);
  }

  lemma AppendKeeps(r: Reducer, w: World, e: Event)
    requires Inv(r, w) && r.ValidEvent(e)
    ensures Inv(r, w.(log := w.log + [e]))
  {
    hide Reducer.Apply;
    var longer := w.log + [e];
    forall k | 0 <= k <= |w.log| ensures At(r, longer, k) == At(r, w.log, k) {
      AtGrows(r, w.log, longer, k);
    }
    forall i | 0 <= i < |w.saved| ensures IsPrefixState(r, longer, w.saved[i]) {
      PrefixStatesGrow(r, w.log, longer, w.saved[i]);
    }
    if w.process.Failed? { PrefixStatesGrow(r, w.log, longer, w.process.memory); }
  }

  lemma LoadRecordKeeps(r: Reducer, w: World)
    requires Inv(r, w) && w.process.Loading? && w.loader < |w.saved|
    ensures Inv(r, Step(r, w, LoadRecord).value)
  {
    hide Reducer.Apply;
    hide At, Greatest, Ascending, AllPrefixStates;
    var start := w.process.start;
    assert w.saved[start..w.loader + 1] == w.saved[start..w.loader] + [w.saved[w.loader]];
    GreatestSnoc(EMPTY, w.saved[start..w.loader], w.saved[w.loader]);
  }

  /** A caught-up loader holds the latest stored snapshot unless it started behind one that matters. */
  lemma LoadedIsLatest(r: Reducer, log: seq<Event>, saved: seq<Snapshot>, start: nat)
    requires AllPrefixStates(r, log, saved) && Ascending(saved) && start <= |saved|
    requires start < |saved| || Greatest(EMPTY, saved).revision == 0
    ensures Greatest(EMPTY, saved[start..|saved|]) == Greatest(EMPTY, saved)
  {
    hide Greatest, Ascending, AllPrefixStates, OneStatePerRevision;
    PrefixStatesAgree(r, log, saved);
    assert saved[start..|saved|] == saved[start..];
    LoadFromIsRightExactly(EMPTY, saved, start);
  }

  lemma LoadCloseKeeps(r: Reducer, w: World)
    requires Inv(r, w) && w.process.Loading? && w.loader == |w.saved|
    ensures Inv(r, Step(r, w, LoadClose).value)
  {
    hide Reducer.Apply;
    hide At, Greatest, Ascending, AllPrefixStates;
    LoadedIsLatest(r, w.log, w.saved, w.process.start);
  }

  lemma PublishKeeps(r: Reducer, w: World, durable: bool, confirmed: bool)
    requires Inv(r, w) && Step(r, w, Publish(durable, confirmed)).Some?
    ensures Inv(r, Step(r, w, Publish(durable, confirmed)).value)
  {
    hide Reducer.Apply;
    hide At, Greatest, Ascending, AllPrefixStates;
    LatestIsPrefixState(r, w);
    AppendIsLatest(r, w.log, w.saved, w.process.best);
    GreatestIsMaximal(EMPTY, w.saved);
  }

  lemma SaveKeeps(r: Reducer, w: World, durable: bool, confirmed: bool)
    requires Inv(r, w) && Step(r, w, Save(durable, confirmed)).Some?
    ensures Inv(r, Step(r, w, Save(durable, confirmed)).value)
  {
    hide Reducer.Apply;
    hide At, Greatest, Ascending;
    var n, m := w.process.next, w.process.memory;
    NextEventAtFrontier(r, w.log, n, m);
    ApplyAdvances(r, m, w.log[n]);
    var s := r.Apply(m, w.log[n]).value.next;
    assert IsPrefixState(r, w.log, s);
    LatestIsPrefixState(r, w);
    AppendIsLatest(r, w.log, w.saved, s);
  }

  lemma AckKeeps(r: Reducer, w: World, durable: bool, confirmed: bool)
    requires Inv(r, w) && Step(r, w, Ack(durable, confirmed)).Some?
    ensures Inv(r, Step(r, w, Ack(durable, confirmed)).value)
  {
    hide Reducer.Apply;
    hide At, Greatest, Ascending, AllPrefixStates;
    var n, m := w.process.next, w.process.memory;
    NextEventAtFrontier(r, w.log, n, m);
    LatestIsPrefixState(r, w);
  }

  /** Every tidy step keeps the invariant. */
  lemma StepKeepsInv(r: Reducer, w: World, a: Action)
    requires Inv(r, w) && Step(r, w, a).Some? && TidyStep(w, a)
    ensures Inv(r, Step(r, w, a).value)
  {
    hide Reducer.Apply;
    hide At;
    match a
    case Append(e) => AppendKeeps(r, w, e);
    case LoadRecord => LoadRecordKeeps(r, w);
    case LoadClose => LoadCloseKeeps(r, w);
    case Publish(d, c) => PublishKeeps(r, w, d, c);
    case Save(d, c) => SaveKeeps(r, w, d, c);
    case Ack(d, c) => AckKeeps(r, w, d, c);
    case _ => StopOrBootKeeps(r, w, a);
  }

  lemma StopOrBootKeeps(r: Reducer, w: World, a: Action)
    requires Inv(r, w) && Step(r, w, a).Some? && TidyStep(w, a)
    requires a.Boot? || a.LoadAbort? || a.Install? || a.RejectEvent? || a.ReceiveError? || a.Crash?
    ensures Inv(r, Step(r, w, a).value)
  {
    hide Reducer.Apply;
    hide At;
    hide Ascending, IsPrefixState;
    LatestIsPrefixState(r, w);
    GreatestIsMaximal(EMPTY, w.saved);
    if a.Boot? {
      assert w.saved[w.loader..w.loader] == [];
    }
  }

  lemma {:induction false} RunKeepsInv(r: Reducer, actions: seq<Action>)
    requires Run(r, INITIAL, actions).Some? && Tidy(r, INITIAL, actions)
    ensures Inv(r, Run(r, INITIAL, actions).value)
    decreases |actions|
  {
    hide Step, Inv, TidyStep;
    if actions == [] {
      InitialInv(r);
    } else {
      RunKeepsInv(r, actions[..|actions| - 1]);
      StepKeepsInv(r, Run(r, INITIAL, actions[..|actions| - 1]).value, actions[|actions| - 1]);
    }
  }

  /** Offsets stay inside what they index, in every run. */
  ghost predicate Bounded(w: World) {
    && w.committed <= |w.log|
    && w.loader <= |w.saved|
    && (w.process.Idle? ==> w.process.next <= |w.log|)
    && (w.process.Saved? || w.process.InMemory? ==> w.process.next < |w.log|)
  }

  lemma {:induction false} RunStaysBounded(r: Reducer, actions: seq<Action>)
    requires Run(r, INITIAL, actions).Some?
    ensures Bounded(Run(r, INITIAL, actions).value)
    decreases |actions|
  {
    hide Reducer.Apply;
    if actions != [] {
      RunStaysBounded(r, actions[..|actions| - 1]);
    }
  }

  /** What a running process serves. */
  predicate Serves(p: Process) {
    p.Idle? || p.Saved? || p.InMemory? || p.Failed?
  }

  /**
   The latest stored snapshot is the canonical state at the committed offset or one event
   past it, every stored snapshot is the canonical state of some prefix, and so is the
   snapshot in memory.
   */
  ghost predicate CrashSafe(r: Reducer, w: World) {
    && w.committed <= |w.log|
    && AllPrefixStates(r, w.log, w.saved)
    && AtOrOnePast(r, w.log, w.committed, Latest(w))
    && (Serves(w.process) ==> IsPrefixState(r, w.log, w.process.memory))
  }

  ghost predicate CountsOnce(r: Reducer, w: World)
    requires w.committed <= |w.log|
  {
    || Latest(w).revision == Effective(r, w.log, w.committed)
    || (w.committed < |w.log| && Latest(w).revision == Effective(r, w.log, w.committed + 1))
  }

  /**
   In every tidy run, with appends, saves, acknowledgements, lost responses and crashes
   between any two of them, the world is crash-safe and the stored revision counts each
   effective event once.
   */
  lemma CrashSafety(r: Reducer, actions: seq<Action>)
    requires Run(r, INITIAL, actions).Some? && Tidy(r, INITIAL, actions)
    ensures CrashSafe(r, Run(r, INITIAL, actions).value)
    ensures CountsOnce(r, Run(r, INITIAL, actions).value)
  {
    hide Reducer.Apply, Run, Step;
    RunKeepsInv(r, actions);
    var w := Run(r, INITIAL, actions).value;
    LatestIsPrefixState(r, w);
    SafeCountsOnce(r, w);
  }

  /** In a safe world the stored revision is the number of effective events at the committed offset or one past it. */
  lemma SafeCountsOnce(r: Reducer, w: World)
    requires CrashSafe(r, w)
    ensures CountsOnce(r, w)
  {
    hide Reducer.Apply;
    if At(r, w.log, w.committed) == Ok(Latest(w)) {
      RevisionCountsEffects(r, w.log, w.committed);
    } else {
      RevisionCountsEffects(r, w.log, w.committed + 1);
    }
  }

  // ------------------------------------------------------- the two windows

  lemma RunSnoc(r: Reducer, w: World, actions: seq<Action>, a: Action)
    requires Run(r, w, actions).Some?
    ensures Run(r, w, actions + [a]) == Step(r, Run(r, w, actions).value, a)
  {
    assert (actions + [a])[..|actions|] == actions;
  }

  /**
   Stopping inside the loader's window, by a crash or because deleting its progress
   failed, makes the next start load the empty snapshot; that is a canonical state at the
   frontier iff nothing committed so far had any effect.
   */
  lemma LoaderWindowLosesExactly(r: Reducer, w: World, stop: Action)
    requires Inv(r, w) && InLoaderWindow(w)
    requires stop == Crash || stop == LoadAbort(false)
    ensures var after := Run(r, w, [stop, Boot, LoadClose]);
            && after.Some? && after.value.process == Loaded(EMPTY)
            && after.value.log == w.log && after.value.committed == w.committed
            && (AtOrOnePast(r, w.log, w.committed, EMPTY) <==> Effective(r, w.log, w.committed) == 0)
  {
    hide Run, At, Effective, Greatest, AllPrefixStates;
    StopThenLoad(r, w, stop);
    EmptyAtFrontierExactly(r, w.log, w.committed, Latest(w));
  }

  /** A loader that starts behind the last stored snapshot reads nothing. */
  lemma StopThenLoad(r: Reducer, w: World, stop: Action)
    requires w.process.Loading? && w.loader == |w.saved|
    requires stop == Crash || stop == LoadAbort(false)
    ensures Run(r, w, [stop, Boot, LoadClose]) == Some(w.(loader := 0, process := Loaded(EMPTY)))
  {
    hide Reducer.Apply;
    var down := w.(process := Down);
    var loading := w.(process := Loading(w.loader, EMPTY));
    assert Step(r, w, stop) == Some(down) && Step(r, down, Boot) == Some(loading);
    assert Step(r, loading, LoadClose) == Some(w.(loader := 0, process := Loaded(EMPTY)));
    hide Step;
    RunSnoc(r, w, [], stop);
    RunSnoc(r, w, [stop], Boot);
    RunSnoc(r, w, [stop, Boot], LoadClose);
    assert [] + [stop] == [stop] && [stop] + [Boot] == [stop, Boot] && [stop, Boot] + [LoadClose] == [stop, Boot, LoadClose];
  }

  /** With a canonical state at the frontier, the empty snapshot is one too iff nothing before it had an effect. */
  lemma EmptyAtFrontierExactly(r: Reducer, log: seq<Event>, n: nat, s: Snapshot)
    requires n <= |log| && AtOrOnePast(r, log, n, s)
    ensures AtOrOnePast(r, log, n, EMPTY) <==> Effective(r, log, n) == 0
  {
    hide Reducer.Apply, Effective;
    if At(r, log, n) != Ok(s) {
      ReachableEvolves(r, log, n, n + 1);
    }
    RevisionCountsEffects(r, log, n);
    assert At(r, log, 0) == Ok(EMPTY);
    hide At;
    if At(r, log, n).value.revision == 0 {
      RevisionIdentifiesState(r, log, 0, n);
    } else if n < |log| && At(r, log, n + 1) == Ok(EMPTY) {
      ReachableEvolves(r, log, n, n + 1);
    }
  }

  /** The canonical state further on is the same whether folding starts at `n` or one event past it. */
  lemma FoldFromFrontier(r: Reducer, log: seq<Event>, n: nat, k: nat, s: Snapshot)
    requires n < k <= |log| && AtOrOnePast(r, log, n, s)
    ensures At(r, log, k) == Fold(r, s, log[n..k])
  {
    hide Reducer.Apply;
    if At(r, log, n) == Ok(s) {
      AtSplit(r, log, n, k);
    } else {
      AtStep(r, log, n);
      ApplyIsIdempotent(r, At(r, log, n).value, log[n]);
      AtSplit(r, log, n + 1, k);
      FoldSnoc(r, s, [], log[n]);
      FoldConcat(r, s, [log[n]], log[n + 1..k]);
      assert [] + [log[n]] == [log[n]] && log[n..k] == [log[n]] + log[n + 1..k];
    }
  }
}
