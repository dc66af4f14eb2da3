/**
 The consolidator service as the program runs it, over shared durable state.  Failures
 of the store, lost responses, batch sizes, watermarks and the appends of other processes
 are nondeterministic choices; a context is the number of polls it lasts.

 Every method records the steps it takes, and `Valid` says the record is a run of
 `Consolidator.Step` that ends in the service's own state.  So every intermediate state,
 and a crash in any of them, is covered by `Consolidator.CrashSafety`.
 */
module ConsolidatorService {
  import opened Wrappers
  import opened State
  import opened EventLog
  import opened SnapshotStore
  import opened Consolidator

  /** The event log, the consolidator's committed offset, the stored snapshots and the loader's progress. */
  class Store {
    var log: seq<Event>
    var committed: nat
    var saved: seq<Snapshot>
    var loader: nat

    constructor ()
      ensures log == [] && committed == 0 && saved == [] && loader == 0
    {
      log, committed, saved, loader := [], 0, [], 0;
    }
  }

  /** How a poll ends: at the end of the log read in the call, at the watermark its batch came with, or behind both. */
  datatype Exit = EndReached | FlagReached | Behind

  function ExitOf(next: nat, end: nat, taken: nat, watermark: Option<nat>): Exit {
    if next >= end then EndReached
    else if watermark.Some? && next + taken >= watermark.value then FlagReached
    else Behind
  }

  /** One poll: where it began, the end it read, how many events it took, and the watermark they came with. */
  datatype Poll = Poll(from: nat, end: nat, taken: nat, watermark: Option<nat>) {
    function Exit(): Exit {
      ExitOf(from, end, taken, watermark)
    }

    /** Where the poll leaves the service. */
    function Position(): nat {
      from + taken
    }

    /** Whether everything before `target` has been consumed, as far as the poll's own marks tell. */
    predicate Reaches(target: nat) {
      match Exit()
      case EndReached => target <= end
      case FlagReached => target <= watermark.value
      case Behind => false
    }
  }

  class Service {
    const store: Store
    const reducer: Reducer
    var snapshot: Snapshot
    var next: nat
    var initialized: bool
    var consumerActive: bool
    var validSnapshot: bool
    var caughtUp: bool
    ghost var process: Process
    ghost var trace: seq<Action>

    ghost function Now(): World
      reads this`process, store
    {
      World(store.log, store.committed, store.saved, store.loader, process)
    }

    ghost predicate Traced()
      reads this`process, this`trace, store
    {
      Run(reducer, INITIAL, trace) == Some(Now())
    }

    ghost predicate Valid()
      reads this, store
    {
      && Traced()
      && next <= |store.log|
      && (consumerActive ==> process == Idle(snapshot, next))
      && (!consumerActive ==> process.Down? || process.Failed?)
    }

    constructor (store: Store, reducer: Reducer)
      requires store.log == [] && store.committed == 0 && store.saved == [] && store.loader == 0
      ensures Valid() && this.store == store && this.reducer == reducer
      ensures !consumerActive && trace == [] && process == Down
    {
      this.store, this.reducer := store, reducer;
      snapshot, next := EMPTY, 0;
      initialized, consumerActive, validSnapshot, caughtUp := false, false, false, false;
      process, trace := Down, [];
    }

    /** A new process on a store with any recorded history, whatever the last process was doing when it crashed. */
    constructor Restarted(store: Store, reducer: Reducer, ghost history: seq<Action>, ghost last: Process)
      requires Run(reducer, INITIAL, history) == Some(World(store.log, store.committed, store.saved, store.loader, last))
      ensures Valid() && this.store == store && this.reducer == reducer
      ensures !consumerActive && process == Down && trace == history + [Consolidator.Crash]
    {
      hide Step, Run;
      this.store, this.reducer := store, reducer;
      snapshot, next := EMPTY, 0;
      initialized, consumerActive, validSnapshot, caughtUp := false, false, false, false;
      process, trace := Down, history + [Consolidator.Crash];
      new;
      CrashRecorded(reducer, history, World(store.log, store.committed, store.saved, store.loader, last));
    }

    /** The process stops, at any time, and a new one takes its place. */
    method Crash()
      requires Valid()
      modifies this
      ensures Valid() && process == Down && !consumerActive && trace == old(trace) + [Consolidator.Crash]
      ensures old(Tidy(reducer, INITIAL, trace)) ==> Tidy(reducer, INITIAL, trace)
    {
      hide Step, Run, Tidy, Bounded;
      CrashRecorded(reducer, trace, Now());
      if Tidy(reducer, INITIAL, trace) {
        CrashIsTidy(reducer, trace, Now());
      }
      Forget();
      process, trace := Down, trace + [Consolidator.Crash];
    }

    /** What a new process begins with. */
    method Forget()
      modifies this`snapshot, this`next, this`initialized, this`consumerActive, this`validSnapshot, this`caughtUp
      ensures next == 0 && !initialized && !consumerActive && !validSnapshot && !caughtUp
    {
      snapshot, next := EMPTY, 0;
      initialized, consumerActive, validSnapshot, caughtUp := false, false, false, false;
    }

    /** Records one step whose effect on the durable fields has just been carried out. */
    ghost method Record(before: World, a: Action, p: Process)
      requires Run(reducer, INITIAL, trace) == Some(before)
      requires Step(reducer, before, a) ==
               Some(World(store.log, store.committed, store.saved, store.loader, p))
      modifies this`process, this`trace
      ensures process == p && trace == old(trace) + [a]
      ensures Traced()
    {
      hide Step;
      RunSnoc(reducer, INITIAL, trace, a);
      process, trace := p, trace + [a];
    }

    /** Other processes append any number of valid events. */
    method Interfere()
      requires Traced()
      modifies store`log, this`trace
      ensures Traced()
      ensures old(store.log) <= store.log && old(trace) <= trace
    {
      var budget: nat := *;
      while budget > 0
        invariant Traced() && old(store.log) <= store.log && old(trace) <= trace
        invariant process == old(process)
      {
        hide Reducer.Apply;
        var e: Event := *;
        if reducer.ValidEvent(e) {
          ghost var before := Now();
          store.log := store.log + [e];
          RunSnoc(reducer, INITIAL, trace, Append(e));
          trace := trace + [Append(e)];
        }
        budget := budget - 1;
      }
    }

    /** Other processes append while the service is at rest. */
    method Elapse()
      requires Valid()
      modifies store`log, this`trace
      ensures Valid() && consumerActive == old(consumerActive) && next == old(next)
      ensures old(store.log) <= store.log && old(trace) <= trace
    {
      hide Run, Step, Traced;
      Interfere();
    }

    lemma InBounds()
      requires Traced()
      ensures Bounded(Now())
    {
      hide Run, Step;
      RunStaysBounded(reducer, trace);
    }

    /** What an active service holds, after any tidy history: the canonical state at its position or one past. */
    lemma ServesCanonicalState()
      requires Valid() && consumerActive && Tidy(reducer, INITIAL, trace)
      ensures next == store.committed <= |store.log|
      ensures AtOrOnePast(reducer, store.log, next, snapshot)
    {
      hide Run, Step, At;
      RunKeepsInv(reducer, trace);
    }

    // ------------------------------------------------ single durable operations

    method OpenLoader()
      requires Traced() && process.Down?
      modifies this`process, this`trace
      ensures Traced() && process == Loading(store.loader, EMPTY) && old(trace) <= trace
    {
      hide Reducer.Apply, Run;
      Record(Now(), Boot, Loading(store.loader, EMPTY));
    }

    method AcknowledgeStored(best: Snapshot)
      requires Traced() && process.Loading? && store.loader < |store.saved|
      requires best == Better(process.best, store.saved[store.loader])
      modifies store`loader, this`process, this`trace
      ensures Traced() && process == old(process).(best := best) && store.loader == old(store.loader) + 1
      ensures old(trace) <= trace
    {
      hide Reducer.Apply, Run;
      ghost var before := Now();
      store.loader := store.loader + 1;
      Record(before, LoadRecord, process.(best := best));
    }

    /** The permanent close of the loader once it has caught up. */
    method DeleteLoader()
      requires Traced() && process.Loading? && store.loader == |store.saved|
      modifies store`loader, this`process, this`trace
      ensures Traced() && process == Loaded(old(process).best) && store.loader == 0 && old(trace) <= trace
    {
      hide Reducer.Apply, Run;
      ghost var before := Now();
      store.loader := 0;
      Record(before, LoadClose, Loaded(process.best));
    }

    /** The permanent close on an error path; it may itself fail to delete the progress. */
    method AbortLoad()
      requires Traced() && process.Loading?
      modifies store`loader, this`process, this`trace
      ensures Traced() && process == Down && old(trace) <= trace
      ensures store.loader == 0 || store.loader == old(store.loader)
    {
      hide Reducer.Apply, Run;
      ghost var before := Now();
      var deleted: bool := *;
      if deleted {
        store.loader := 0;
      }
      Record(before, LoadAbort(deleted), Down);
    }

    /** Stores a snapshot; the write can take effect without being confirmed. */
    method Send(s: Snapshot) returns (durable: bool, confirmed: bool)
      modifies store`saved
      ensures confirmed ==> durable
      ensures store.saved == AfterSave(old(store.saved), s, durable)
    {
      durable := *;
      confirmed := *;
      confirmed := confirmed && durable;
      if durable {
        store.saved := store.saved + [s];
      }
    }

    method PublishLoaded(s: Snapshot) returns (confirmed: bool)
      requires Traced() && process == Loaded(s)
      modifies store`saved, this`process, this`trace
      ensures Traced() && old(trace) <= trace
      ensures process == if confirmed then Idle(s, store.committed) else Down
      ensures confirmed ==> store.saved == old(store.saved) + [s]
    {
      hide Reducer.Apply, Run;
      ghost var before := Now();
      var durable: bool;
      durable, confirmed := Send(s);
      Record(before, Publish(durable, confirmed), if confirmed then Idle(s, store.committed) else Down);
    }

    /** `fail()` after a step that ends the consumer. */
    method Fail(ghost before: World, ghost a: Action, ghost memory: Snapshot)
      requires Run(reducer, INITIAL, trace) == Some(before)
      requires Step(reducer, before, a) ==
               Some(World(store.log, store.committed, store.saved, store.loader, Failed(memory)))
      modifies this`consumerActive, this`caughtUp, this`process, this`trace
      ensures Traced() && process == Failed(memory) && trace == old(trace) + [a]
      ensures !consumerActive && !caughtUp
    {
      hide Step;
      consumerActive, caughtUp := false, false;
      Record(before, a, Failed(memory));
    }

    method SaveChange(s: Snapshot) returns (confirmed: bool)
      requires Traced() && process == Idle(snapshot, next) && next < |store.log|
      requires reducer.Apply(snapshot, store.log[next]) == Ok(Applied(s, true))
      modifies store`saved, this`process, this`trace, this`consumerActive, this`caughtUp
      ensures Traced() && old(trace) <= trace
      ensures confirmed ==> process == Saved(snapshot, next, s) && store.saved == old(store.saved) + [s]
      ensures confirmed ==> consumerActive == old(consumerActive) && caughtUp == old(caughtUp)
      ensures !confirmed ==> process.Failed? && !consumerActive && !caughtUp
    {
      hide Reducer.Apply, Run;
      ghost var before := Now();
      var durable: bool;
      durable, confirmed := Send(s);
      if confirmed {
        Record(before, Save(true, true), Saved(snapshot, next, s));
      } else {
        Fail(before, Save(durable, false), snapshot);
      }
    }

    method InstallChange(s: Snapshot)
      requires Traced() && process == Saved(snapshot, next, s)
      modifies this`snapshot, this`validSnapshot, this`process, this`trace
      ensures Traced() && old(trace) <= trace && validSnapshot
      ensures process == InMemory(snapshot, next) && snapshot == s
    {
      hide Reducer.Apply, Run;
      snapshot, validSnapshot := s, true;
      Record(Now(), Install, InMemory(s, next));
    }

    /** Commits the event at `next`; the commit can take effect without being confirmed. */
    method Acknowledge() returns (confirmed: bool)
      requires Traced()
      requires || process == InMemory(snapshot, next)
               || (process == Idle(snapshot, next) && next < |store.log| && reducer.NoOp(snapshot, store.log[next]))
      modifies store`committed, this`next, this`process, this`trace, this`consumerActive, this`caughtUp
      ensures Traced() && old(trace) <= trace
      ensures confirmed ==> process == Idle(snapshot, next) && next == old(next) + 1 && store.committed == next
      ensures confirmed ==> consumerActive == old(consumerActive) && caughtUp == old(caughtUp)
      ensures !confirmed ==> process.Failed? && !consumerActive && !caughtUp && next == old(next)
    {
      hide Reducer.NoOp, Run;
      ghost var before := Now();
      var durable: bool := *;
      confirmed := *;
      confirmed := confirmed && durable;
      if durable {
        store.committed := next + 1;
      }
      if confirmed {
        Record(before, Ack(true, true), Idle(snapshot, next + 1));
        next := next + 1;
      } else {
        Fail(before, Ack(durable, false), snapshot);
      }
    }

    /** A poll that reports an error after taking `taken` records away from the client. */
    method LoseFetch(taken: nat, expired: bool)
      requires Valid() && consumerActive && next + taken <= |store.log|
      modifies this`next, this`process, this`trace, this`consumerActive, this`caughtUp
      ensures Valid() && old(trace) <= trace
      ensures consumerActive == expired && caughtUp == (expired && old(caughtUp))
    {
      hide Reducer.Apply, Run;
      if expired {
        Record(Now(), ReceiveError(true, taken), Idle(snapshot, next + taken));
        next := next + taken;
      } else {
        Fail(Now(), ReceiveError(false, taken), snapshot);
      }
    }

    // ------------------------------------------------------- the service itself

    /**
     Reads the snapshot destination from the loader's durable progress and keeps the
     greatest revision, acknowledging record by record, then deletes the progress.
     */
    method LoadSnapshot() returns (result: Option<Snapshot>)
      requires Traced() && process.Down?
      modifies store`loader, this`process, this`trace
      ensures Traced() && old(trace) <= trace
      ensures old(store.loader) <= |store.saved|
      ensures result.Some? ==>
                && process == Loaded(result.value) && store.loader == 0
                && result.value == Greatest(EMPTY, store.saved[old(store.loader)..])
      ensures result.None? ==> process == Down
    {
      hide Step, Run, Traced, Greatest;
      InBounds();
      var start := store.loader;
      NothingRead(store.saved, start);
      OpenLoader();
      var best := EMPTY;
      while store.loader < |store.saved|
        invariant Traced() && old(trace) <= trace
        invariant process == Loading(start, best)
        invariant start <= store.loader <= |store.saved|
        invariant best == Greatest(EMPTY, store.saved[start..store.loader])
        decreases |store.saved| - store.loader
      {
        var malformed: bool := *;
        if malformed {
          AbortLoad();
          return None;
        }
        var record := store.saved[store.loader];
        OneMoreRead(store.saved, start, store.loader);
        if record.revision > best.revision {
          best := record;
        }
        AcknowledgeStored(best);
        var confirmed: bool := *;
        if !confirmed {
          AbortLoad();
          return None;
        }
      }
      assert store.saved[start..store.loader] == store.saved[start..];
      var deletable: bool := *;
      if !deletable {
        AbortLoad();
        return None;
      }
      DeleteLoader();
      return Some(best);
    }

    /**
     Loads, publishes and opens, then polls until caught up or the context ends.  It succeeds
     exactly if it leaves the service ready.
     */
    method Start(patience: nat) returns (ok: bool)
      requires Valid() && process.Down?
      modifies this, store
      ensures Valid()
      ensures ok <==> initialized && consumerActive && validSnapshot && caughtUp
      ensures old(trace) <= trace && old(store.log) <= store.log
    {
      hide Valid;
      ok := Open();
      if !ok {
        return false;
      }
      var rounds := patience;
      while rounds > 0
        invariant Valid() && old(trace) <= trace && old(store.log) <= store.log
        invariant initialized && validSnapshot && consumerActive && !caughtUp
      {
        var polled, done, _ := Consume(100, rounds == 1);
        if !polled {
          return false;
        }
        if done {
          return true;
        }
        rounds := rounds - 1;
      }
      return false;
    }

    /** Loads the latest snapshot, publishes it again and opens the events at the committed offset. */
    method Open() returns (ok: bool)
      requires Valid() && process.Down?
      modifies this, store
      ensures Valid() && old(trace) <= trace && old(store.log) <= store.log
      ensures if ok then initialized && validSnapshot && consumerActive && !caughtUp else !consumerActive
    {
      hide Step, Run, Traced, Greatest, Bounded;
      Interfere();
      var loaded := LoadSnapshot();
      consumerActive := false;
      if loaded.None? {
        return false;
      }
      var published := PublishLoaded(loaded.value);
      if !published {
        return false;
      }
      CommitInBounds();
      snapshot, next := loaded.value, store.committed;
      initialized, consumerActive, validSnapshot, caughtUp := true, true, true, false;
      return true;
    }

    lemma CommitInBounds()
      requires Traced()
      ensures store.committed <= |store.log|
    {
      hide Run, Step;
      InBounds();
    }

    /**
     One poll: report caught up if the end read just now is reached, otherwise take a batch
     and reduce, save, install and acknowledge its events one at a time.  A poll that reports
     `done` stands at the end it read, or at the watermark its batch came with, which can be
     older; so it has consumed everything before some offset iff that end or watermark has.
     */
    method Consume(max: nat, expired: bool) returns (ok: bool, done: bool, ghost poll: Poll)
      requires Valid()
      modifies this, store
      ensures Valid()
      ensures ok ==> consumerActive && initialized == old(initialized)
      ensures ok && old(validSnapshot) ==> validSnapshot
      ensures ok ==> caughtUp == (done || old(caughtUp))
      ensures !ok && consumerActive ==> caughtUp == old(caughtUp)
      ensures ok ==> poll.from == old(next) && |old(store.log)| <= poll.end <= |store.log| && next == poll.Position()
      ensures ok ==> (done <==> !poll.Exit().Behind?)
      ensures ok && poll.Exit().EndReached? ==> next == poll.end
      ensures ok && poll.Exit().FlagReached? ==> poll.watermark == Some(next)
      ensures ok && done ==> forall target: nat :: target <= next <==> poll.Reaches(target)
      ensures ok ==> Fold(reducer, old(snapshot), store.log[old(next)..next]) == Ok(snapshot)
      ensures ok ==> store.committed == if next == old(next) then old(store.committed) else next
      ensures !ok ==> if consumerActive then expired && snapshot == old(snapshot) else !caughtUp || !old(consumerActive)
      ensures old(trace) <= trace && old(store.log) <= store.log
    {
      hide Step, Run, Traced, Fold;
      poll := Poll(next, 0, 0, None);
      if !consumerActive {
        return false, false, poll;
      }
      Interfere();
      var endUnknown: bool := *;
      if endUnknown {
        var lost: nat :| lost <= 1 && next + lost <= |store.log|;
        LoseFetch(lost, expired);
        return false, false, poll;
      }
      var end := |store.log|;
      poll := poll.(end := end);
      if next >= end {
        caughtUp := true;
        FoldNothing(reducer, snapshot, store.log, next);
        return true, true, poll;
      }
      Interfere();
      var taken: nat :| taken <= max && next + taken <= |store.log|;
      var fetchFailed: bool := *;
      if fetchFailed {
        LoseFetch(taken, expired);
        return false, false, poll;
      }
      var watermark := Watermark(taken);
      poll := poll.(taken := taken, watermark := watermark);
      done := watermark.Some? && next + taken >= watermark.value;
      var handled := HandleAll(taken);
      if !handled {
        return false, false, poll;
      }
      if done {
        caughtUp := true;
      }
      return true, done, poll;
    }

    /**
     The watermark a batch comes with: an end of the log, at some time, at or past the batch's
     own records.  Records that had been fetched by an earlier call come without one.
     */
    method Watermark(taken: nat) returns (watermark: Option<nat>)
      requires next + taken <= |store.log|
      ensures watermark.Some? ==> next + taken <= watermark.value <= |store.log|
    {
      var reported: bool := *;
      if !reported {
        return None;
      }
      var w: nat :| next + taken <= w <= |store.log|;
      return Some(w);
    }

    /** Handles the next events one at a time. */
    method HandleAll(taken: nat) returns (ok: bool)
      requires Valid() && consumerActive && next + taken <= |store.log|
      modifies this, store
      ensures Valid() && initialized == old(initialized) && store.log == old(store.log) && old(trace) <= trace
      ensures ok ==> consumerActive && next == old(next) + taken && caughtUp == old(caughtUp)
      ensures ok ==> Fold(reducer, old(snapshot), store.log[old(next)..next]) == Ok(snapshot)
      ensures ok ==> store.committed == if taken == 0 then old(store.committed) else next
      ensures !ok ==> !consumerActive && !caughtUp
      ensures old(validSnapshot) ==> validSnapshot
    {
      hide Valid, Reducer.Apply, Fold;
      FoldNothing(reducer, snapshot, store.log, next);
      var i := 0;
      while i < taken
        invariant 0 <= i <= taken
        invariant Valid() && consumerActive && initialized == old(initialized) && caughtUp == old(caughtUp)
        invariant old(validSnapshot) ==> validSnapshot
        invariant next == old(next) + i && store.log == old(store.log) && old(trace) <= trace
        invariant Fold(reducer, old(snapshot), store.log[old(next)..next]) == Ok(snapshot)
        invariant store.committed == if i == 0 then old(store.committed) else next
      {
        FoldOneMore(reducer, old(snapshot), store.log, old(next), next);
        var handled := Handle();
        if !handled {
          return false;
        }
        i := i + 1;
      }
      return true;
    }

    /** Reduce, save, install, acknowledge: one event. */
    method Handle() returns (ok: bool)
      requires Valid() && consumerActive && next < |store.log|
      modifies this, store
      ensures Valid() && initialized == old(initialized) && store.log == old(store.log)
      ensures ok ==>
                && consumerActive && next == old(next) + 1 && store.committed == next && caughtUp == old(caughtUp)
                && reducer.Apply(old(snapshot), store.log[old(next)]).Ok?
                && snapshot == reducer.Apply(old(snapshot), store.log[old(next)]).value.next
                && store.saved == (if reducer.Apply(old(snapshot), store.log[old(next)]).value.changed
                                   then old(store.saved) + [snapshot] else old(store.saved))
      ensures !ok ==> !consumerActive && !caughtUp
      ensures old(validSnapshot) ==> validSnapshot
      ensures old(trace) <= trace
    {
      hide Step, Run, Traced, Reducer.Apply;
      var result := reducer.Apply(snapshot, store.log[next]);
      if result.Err? {
        RejectNext();
        return false;
      }
      if result.value.changed {
        var saved := SaveChange(result.value.next);
        if !saved {
          return false;
        }
        InstallChange(result.value.next);
      } else {
        KeptIsNoOp(reducer, snapshot, store.log[next]);
        KeptIsSame(reducer, snapshot, store.log[next]);
      }
      ok := Acknowledge();
    }

    method RejectNext()
      requires Valid() && consumerActive && next < |store.log|
      requires reducer.Apply(snapshot, store.log[next]).Err?
      modifies this`consumerActive, this`caughtUp, this`process, this`trace
      ensures Valid() && !consumerActive && !caughtUp && old(trace) <= trace
    {
      hide Reducer.Apply, Run;
      Fail(Now(), RejectEvent, snapshot);
    }

    /**
     The barrier: polls until caught up.  It has consumed everything appended before the
     request iff its last poll read the end of the log, or the watermark that poll took for
     the end is not older than the request.
     */
    method Refresh(patience: nat) returns (ok: bool, ghost poll: Poll)
      requires Valid()
      modifies this, store
      ensures Valid()
      ensures ok ==> consumerActive && !poll.Exit().Behind? && next == poll.Position() && |old(store.log)| <= poll.end
      ensures ok ==> forall target: nat :: target <= next <==> poll.Reaches(target)
      ensures ok ==> (|old(store.log)| <= next <==>
                      poll.Exit().EndReached? || |old(store.log)| <= poll.watermark.value)
      ensures old(trace) <= trace && old(store.log) <= store.log
    {
      hide Step, Run, Traced;
      poll := Poll(0, 0, 0, None);
      var rounds := patience;
      while rounds > 0
        invariant Valid() && old(trace) <= trace && old(store.log) <= store.log
      {
        var polled, done;
        polled, done, poll := Consume(100, rounds == 1);
        if !polled {
          return false, poll;
        }
        if done {
          return true, poll;
        }
        rounds := rounds - 1;
      }
      return false, poll;
    }

    /**
     The consolidator over any number of process lives: starts, polls, barriers and crashes in
     any order.  Whatever came before, an active service after a tidy history holds the
     canonical state at its committed position or one past it.
     */
    method Serve(rounds: nat)
      requires Valid()
      modifies this, store
      ensures Valid() && old(trace) <= trace && old(store.log) <= store.log
      ensures consumerActive && Tidy(reducer, INITIAL, trace) ==>
                next == store.committed <= |store.log| && AtOrOnePast(reducer, store.log, next, snapshot)
    {
      hide Step, Run, Traced, At, Tidy;
      var n := rounds;
      while n > 0
        invariant Valid() && old(trace) <= trace && old(store.log) <= store.log
      {
        n := n - 1;
        var choice: nat, patience: nat := *, *;
        if choice == 0 {
          Crash();
          var started := Start(patience);
        } else if choice == 1 {
          var refreshed, _ := Refresh(patience);
        } else {
          var expired: bool := *;
          var polled, done, _ := Consume(patience, expired);
        }
      }
      if consumerActive && Tidy(reducer, INITIAL, trace) {
        ServesCanonicalState();
      }
    }

    predicate Ready()
      reads this
    {
      initialized && consumerActive && validSnapshot && caughtUp
    }
  }

  lemma FoldNothing(r: Reducer, s: Snapshot, log: seq<Event>, n: nat)
    requires n <= |log|
    ensures Fold(r, s, log[n..n]) == Ok(s)
  {
  }

  lemma FoldOneMore(r: Reducer, s: Snapshot, log: seq<Event>, from: nat, n: nat)
    requires from <= n < |log|
    ensures Fold(r, s, log[from..n + 1]) == Push(r, Fold(r, s, log[from..n]), log[n])
  {
    hide Reducer.Apply;
    assert log[from..n + 1] == log[from..n] + [log[n]];
    FoldSnoc(r, s, log[from..n], log[n]);
  }

  lemma NothingRead(saved: seq<Snapshot>, start: nat)
    requires start <= |saved|
    ensures Greatest(EMPTY, saved[start..start]) == EMPTY
  {
  }

  lemma OneMoreRead(saved: seq<Snapshot>, start: nat, at: nat)
    requires start <= at < |saved|
    ensures Greatest(EMPTY, saved[start..at + 1]) == Better(Greatest(EMPTY, saved[start..at]), saved[at])
  {
    assert saved[start..at + 1] == saved[start..at] + [saved[at]];
    GreatestSnoc(EMPTY, saved[start..at], saved[at]);
  }

  lemma CrashRecorded(r: Reducer, history: seq<Action>, w: World)
    requires Run(r, INITIAL, history) == Some(w)
    ensures Run(r, INITIAL, history + [Crash]) == Some(w.(process := Down))
    ensures Bounded(w)
  {
    RunSnoc(r, INITIAL, history, Crash);
    RunStaysBounded(r, history);
  }

  /** A crash outside the loader's window is tidy. */
  lemma CrashIsTidy(r: Reducer, history: seq<Action>, w: World)
    requires Run(r, INITIAL, history) == Some(w) && Tidy(r, INITIAL, history) && !w.process.Loading?
    ensures Tidy(r, INITIAL, history + [Crash])
  {
    hide Step, Run;
    assert (history + [Crash])[..|history|] == history;
  }

  lemma KeptIsSame(r: Reducer, s: Snapshot, e: Event)
    requires r.Apply(s, e).Ok? && !r.Apply(s, e).value.changed
    ensures r.Apply(s, e).value.next == s
  {
  }

  lemma KeptIsNoOp(r: Reducer, s: Snapshot, e: Event)
    requires r.Apply(s, e).Ok? && !r.Apply(s, e).value.changed
    ensures r.NoOp(s, e)
  {
  }
}
