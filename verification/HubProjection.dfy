/**
 A hub's local projection: it establishes its own consumer, buffers through an observed
 end, asks the consolidator for a barrier snapshot, reduces the buffered events on top of
 it, acknowledges, and then tails the log.  The hub and the consolidator share one log
 that other processes keep appending to.
 */
module HubProjection {
  import opened Wrappers
  import opened State
  import opened ReducerLaws
  import opened EventLog
  import opened Consolidator
  import opened ConsolidatorService
  import opened ConsolidatorTraces
  import opened Replay

  /** One hub's state-event consumer: durable progress, and a position once a boundary is established. */
  class Feed {
    const store: Store
    var committed: Option<nat>
    var established: bool  // the position is concrete
    var position: nat      // the next event to hand out
    var fetched: nat       // how many events from there on have been fetched already
    ghost var began: nat   // where the position became concrete

    constructor (store: Store)
      ensures Valid() && this.store == store && committed == None && !established
    {
      this.store, committed, established, position, fetched, began := store, None, false, 0, 0, 0;
    }

    ghost predicate Valid()
      reads this, store
    {
      && (committed.Some? ==> committed.value <= |store.log|)
      && (established ==> began <= position && position + fetched <= |store.log|)
      && (!established ==> fetched == 0)
    }

    method Open() returns (ok: bool)
      requires Valid()
      modifies this`established, this`fetched
      ensures Valid() && !established
    {
      established, fetched := false, 0;
      ok := *;
    }

    /** The boundary becomes concrete: the committed offset, or the end of the log at this moment if there is none. */
    method Begin()
      requires Valid() && !established
      modifies this`established, this`position, this`began
      ensures Valid() && established && began == position
      ensures position == if committed.Some? then committed.value else |store.log|
    {
      position := if committed.Some? then committed.value else |store.log|;
      began, established := position, true;
    }

    /** The poll of a boundary check can find an event and keep it for the next receive. */
    method Prefetch()
      requires Valid() && established && fetched == 0
      modifies this`fetched
      ensures Valid()
    {
      var found: bool := *;
      if found && position < |store.log| {
        fetched := 1;
      }
    }

    /** Hands out what was fetched before, or else polls; a polled batch comes with an end of the log at some time. */
    method Receive(max: nat) returns (ok: bool, events: seq<Event>, watermark: Option<nat>)
      requires Valid()
      modifies this`established, this`position, this`fetched, this`began
      ensures Valid()
      ensures ok && old(established) ==> began == old(began) && position == old(position) + |events|
      ensures ok && !old(established) ==>
                began == (if committed.Some? then committed.value else |store.log|) && position == began + |events|
      ensures ok ==> established && |events| <= max && |events| <= position && events == store.log[position - |events|..position]
      ensures ok && old(fetched) > 0 ==> |events| >= 1 && watermark.None?
      ensures ok && watermark.Some? ==> position <= watermark.value <= |store.log|
      ensures !ok ==> !established
    {
      ok, watermark := *, None;
      if !ok || max == 0 {
        established, fetched := false, 0;
        return false, [], None;
      }
      if !established {
        Begin();
      }
      var taken: nat := fetched;
      if fetched == 0 {
        taken :| taken <= max && position + taken <= |store.log|;
        var w: nat :| position + taken <= w <= |store.log|;
        watermark := Some(w);
      } else if max < fetched {
        taken := max;
      }
      events := store.log[position..position + taken];
      fetched := if fetched == 0 then 0 else fetched - taken;
      position := position + taken;
    }

    /** Commits the offset behind one handed-out event; it can take effect without being confirmed. */
    method Ack(offset: nat) returns (confirmed: bool)
      requires Valid() && offset < |store.log|
      modifies this`committed
      ensures Valid()
      ensures committed == old(committed) || committed == Some(offset + 1)
      ensures confirmed ==> committed == Some(offset + 1)
    {
      var durable: bool := *;
      confirmed := *;
      confirmed := confirmed && durable;
      if durable {
        committed := Some(offset + 1);
      }
    }
  }

  datatype StartError =
    | Started
    | ConsolidatorNotReady
    | OpenFailed
    | BoundaryUnknown
    | ReceiveFailed
    | BufferExceeded
    | BarrierFailed
    | ReduceFailed
    | AckFailed

  /** Where a consumer opened at a log of length `end` begins: its commit or, without one, an end of the log since. */
  predicate BegunBetween(began: nat, committed: Option<nat>, end: nat) {
    if committed.Some? then began == committed.value else end <= began
  }

  lemma BegunAtCommit(began: nat, committed: Option<nat>, end: nat)
    requires BegunBetween(began, committed, end)
    ensures committed.Some? ==> began == committed.value
  {
  }

  /** Everything handed out so far is committed; a hub without a commit has been handed nothing. */
  predicate CommittedThrough(committed: Option<nat>, resume: nat, position: nat) {
    if committed.Some? then committed.value == position else resume == position
  }

  /** Folding a stretch of the log and then the next one is folding both. */
  lemma FoldsOn(r: Reducer, start: Snapshot, log: seq<Event>, a: nat, b: nat, c: nat)
    requires a <= b <= c <= |log| && Fold(r, start, log[a..b]).Ok?
    ensures Fold(r, start, log[a..c]) == Fold(r, Fold(r, start, log[a..b]).value, log[b..c])
  {
    hide Fold;
    FoldConcat(r, start, log[a..b], log[b..c]);
    assert log[a..c] == log[a..b] + log[b..c];
  }

  class Projection {
    const service: Service
    const feed: Feed
    const bufferMax: nat
    var snapshot: Snapshot
    var ready: bool
    ghost var resume: nat       // first event this hub's consumer hands out
    ghost var barrier: Snapshot // the snapshot the consolidator answered with
    ghost var poll: Poll        // the consolidator's last poll before it answered

    constructor (service: Service, feed: Feed, bufferMax: nat)
      requires service.store == feed.store
      ensures this.service == service && this.feed == feed && this.bufferMax == bufferMax
      ensures !ready
    {
      this.service, this.feed, this.bufferMax := service, feed, bufferMax;
      snapshot, ready := EMPTY, false;
      resume, barrier, poll := 0, EMPTY, Poll(0, 0, 0, None);
    }

    ghost predicate Valid()
      reads this, feed, feed.store, service, service.store
    {
      && service.store == feed.store
      && service.Valid() && feed.Valid()
      && (ready ==>
            && feed.established && resume <= feed.position
            && Fold(service.reducer, barrier, feed.store.log[resume..feed.position]) == Ok(snapshot)
            && CommittedThrough(feed.committed, resume, feed.position))
    }

    /** Folds a batch over the current snapshot. */
    method Reduce(start: Snapshot, events: seq<Event>) returns (result: Result<Snapshot, Error>)
      ensures result == Fold(service.reducer, start, events)
    {
      hide Reducer.Apply;
      var current := start;
      var i := 0;
      while i < |events|
        invariant 0 <= i <= |events|
        invariant Fold(service.reducer, start, events[..i]) == Ok(current)
      {
        var applied := service.reducer.Apply(current, events[i]);
        FoldSnoc(service.reducer, start, events[..i], events[i]);
        assert events[..i + 1] == events[..i] + [events[i]];
        if applied.Err? {
          FoldConcat(service.reducer, start, events[..i + 1], events[i + 1..]);
          assert events == events[..i + 1] + events[i + 1..];
          return Err(applied.error);
        }
        current := applied.value.next;
        i := i + 1;
      }
      assert events[..i] == events;
      return Ok(current);
    }

    /** Acknowledges the events `first .. first + count` in order, stopping at the first failure. */
    method Acknowledge(first: nat, count: nat) returns (ok: bool)
      requires feed.Valid() && first + count <= |feed.store.log|
      modifies feed`committed
      ensures feed.Valid()
      ensures ok && count > 0 ==> feed.committed == Some(first + count)
      ensures ok && count == 0 ==> feed.committed == old(feed.committed)
      ensures || feed.committed == old(feed.committed)
              || (feed.committed.Some? && first < feed.committed.value <= first + count)
    {
      var i := 0;
      while i < count
        invariant 0 <= i <= count && feed.Valid()
        invariant feed.committed == if i == 0 then old(feed.committed) else Some(first + i)
      {
        var confirmed := feed.Ack(first + i);
        if !confirmed {
          return false;
        }
        i := i + 1;
      }
      return true;
    }

    /**
     Whether everything up to an end read in this call has been handed out.  Before the boundary
     is concrete it polls, which can fetch an event; a boundary that is not concrete even then
     becomes so now.  The log can grow between any two of these steps.
     */
    method CaughtUp() returns (ok: bool, caughtUp: bool)
      requires service.store == feed.store && service.Valid() && feed.Valid()
      modifies feed`established, feed`position, feed`fetched, feed`began, service`trace, service.store`log
      ensures service.Valid() && feed.Valid() && old(feed.store.log) <= feed.store.log
      ensures ok ==> (caughtUp <==> feed.established && feed.fetched == 0 && feed.position == |feed.store.log|)
      ensures ok && old(feed.fetched) > 0 ==> feed.fetched == old(feed.fetched)
      ensures ok && old(feed.established) ==>
                feed.established && feed.position == old(feed.position) && feed.began == old(feed.began)
      ensures ok && feed.established && !old(feed.established) ==>
                feed.position == feed.began && BegunBetween(feed.began, feed.committed, |old(feed.store.log)|)
    {
      hide Service.Valid;
      if feed.fetched > 0 {
        return true, false;
      }
      service.Elapse();
      var positioned: bool := *;
      if !feed.established && positioned {
        feed.Begin();
        service.Elapse();
        var failed: bool := *;
        if failed {
          return false, false;
        }
        feed.Prefetch();
        if feed.fetched > 0 {
          return true, false;
        }
      }
      service.Elapse();
      var endsUnknown: bool := *;
      if endsUnknown {
        return false, false;
      }
      if !feed.established {
        var joined: bool := *;
        if !joined {
          return true, false;
        }
        feed.Begin();
      }
      return true, feed.position >= |feed.store.log|;
    }

    /** Whether what was buffered reaches an end observed now. */
    method BufferedAll(events: seq<Event>) returns (error: StartError)
      requires service.store == feed.store && service.Valid() && feed.Valid()
      requires feed.established && events == feed.store.log[feed.began..feed.position]
      modifies feed`established, feed`position, feed`fetched, feed`began, service`trace, service.store`log
      ensures service.Valid() && feed.Valid()
      ensures old(feed.store.log) <= feed.store.log
      ensures error.Started? ==>
                && feed.established && feed.position == |feed.store.log| && feed.began == old(feed.began)
                && events == feed.store.log[feed.began..]
      ensures !error.AckFailed? && !error.ConsolidatorNotReady?
    {
      hide Service.Valid;
      ghost var handed := feed.store.log;
      service.Elapse();
      var bounded, caughtUp := CaughtUp();
      if !bounded {
        return BoundaryUnknown;
      }
      if !caughtUp {
        return BufferExceeded;
      }
      assert feed.store.log[feed.began..feed.position] == handed[feed.began..feed.position];
      return Started;
    }

    /** Establishes the consumer and buffers through an end observed now; nothing is acknowledged. */
    method Buffer() returns (error: StartError, events: seq<Event>)
      requires service.store == feed.store && service.Valid() && feed.Valid()
      modifies feed`established, feed`position, feed`fetched, feed`began, service`trace, service.store`log
      ensures service.Valid() && feed.Valid()
      ensures old(feed.store.log) <= feed.store.log
      ensures error.Started? ==>
                && feed.established && feed.position == |feed.store.log|
                && events == feed.store.log[feed.began..]
                && BegunBetween(feed.began, feed.committed, |old(feed.store.log)|)
      ensures !error.AckFailed? && !error.ConsolidatorNotReady?
    {
      hide Service.Valid;
      var opening := feed.Open();
      if !opening {
        return OpenFailed, [];
      }
      service.Elapse();
      var bounded, caughtUp := CaughtUp();
      if !bounded {
        return BoundaryUnknown, [];
      }
      if caughtUp {
        return Started, [];
      }
      service.Elapse();
      var received: bool, mark: Option<nat>;
      received, events, mark := feed.Receive(bufferMax);
      if !received {
        return ReceiveFailed, [];
      }
      error := BufferedAll(events);
      return error, events;
    }

    /** The barrier request: the consolidator catches up and answers with its snapshot. */
    method Barrier(patience: nat) returns (answer: Option<Snapshot>, ghost poll: Poll)
      requires service.Valid()
      modifies service, service.store
      ensures service.Valid()
      ensures old(service.store.log) <= service.store.log
      ensures answer.Some? ==> service.reducer.ValidSnapshot(answer.value) && !poll.Exit().Behind?
      ensures answer.Some? && Tidy(service.reducer, INITIAL, service.trace) ==>
                && poll.Position() <= |service.store.log|
                && AtOrOnePast(service.reducer, service.store.log, poll.Position(), answer.value)
      ensures answer.Some? ==>
                (|old(service.store.log)| <= poll.Position() <==>
                 poll.Exit().EndReached? || |old(service.store.log)| <= poll.watermark.value)
    {
      hide Reducer.Apply, At, Run, Step, Service.Valid, Tidy;
      service.Elapse();
      var refreshed: bool;
      refreshed, poll := service.Refresh(patience);
      if !refreshed {
        return None, poll;
      }
      assert |old(service.store.log)| <= service.next <==> poll.Reaches(|old(service.store.log)|);
      if !service.reducer.ValidSnapshot(service.snapshot) {
        return None, poll;
      }
      if Tidy(service.reducer, INITIAL, service.trace) {
        service.ServesCanonicalState();
      }
      return Some(service.snapshot), poll;
    }

    /**
     Gap-free startup.  A start that succeeds resumes at the committed offset or, if there is
     none, at an end of the log during the start; its state is the fold of everything from
     there to the end it observed over the barrier; and the barrier, after any tidy history of
     the consolidator, is the canonical state where its last poll left it or one past that.
     That position covers the observed end iff the poll read the end of the log, or the
     watermark it took for the end is not older.  A start that fails has acknowledged nothing,
     unless acknowledging is what failed.
     */
    method Start(patience: nat) returns (error: StartError, ghost observedEnd: nat)
      requires Valid() && !ready
      modifies this, feed, service, service.store
      ensures Valid()
      ensures old(feed.store.log) <= feed.store.log
      ensures error.Started? <==> ready
      ensures error.Started? ==>
                && BegunBetween(resume, old(feed.committed), |old(feed.store.log)|)
                && resume <= observedEnd == feed.position
                && !poll.Exit().Behind?
                && (observedEnd <= poll.Position() <==>
                    poll.Exit().EndReached? || observedEnd <= poll.watermark.value)
      ensures error.Started? && Tidy(service.reducer, INITIAL, service.trace) ==>
                && poll.Position() <= |feed.store.log|
                && AtOrOnePast(service.reducer, feed.store.log, poll.Position(), barrier)
      ensures error.Started? ==>
                feed.committed == if resume < observedEnd then Some(observedEnd) else old(feed.committed)
      ensures error.ConsolidatorNotReady? <==>
                !old(service.initialized && service.consumerActive && service.validSnapshot && service.caughtUp)
      ensures !error.Started? && !error.AckFailed? ==> feed.committed == old(feed.committed)
    {
      hide Reducer.Apply, At, Run, Step, Service.Valid, Tidy,
           Fold, AtOrOnePast, Poll.Exit, Poll.Position, BegunBetween, Reducer.ValidSnapshot;
      observedEnd := 0;
      if !service.Ready() {
        return ConsolidatorNotReady, 0;
      }
      var buffered: seq<Event>;
      error, buffered := Buffer();
      if !error.Started? {
        return;
      }
      observedEnd := feed.position;
      var first := feed.position - |buffered|;
      var answer: Option<Snapshot>;
      ghost var last: Poll;
      answer, last := Barrier(patience);
      if answer.None? {
        return BarrierFailed, 0;
      }
      var reduction := Reduce(answer.value, buffered);
      if reduction.Err? {
        return ReduceFailed, 0;
      }
      assert buffered == feed.store.log[first..feed.position];
      var acknowledged := Acknowledge(first, |buffered|);
      if !acknowledged {
        return AckFailed, 0;
      }
      BegunAtCommit(first, old(feed.committed), |old(feed.store.log)|);
      resume, barrier, poll := first, answer.value, last;
      snapshot, ready := reduction.value, true;
      return Started, observedEnd;
    }

    /** Receives, reduces and acknowledges one batch; any failure ends the hub's readiness. */
    method Tail(max: nat) returns (ok: bool, watermark: Option<nat>)
      requires Valid() && ready
      modifies this`snapshot, this`ready, feed
      ensures Valid() && ok == ready
      ensures ready ==> old(feed.position) <= feed.position && (old(feed.fetched) > 0 ==> old(feed.position) < feed.position)
      ensures ok && watermark.Some? ==> feed.position <= watermark.value <= |feed.store.log|
      ensures ok ==>
                feed.committed == if old(feed.position) < feed.position then Some(feed.position) else old(feed.committed)
      ensures || feed.committed == old(feed.committed)
              || (feed.committed.Some? && old(feed.position) < feed.committed.value <= |feed.store.log|)
    {
      hide Reducer.Apply, At, Run, Step, Service.Valid, Fold, Tidy, Poll.Exit, Poll.Position, AtOrOnePast;
      var from := feed.position;
      var events: seq<Event>;
      ok, events, watermark := feed.Receive(max);
      if !ok {
        ready := false;
        return false, None;
      }
      var reduction := Reduce(snapshot, events);
      if reduction.Err? {
        ready := false;
        return false, None;
      }
      FoldsOn(service.reducer, barrier, feed.store.log, resume, from, feed.position);
      ok := Acknowledge(from, |events|);
      if !ok {
        ready := false;
        return false, None;
      }
      snapshot := reduction.value;
    }

    /**
     Tails the log.  Whatever it returns, a hub that is still ready holds the fold up to its
     position.  It reports to be caught up exactly if it has handed out everything up to the end
     it read, or its position is the watermark its batch came with; and it does not skip what an
     earlier check had fetched.
     */
    method Consume(max: nat) returns (ok: bool, caughtUp: bool, ghost atEnd: bool, ghost watermark: Option<nat>)
      requires Valid()
      modifies this, feed, service`trace, service.store`log
      ensures Valid() && (ok ==> ready)
      ensures ready ==> old(ready) && resume == old(resume) && barrier == old(barrier)
                        && old(feed.position) <= feed.position
      ensures old(feed.store.log) <= feed.store.log
      ensures !ok ==> !ready
      ensures ok ==> (caughtUp <==> atEnd || watermark == Some(feed.position))
      ensures ok && atEnd ==> feed.position == old(feed.position) == |feed.store.log| && feed.fetched == 0
      ensures ok && watermark.Some? ==> feed.position <= watermark.value <= |feed.store.log|
      ensures ok && old(feed.fetched) > 0 ==> old(feed.position) < feed.position
      ensures ok ==>
                feed.committed == if old(feed.position) < feed.position then Some(feed.position) else old(feed.committed)
      ensures || feed.committed == old(feed.committed)
              || (feed.committed.Some? && old(feed.position) < feed.committed.value <= |feed.store.log|)
    {
      hide Reducer.Apply, At, Run, Step, Service.Valid, Fold, Tidy, Poll.Exit, Poll.Position, AtOrOnePast;
      atEnd, watermark := false, None;
      if !ready {
        return false, false, false, None;
      }
      ghost var before := feed.store.log;
      ok, caughtUp := CaughtUp();
      if !ok {
        ready := false;
        return false, false, false, None;
      }
      assert feed.store.log[resume..feed.position] == before[resume..feed.position];
      if caughtUp {
        return true, true, true, None;
      }
      var mark;
      ok, mark := Tail(max);
      watermark := mark;
      caughtUp := ok && mark.Some? && feed.position >= mark.value;
    }

    /** The orderly stop: the consumer is closed and its progress kept. */
    method Close()
      requires Valid()
      modifies this`ready, feed`established, feed`fetched
      ensures Valid() && !ready
    {
      hide Service.Valid, Fold;
      ready := false;
      var closing := feed.Open();
    }

    /**
     A hub that tails the log for a while, stops and starts again resumes exactly where it
     stopped, if it ever acknowledged anything; otherwise at an end of the log during the new
     start.
     */
    method Rejoin(rounds: nat, max: nat, patience: nat) returns (error: StartError, ghost stopped: nat)
      requires Valid() && ready
      modifies this, feed, service, service.store
      ensures Valid() && old(feed.store.log) <= feed.store.log
      ensures error.Started? && old(feed.committed).Some? ==> resume == stopped
      ensures error.Started? ==> resume == stopped || |old(feed.store.log)| <= resume
    {
      hide Service.Valid, Fold, Run, Step, At, Tidy, Poll.Exit, Poll.Position, AtOrOnePast;
      stopped := feed.position;
      var n := rounds;
      while n > 0
        invariant Valid() && ready && stopped == feed.position && old(feed.store.log) <= feed.store.log
        invariant old(feed.committed).Some? ==> feed.committed.Some?
      {
        var ok, _, _, _ := Consume(max);
        if !ok {
          return ReceiveFailed, 0;
        }
        stopped := feed.position;
        n := n - 1;
      }
      Close();
      ghost var observed: nat;
      error, observed := Start(patience);
    }
  }

  /**
   A hub that resumes past where the consolidator stood misses the events in between.  The
   barrier is then still the canonical state where the hub resumes iff each missed event is
   a no-op on it.
   */
  lemma GapIsHarmlessExactly(r: Reducer, log: seq<Event>, mark: nat, barrier: Snapshot, resume: nat)
    requires mark < resume <= |log| && AtOrOnePast(r, log, mark, barrier)
    ensures At(r, log, resume) == Ok(barrier) <==> AllNoOps(r, barrier, log[mark..resume])
  {
    hide Reducer.Apply, At, Fold;
    FoldFromFrontier(r, log, mark, resume, barrier);
    ReplayIsSilentExactly(r, barrier, log[mark..resume]);
  }

  /** None of these actions can be untidy. */
  predicate Calm(a: Action) {
    !a.Crash? && !a.LoadAbort? && !a.ReceiveError?
  }

  lemma {:induction false} CalmIsTidy(r: Reducer, w: World, actions: seq<Action>)
    requires forall i :: 0 <= i < |actions| ==> Calm(actions[i])
    ensures Tidy(r, w, actions)
    decreases |actions|
  {
    hide Run, Step;
    if actions != [] {
      CalmIsTidy(r, w, actions[..|actions| - 1]);
    }
  }

  const FETCHED: seq<Action> := [Append(REGISTER)] + BOOTED
  const ANSWERED: seq<Action> := [Append(VERIFY1)] + HANDLED
  const AT_FETCH := World([REGISTER], 0, [EMPTY], 0, Idle(EMPTY, 0))
  const AT_ANSWER := World([REGISTER, VERIFY1], 1, [EMPTY, WITH_TOPIC], 0, Idle(WITH_TOPIC, 1))

  /**
   A tidy run from the initial world: the client fetches when the log has one event, a second
   one is appended, and the poll that serves the barrier request hands out the fetched batch.
   The end read in that poll is 2, but the batch's watermark is 1, and the poll ends there.
   */
  lemma OldWatermarkEndsThePoll()
    ensures Run(PLAIN, INITIAL, FETCHED) == Some(AT_FETCH)
    ensures Run(PLAIN, INITIAL, FETCHED + ANSWERED) == Some(AT_ANSWER) && Tidy(PLAIN, INITIAL, FETCHED + ANSWERED)
    ensures ExitOf(AT_FETCH.process.next, |AT_ANSWER.log|, 1, Some(|AT_FETCH.log|)) == FlagReached
    ensures AT_FETCH.process.next + 1 == AT_ANSWER.process.next
  {
    hide Reducer.Apply, Run;
    CommittedStateIsLost();
    FirstStart(PLAIN, [REGISTER]);
    RunConcat(PLAIN, INITIAL, [Append(REGISTER)], BOOTED);
    var asked := AT_FETCH.(log := [REGISTER, VERIFY1]);
    assert [REGISTER] + [VERIFY1] == [REGISTER, VERIFY1] && PLAIN.ValidEvent(VERIFY1);
    assert Step(PLAIN, AT_FETCH, Append(VERIFY1)) == Some(asked);
    RunOne(PLAIN, AT_FETCH, Append(VERIFY1));
    RegisterOnEmpty();
    HandleOne(PLAIN, asked, WITH_TOPIC);
    RunConcat(PLAIN, AT_FETCH, [Append(VERIFY1)], HANDLED);
    RunConcat(PLAIN, INITIAL, FETCHED, ANSWERED);
    assert [EMPTY] + [WITH_TOPIC] == [EMPTY, WITH_TOPIC];
    CalmIsTidy(PLAIN, INITIAL, FETCHED + ANSWERED);
  }

  lemma RunOne(r: Reducer, w: World, a: Action)
    ensures Run(r, w, [a]) == Step(r, w, a)
  {
    hide Step;
    assert [a][..0] == [];
  }

  /**
   Counterexample: in that run the barrier is the state at 1, while a new hub that observed
   the end before asking resumes at 2.  The subscription is in no later hub state either,
   because its event is never handed out.
   */
  lemma StaleBarrierLosesEvent()
    ensures Run(PLAIN, INITIAL, FETCHED + ANSWERED) == Some(AT_ANSWER) && Tidy(PLAIN, INITIAL, FETCHED + ANSWERED)
    ensures var log := AT_ANSWER.log;
            && At(PLAIN, log, AT_ANSWER.process.next) == Ok(AT_ANSWER.process.memory)
            && At(PLAIN, log, 2) == Ok(SUBSCRIBED) && "s1" in SUBSCRIBED.subscriptions
            && HubView(PLAIN, log, 2, AT_ANSWER.process.next, 2) == Ok(WITH_TOPIC) && "s1" !in WITH_TOPIC.subscriptions
  {
    hide Reducer.Apply;
    OldWatermarkEndsThePoll();
    var log := AT_ANSWER.log;
    RegisterOnEmpty();
    VerifyOnTopic();
    FoldShort(PLAIN, EMPTY, REGISTER, VERIFY1, VERIFY1);
    assert log[..2] == log && log[..1] == [REGISTER] && log[2..2] == [];
  }
}
