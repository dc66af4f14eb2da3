/** Concrete runs that enter the two windows of `Consolidator.TidyStep` and are not crash-safe afterwards. */
module ConsolidatorTraces {
  import opened Wrappers
  import opened State
  import opened EventLog
  import opened SnapshotStore
  import opened Consolidator
  import opened Replay
  import ReducerLaws

  const BOOTED: seq<Action> := [Boot, LoadClose, Publish(true, true)]
  const HANDLED: seq<Action> := [Save(true, true), Install, Ack(true, true)]

  lemma RunConcat(r: Reducer, w: World, a: seq<Action>, b: seq<Action>)
    requires Run(r, w, a).Some?
    ensures Run(r, w, a + b) == Run(r, Run(r, w, a).value, b)
    decreases |b|
  {
    hide Step;
    if b == [] {
      assert a + b == a;
    } else {
      var c := b[..|b| - 1];
      assert (a + b)[..|a + b| - 1] == a + c;
      RunConcat(r, w, a, c);
    }
  }

  lemma RunTwo(r: Reducer, w: World, a: Action, b: Action)
    requires Step(r, w, a).Some? && Step(r, Step(r, w, a).value, b).Some?
    ensures Run(r, w, [a, b]) == Step(r, Step(r, w, a).value, b)
  {
    hide Step;
    assert [a, b][..1] == [a] && [a][..0] == [];
    assert Run(r, w, [a]) == Step(r, w, a);
  }

  lemma RunThree(r: Reducer, w: World, a: Action, b: Action, c: Action)
    requires Step(r, w, a).Some? && Step(r, Step(r, w, a).value, b).Some?
    ensures Run(r, w, [a, b, c]) == Step(r, Step(r, Step(r, w, a).value, b).value, c)
  {
    hide Step;
    RunTwo(r, w, a, b);
    assert [a, b, c][..2] == [a, b];
  }

  /** Starting on an empty store publishes the empty snapshot and begins at offset zero. */
  lemma FirstStart(r: Reducer, log: seq<Event>)
    ensures Run(r, World(log, 0, [], 0, Down), BOOTED) == Some(World(log, 0, [EMPTY], 0, Idle(EMPTY, 0)))
  {
    hide Reducer.Apply;
    RunThree(r, World(log, 0, [], 0, Down), Boot, LoadClose, Publish(true, true));
    assert [] + [EMPTY] == [EMPTY];
  }

  /** Reducing, saving, installing and acknowledging one effective event. */
  lemma HandleOne(r: Reducer, w: World, s: Snapshot)
    requires w.process.Idle? && w.process.next < |w.log|
    requires r.Apply(w.process.memory, w.log[w.process.next]) == Ok(Applied(s, true))
    ensures Run(r, w, HANDLED) ==
            Some(w.(committed := w.process.next + 1, saved := w.saved + [s], process := Idle(s, w.process.next + 1)))
  {
    hide Reducer.Apply;
    RunThree(r, w, Save(true, true), Install, Ack(true, true));
  }

  const ONE_EVENT := World([REGISTER], 0, [], 0, Down)
  const WINDOW := World([REGISTER], 1, [EMPTY, WITH_TOPIC], 2, Loading(0, WITH_TOPIC))
  const TO_WINDOW: seq<Action> := BOOTED + HANDLED + [Crash] + [Boot, LoadRecord, LoadRecord]

  lemma ReachesWindow()
    ensures Run(PLAIN, ONE_EVENT, TO_WINDOW) == Some(WINDOW)
  {
    hide Reducer.Apply;
    FirstStart(PLAIN, [REGISTER]);
    RegisterOnEmpty();
    var w1 := World([REGISTER], 0, [EMPTY], 0, Idle(EMPTY, 0));
    HandleOne(PLAIN, w1, WITH_TOPIC);
    var w2 := World([REGISTER], 1, [EMPTY] + [WITH_TOPIC], 0, Idle(WITH_TOPIC, 1));
    RunConcat(PLAIN, ONE_EVENT, BOOTED, HANDLED);
    assert Run(PLAIN, ONE_EVENT, BOOTED + HANDLED) == Some(w2);
    RunSnoc(PLAIN, ONE_EVENT, BOOTED + HANDLED, Crash);
    var w3 := w2.(process := Down);
    RunThree(PLAIN, w3, Boot, LoadRecord, LoadRecord);
    RunConcat(PLAIN, ONE_EVENT, BOOTED + HANDLED + [Crash], [Boot, LoadRecord, LoadRecord]);
    assert [EMPTY] + [WITH_TOPIC] == [EMPTY, WITH_TOPIC];
  }

  /**
   Counterexample: the topic was registered, stored and committed; the process crashed
   after the next start had acknowledged both stored snapshots but before it deleted its
   reading progress; the start after that loads the empty snapshot.
   */
  lemma CommittedStateIsLost()
    ensures Run(PLAIN, INITIAL, [Append(REGISTER)]) == Some(ONE_EVENT)
    ensures var w := Run(PLAIN, ONE_EVENT, TO_WINDOW + [Crash, Boot, LoadClose]);
            && w.Some? && w.value.process == Loaded(EMPTY)
            && w.value.committed == 1 && w.value.log == [REGISTER] && At(PLAIN, [REGISTER], 1) == Ok(WITH_TOPIC)
  {
    ReachesWindow();
    RegisterOnEmpty();
    assert [Append(REGISTER)][..0] == [] && [] + [REGISTER] == [REGISTER];
    assert Step(PLAIN, INITIAL, Append(REGISTER)) == Some(ONE_EVENT);
    RunConcat(PLAIN, ONE_EVENT, TO_WINDOW, [Crash, Boot, LoadClose]);
    RunThree(PLAIN, WINDOW, Crash, Boot, LoadClose);
    FoldSnoc(PLAIN, EMPTY, [], REGISTER);
    assert [REGISTER][..1] == [] + [REGISTER];
  }

  /**
   Counterexample: a receive error under an expired context takes the subscription event
   and the consolidator goes on; the deregistration behind it is stored and committed,
   and the stored state never contains the subscription that the log created.
   */
  lemma DroppedEventIsSkipped()
    ensures var log := [REGISTER, VERIFY1, DEREGISTER];
            var w := Run(PLAIN, World(log, 0, [], 0, Down), BOOTED + HANDLED + [ReceiveError(true, 1)] + HANDLED);
            && w.Some? && w.value.committed == 3 && Latest(w.value) == RETIRED
            && "s1" !in RETIRED.subscriptions
            && At(PLAIN, log, 3).Ok? && "s1" in At(PLAIN, log, 3).value.subscriptions
  {
    hide Reducer.Apply, At, Greatest, Run;
    var log := [REGISTER, VERIFY1, DEREGISTER];
    var w0 := World(log, 0, [], 0, Down);
    FirstStart(PLAIN, log);
    RegisterOnEmpty();
    var w1 := World(log, 0, [EMPTY], 0, Idle(EMPTY, 0));
    HandleOne(PLAIN, w1, WITH_TOPIC);
    RunConcat(PLAIN, w0, BOOTED, HANDLED);
    var w2 := World(log, 1, [EMPTY] + [WITH_TOPIC], 0, Idle(WITH_TOPIC, 1));
    RunSnoc(PLAIN, w0, BOOTED + HANDLED, ReceiveError(true, 1));
    var w3 := w2.(process := Idle(WITH_TOPIC, 2));
    RetireTopic();
    HandleOne(PLAIN, w3, RETIRED);
    RunConcat(PLAIN, w0, BOOTED + HANDLED + [ReceiveError(true, 1)], HANDLED);
    LatestOfThree();
    CanonicalKeepsSubscription();
  }

  lemma LatestOfThree()
    ensures Greatest(EMPTY, [EMPTY] + [WITH_TOPIC] + [RETIRED]) == RETIRED
  {
    GreatestSnoc(EMPTY, [EMPTY] + [WITH_TOPIC], RETIRED);
    GreatestSnoc(EMPTY, [EMPTY], WITH_TOPIC);
  }

  lemma CanonicalKeepsSubscription()
    ensures var log := [REGISTER, VERIFY1, DEREGISTER];
            At(PLAIN, log, 3).Ok? && "s1" in At(PLAIN, log, 3).value.subscriptions
  {
    hide Reducer.Apply;
    var log := [REGISTER, VERIFY1, DEREGISTER];
    RegisterOnEmpty();
    VerifyOnTopic();
    DeregisterSubscribed();
    FoldShort(PLAIN, EMPTY, REGISTER, VERIFY1, DEREGISTER);
    assert log[..3] == log;
  }

  lemma DeregisterSubscribed()
    ensures PLAIN.Apply(SUBSCRIBED, DEREGISTER).Ok?
    ensures PLAIN.Apply(SUBSCRIBED, DEREGISTER).value.next.subscriptions == SUBSCRIBED.subscriptions
  {
    SubscribedIsValid();
  }

  const TWICE: seq<Event> := [REGISTER, REGISTER, DEREGISTER]
  const SKIPPING: seq<Action> := BOOTED + HANDLED + [ReceiveError(true, 1)] + [Save(true, true)]
  const RELOADED: seq<Action> := [Boot, LoadRecord, LoadRecord] + [LoadRecord, LoadClose, Publish(true, true)]
  const STORED: seq<Snapshot> := [EMPTY] + [WITH_TOPIC] + [RETIRED]

  /** The registration before the deregistration has been counted once more, on top of it. */
  const RETIRED_AGAIN := RETIRED.(revision := 3, topics := map["T" := NEWS.(revision := 3)])

  /**
   Counterexample: the dropped event is a no-op, and yet storing the next result leaves the
   latest snapshot two events past the commit.  A crash there makes the next process apply
   the dropped event to a state that already contains what came after it, and it counts again.
   */
  lemma DroppedNoOpCountsAgain()
    ensures AllNoOps(PLAIN, WITH_TOPIC, TWICE[1..2])
    ensures var w := Run(PLAIN, World(TWICE, 0, [], 0, Down), SKIPPING);
            && w == Some(World(TWICE, 1, STORED, 0, Saved(WITH_TOPIC, 2, RETIRED)))
            && At(PLAIN, TWICE, 1) == Ok(WITH_TOPIC) && At(PLAIN, TWICE, 2) == Ok(WITH_TOPIC) && WITH_TOPIC != RETIRED
            && !CrashSafe(PLAIN, w.value)
    ensures var w := Run(PLAIN, World(TWICE, 1, STORED, 0, Down), RELOADED + HANDLED);
            && w.Some? && w.value.committed == 2 && w.value.process == Idle(RETIRED_AGAIN, 2)
            && At(PLAIN, TWICE, 3) == Ok(RETIRED) && RETIRED.revision < RETIRED_AGAIN.revision
  {
    hide Reducer.Apply, Run, At, Greatest;
    TwiceStates();
    SkipsAhead();
    LatestOfThree();
    CountsAgain();
  }

  lemma TwiceStates()
    ensures PLAIN.NoOp(WITH_TOPIC, REGISTER) && TWICE[1..2] == [REGISTER]
    ensures At(PLAIN, TWICE, 1) == Ok(WITH_TOPIC) && At(PLAIN, TWICE, 2) == Ok(WITH_TOPIC) && At(PLAIN, TWICE, 3) == Ok(RETIRED)
  {
    hide Reducer.Apply;
    RegisterOnEmpty();
    ReducerLaws.ApplyIsIdempotent(PLAIN, EMPTY, REGISTER);
    RetireTopic();
    FoldShort(PLAIN, EMPTY, REGISTER, REGISTER, DEREGISTER);
    assert TWICE[..1] == [REGISTER] && TWICE[..2] == [REGISTER, REGISTER] && TWICE[..3] == TWICE;
  }

  lemma SkipsAhead()
    ensures Run(PLAIN, World(TWICE, 0, [], 0, Down), SKIPPING) ==
            Some(World(TWICE, 1, STORED, 0, Saved(WITH_TOPIC, 2, RETIRED)))
  {
    hide Reducer.Apply, Run;
    var w0 := World(TWICE, 0, [], 0, Down);
    FirstStart(PLAIN, TWICE);
    RegisterOnEmpty();
    HandleOne(PLAIN, World(TWICE, 0, [EMPTY], 0, Idle(EMPTY, 0)), WITH_TOPIC);
    RunConcat(PLAIN, w0, BOOTED, HANDLED);
    RunSnoc(PLAIN, w0, BOOTED + HANDLED, ReceiveError(true, 1));
    RetireTopic();
    RunSnoc(PLAIN, w0, BOOTED + HANDLED + [ReceiveError(true, 1)], Save(true, true));
  }

  lemma ReloadsLatest()
    ensures Run(PLAIN, World(TWICE, 1, STORED, 0, Down), RELOADED) ==
            Some(World(TWICE, 1, STORED + [RETIRED], 0, Idle(RETIRED, 1)))
  {
    hide Reducer.Apply, Run;
    var w := World(TWICE, 1, STORED, 0, Down);
    RunThree(PLAIN, w, Boot, LoadRecord, LoadRecord);
    var half := World(TWICE, 1, STORED, 2, Loading(0, WITH_TOPIC));
    RunThree(PLAIN, half, LoadRecord, LoadClose, Publish(true, true));
    RunConcat(PLAIN, w, [Boot, LoadRecord, LoadRecord], [LoadRecord, LoadClose, Publish(true, true)]);
  }

  lemma CountsAgain()
    ensures var w := Run(PLAIN, World(TWICE, 1, STORED, 0, Down), RELOADED + HANDLED);
            w.Some? && w.value.committed == 2 && w.value.process == Idle(RETIRED_AGAIN, 2)
  {
    hide Reducer.Apply, Run;
    ReloadsLatest();
    ReviveTopic();
    HandleOne(PLAIN, World(TWICE, 1, STORED + [RETIRED], 0, Idle(RETIRED, 1)), RETIRED_AGAIN);
    RunConcat(PLAIN, World(TWICE, 1, STORED, 0, Down), RELOADED, HANDLED);
  }
}
