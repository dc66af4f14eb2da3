/**
 Replaying events on a state that already contains them.  A hub folds its own part of
 the log on top of a barrier snapshot, and the two overlap.  The overlap is harmless
 exactly when each of its events is a no-op on the barrier state; three concrete logs
 show that this is not automatic, and `StaysNoOpExactly` says which later event takes
 the no-op property away.
 */
module Replay {
  import opened Wrappers
  import opened State
  import opened ReducerLaws
  import opened EventLog

  ghost predicate AllNoOps(r: Reducer, s: Snapshot, events: seq<Event>) {
    forall i :: 0 <= i < |events| ==> r.NoOp(s, events[i])
  }

  /** Replay succeeds without advancing the revision iff every replayed event is a no-op. */
  lemma {:induction false} ReplayIsSilentExactly(r: Reducer, s: Snapshot, events: seq<Event>)
    ensures (Fold(r, s, events).Ok? && Fold(r, s, events).value.revision == s.revision)
            <==> AllNoOps(r, s, events)
    ensures AllNoOps(r, s, events) ==> Fold(r, s, events) == Ok(s)
    decreases |events|
  {
    hide Reducer.Apply;
    if events != [] {
      var n := |events| - 1;
      var front := events[..n];
      ReplayIsSilentExactly(r, s, front);
      if Fold(r, s, events).Ok? && Fold(r, s, events).value.revision == s.revision {
        var t := Fold(r, s, front).value;
        FoldKeeps(r, s, front);
        ApplyAdvances(r, t, events[n]);
        assert t == s;
        forall i | 0 <= i < |events| ensures r.NoOp(s, events[i]) {
          if i < n { assert events[i] == front[i]; }
        }
      }
      if AllNoOps(r, s, events) {
        forall i | 0 <= i < n ensures r.NoOp(s, front[i]) { assert front[i] == events[i]; }
        assert r.NoOp(s, events[n]);
      }
    }
  }

  /** What a hub holds at `p`: events from `h` on, folded over the canonical state at `b`. */
  function HubView(r: Reducer, log: seq<Event>, h: nat, b: nat, p: nat): Result<Snapshot, Error>
    requires b <= |log| && h <= p <= |log|
  {
    Continue(r, At(r, log, b), log[h..p])
  }

  /** Every hub view satisfies all invariants of reachable states, whatever the overlap did to it. */
  lemma HubViewIsSound(r: Reducer, log: seq<Event>, h: nat, b: nat, p: nat)
    requires b <= |log| && h <= p <= |log| && HubView(r, log, h, b, p).Ok?
    ensures Sound(r, HubView(r, log, h, b, p).value)
  {
    hide Fold, Sound;
    ReachableIsSound(r, log, b);
    FoldKeeps(r, At(r, log, b).value, log[h..p]);
  }

  /** The hub agrees with the canonical fold from the barrier on iff the whole overlap is no-ops there. */
  lemma ConvergesExactly(r: Reducer, log: seq<Event>, h: nat, b: nat)
    requires h <= b <= |log| && At(r, log, b).Ok?
    ensures AllNoOps(r, At(r, log, b).value, log[h..b])
            <==> (forall p :: b <= p <= |log| ==> HubView(r, log, h, b, p) == At(r, log, p))
  {
    hide Reducer.Apply;
    var s := At(r, log, b).value;
    ReplayIsSilentExactly(r, s, log[h..b]);
    if AllNoOps(r, s, log[h..b]) {
      forall p | b <= p <= |log| ensures HubView(r, log, h, b, p) == At(r, log, p) {
        assert log[h..p] == log[h..b] + log[b..p];
        FoldConcat(r, s, log[h..b], log[b..p]);
        AtSplit(r, log, b, p);
      }
    } else {
      assert HubView(r, log, h, b, b) == Fold(r, s, log[h..b]);
      assert HubView(r, log, h, b, b) != At(r, log, b);
    }
  }

  /** A hub whose overlap is all no-ops holds a canonical state, behind the barrier or past it. */
  lemma ConvergedViewIsCanonical(r: Reducer, log: seq<Event>, h: nat, b: nat, p: nat)
    requires h <= b <= |log| && h <= p <= |log| && At(r, log, b).Ok?
    requires AllNoOps(r, At(r, log, b).value, log[h..b])
    ensures HubView(r, log, h, b, p) == At(r, log, if b <= p then p else b)
  {
    hide Reducer.Apply, Reducer.NoOp;
    if b <= p {
      ConvergesExactly(r, log, h, b);
    } else {
      assert forall i :: 0 <= i < |log[h..p]| ==> log[h..p][i] == log[h..b][i];
      ReplayIsSilentExactly(r, At(r, log, b).value, log[h..p]);
    }
  }

  /**
   `f` takes away what makes `e` a no-op: it replaces or flips the topic, subscription
   or pair holder that `e` relies on, or takes the identifier `e` asks for.  Removals rely on nothing that can change.
   */
  ghost predicate Disturbs(s: Snapshot, e: Event, f: Event) {
    match e
    case TopicRegistered(_, t) =>
      (f.TopicRegistered? && f.topic.id == t.id) || Deregisters(f, t.id)
    case TopicDeregistered(_, id) => f.TopicRegistered? && f.topic.id == id
    case SubscriptionVerified(_, x) =>
      || Deregisters(f, x.topicId)
      || (f.SubscriptionWentStale? && f.subscriptionId == x.id)
      || (f.SubscriptionVerified? && f.subscription.id == x.id)
      || (exists k :: k in s.subscriptions && Holds(s.subscriptions[k], x.topicUrl, x.callbackUrl) && Removes(f, k))
    case SubscriptionUnsubscribed(_, _) => false
    case SubscriptionWasRemoved(_, _, _) => false
    case SubscriptionWentStale(_, id, reason) =>
      || Removes(f, id)
      || (f.SubscriptionReactivated? && f.subscriptionId == id)
      || (f.SubscriptionWentStale? && f.subscriptionId == id)
    case SubscriptionReactivated(_, id) =>
      Removes(f, id) || (f.SubscriptionWentStale? && f.subscriptionId == id)
  }

  lemma NoOpMeansKeep(r: Reducer, s: Snapshot, e: Event)
    ensures r.NoOp(s, e) <==> r.ValidSnapshot(s) && r.ValidEvent(e) && r.EffectOf(s, e) == Keep
  {
  }

  lemma ChangeIsCommit(r: Reducer, s: Snapshot, f: Event)
    requires r.Apply(s, f).Ok? && r.Apply(s, f).value.changed
    ensures var effect := r.EffectOf(s, f);
            && (effect.PutTopic? || effect.PutSubscription?)
            && r.Apply(s, f).value.next == r.Commit(s, effect)
  {
  }

  lemma TopicKeepStays(r: Reducer, s: Snapshot, e: Event, f: Event)
    requires r.EffectOf(s, e) == Keep && (r.EffectOf(s, f).PutTopic? || r.EffectOf(s, f).PutSubscription?)
    requires e.TopicRegistered? || e.TopicDeregistered?
    ensures r.EffectOf(r.Commit(s, r.EffectOf(s, f)), e) == Keep <==> !Disturbs(s, e, f)
  {
  }

  lemma SubscriptionKeepStays(r: Reducer, s: Snapshot, e: Event, f: Event)
    requires r.EffectOf(s, e) == Keep && (r.EffectOf(s, f).PutTopic? || r.EffectOf(s, f).PutSubscription?)
    requires !e.TopicRegistered? && !e.TopicDeregistered? && !e.SubscriptionVerified?
    ensures r.EffectOf(r.Commit(s, r.EffectOf(s, f)), e) == Keep <==> !Disturbs(s, e, f)
  {
  }

  /** The subscription itself is there and active. */
  lemma VerifiedKeepStays(r: Reducer, s: Snapshot, e: Event, f: Event)
    requires UniqueLive(s)
    requires r.EffectOf(s, e) == Keep && (r.EffectOf(s, f).PutTopic? || r.EffectOf(s, f).PutSubscription?)
    requires e.SubscriptionVerified? && e.subscription.id in s.subscriptions
    ensures r.EffectOf(r.Commit(s, r.EffectOf(s, f)), e) == Keep <==> !Disturbs(s, e, f)
  {
    var x := e.subscription;
    assert Holds(s.subscriptions[x.id], x.topicUrl, x.callbackUrl);
  }

  /** The request was merged into another live subscription `k`. */
  lemma MergedKeepStays(r: Reducer, s: Snapshot, e: Event, f: Event, k: string)
    requires UniqueLive(s)
    requires r.EffectOf(s, e) == Keep && (r.EffectOf(s, f).PutTopic? || r.EffectOf(s, f).PutSubscription?)
    requires e.SubscriptionVerified? && e.subscription.id !in s.subscriptions
    requires k in s.subscriptions && Holds(s.subscriptions[k], e.subscription.topicUrl, e.subscription.callbackUrl)
    ensures r.EffectOf(r.Commit(s, r.EffectOf(s, f)), e) == Keep <==> !Disturbs(s, e, f)
  {
    var x := e.subscription;
    var n := r.Commit(s, r.EffectOf(s, f));
    if Removes(f, k) {
      assert !PairTaken(n.subscriptions, x.topicUrl, x.callbackUrl);
    } else {
      assert k in n.subscriptions && Holds(n.subscriptions[k], x.topicUrl, x.callbackUrl);
      forall j | j in s.subscriptions && Holds(s.subscriptions[j], x.topicUrl, x.callbackUrl)
        ensures !Removes(f, j) { assert j == k; }
    }
  }

  lemma MergedInto(r: Reducer, s: Snapshot, e: Event) returns (k: string)
    requires e.SubscriptionVerified? && e.subscription.id !in s.subscriptions && r.EffectOf(s, e) == Keep
    ensures k in s.subscriptions && Holds(s.subscriptions[k], e.subscription.topicUrl, e.subscription.callbackUrl)
  {
    k :| k in s.subscriptions && Holds(s.subscriptions[k], e.subscription.topicUrl, e.subscription.callbackUrl);
  }

  /** On reachable state: a no-op stays one after an effective event iff that event does not disturb it. */
  lemma StaysNoOpExactly(r: Reducer, s: Snapshot, e: Event, f: Event)
    requires Sound(r, s) && r.NoOp(s, e) && r.Apply(s, f).Ok?
    ensures r.NoOp(r.Apply(s, f).value.next, e) <==> !(r.Apply(s, f).value.changed && Disturbs(s, e, f))
  {
    hide Reducer.Apply, Reducer.EffectOf, Reducer.Commit, Reducer.NoOp, Disturbs;
    ApplyAdvances(r, s, f);
    if r.Apply(s, f).value.changed {
      var n := r.Apply(s, f).value.next;
      NoOpMeansKeep(r, s, e);
      NoOpMeansKeep(r, n, e);
      ApplyKeepsValid(r, s, f);
      ChangeIsCommit(r, s, f);
      match e
      case TopicRegistered(_, _) => TopicKeepStays(r, s, e, f);
      case TopicDeregistered(_, _) => TopicKeepStays(r, s, e, f);
      case SubscriptionVerified(_, x) =>
        if x.id in s.subscriptions {
          VerifiedKeepStays(r, s, e, f);
        } else {
          var k := MergedInto(r, s, e);
          MergedKeepStays(r, s, e, f, k);
        }
      case _ => SubscriptionKeepStays(r, s, e, f);
    }
  }

  /** Event `k` of the log is not disturbed by any effective event between it and `n`. */
  ghost predicate Undisturbed(r: Reducer, log: seq<Event>, k: nat, n: nat)
    requires k < n <= |log|
  {
    forall j :: k < j < n && At(r, log, j).Ok? && r.Apply(At(r, log, j).value, log[j]).Ok?
                && r.Apply(At(r, log, j).value, log[j]).value.changed
      ==> !Disturbs(At(r, log, j).value, log[k], log[j])
  }

  lemma {:induction false} UndisturbedStaysNoOp(r: Reducer, log: seq<Event>, k: nat, n: nat)
    requires k < n <= |log| && At(r, log, n).Ok?
    requires Undisturbed(r, log, k, n)
    ensures r.NoOp(At(r, log, n).value, log[k])
    decreases n - k
  {
    ReachableEvolves(r, log, n - 1, n);
    AtStep(r, log, n - 1);
    var s := At(r, log, n - 1).value;
    if n == k + 1 {
      ApplyIsIdempotent(r, s, log[k]);
    } else {
      UndisturbedStaysNoOp(r, log, k, n - 1);
      ReachableIsSound(r, log, n - 1);
      StaysNoOpExactly(r, s, log[k], log[n - 1]);
    }
  }

  /** If nothing in the overlap disturbs an earlier overlap event, the hub tracks the canonical fold. */
  lemma UndisturbedOverlapConverges(r: Reducer, log: seq<Event>, h: nat, b: nat)
    requires h <= b <= |log| && At(r, log, b).Ok?
    requires forall k :: h <= k < b ==> Undisturbed(r, log, k, b)
    ensures forall p :: b <= p <= |log| ==> HubView(r, log, h, b, p) == At(r, log, p)
  {
    hide Reducer.NoOp, At, Undisturbed, HubView;
    forall i | 0 <= i < |log[h..b]| ensures r.NoOp(At(r, log, b).value, log[h..b][i]) {
      assert log[h..b][i] == log[h + i];
      UndisturbedStaysNoOp(r, log, h + i, b);
    }
    ConvergesExactly(r, log, h, b);
  }

  // ---------------------------------------------------------------- concrete logs

  const PLAIN := Reducer((t: string) => Some(t), (p: Parameters) => true)
  const META := Metadata(SCHEMA_VERSION, "e", 1, true, "t", "")
  const NEWS := Topic("T", "u", "d", "c", TopicActive, 1, "", 0)

  function Sub(id: string, started: int): Subscription {
    Subscription(id, "T", "u", "cb", [], "", started, "", "hub", "c-" + id, map[], SubscriptionActive, "", 0)
  }

  const REGISTER := TopicRegistered(META, NEWS)
  const DEREGISTER := TopicDeregistered(META, "T")
  const VERIFY1 := SubscriptionVerified(META, Sub("s1", 1))
  const VERIFY2 := SubscriptionVerified(META, Sub("s2", 2))
  const LEAVE1 := SubscriptionUnsubscribed(META, "s1")

  /** The state after `REGISTER` alone. */
  const WITH_TOPIC := Snapshot(SCHEMA_VERSION, 1, map["T" := NEWS.(revision := 1)], map[])

  /** The state after registering and verifying `s1`. */
  const SUBSCRIBED := Snapshot(
    SCHEMA_VERSION, 2, map["T" := NEWS.(revision := 1)], map["s1" := Sub("s1", 1).(revision := 2)])

  /** The state after registering, verifying `s1` and unsubscribing it. */
  const LEFT := Snapshot(
    SCHEMA_VERSION, 3, map["T" := NEWS.(revision := 1)],
    map["s1" := Sub("s1", 1).(status := SubscriptionRemoved, revision := 3)])

  lemma RegisterOnEmpty()
    ensures PLAIN.Apply(EMPTY, REGISTER) == Ok(Applied(WITH_TOPIC, true))
  {
  }

  lemma VerifyOnTopic()
    ensures PLAIN.Apply(WITH_TOPIC, VERIFY1) == Ok(Applied(SUBSCRIBED, true))
  {
    assert PLAIN.EffectOf(WITH_TOPIC, VERIFY1) == PutSubscription("s1", Sub("s1", 1));
  }

  lemma SubscribedIsValid()
    ensures PLAIN.ValidSnapshot(SUBSCRIBED)
  {
    assert PLAIN.ValidTopic("T", SUBSCRIBED.topics["T"], 2);
    assert PLAIN.ValidSubscription("s1", SUBSCRIBED.subscriptions["s1"], 2);
  }

  lemma LeaveSubscribed()
    ensures PLAIN.Apply(SUBSCRIBED, LEAVE1) == Ok(Applied(LEFT, true))
  {
    SubscribedIsValid();
    assert SUBSCRIBED.subscriptions["s1" := LEFT.subscriptions["s1"]] == LEFT.subscriptions;
  }

  lemma MergeOnSubscribed()
    ensures PLAIN.NoOp(SUBSCRIBED, VERIFY2)
  {
    SubscribedIsValid();
    assert Holds(SUBSCRIBED.subscriptions["s1"], "u", "cb");
  }

  /** Folds of at most three events, spelled out. */
  lemma FoldShort(r: Reducer, s: Snapshot, e: Event, f: Event, g: Event)
    ensures Fold(r, s, [e]) == Push(r, Ok(s), e)
    ensures Fold(r, s, [e, f]) == Push(r, Fold(r, s, [e]), f)
    ensures Fold(r, s, [e, f, g]) == Push(r, Fold(r, s, [e, f]), g)
  {
    hide Reducer.Apply;
    assert [e][..0] == [] && [e, f][..1] == [e] && [e, f, g][..2] == [e, f];
  }

  /** Counterexample: replaying `Verified s, Unsubscribed s` after both is rejected. */
  lemma ReplayedVerifyIsRejected()
    ensures var log := [REGISTER, VERIFY1, LEAVE1];
            At(PLAIN, log, 3) == Ok(LEFT) && HubView(PLAIN, log, 1, 3, 3).Err?
  {
    hide Reducer.Apply;
    var log := [REGISTER, VERIFY1, LEAVE1];
    RegisterOnEmpty();
    VerifyOnTopic();
    LeaveSubscribed();
    FoldShort(PLAIN, EMPTY, REGISTER, VERIFY1, LEAVE1);
    assert log[..3] == log && log[1..3] == [VERIFY1, LEAVE1];
    RejoinIsRejected();
    FoldShort(PLAIN, LEFT, VERIFY1, LEAVE1, LEAVE1);
  }

  lemma RejoinIsRejected()
    ensures PLAIN.Apply(LEFT, VERIFY1).Err?
  {
    assert PLAIN.EffectOf(LEFT, VERIFY1) == Reject;
  }

  const RETIRED := Snapshot(
    SCHEMA_VERSION, 2, map["T" := NEWS.(status := TopicInactive, revision := 2)], map[])

  lemma RetireTopic()
    ensures PLAIN.Apply(WITH_TOPIC, DEREGISTER) == Ok(Applied(RETIRED, true))
  {
    assert PLAIN.ValidTopic("T", WITH_TOPIC.topics["T"], 1);
    assert WITH_TOPIC.topics["T" := RETIRED.topics["T"]] == RETIRED.topics;
  }

  lemma ReviveTopic()
    ensures var revived := RETIRED.(revision := 3, topics := map["T" := NEWS.(revision := 3)]);
            && PLAIN.Apply(RETIRED, REGISTER) == Ok(Applied(revived, true))
            && PLAIN.Apply(revived, DEREGISTER).Ok?
            && PLAIN.Apply(revived, DEREGISTER).value.next.revision == 4
  {
    var revived := RETIRED.(revision := 3, topics := map["T" := NEWS.(revision := 3)]);
    assert PLAIN.ValidTopic("T", RETIRED.topics["T"], 2);
    assert RETIRED.topics["T" := revived.topics["T"]] == revived.topics;
    assert PLAIN.ValidTopic("T", revived.topics["T"], 3);
  }

  /** Counterexample: replaying `Registered T, Deregistered T` after both counts both again. */
  lemma ReplayedRegistrationCountsTwice()
    ensures var log := [REGISTER, DEREGISTER];
            && At(PLAIN, log, 2).Ok? && HubView(PLAIN, log, 0, 2, 2).Ok?
            && HubView(PLAIN, log, 0, 2, 2).value.revision == At(PLAIN, log, 2).value.revision + 2
  {
    hide Reducer.Apply;
    var log := [REGISTER, DEREGISTER];
    RegisterOnEmpty();
    RetireTopic();
    ReviveTopic();
    FoldShort(PLAIN, EMPTY, REGISTER, DEREGISTER, DEREGISTER);
    FoldShort(PLAIN, RETIRED, REGISTER, DEREGISTER, DEREGISTER);
    assert log[..2] == log && log[0..2] == log;
  }

  const MERGED_LOG := [REGISTER, VERIFY1, VERIFY2, LEAVE1]

  /** What a hub that replays the last two events of `MERGED_LOG` holds. */
  const DIVERGED := LEFT.(
    revision := 4, subscriptions := LEFT.subscriptions["s2" := Sub("s2", 2).(revision := 4)])

  /**
   Counterexample: `s2` was merged into the live `s1`, which then left.  Replaying both
   events inserts `s2` into the hub's state, where the canonical state has no `s2`.
   */
  lemma ReplayedMergeInserts()
    ensures At(PLAIN, MERGED_LOG, 4) == Ok(LEFT) && "s2" !in LEFT.subscriptions
    ensures HubView(PLAIN, MERGED_LOG, 2, 4, 4) == Ok(DIVERGED) && "s2" in DIVERGED.subscriptions
  {
    hide Reducer.Apply;
    var log := MERGED_LOG;
    RegisterOnEmpty();
    VerifyOnTopic();
    MergeOnSubscribed();
    LeaveSubscribed();
    FoldShort(PLAIN, EMPTY, REGISTER, VERIFY1, VERIFY2);
    assert log[..4] == [REGISTER, VERIFY1, VERIFY2] + [LEAVE1];
    FoldSnoc(PLAIN, EMPTY, [REGISTER, VERIFY1, VERIFY2], LEAVE1);
    assert log[2..4] == [VERIFY2, LEAVE1];
    JoinAfterLeft("hub");
    assert VERIFY2.subscription.(serverId := "hub") == VERIFY2.subscription;
    LeaveAgain();
    FoldShort(PLAIN, LEFT, VERIFY2, LEAVE1, LEAVE1);
  }

  lemma LeftIsValid()
    ensures PLAIN.ValidSnapshot(LEFT)
  {
    assert PLAIN.ValidTopic("T", LEFT.topics["T"], 3);
    assert PLAIN.ValidSubscription("s1", LEFT.subscriptions["s1"], 3);
  }

  /** Once `s1` has left, `s2` can join, for whichever server verified it. */
  lemma JoinAfterLeft(server: string)
    requires server != ""
    ensures var x := Sub("s2", 2).(serverId := server);
            PLAIN.Apply(LEFT, SubscriptionVerified(META, x)) ==
            Ok(Applied(LEFT.(revision := 4, subscriptions := LEFT.subscriptions["s2" := x.(revision := 4)]), true))
  {
    LeftIsValid();
    var x := Sub("s2", 2).(serverId := server);
    assert PLAIN.EffectOf(LEFT, SubscriptionVerified(META, x)) == PutSubscription("s2", x);
  }

  lemma LeaveAgain()
    ensures PLAIN.NoOp(DIVERGED, LEAVE1)
  {
    JoinAfterLeft("hub");
    assert DIVERGED == PLAIN.Apply(LEFT, SubscriptionVerified(META, Sub("s2", 2).(serverId := "hub"))).value.next;
    ApplyKeepsValid(PLAIN, LEFT, SubscriptionVerified(META, Sub("s2", 2).(serverId := "hub")));
  }

  lemma MergedOverlapDiverges()
    ensures !PLAIN.NoOp(LEFT, VERIFY2)
  {
    JoinAfterLeft("hub");
    assert VERIFY2.subscription.(serverId := "hub") == VERIFY2.subscription;
  }
}
