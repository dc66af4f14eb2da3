/**
 Folding the reducer over a log of events.  `At(r, log, n)` is the canonical state
 after the first `n` events; it is an error from the first rejected event on.
 */
module EventLog {
  import opened Wrappers
  import opened State
  import opened ReducerLaws

  /** One more event on top of a fold that may already have failed. */
  function Push(r: Reducer, before: Result<Snapshot, Error>, e: Event): Result<Snapshot, Error> {
    if before.Err? then before
    else
      var applied := r.Apply(before.value, e);
      if applied.Err? then Err(applied.error) else Ok(applied.value.next)
  }

  function Fold(r: Reducer, s: Snapshot, events: seq<Event>): Result<Snapshot, Error>
    decreases |events|
  {
    if |events| == 0 then Ok(s)
    else Push(r, Fold(r, s, events[..|events| - 1]), events[|events| - 1])
  }

  /** Folding further events on top of a fold that may already have failed. */
  function Continue(r: Reducer, before: Result<Snapshot, Error>, events: seq<Event>): Result<Snapshot, Error> {
    if before.Err? then before else Fold(r, before.value, events)
  }

  function At(r: Reducer, log: seq<Event>, n: nat): Result<Snapshot, Error>
    requires n <= |log|
  {
    Fold(r, EMPTY, log[..n])
  }

  /** How many of the first `n` events changed the state. */
  function Effective(r: Reducer, log: seq<Event>, n: nat): nat
    requires n <= |log|
  {
    if n == 0 then 0
    else
      var before := At(r, log, n - 1);
      Effective(r, log, n - 1)
      + (if before.Ok? && r.Apply(before.value, log[n - 1]).Ok? && r.Apply(before.value, log[n - 1]).value.changed
         then 1 else 0)
  }

  lemma FoldSnoc(r: Reducer, s: Snapshot, events: seq<Event>, e: Event)
    ensures Fold(r, s, events + [e]) == Push(r, Fold(r, s, events), e)
  {
    assert (events + [e])[..|events|] == events;
  }

  lemma {:induction false} FoldConcat(r: Reducer, s: Snapshot, a: seq<Event>, b: seq<Event>)
    ensures Fold(r, s, a + b) == Continue(r, Fold(r, s, a), b)
    decreases |b|
  {
    if b == [] {
      assert a + b == a;
    } else {
      var c, e := b[..|b| - 1], b[|b| - 1];
      assert b == c + [e] && a + b == (a + c) + [e];
      FoldConcat(r, s, a, c);
      FoldSnoc(r, s, a + c, e);
      if Fold(r, s, a).Ok? {
        FoldSnoc(r, Fold(r, s, a).value, c, e);
      }
    }
  }

  lemma AtStep(r: Reducer, log: seq<Event>, n: nat)
    requires n < |log|
    ensures At(r, log, n + 1) == Push(r, At(r, log, n), log[n])
  {
    assert log[..n + 1] == log[..n] + [log[n]];
    FoldSnoc(r, EMPTY, log[..n], log[n]);
  }

  /** Later appends never change an earlier state. */
  lemma AtGrows(r: Reducer, log: seq<Event>, longer: seq<Event>, n: nat)
    requires n <= |log| && log <= longer
    ensures At(r, longer, n) == At(r, log, n)
  {
    assert longer[..n] == log[..n];
  }

  lemma AtSplit(r: Reducer, log: seq<Event>, m: nat, n: nat)
    requires m <= n <= |log|
    ensures At(r, log, n) == Continue(r, At(r, log, m), log[m..n])
  {
    assert log[..n] == log[..m] + log[m..n];
    FoldConcat(r, EMPTY, log[..m], log[m..n]);
  }

  lemma EmptyIsSound(r: Reducer)
    ensures Sound(r, EMPTY)
  {
  }

  /** Folding any events over a sound state gives a sound state that evolves from it. */
  lemma {:induction false} FoldKeeps(r: Reducer, s: Snapshot, events: seq<Event>)
    requires Fold(r, s, events).Ok?
    ensures Evolves(s, Fold(r, s, events).value)
    ensures r.ValidSnapshot(s) ==> r.ValidSnapshot(Fold(r, s, events).value)
    ensures Sound(r, s) ==> Sound(r, Fold(r, s, events).value)
    ensures Fold(r, s, events).value.revision == s.revision ==> Fold(r, s, events).value == s
    decreases |events|
  {
    if events != [] {
      var n := |events| - 1;
      FoldKeeps(r, s, events[..n]);
      var t := Fold(r, s, events[..n]).value;
      var u := r.Apply(t, events[n]).value.next;
      ApplyEvolves(r, t, events[n]);
      EvolvesTransitive(s, t, u);
      ApplyKeepsValid(r, t, events[n]);
      ApplyAdvances(r, t, events[n]);
      if Sound(r, s) { ApplyKeepsSound(r, t, events[n]); }
    }
  }

  /** Every canonical state satisfies every reducer invariant. */
  lemma ReachableIsSound(r: Reducer, log: seq<Event>, n: nat)
    requires n <= |log| && At(r, log, n).Ok?
    ensures Sound(r, At(r, log, n).value)
  {
    EmptyIsSound(r);
    FoldKeeps(r, EMPTY, log[..n]);
  }

  /** States along one log evolve, and an accepted prefix makes every shorter one accepted. */
  lemma ReachableEvolves(r: Reducer, log: seq<Event>, m: nat, n: nat)
    requires m <= n <= |log| && At(r, log, n).Ok?
    ensures At(r, log, m).Ok?
    ensures Evolves(At(r, log, m).value, At(r, log, n).value)
  {
    AtSplit(r, log, m, n);
    FoldKeeps(r, At(r, log, m).value, log[m..n]);
  }

  /** The revision is the number of events that changed something. */
  lemma {:induction false} RevisionCountsEffects(r: Reducer, log: seq<Event>, n: nat)
    requires n <= |log| && At(r, log, n).Ok?
    ensures At(r, log, n).value.revision == Effective(r, log, n)
    decreases n
  {
    if n > 0 {
      AtStep(r, log, n - 1);
      RevisionCountsEffects(r, log, n - 1);
      ApplyAdvances(r, At(r, log, n - 1).value, log[n - 1]);
    }
  }

  /** Within one log the revision identifies the state. */
  lemma RevisionIdentifiesState(r: Reducer, log: seq<Event>, m: nat, n: nat)
    requires m <= |log| && n <= |log| && At(r, log, m).Ok? && At(r, log, n).Ok?
    requires At(r, log, m).value.revision == At(r, log, n).value.revision
    ensures At(r, log, m) == At(r, log, n)
  {
    var a, b := if m <= n then m else n, if m <= n then n else m;
    AtSplit(r, log, a, b);
    FoldKeeps(r, At(r, log, a).value, log[a..b]);
  }

  predicate Removes(e: Event, id: string) {
    (e.SubscriptionUnsubscribed? || e.SubscriptionWasRemoved?) && e.subscriptionId == id
  }

  predicate Deregisters(e: Event, topicId: string) {
    e.TopicDeregistered? && e.topicId == topicId
  }

  ghost predicate HasRemoval(events: seq<Event>, id: string) {
    exists k :: 0 <= k < |events| && Removes(events[k], id)
  }

  ghost predicate HasDeregistration(events: seq<Event>, topicId: string) {
    exists k :: 0 <= k < |events| && Deregisters(events[k], topicId)
  }

  lemma ApplyNeedsCause(r: Reducer, s: Snapshot, e: Event, id: string)
    requires r.Apply(s, e).Ok?
    ensures var n := r.Apply(s, e).value.next;
            id in n.subscriptions && n.subscriptions[id].status == SubscriptionRemoved ==>
              (id in s.subscriptions && s.subscriptions[id].status == SubscriptionRemoved) || Removes(e, id)
    ensures var n := r.Apply(s, e).value.next;
            id in n.topics && n.topics[id].status != TopicActive ==>
              (id in s.topics && s.topics[id].status != TopicActive) || Deregisters(e, id)
  {
  }

  /** A removed subscription or an inactive topic is always explained by an event in the log. */
  lemma {:induction false} FoldNeedsCause(r: Reducer, s: Snapshot, events: seq<Event>, id: string)
    requires Fold(r, s, events).Ok?
    ensures var n := Fold(r, s, events).value;
            id in n.subscriptions && n.subscriptions[id].status == SubscriptionRemoved ==>
              (id in s.subscriptions && s.subscriptions[id].status == SubscriptionRemoved) || HasRemoval(events, id)
    ensures var n := Fold(r, s, events).value;
            id in n.topics && n.topics[id].status != TopicActive ==>
              (id in s.topics && s.topics[id].status != TopicActive) || HasDeregistration(events, id)
    decreases |events|
  {
    if events != [] {
      var n := |events| - 1;
      var t := Fold(r, s, events[..n]).value;
      FoldNeedsCause(r, s, events[..n], id);
      ApplyNeedsCause(r, t, events[n], id);
      if HasRemoval(events[..n], id) {
        var k :| 0 <= k < n && Removes(events[..n][k], id);
        assert Removes(events[k], id);
      }
      if HasDeregistration(events[..n], id) {
        var k :| 0 <= k < n && Deregisters(events[..n][k], id);
        assert Deregisters(events[k], id);
      }
    }
  }
}
