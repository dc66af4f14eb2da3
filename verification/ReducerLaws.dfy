/**
 Laws of one reducer step: what it keeps (`Sound`), what it can never undo
 (`Evolves`), and that an event applied twice in a row counts once.
 */
module ReducerLaws {
  import opened Wrappers
  import opened State

  /** No two subscriptions that are not removed share a (topic URL, callback URL) pair. */
  ghost predicate UniqueLive(s: Snapshot) {
    forall i, j :: i in s.subscriptions && j in s.subscriptions && i != j
                   && s.subscriptions[i].status != SubscriptionRemoved
                   && s.subscriptions[j].status != SubscriptionRemoved
      ==> s.subscriptions[i].topicUrl != s.subscriptions[j].topicUrl
          || s.subscriptions[i].callbackUrl != s.subscriptions[j].callbackUrl
  }

  /** Every subscription's topic exists and has the subscription's topic URL. */
  ghost predicate TopicsBacked(s: Snapshot) {
    forall i :: i in s.subscriptions ==>
      s.subscriptions[i].topicId in s.topics
      && s.topics[s.subscriptions[i].topicId].canonicalUrl == s.subscriptions[i].topicUrl
  }

  ghost predicate Dated(s: Snapshot) {
    && (forall i :: i in s.topics ==> s.topics[i].registeredAt != 0)
    && (forall i :: i in s.subscriptions ==> s.subscriptions[i].leaseStartedAt != 0)
  }

  /** Entity revisions are positive, at most the snapshot's, and pairwise distinct over both maps. */
  ghost predicate DistinctStamps(s: Snapshot) {
    && (forall i :: i in s.topics ==> 1 <= s.topics[i].revision <= s.revision)
    && (forall i :: i in s.subscriptions ==> 1 <= s.subscriptions[i].revision <= s.revision)
    && (forall i, j :: i in s.topics && j in s.topics && s.topics[i].revision == s.topics[j].revision ==> i == j)
    && (forall i, j :: i in s.subscriptions && j in s.subscriptions && i != j
          ==> s.subscriptions[i].revision != s.subscriptions[j].revision)
    && (forall i, j :: i in s.topics && j in s.subscriptions ==> s.topics[i].revision != s.subscriptions[j].revision)
  }

  /** Some entity carries the snapshot's own revision, unless nothing ever changed. */
  ghost predicate TopStamped(s: Snapshot) {
    || s.revision == 0
    || (exists i :: i in s.topics && s.topics[i].revision == s.revision)
    || (exists i :: i in s.subscriptions && s.subscriptions[i].revision == s.revision)
  }

  ghost predicate Sound(r: Reducer, s: Snapshot) {
    && r.ValidSnapshot(s)
    && UniqueLive(s)
    && TopicsBacked(s)
    && Dated(s)
    && DistinctStamps(s)
    && TopStamped(s)
  }

  ghost predicate TopicKept(id: string, a: Snapshot, b: Snapshot) {
    id in a.topics ==>
      && id in b.topics
      && b.topics[id].canonicalUrl == a.topics[id].canonicalUrl
      && b.topics[id].contentType == a.topics[id].contentType
  }

  /** Everything about a subscription that its verification fixed. */
  predicate SameTerms(a: Subscription, b: Subscription) {
    && a.id == b.id
    && a.topicId == b.topicId && a.topicUrl == b.topicUrl
    && a.callbackUrl == b.callbackUrl
    && a.secretCiphertext == b.secretCiphertext && a.secretKeyId == b.secretKeyId
    && a.leaseStartedAt == b.leaseStartedAt && a.effectiveLeaseSeconds == b.effectiveLeaseSeconds
    && a.serverId == b.serverId && a.consumerId == b.consumerId
    && a.parameters == b.parameters
  }

  /** Everything about a topic that its registration fixed. */
  predicate SameRegistration(a: Topic, b: Topic) {
    && a.id == b.id && a.canonicalUrl == b.canonicalUrl
    && a.contentDestination == b.contentDestination && a.contentType == b.contentType
    && a.registeredAt == b.registeredAt && a.registeredBy == b.registeredBy
  }

  /**
   The subscription is still there with every field but status, stale reason and
   revision unchanged, and a removed one is still removed.
   */
  ghost predicate SubscriptionKept(id: string, a: Snapshot, b: Snapshot) {
    id in a.subscriptions ==>
      && id in b.subscriptions
      && SameTerms(b.subscriptions[id], a.subscriptions[id])
      && (a.subscriptions[id].status == SubscriptionRemoved ==> b.subscriptions[id].status == SubscriptionRemoved)
  }

  /** What no number of events can undo. */
  ghost predicate Evolves(a: Snapshot, b: Snapshot) {
    && a.revision <= b.revision
    && (forall id :: TopicKept(id, a, b))
    && (forall id :: SubscriptionKept(id, a, b))
  }

  lemma EvolvesFromEmpty(s: Snapshot)
    ensures Evolves(EMPTY, s)
  {
  }

  lemma EvolvesReflexive(s: Snapshot)
    ensures Evolves(s, s)
  {
  }

  lemma EvolvesTransitive(a: Snapshot, b: Snapshot, c: Snapshot)
    requires Evolves(a, b) && Evolves(b, c)
    ensures Evolves(a, c)
  {
    forall id ensures TopicKept(id, a, c) {
      assert TopicKept(id, a, b) && TopicKept(id, b, c);
    }
    forall id ensures SubscriptionKept(id, a, c) {
      assert SubscriptionKept(id, a, b) && SubscriptionKept(id, b, c);
    }
  }

  lemma ApplyEvolves(r: Reducer, s: Snapshot, e: Event)
    requires r.Apply(s, e).Ok?
    ensures Evolves(s, r.Apply(s, e).value.next)
  {
    hide Reducer.ValidSnapshot;
    var n := r.Apply(s, e).value.next;
    forall id ensures TopicKept(id, s, n) && SubscriptionKept(id, s, n) {
    }
  }

  lemma ApplyKeepsValid(r: Reducer, s: Snapshot, e: Event)
    requires r.Apply(s, e).Ok?
    ensures r.ValidSnapshot(r.Apply(s, e).value.next)
  {
    var n := r.Apply(s, e).value.next;
    forall id | id in n.topics ensures r.ValidTopic(id, n.topics[id], n.revision) {
      if id in s.topics { assert r.ValidTopic(id, s.topics[id], s.revision); }
    }
    forall id | id in n.subscriptions ensures r.ValidSubscription(id, n.subscriptions[id], n.revision) {
      if id in s.subscriptions { assert r.ValidSubscription(id, s.subscriptions[id], s.revision); }
    }
  }

  /** A change advances the revision by exactly one; anything else leaves the snapshot alone. */
  lemma ApplyAdvances(r: Reducer, s: Snapshot, e: Event)
    requires r.Apply(s, e).Ok?
    ensures var a := r.Apply(s, e).value;
            if a.changed then a.next.revision == s.revision + 1 else a.next == s
  {
  }

  lemma ApplyKeepsUniqueLive(r: Reducer, s: Snapshot, e: Event)
    requires r.Apply(s, e).Ok? && UniqueLive(s)
    ensures UniqueLive(r.Apply(s, e).value.next)
  {
    hide Reducer.ValidSnapshot;
  }

  lemma ApplyKeepsTopicsBacked(r: Reducer, s: Snapshot, e: Event)
    requires r.Apply(s, e).Ok? && TopicsBacked(s)
    ensures TopicsBacked(r.Apply(s, e).value.next)
  {
    hide Reducer.ValidSnapshot;
  }

  lemma ApplyKeepsDated(r: Reducer, s: Snapshot, e: Event)
    requires r.Apply(s, e).Ok? && Dated(s)
    ensures Dated(r.Apply(s, e).value.next)
  {
    hide Reducer.ValidSnapshot;
  }

  lemma CommitKeepsStamps(r: Reducer, s: Snapshot, effect: Effect)
    requires effect.PutTopic? || effect.PutSubscription?
    requires DistinctStamps(s)
    ensures DistinctStamps(r.Commit(s, effect)) && TopStamped(r.Commit(s, effect))
  {
    hide DistinctStamps, TopStamped;
    match effect
    case PutTopic(id, t) => TopicStampIsDistinct(s, id, t.(revision := s.revision + 1));
    case PutSubscription(id, x) => SubscriptionStampIsDistinct(s, id, x.(revision := s.revision + 1));
  }

  lemma TopicStampIsDistinct(s: Snapshot, id: string, t: Topic)
    requires DistinctStamps(s) && t.revision == s.revision + 1
    ensures var n := s.(revision := s.revision + 1, topics := s.topics[id := t]); DistinctStamps(n) && TopStamped(n)
  {
    assert id in s.topics[id := t];
  }

  lemma SubscriptionStampIsDistinct(s: Snapshot, id: string, x: Subscription)
    requires DistinctStamps(s) && x.revision == s.revision + 1
    ensures var n := s.(revision := s.revision + 1, subscriptions := s.subscriptions[id := x]); DistinctStamps(n) && TopStamped(n)
  {
    assert id in s.subscriptions[id := x];
  }

  lemma ApplyKeepsStamps(r: Reducer, s: Snapshot, e: Event)
    requires r.Apply(s, e).Ok? && DistinctStamps(s) && TopStamped(s)
    ensures DistinctStamps(r.Apply(s, e).value.next) && TopStamped(r.Apply(s, e).value.next)
  {
    if r.Apply(s, e).value.changed {
      CommitKeepsStamps(r, s, r.EffectOf(s, e));
    }
  }

  /** Every invariant of reachable state is kept by every accepted event. */
  lemma ApplyKeepsSound(r: Reducer, s: Snapshot, e: Event)
    requires r.Apply(s, e).Ok? && Sound(r, s)
    ensures Sound(r, r.Apply(s, e).value.next)
  {
    ApplyKeepsValid(r, s, e);
    ApplyKeepsUniqueLive(r, s, e);
    ApplyKeepsTopicsBacked(r, s, e);
    ApplyKeepsDated(r, s, e);
    ApplyKeepsStamps(r, s, e);
  }

  /** An event that was just applied is a no-op: re-applying it neither fails nor counts again. */
  lemma ApplyIsIdempotent(r: Reducer, s: Snapshot, e: Event)
    requires r.Apply(s, e).Ok?
    ensures r.NoOp(r.Apply(s, e).value.next, e)
  {
    hide Reducer.ValidSnapshot;
    ApplyKeepsValid(r, s, e);
  }
}
