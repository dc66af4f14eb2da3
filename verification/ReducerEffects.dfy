/**
 What each kind of event asks for and what it writes, field by field: exactly when the
 reducer accepts it, exactly when that changes anything, and the whole next snapshot then.
 */
module ReducerEffects {
  import opened Wrappers
  import opened State
  import opened ReducerLaws

  // ------------------------------------------------------------------ what passes validation

  lemma SnapshotIsValidExactly(r: Reducer, s: Snapshot)
    ensures r.ValidSnapshot(s) <==>
            && s.schemaVersion == 1
            && (forall id :: id in s.topics ==>
                  var t := s.topics[id];
                  && id != "" && t.id == id && t.canonicalUrl != "" && t.contentDestination != "" && t.contentType != ""
                  && r.normalize(t.contentType) == Some(t.contentType)
                  && t.status in {TopicActive, TopicInactive} && t.revision <= s.revision)
            && (forall id :: id in s.subscriptions ==>
                  var x := s.subscriptions[id];
                  && id != "" && x.id == id && x.topicId != "" && x.topicUrl != "" && x.callbackUrl != ""
                  && x.serverId != "" && x.consumerId != ""
                  && x.status in {SubscriptionActive, SubscriptionStale, SubscriptionRemoved}
                  && r.acceptsOptions(x.parameters) && x.revision <= s.revision)
  {
  }

  lemma EventIsValidExactly(r: Reducer, e: Event)
    ensures r.ValidEvent(e) <==>
            && e.meta.schemaVersion == 1 && e.meta.eventId != "" && e.meta.actorType != ""
            && e.meta.occurredAt != 0 && e.meta.occurredAtIsUtc
            && (e.TopicRegistered? ==> r.normalize(e.topic.contentType) == Some(e.topic.contentType))
  {
  }

  /** Nothing is applied to an invalid snapshot, and no invalid event is applied. */
  lemma InvalidIsRejected(r: Reducer, s: Snapshot, e: Event)
    ensures !r.ValidSnapshot(s) ==> r.Apply(s, e) == Err(InvalidSnapshot)
    ensures r.ValidSnapshot(s) && !r.ValidEvent(e) ==> r.Apply(s, e) == Err(InvalidEvent)
    ensures r.ValidSnapshot(s) && r.ValidEvent(e) && r.Apply(s, e).Err? ==> r.Apply(s, e) == Err(InvalidTransition)
  {
  }

  // ------------------------------------------------------------------ the rest of the snapshot

  /** One more revision, the same subscriptions, and no topic but this one touched. */
  ghost predicate OnlyTopic(s: Snapshot, n: Snapshot, id: string) {
    && n.revision == s.revision + 1 && n.schemaVersion == s.schemaVersion && n.subscriptions == s.subscriptions
    && n.topics.Keys == s.topics.Keys + {id}
    && (forall k :: k in s.topics && k != id ==> n.topics[k] == s.topics[k])
  }

  /** One more revision, the same topics, and no subscription but this one touched. */
  ghost predicate OnlySubscription(s: Snapshot, n: Snapshot, id: string) {
    && n.revision == s.revision + 1 && n.schemaVersion == s.schemaVersion && n.topics == s.topics
    && n.subscriptions.Keys == s.subscriptions.Keys + {id}
    && (forall k :: k in s.subscriptions && k != id ==> n.subscriptions[k] == s.subscriptions[k])
  }

  // ------------------------------------------------------------------ topics

  lemma RegistrationExactly(r: Reducer, s: Snapshot, meta: Metadata, t: Topic)
    requires r.ValidSnapshot(s) && r.ValidEvent(TopicRegistered(meta, t))
    ensures var result := r.Apply(s, TopicRegistered(meta, t));
            && (result.Ok? <==>
                && t.id != "" && t.canonicalUrl != "" && t.contentDestination != "" && t.contentType != "" && t.registeredAt != 0
                && (t.id in s.topics ==>
                      s.topics[t.id].canonicalUrl == t.canonicalUrl && s.topics[t.id].contentType == t.contentType))
            && (result.Ok? ==>
                  (result.value.changed <==>
                   !(t.id in s.topics && s.topics[t.id].status == TopicActive && SameRegistration(s.topics[t.id], t))))
            && (result.Ok? && !result.value.changed ==> result.value.next == s)
            && (result.Ok? && result.value.changed ==>
                  var n := result.value.next;
                  && OnlyTopic(s, n, t.id) && SameRegistration(n.topics[t.id], t)
                  && n.topics[t.id].status == TopicActive && n.topics[t.id].revision == s.revision + 1)
  {
    hide Reducer.ValidSnapshot;
  }

  lemma DeregistrationExactly(r: Reducer, s: Snapshot, meta: Metadata, id: string)
    requires r.ValidSnapshot(s) && r.ValidEvent(TopicDeregistered(meta, id))
    ensures var result := r.Apply(s, TopicDeregistered(meta, id));
            && (result.Ok? <==> id in s.topics)
            && (result.Ok? ==> (result.value.changed <==> s.topics[id].status == TopicActive))
            && (result.Ok? && !result.value.changed ==> result.value.next == s)
            && (result.Ok? && result.value.changed ==>
                  var n := result.value.next;
                  && OnlyTopic(s, n, id) && SameRegistration(n.topics[id], s.topics[id])
                  && n.topics[id].status == TopicInactive && n.topics[id].revision == s.revision + 1)
  {
    if id in s.topics {
      assert r.ValidTopic(id, s.topics[id], s.revision);
    }
    hide Reducer.ValidSnapshot;
  }

  // ------------------------------------------------------------------ subscriptions

  /** Some subscription that is not removed has the same topic and callback. */
  ghost predicate HasLiveTwin(s: Snapshot, x: Subscription) {
    exists k :: && k in s.subscriptions && s.subscriptions[k].status != SubscriptionRemoved
                && s.subscriptions[k].topicUrl == x.topicUrl && s.subscriptions[k].callbackUrl == x.callbackUrl
  }

  lemma VerificationExactly(r: Reducer, s: Snapshot, meta: Metadata, x: Subscription)
    requires r.ValidSnapshot(s) && r.ValidEvent(SubscriptionVerified(meta, x))
    ensures var result := r.Apply(s, SubscriptionVerified(meta, x));
            && (result.Ok? <==>
                && x.id != "" && x.topicId != "" && x.topicUrl != "" && x.callbackUrl != "" && x.serverId != ""
                && x.consumerId != "" && x.leaseStartedAt != 0 && r.acceptsOptions(x.parameters)
                && x.topicId in s.topics && s.topics[x.topicId].status == TopicActive
                && s.topics[x.topicId].canonicalUrl == x.topicUrl
                && (x.id in s.subscriptions ==>
                      && s.subscriptions[x.id].status == SubscriptionActive && s.subscriptions[x.id].staleReason == ""
                      && SameTerms(s.subscriptions[x.id], x)))
            && (result.Ok? ==> (result.value.changed <==> x.id !in s.subscriptions && !HasLiveTwin(s, x)))
            && (result.Ok? && !result.value.changed ==> result.value.next == s)
            && (result.Ok? && result.value.changed ==>
                  var n := result.value.next;
                  && OnlySubscription(s, n, x.id) && SameTerms(n.subscriptions[x.id], x)
                  && n.subscriptions[x.id].status == SubscriptionActive && n.subscriptions[x.id].staleReason == ""
                  && n.subscriptions[x.id].revision == s.revision + 1)
  {
    hide Reducer.ValidSnapshot;
    assert HasLiveTwin(s, x) <==> PairTaken(s.subscriptions, x.topicUrl, x.callbackUrl) by {
      if HasLiveTwin(s, x) {
        var k :| && k in s.subscriptions && s.subscriptions[k].status != SubscriptionRemoved
                 && s.subscriptions[k].topicUrl == x.topicUrl && s.subscriptions[k].callbackUrl == x.callbackUrl;
        assert Holds(s.subscriptions[k], x.topicUrl, x.callbackUrl);
      }
    }
  }

  lemma RemovalExactly(r: Reducer, s: Snapshot, e: Event)
    requires (e.SubscriptionUnsubscribed? || e.SubscriptionWasRemoved?) && r.ValidSnapshot(s) && r.ValidEvent(e)
    ensures var result, id := r.Apply(s, e), e.subscriptionId;
            && (result.Ok? <==> id in s.subscriptions)
            && (result.Ok? ==> (result.value.changed <==> s.subscriptions[id].status != SubscriptionRemoved))
            && (result.Ok? && !result.value.changed ==> result.value.next == s)
            && (result.Ok? && result.value.changed ==>
                  var n := result.value.next;
                  && OnlySubscription(s, n, id) && SameTerms(n.subscriptions[id], s.subscriptions[id])
                  && n.subscriptions[id].status == SubscriptionRemoved && n.subscriptions[id].staleReason == ""
                  && n.subscriptions[id].revision == s.revision + 1)
  {
    hide Reducer.ValidSnapshot;
  }

  lemma StaleExactly(r: Reducer, s: Snapshot, meta: Metadata, id: string, reason: string)
    requires r.ValidSnapshot(s) && r.ValidEvent(SubscriptionWentStale(meta, id, reason))
    ensures var result := r.Apply(s, SubscriptionWentStale(meta, id, reason));
            && (result.Ok? <==> id in s.subscriptions && s.subscriptions[id].status != SubscriptionRemoved)
            && (result.Ok? ==>
                  (result.value.changed <==>
                   !(s.subscriptions[id].status == SubscriptionStale && s.subscriptions[id].staleReason == reason)))
            && (result.Ok? && !result.value.changed ==> result.value.next == s)
            && (result.Ok? && result.value.changed ==>
                  var n := result.value.next;
                  && OnlySubscription(s, n, id) && SameTerms(n.subscriptions[id], s.subscriptions[id])
                  && n.subscriptions[id].status == SubscriptionStale && n.subscriptions[id].staleReason == reason
                  && n.subscriptions[id].revision == s.revision + 1)
  {
    hide Reducer.ValidSnapshot;
  }

  lemma ReactivationExactly(r: Reducer, s: Snapshot, meta: Metadata, id: string)
    requires r.ValidSnapshot(s) && r.ValidEvent(SubscriptionReactivated(meta, id))
    ensures var result := r.Apply(s, SubscriptionReactivated(meta, id));
            && (result.Ok? <==> id in s.subscriptions && s.subscriptions[id].status != SubscriptionRemoved)
            && (result.Ok? ==> (result.value.changed <==> s.subscriptions[id].status != SubscriptionActive))
            && (result.Ok? && !result.value.changed ==> result.value.next == s)
            && (result.Ok? && result.value.changed ==>
                  var n := result.value.next;
                  && OnlySubscription(s, n, id) && SameTerms(n.subscriptions[id], s.subscriptions[id])
                  && n.subscriptions[id].status == SubscriptionActive && n.subscriptions[id].staleReason == ""
                  && n.subscriptions[id].revision == s.revision + 1)
  {
    hide Reducer.ValidSnapshot;
  }
}
