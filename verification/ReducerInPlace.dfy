/**
 The reducer as the program runs it: clone the snapshot, change the clone's maps in
 place with revision-less entities, then bump the revision and stamp the one entity
 the event names.  `ApplyCloned` shows that this two-phase update computes
 `Reducer.Apply`, whatever order the subscription map is scanned in.
 */
module ReducerInPlace {
  import opened Wrappers
  import opened State

  class Clone {
    var revision: nat
    var topics: map<string, Topic>
    var subscriptions: map<string, Subscription>

    constructor (s: Snapshot)
      ensures revision == s.revision && topics == s.topics && subscriptions == s.subscriptions
    {
      revision, topics, subscriptions := s.revision, s.topics, s.subscriptions;
    }

    function View(): Snapshot
      reads this
    {
      Snapshot(SCHEMA_VERSION, revision, topics, subscriptions)
    }

    /** What the maps hold after an effect but before its stamp. */
    static function Written(s: Snapshot, effect: Effect): Snapshot {
      match effect
      case Reject => s
      case Keep => s
      case PutTopic(id, t) => s.(topics := s.topics[id := t])
      case PutSubscription(id, x) => s.(subscriptions := s.subscriptions[id := x])
    }

    method PairIsTaken(topicUrl: string, callbackUrl: string) returns (taken: bool)
      ensures taken == PairTaken(subscriptions, topicUrl, callbackUrl)
    {
      var rest := subscriptions.Keys;
      while rest != {}
        invariant rest <= subscriptions.Keys
        invariant forall id :: id in subscriptions && id !in rest ==>
                                 !Holds(subscriptions[id], topicUrl, callbackUrl)
        decreases rest
      {
        var id :| id in rest;
        if Holds(subscriptions[id], topicUrl, callbackUrl) {
          return true;
        }
        rest := rest - {id};
      }
      return false;
    }

    method RemoveSubscription(r: Reducer, id: string) returns (accepted: bool, changed: bool)
      modifies this`subscriptions
      ensures var effect := r.RemoveEffect(old(View()), id);
              && accepted == !effect.Reject?
              && changed == effect.PutSubscription?
              && View() == Written(old(View()), effect)
    {
      if id !in subscriptions {
        return false, false;
      }
      var x := subscriptions[id];
      if x.status == SubscriptionRemoved {
        return true, false;
      }
      subscriptions := subscriptions[id := x.(status := SubscriptionRemoved, staleReason := "")];
      return true, true;
    }

    method RegisterTopic(r: Reducer, t: Topic) returns (accepted: bool, changed: bool)
      modifies this`topics
      ensures var effect := r.RegisterEffect(old(View()), t);
              && accepted == !effect.Reject?
              && changed == effect.PutTopic?
              && View() == Written(old(View()), effect)
    {
      if !r.CompleteTopic(t) {
        return false, false;
      }
      var desired := t.(status := TopicActive, revision := 0);
      if desired.id in topics {
        var existing := topics[desired.id];
        if existing.status == TopicActive && SameTopic(existing, desired) {
          return true, false;
        }
        if existing.canonicalUrl != desired.canonicalUrl {
          return false, false;
        }
        if existing.contentType != desired.contentType {
          return false, false;
        }
      }
      topics := topics[desired.id := desired];
      return true, true;
    }

    method VerifySubscription(r: Reducer, x: Subscription) returns (accepted: bool, changed: bool)
      modifies this`subscriptions
      ensures var effect := r.VerifyEffect(old(View()), x);
              && accepted == !effect.Reject?
              && changed == effect.PutSubscription?
              && View() == Written(old(View()), effect)
    {
      if !r.CompleteSubscription(x) {
        return false, false;
      }
      if x.topicId !in topics || topics[x.topicId].status != TopicActive
         || topics[x.topicId].canonicalUrl != x.topicUrl {
        return false, false;
      }
      var desired := x.(status := SubscriptionActive, staleReason := "", revision := 0);
      if desired.id in subscriptions {
        var existing := subscriptions[desired.id];
        return existing.status == SubscriptionActive && SameSubscription(existing, desired), false;
      }
      var taken := PairIsTaken(desired.topicUrl, desired.callbackUrl);
      if taken {
        return true, false;
      }
      subscriptions := subscriptions[desired.id := desired];
      return true, true;
    }

    method ChangeInPlace(r: Reducer, e: Event) returns (accepted: bool, changed: bool)
      modifies this`topics, this`subscriptions
      ensures var effect := r.EffectOf(old(View()), e);
              && accepted == !effect.Reject?
              && changed == (effect.PutTopic? || effect.PutSubscription?)
              && View() == Written(old(View()), effect)
    {
      match e
      case TopicRegistered(_, t) =>
        accepted, changed := RegisterTopic(r, t);
      case TopicDeregistered(_, id) =>
        if id !in topics {
          return false, false;
        }
        var t := topics[id];
        if t.status == TopicInactive {
          return true, false;
        }
        topics := topics[id := t.(status := TopicInactive)];
        return true, true;
      case SubscriptionVerified(_, x) =>
        accepted, changed := VerifySubscription(r, x);
      case SubscriptionUnsubscribed(_, id) =>
        accepted, changed := RemoveSubscription(r, id);
      case SubscriptionWasRemoved(_, id, _) =>
        accepted, changed := RemoveSubscription(r, id);
      case SubscriptionWentStale(_, id, reason) =>
        if id !in subscriptions || subscriptions[id].status == SubscriptionRemoved {
          return false, false;
        }
        var x := subscriptions[id];
        if x.status == SubscriptionStale && x.staleReason == reason {
          return true, false;
        }
        subscriptions := subscriptions[id := x.(status := SubscriptionStale, staleReason := reason)];
        return true, true;
      case SubscriptionReactivated(_, id) =>
        if id !in subscriptions || subscriptions[id].status == SubscriptionRemoved {
          return false, false;
        }
        var x := subscriptions[id];
        if x.status == SubscriptionActive {
          return true, false;
        }
        subscriptions := subscriptions[id := x.(status := SubscriptionActive, staleReason := "")];
        return true, true;
    }

    /** Writes the new revision into the one entity the event names, just written by the change. */
    method StampRevision(e: Event, rev: nat)
      requires if NamesTopic(e) then NamedKey(e) in topics else NamedKey(e) in subscriptions
      modifies this`topics, this`subscriptions
      ensures NamesTopic(e) ==>
                && topics == old(topics)[NamedKey(e) := old(topics)[NamedKey(e)].(revision := rev)]
                && subscriptions == old(subscriptions)
      ensures !NamesTopic(e) ==>
                && topics == old(topics)
                && subscriptions ==
                   old(subscriptions)[NamedKey(e) := old(subscriptions)[NamedKey(e)].(revision := rev)]
    {
      var key := NamedKey(e);
      if NamesTopic(e) {
        topics := topics[key := topics[key].(revision := rev)];
      } else {
        subscriptions := subscriptions[key := subscriptions[key].(revision := rev)];
      }
    }
  }

  predicate NamesTopic(e: Event) {
    e.TopicRegistered? || e.TopicDeregistered?
  }

  /** The identifier of the entity an event is about. */
  function NamedKey(e: Event): string {
    match e
    case TopicRegistered(_, t) => t.id
    case TopicDeregistered(_, id) => id
    case SubscriptionVerified(_, x) => x.id
    case SubscriptionUnsubscribed(_, id) => id
    case SubscriptionWentStale(_, id, _) => id
    case SubscriptionReactivated(_, id) => id
    case SubscriptionWasRemoved(_, id, _) => id
  }

  lemma EffectNamesKey(r: Reducer, s: Snapshot, e: Event)
    ensures var effect := r.EffectOf(s, e);
            && (effect.PutTopic? ==> effect.topicKey == NamedKey(e) && NamesTopic(e))
            && (effect.PutSubscription? ==> effect.subscriptionKey == NamedKey(e) && !NamesTopic(e))
  {
  }

  /** The program's clone, change and stamp sequence is exactly the reducer. */
  method ApplyCloned(r: Reducer, current: Snapshot, e: Event) returns (result: Result<Applied, Error>)
    ensures result == r.Apply(current, e)
  {
    if !r.ValidSnapshot(current) {
      return Err(InvalidSnapshot);
    }
    if !r.ValidEvent(e) {
      return Err(InvalidEvent);
    }
    var next := new Clone(current);
    var accepted, changed := next.ChangeInPlace(r, e);
    if !accepted {
      return Err(InvalidTransition);
    }
    if !changed {
      return Ok(Applied(current, false));
    }
    EffectNamesKey(r, current, e);
    next.revision := next.revision + 1;
    next.StampRevision(e, next.revision);
    ghost var expected := r.Commit(current, r.EffectOf(current, e));
    assert next.topics == expected.topics;
    assert next.subscriptions == expected.subscriptions;
    return Ok(Applied(Snapshot(current.schemaVersion, next.revision, next.topics, next.subscriptions), true));
  }
}
