/**
 The product state: topics, subscriptions, the seven event kinds, the checks that
 every stored snapshot and event must pass, and the deterministic reducer.

 Library code enters as two fields of `Reducer`: the media-type normalizer and the
 acceptance test for subscription options.  Nothing is assumed about either, so
 every result holds for every choice of them.  An instant is an `int` whose zero
 is Go's zero time; a revision is a `nat`.
 */
module State {
  import opened Wrappers

  const SCHEMA_VERSION: nat := 1

  datatype TopicStatus = TopicActive | TopicInactive | TopicOther(text: string)

  datatype SubscriptionStatus =
    | SubscriptionActive
    | SubscriptionStale
    | SubscriptionRemoved
    | SubscriptionOther(text: string)

  datatype Topic = Topic(
    id: string,
    canonicalUrl: string,
    contentDestination: string,
    contentType: string,
    status: TopicStatus,
    registeredAt: int,
    registeredBy: string,
    revision: nat)

  type Parameters = map<string, seq<string>>

  datatype Subscription = Subscription(
    id: string,
    topicId: string,
    topicUrl: string,
    callbackUrl: string,
    secretCiphertext: seq<bv8>,
    secretKeyId: string,
    leaseStartedAt: int,
    effectiveLeaseSeconds: string,
    serverId: string,
    consumerId: string,
    parameters: Parameters,
    status: SubscriptionStatus,
    staleReason: string,
    revision: nat)

  datatype Snapshot = Snapshot(
    schemaVersion: nat,
    revision: nat,
    topics: map<string, Topic>,
    subscriptions: map<string, Subscription>)

  const EMPTY: Snapshot := Snapshot(SCHEMA_VERSION, 0, map[], map[])

  datatype Metadata = Metadata(
    schemaVersion: nat,
    eventId: string,
    occurredAt: int,
    occurredAtIsUtc: bool,
    actorType: string,
    actorId: string)

  datatype Event =
    | TopicRegistered(meta: Metadata, topic: Topic)
    | TopicDeregistered(meta: Metadata, topicId: string)
    | SubscriptionVerified(meta: Metadata, subscription: Subscription)
    | SubscriptionUnsubscribed(meta: Metadata, subscriptionId: string)
    | SubscriptionWentStale(meta: Metadata, subscriptionId: string, reason: string)
    | SubscriptionReactivated(meta: Metadata, subscriptionId: string)
    | SubscriptionWasRemoved(meta: Metadata, subscriptionId: string, cause: string)

  datatype Error = InvalidSnapshot | InvalidEvent | InvalidTransition

  /** What one event does to a snapshot, before any revision is stamped. */
  datatype Effect =
    | Reject
    | Keep
    | PutTopic(topicKey: string, newTopic: Topic)
    | PutSubscription(subscriptionKey: string, newSubscription: Subscription)

  /** A new snapshot together with whether the event changed anything. */
  datatype Applied = Applied(next: Snapshot, changed: bool)

  /** A subscription that still holds its (topic, callback) pair. */
  predicate Holds(x: Subscription, topicUrl: string, callbackUrl: string) {
    x.status != SubscriptionRemoved && x.topicUrl == topicUrl && x.callbackUrl == callbackUrl
  }

  predicate PairTaken(subscriptions: map<string, Subscription>, topicUrl: string, callbackUrl: string) {
    exists id :: id in subscriptions && Holds(subscriptions[id], topicUrl, callbackUrl)
  }

  function Installed(t: Topic): Topic {
    t.(status := TopicActive, revision := 0)
  }

  function Admitted(x: Subscription): Subscription {
    x.(status := SubscriptionActive, staleReason := "", revision := 0)
  }

  predicate SameTopic(a: Topic, b: Topic) {
    a.(revision := 0) == b.(revision := 0)
  }

  predicate SameSubscription(a: Subscription, b: Subscription) {
    a.(revision := 0) == b.(revision := 0)
  }

  datatype Reducer = Reducer(
    normalize: string -> Option<string>,
    acceptsOptions: Parameters -> bool) {

    predicate Canonical(contentType: string) {
      normalize(contentType) == Some(contentType)
    }

    predicate ValidTopic(id: string, t: Topic, limit: nat) {
      && id != "" && t.id == id
      && t.canonicalUrl != "" && t.contentDestination != "" && t.contentType != ""
      && Canonical(t.contentType)
      && (t.status == TopicActive || t.status == TopicInactive)
      && t.revision <= limit
    }

    predicate ValidSubscription(id: string, x: Subscription, limit: nat) {
      && id != "" && x.id == id
      && x.topicId != "" && x.topicUrl != "" && x.callbackUrl != ""
      && x.serverId != "" && x.consumerId != ""
      && (x.status == SubscriptionActive || x.status == SubscriptionStale || x.status == SubscriptionRemoved)
      && acceptsOptions(x.parameters)
      && x.revision <= limit
    }

    predicate ValidSnapshot(s: Snapshot) {
      && s.schemaVersion == SCHEMA_VERSION
      && (forall id :: id in s.topics ==> ValidTopic(id, s.topics[id], s.revision))
      && (forall id :: id in s.subscriptions ==> ValidSubscription(id, s.subscriptions[id], s.revision))
    }

    predicate ValidEvent(e: Event) {
      && e.meta.schemaVersion == SCHEMA_VERSION
      && e.meta.eventId != ""
      && e.meta.occurredAt != 0 && e.meta.occurredAtIsUtc
      && e.meta.actorType != ""
      && (e.TopicRegistered? ==> Canonical(e.topic.contentType))
    }

    predicate CompleteTopic(t: Topic) {
      && t.id != "" && t.canonicalUrl != "" && t.contentDestination != ""
      && t.contentType != "" && t.registeredAt != 0
      && Canonical(t.contentType)
    }

    predicate CompleteSubscription(x: Subscription) {
      && x.id != "" && x.topicId != "" && x.topicUrl != "" && x.callbackUrl != ""
      && x.serverId != "" && x.consumerId != "" && x.leaseStartedAt != 0
      && acceptsOptions(x.parameters)
    }

    function RegisterEffect(s: Snapshot, t: Topic): Effect {
      if !CompleteTopic(t) then Reject
      else if t.id !in s.topics then PutTopic(t.id, Installed(t))
      else
        var was := s.topics[t.id];
        if was.status == TopicActive && SameTopic(was, Installed(t)) then Keep
        else if was.canonicalUrl != t.canonicalUrl || was.contentType != t.contentType then Reject
        else PutTopic(t.id, Installed(t))
    }

    function VerifyEffect(s: Snapshot, x: Subscription): Effect {
      if !CompleteSubscription(x) then Reject
      else if x.topicId !in s.topics || s.topics[x.topicId].status != TopicActive
              || s.topics[x.topicId].canonicalUrl != x.topicUrl then Reject
      else if x.id in s.subscriptions then
        var was := s.subscriptions[x.id];
        if was.status == SubscriptionActive && SameSubscription(was, Admitted(x)) then Keep else Reject
      else if PairTaken(s.subscriptions, x.topicUrl, x.callbackUrl) then Keep
      else PutSubscription(x.id, Admitted(x))
    }

    function RemoveEffect(s: Snapshot, id: string): Effect {
      if id !in s.subscriptions then Reject
      else if s.subscriptions[id].status == SubscriptionRemoved then Keep
      else PutSubscription(id, s.subscriptions[id].(status := SubscriptionRemoved, staleReason := ""))
    }

    function EffectOf(s: Snapshot, e: Event): Effect {
      match e
      case TopicRegistered(_, t) => RegisterEffect(s, t)
      case TopicDeregistered(_, id) =>
        if id !in s.topics then Reject
        else if s.topics[id].status == TopicInactive then Keep
        else PutTopic(id, s.topics[id].(status := TopicInactive))
      case SubscriptionVerified(_, x) => VerifyEffect(s, x)
      case SubscriptionUnsubscribed(_, id) => RemoveEffect(s, id)
      case SubscriptionWasRemoved(_, id, _) => RemoveEffect(s, id)
      case SubscriptionWentStale(_, id, reason) =>
        if id !in s.subscriptions || s.subscriptions[id].status == SubscriptionRemoved then Reject
        else
          var was := s.subscriptions[id];
          if was.status == SubscriptionStale && was.staleReason == reason then Keep
          else PutSubscription(id, was.(status := SubscriptionStale, staleReason := reason))
      case SubscriptionReactivated(_, id) =>
        if id !in s.subscriptions || s.subscriptions[id].status == SubscriptionRemoved then Reject
        else if s.subscriptions[id].status == SubscriptionActive then Keep
        else PutSubscription(id, s.subscriptions[id].(status := SubscriptionActive, staleReason := ""))
    }

    /** Carries out an effect: exactly one entity is written, under the next revision. */
    function Commit(s: Snapshot, effect: Effect): Snapshot
      requires effect.PutTopic? || effect.PutSubscription?
    {
      var rev := s.revision + 1;
      match effect
      case PutTopic(id, t) => s.(revision := rev, topics := s.topics[id := t.(revision := rev)])
      case PutSubscription(id, x) => s.(revision := rev, subscriptions := s.subscriptions[id := x.(revision := rev)])
    }

    function Apply(s: Snapshot, e: Event): Result<Applied, Error> {
      if !ValidSnapshot(s) then Err(InvalidSnapshot)
      else if !ValidEvent(e) then Err(InvalidEvent)
      else
        var effect := EffectOf(s, e);
        if effect.Reject? then Err(InvalidTransition)
        else if effect.Keep? then Ok(Applied(s, false))
        else Ok(Applied(Commit(s, effect), true))
    }

    /** The event is accepted and leaves the snapshot untouched. */
    predicate NoOp(s: Snapshot, e: Event) {
      Apply(s, e) == Ok(Applied(s, false))
    }
  }
}
