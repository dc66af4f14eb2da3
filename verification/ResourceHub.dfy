/**
 What a hub appends to the shared log on behalf of publishers and subscribers, decided on
 its own view of the state, and when the shared reducer will accept it later; the lookup
 of the live subscription; and the content-type contract from ingestion to delivery.

 The SHA-256 digests are two functions about which nothing is assumed.
 */
module ResourceHub {
  import opened Wrappers
  import opened State
  import opened ReducerLaws
  import opened ReducerEffects
  import opened EventLog
  import opened Replay
  import opened Messages

  const DEFAULT_CONTENT_TYPE := "application/json"

  datatype Naming = Naming(digest: string -> string, framedDigest: (string, string, int) -> string) {
    function TopicId(url: string): string {
      "topic-" + digest(url)
    }

    function Destination(url: string): string {
      "websub-topic-" + digest(url)
    }

    function SubscriptionId(topicUrl: string, callbackUrl: string, since: int): string {
      "subscription-" + framedDigest(topicUrl, callbackUrl, since)
    }

    function ConsumerId(topicUrl: string, callbackUrl: string, since: int): string {
      "delivery-" + framedDigest(topicUrl, callbackUrl, since)
    }
  }

  /** What a request leads to; only a valid event reaches the log. */
  datatype Decision = Denied | Conflict | Failed | Append(event: Event)

  function Checked(r: Reducer, e: Event): Decision {
    if r.ValidEvent(e) then Append(e) else Failed
  }

  function RegisterTopic(r: Reducer, naming: Naming, view: Snapshot, url: string, contentType: string, meta: Metadata): Decision {
    if url == "" then Failed
    else
      var normal := r.normalize(if contentType == "" then DEFAULT_CONTENT_TYPE else contentType);
      var id := naming.TopicId(url);
      if normal.None? then Denied
      else if id in view.topics && view.topics[id].contentType != normal.value then Denied
      else if id in view.topics && view.topics[id].status == TopicActive then Conflict
      else Checked(r, TopicRegistered(meta, Topic(id, url, naming.Destination(url), normal.value,
                                                  TopicOther(""), meta.occurredAt, "", 0)))
  }

  function DeregisterTopic(r: Reducer, naming: Naming, view: Snapshot, url: string, meta: Metadata): Decision {
    var id := naming.TopicId(url);
    if url == "" then Failed
    else if id !in view.topics || view.topics[id].status != TopicActive then Conflict
    else Checked(r, TopicDeregistered(meta, id))
  }

  predicate TopicIsActive(naming: Naming, view: Snapshot, url: string) {
    && url != ""
    && naming.TopicId(url) in view.topics
    && view.topics[naming.TopicId(url)].status == TopicActive
    && view.topics[naming.TopicId(url)].canonicalUrl == url
  }

  /** What the verification handshake established about a subscriber. */
  datatype Verified = Verified(
    topicUrl: string,
    callbackUrl: string,
    leaseStartedAt: int,
    leaseSeconds: string,
    parameters: Parameters)

  function SubscriptionFor(naming: Naming, serverId: string, v: Verified, ciphertext: seq<bv8>, keyId: string): Subscription {
    Subscription(naming.SubscriptionId(v.topicUrl, v.callbackUrl, v.leaseStartedAt), naming.TopicId(v.topicUrl),
                 v.topicUrl, v.callbackUrl, ciphertext, keyId, v.leaseStartedAt, v.leaseSeconds, serverId,
                 naming.ConsumerId(v.topicUrl, v.callbackUrl, v.leaseStartedAt), v.parameters, SubscriptionOther(""), "", 0)
  }

  /** The view is not consulted again: it was when the request was admitted and validated. */
  function SubscriptionVerifiedBy(r: Reducer, naming: Naming, serverId: string, v: Verified,
                                  ciphertext: seq<bv8>, keyId: string, meta: Metadata): Decision {
    if v.topicUrl == "" || v.callbackUrl == "" || v.leaseStartedAt == 0 || !r.acceptsOptions(v.parameters) then Failed
    else Checked(r, SubscriptionVerified(meta, SubscriptionFor(naming, serverId, v, ciphertext, keyId)))
  }

  // ---------------------------------------------------------------- requests, field by field

  /** The parts of an event that every handler fills in are complete. */
  predicate CompleteMeta(meta: Metadata) {
    && meta.schemaVersion == 1 && meta.eventId != "" && meta.actorType != "" && meta.occurredAt != 0 && meta.occurredAtIsUtc
  }

  /** A registration request: denied for its type, in conflict with an active topic, or recorded under derived names. */
  lemma RegisterTopicExactly(r: Reducer, naming: Naming, view: Snapshot, url: string, contentType: string, meta: Metadata)
    ensures var d := RegisterTopic(r, naming, view, url, contentType, meta);
            var id := "topic-" + naming.digest(url);
            var normal := r.normalize(if contentType == "" then "application/json" else contentType);
            && (d.Denied? <==>
                url != "" && (normal.None? || (id in view.topics && view.topics[id].contentType != normal.value)))
            && (d.Conflict? <==>
                && url != "" && normal.Some? && id in view.topics
                && view.topics[id].contentType == normal.value && view.topics[id].status == TopicActive)
            && (d.Append? <==>
                && url != "" && normal.Some? && CompleteMeta(meta) && r.normalize(normal.value) == normal
                && (id in view.topics ==> view.topics[id].contentType == normal.value && view.topics[id].status != TopicActive))
            && (d.Append? ==>
                  && d.event.TopicRegistered? && d.event.meta == meta
                  && d.event.topic.id == id && d.event.topic.canonicalUrl == url
                  && d.event.topic.contentDestination == "websub-topic-" + naming.digest(url)
                  && d.event.topic.contentType == normal.value && d.event.topic.registeredAt == meta.occurredAt
                  && d.event.topic.registeredBy == "")
  {
  }

  /** A deregistration request is recorded exactly for an active topic. */
  lemma DeregisterTopicExactly(r: Reducer, naming: Naming, view: Snapshot, url: string, meta: Metadata)
    ensures var d := DeregisterTopic(r, naming, view, url, meta);
            var id := "topic-" + naming.digest(url);
            && !d.Denied?
            && (d.Conflict? <==> url != "" && !(id in view.topics && view.topics[id].status == TopicActive))
            && (d.Append? <==> url != "" && id in view.topics && view.topics[id].status == TopicActive && CompleteMeta(meta))
            && (d.Append? ==> d.event == TopicDeregistered(meta, id))
  {
  }

  /** A verified subscription is recorded with what the handshake established, under names of its own, for this server. */
  lemma SubscribeExactly(r: Reducer, naming: Naming, serverId: string, v: Verified, ciphertext: seq<bv8>, keyId: string, meta: Metadata)
    ensures var d := SubscriptionVerifiedBy(r, naming, serverId, v, ciphertext, keyId, meta);
            && !d.Denied? && !d.Conflict?
            && (d.Append? <==>
                && v.topicUrl != "" && v.callbackUrl != "" && v.leaseStartedAt != 0 && r.acceptsOptions(v.parameters)
                && CompleteMeta(meta))
            && (d.Append? ==>
                  && d.event.SubscriptionVerified? && d.event.meta == meta
                  && var x, digest := d.event.subscription, naming.framedDigest(v.topicUrl, v.callbackUrl, v.leaseStartedAt);
                     && x.id == "subscription-" + digest && x.consumerId == "delivery-" + digest
                     && x.topicId == "topic-" + naming.digest(v.topicUrl) && x.topicUrl == v.topicUrl
                     && x.callbackUrl == v.callbackUrl && x.leaseStartedAt == v.leaseStartedAt
                     && x.effectiveLeaseSeconds == v.leaseSeconds && x.parameters == v.parameters && x.serverId == serverId
                     && x.secretCiphertext == ciphertext && x.secretKeyId == keyId)
  {
  }

  /** The subscription that holds the pair, if any, has this identifier. */
  ghost predicate IsHolder(view: Snapshot, id: string, topicUrl: string, callbackUrl: string) {
    id in view.subscriptions && Holds(view.subscriptions[id], topicUrl, callbackUrl)
  }

  /**
   Scans the subscriptions in any order for the latest one that is not removed.  On dated
   states it finds one iff the pair is taken, and with unique live subscriptions it is the
   only holder there is, so the order of the scan does not matter.
   */
  method CurrentSubscription(view: Snapshot, topicUrl: string, callbackUrl: string) returns (found: Option<Subscription>)
    ensures Dated(view) ==> (found.Some? <==> PairTaken(view.subscriptions, topicUrl, callbackUrl))
    ensures found.Some? ==>
              && found.value.leaseStartedAt != 0
              && exists id :: IsHolder(view, id, topicUrl, callbackUrl) && view.subscriptions[id] == found.value
    ensures Dated(view) && found.Some? ==>
              forall id :: IsHolder(view, id, topicUrl, callbackUrl) ==>
                view.subscriptions[id].leaseStartedAt <= found.value.leaseStartedAt
    ensures Dated(view) && UniqueLive(view) && found.Some? ==>
              forall id :: IsHolder(view, id, topicUrl, callbackUrl) ==> view.subscriptions[id] == found.value
  {
    found := None;
    var rest := view.subscriptions.Keys;
    while rest != {}
      invariant rest <= view.subscriptions.Keys
      invariant found.Some? ==> exists id :: id !in rest && IsHolder(view, id, topicUrl, callbackUrl)
                                             && view.subscriptions[id] == found.value
      invariant Dated(view) ==> forall id :: IsHolder(view, id, topicUrl, callbackUrl) && id !in rest ==>
                                  found.Some? && view.subscriptions[id].leaseStartedAt <= found.value.leaseStartedAt
      decreases rest
    {
      var id := Pick(rest);
      rest := rest - {id};
      var x := view.subscriptions[id];
      if Holds(x, topicUrl, callbackUrl)
         && (found.None? || found.value.leaseStartedAt == 0 || x.leaseStartedAt > found.value.leaseStartedAt) {
        found := Some(x);
      }
    }
    if found.Some? && found.value.leaseStartedAt == 0 {
      found := None;
    }
  }

  method Unsubscribe(r: Reducer, view: Snapshot, topicUrl: string, callbackUrl: string, meta: Metadata) returns (d: Decision)
    ensures !d.Conflict? && (d.Append? || d.Failed? ==> d.Append? == CompleteMeta(meta))
    ensures d.Append? ==> d.event.SubscriptionUnsubscribed? && d.event.meta == meta && r.ValidEvent(d.event)
    ensures Sound(r, view) && d.Append? ==> IsHolder(view, d.event.subscriptionId, topicUrl, callbackUrl)
    ensures Sound(r, view) && d.Append? ==>
              forall id :: IsHolder(view, id, topicUrl, callbackUrl) ==> id == d.event.subscriptionId
    ensures Sound(r, view) ==> (d.Denied? <==> !PairTaken(view.subscriptions, topicUrl, callbackUrl))
    ensures Sound(r, view) && r.ValidEvent(SubscriptionUnsubscribed(meta, "")) ==>
              (d.Append? <==> PairTaken(view.subscriptions, topicUrl, callbackUrl))
  {
    var found := CurrentSubscription(view, topicUrl, callbackUrl);
    if found.None? {
      return Denied;
    }
    return Checked(r, SubscriptionUnsubscribed(meta, found.value.id));
  }

  // ---------------------------------------------------------------- acceptance by the shared reducer
  //
  // A rejected event stops the consolidator and every hub at its place in the log.  An event
  // is decided on a hub's view, `HubView(r, log, h, b, p)`, and is folded where `log` ends.

  /** A registration in an accepted log is still there at its end, with its URL and content type. */
  lemma RegistrationStays(r: Reducer, log: seq<Event>, k: nat)
    requires k < |log| && log[k].TopicRegistered? && At(r, log, |log|).Ok?
    ensures var id, now := log[k].topic.id, At(r, log, |log|).value;
            && id in now.topics
            && now.topics[id].canonicalUrl == log[k].topic.canonicalUrl
            && now.topics[id].contentType == log[k].topic.contentType
  {
    hide At, Reducer.Apply;
    ReachableEvolves(r, log, k + 1, |log|);
    ReachableEvolves(r, log, k, k + 1);
    AtStep(r, log, k);
    RegistrationIsInstalled(r, At(r, log, k).value, log[k]);
    assert TopicKept(log[k].topic.id, At(r, log, k + 1).value, At(r, log, |log|).value);
  }

  /** Whatever the overlap did to a hub's view, the topics in it are canonical, with their URLs and content types. */
  lemma HubTopicIsCanonical(r: Reducer, log: seq<Event>, h: nat, b: nat, p: nat, id: string)
    requires b <= |log| && h <= p <= |log| && HubView(r, log, h, b, p).Ok? && At(r, log, |log|).Ok?
    ensures TopicKept(id, HubView(r, log, h, b, p).value, At(r, log, |log|).value)
  {
    hide HubView, At;
    var view := HubView(r, log, h, b, p).value;
    if id in view.topics {
      HubViewIsSound(r, log, h, b, p);
      assert r.ValidTopic(id, view.topics[id], view.revision);
      HubTopicIsRegistered(r, log, h, b, p, id);
      var k :| 0 <= k < |log| && Registers(log[k], view.topics[id]);
      RegisteredAs(log[k], view.topics[id]);
      RegistrationStays(r, log, k);
    }
  }

  /**
   A registration is accepted iff no other registration of the same identifier with a
   different URL or content type came first; one for a topic the hub already saw always is.
   */
  lemma RegistrationAcceptedExactly(r: Reducer, naming: Naming, log: seq<Event>, h: nat, b: nat, p: nat,
                                    url: string, contentType: string, meta: Metadata)
    requires b <= |log| && h <= p <= |log| && HubView(r, log, h, b, p).Ok? && At(r, log, |log|).Ok?
    requires r.normalize("").None?
    requires RegisterTopic(r, naming, HubView(r, log, h, b, p).value, url, contentType, meta).Append?
    ensures var view, now := HubView(r, log, h, b, p).value, At(r, log, |log|).value;
            var e := RegisterTopic(r, naming, view, url, contentType, meta).event;
            && (r.Apply(now, e).Ok? <==>
                (e.topic.id in now.topics ==>
                   now.topics[e.topic.id].canonicalUrl == url
                   && now.topics[e.topic.id].contentType == e.topic.contentType))
            && (e.topic.id in view.topics && view.topics[e.topic.id].canonicalUrl == url ==> r.Apply(now, e).Ok?)
  {
    hide HubView, At;
    ReachableIsSound(r, log, |log|);
    var view := HubView(r, log, h, b, p).value;
    var e := RegisterTopic(r, naming, view, url, contentType, meta).event;
    assert r.CompleteTopic(e.topic);
    HubTopicIsCanonical(r, log, h, b, p, e.topic.id);
  }

  /** A deregistration of a topic the hub sees is accepted at every later state. */
  lemma DeregistrationIsAlwaysAccepted(r: Reducer, naming: Naming, log: seq<Event>, h: nat, b: nat, p: nat, url: string, meta: Metadata)
    requires b <= |log| && h <= p <= |log| && HubView(r, log, h, b, p).Ok? && At(r, log, |log|).Ok?
    requires DeregisterTopic(r, naming, HubView(r, log, h, b, p).value, url, meta).Append?
    ensures var now := At(r, log, |log|).value;
            var e := DeregisterTopic(r, naming, HubView(r, log, h, b, p).value, url, meta).event;
            r.Apply(now, e).Ok? && r.Apply(now, e).value.next.topics[naming.TopicId(url)].status == TopicInactive
  {
    hide HubView, At;
    ReachableIsSound(r, log, |log|);
    HubTopicIsCanonical(r, log, h, b, p, naming.TopicId(url));
  }

  /**
   A verified subscription that was admitted on a topic the hub saw active is accepted iff
   the topic is still active and its identifier is new or already holds the very same
   subscription.
   */
  lemma VerificationAcceptedExactly(r: Reducer, naming: Naming, log: seq<Event>, h: nat, b: nat, p: nat, serverId: string,
                                    v: Verified, ciphertext: seq<bv8>, keyId: string, meta: Metadata)
    requires b <= |log| && h <= p <= |log| && HubView(r, log, h, b, p).Ok? && At(r, log, |log|).Ok? && serverId != ""
    requires TopicIsActive(naming, HubView(r, log, h, b, p).value, v.topicUrl)
    requires SubscriptionVerifiedBy(r, naming, serverId, v, ciphertext, keyId, meta).Append?
    ensures naming.TopicId(v.topicUrl) in At(r, log, |log|).value.topics
    ensures var now := At(r, log, |log|).value;
            var e := SubscriptionVerifiedBy(r, naming, serverId, v, ciphertext, keyId, meta).event;
            var x := SubscriptionFor(naming, serverId, v, ciphertext, keyId);
            r.Apply(now, e).Ok? <==>
              && now.topics[naming.TopicId(v.topicUrl)].status == TopicActive
              && (x.id in now.subscriptions ==>
                    && now.subscriptions[x.id].status == SubscriptionActive && now.subscriptions[x.id].staleReason == ""
                    && SameTerms(now.subscriptions[x.id], x))
  {
    hide HubView, At;
    ReachableIsSound(r, log, |log|);
    HubTopicIsCanonical(r, log, h, b, p, naming.TopicId(v.topicUrl));
    assert r.CompleteSubscription(SubscriptionFor(naming, serverId, v, ciphertext, keyId));
  }

  /**
   The gate a subscription passes when it is requested is the one it meets again in the
   reducer: on the view it was decided on, a new verified subscription is accepted iff its topic
   is active there.
   */
  lemma GateAgreesWithReducer(r: Reducer, naming: Naming, view: Snapshot, serverId: string,
                              v: Verified, ciphertext: seq<bv8>, keyId: string, meta: Metadata)
    requires r.ValidSnapshot(view) && serverId != ""
    requires SubscriptionVerifiedBy(r, naming, serverId, v, ciphertext, keyId, meta).Append?
    requires SubscriptionFor(naming, serverId, v, ciphertext, keyId).id !in view.subscriptions
    ensures r.Apply(view, SubscriptionVerifiedBy(r, naming, serverId, v, ciphertext, keyId, meta).event).Ok? <==>
            TopicIsActive(naming, view, v.topicUrl)
  {
    hide Reducer.ValidSnapshot;
    VerificationExactly(r, view, meta, SubscriptionFor(naming, serverId, v, ciphertext, keyId));
  }

  /** Event `k` is a verification of `id` that was admitted, not merged into a live subscription. */
  ghost predicate AdmittedAt(r: Reducer, log: seq<Event>, k: nat, id: string)
    requires k < |log|
  {
    && log[k].SubscriptionVerified? && log[k].subscription.id == id
    && At(r, log, k).Ok? && r.Apply(At(r, log, k).value, log[k]).Ok? && r.Apply(At(r, log, k).value, log[k]).value.changed
  }

  ghost predicate WasAdmitted(r: Reducer, log: seq<Event>, n: nat, id: string)
    requires n <= |log|
  {
    exists k :: 0 <= k < n && AdmittedAt(r, log, k, id)
  }

  lemma ApplyAdmits(r: Reducer, s: Snapshot, e: Event, id: string)
    requires r.Apply(s, e).Ok?
    ensures id in r.Apply(s, e).value.next.subscriptions <==>
            || id in s.subscriptions
            || (e.SubscriptionVerified? && e.subscription.id == id && r.Apply(s, e).value.changed)
  {
  }

  /** The canonical state has a subscription iff some verification of it was admitted. */
  lemma {:induction false} AdmittedExactly(r: Reducer, log: seq<Event>, n: nat, id: string)
    requires n <= |log| && At(r, log, n).Ok?
    ensures id in At(r, log, n).value.subscriptions <==> WasAdmitted(r, log, n, id)
  {
    hide Reducer.Apply, Fold;
    if n == 0 {
      assert log[..0] == [];
      EmptyFold(r);
    } else {
      ReachableEvolves(r, log, n - 1, n);
      AtStep(r, log, n - 1);
      AdmittedExactly(r, log, n - 1, id);
      ApplyAdmits(r, At(r, log, n - 1).value, log[n - 1], id);
      if WasAdmitted(r, log, n - 1, id) {
        var k :| 0 <= k < n - 1 && AdmittedAt(r, log, k, id);
        assert 0 <= k < n && AdmittedAt(r, log, k, id);
      }
      if id in At(r, log, n).value.subscriptions && id !in At(r, log, n - 1).value.subscriptions {
        assert AdmittedAt(r, log, n - 1, id);
      }
      if WasAdmitted(r, log, n, id) {
        var k :| 0 <= k < n && AdmittedAt(r, log, k, id);
        assert k < n - 1 ==> WasAdmitted(r, log, n - 1, id);
      }
    }
  }

  lemma EmptyFold(r: Reducer)
    ensures Fold(r, EMPTY, []) == Ok(EMPTY)
  {
  }

  /** A hub whose overlap is all no-ops sees only subscriptions that were admitted. */
  lemma ConvergedHubSeesAdmitted(r: Reducer, log: seq<Event>, h: nat, b: nat, p: nat, id: string)
    requires h <= b <= |log| && h <= p <= |log| && At(r, log, |log|).Ok?
    requires At(r, log, b).Ok? && AllNoOps(r, At(r, log, b).value, log[h..b]) && HubView(r, log, h, b, p).Ok?
    requires id in HubView(r, log, h, b, p).value.subscriptions
    ensures WasAdmitted(r, log, |log|, id)
  {
    hide At, HubView, AllNoOps, Reducer.Apply, WasAdmitted;
    var n := if b <= p then p else b;
    ConvergedViewIsCanonical(r, log, h, b, p);
    ReachableEvolves(r, log, n, |log|);
    assert SubscriptionKept(id, At(r, log, n).value, At(r, log, |log|).value);
    AdmittedExactly(r, log, |log|, id);
  }

  /**
   An unsubscription or removal of what a hub sees is accepted, and takes effect, iff some
   verification of that subscription was admitted rather than merged into another; that is
   so whenever the hub's overlap was all no-ops.
   */
  lemma WithdrawalAcceptedExactly(r: Reducer, log: seq<Event>, h: nat, b: nat, p: nat, e: Event)
    requires b <= |log| && h <= p <= |log| && HubView(r, log, h, b, p).Ok? && At(r, log, |log|).Ok?
    requires (e.SubscriptionUnsubscribed? || e.SubscriptionWasRemoved?) && r.ValidEvent(e)
    requires e.subscriptionId in HubView(r, log, h, b, p).value.subscriptions
    ensures var now := At(r, log, |log|).value;
            && (r.Apply(now, e).Ok? <==> WasAdmitted(r, log, |log|, e.subscriptionId))
            && (r.Apply(now, e).Ok? ==>
                  && e.subscriptionId in r.Apply(now, e).value.next.subscriptions
                  && r.Apply(now, e).value.next.subscriptions[e.subscriptionId].status == SubscriptionRemoved)
    ensures h <= b && AllNoOps(r, At(r, log, b).value, log[h..b]) ==> r.Apply(At(r, log, |log|).value, e).Ok?
  {
    hide HubView, At, WasAdmitted, AllNoOps;
    ReachableIsSound(r, log, |log|);
    BarrierIsThere(r, log, h, b, p);
    AdmittedExactly(r, log, |log|, e.subscriptionId);
    if h <= b && AllNoOps(r, At(r, log, b).value, log[h..b]) {
      ConvergedHubSeesAdmitted(r, log, h, b, p, e.subscriptionId);
    }
  }

  /** A worker's stale mark for what its hub sees is accepted iff the subscription was admitted and is not removed. */
  lemma StaleMarkAcceptedExactly(r: Reducer, log: seq<Event>, h: nat, b: nat, p: nat, meta: Metadata, id: string, reason: string)
    requires b <= |log| && h <= p <= |log| && HubView(r, log, h, b, p).Ok? && At(r, log, |log|).Ok?
    requires id in HubView(r, log, h, b, p).value.subscriptions && r.ValidEvent(SubscriptionWentStale(meta, id, reason))
    ensures var now := At(r, log, |log|).value;
            && (WasAdmitted(r, log, |log|, id) ==> id in now.subscriptions)
            && (r.Apply(now, SubscriptionWentStale(meta, id, reason)).Ok? <==>
                WasAdmitted(r, log, |log|, id) && now.subscriptions[id].status != SubscriptionRemoved)
    ensures h <= b && AllNoOps(r, At(r, log, b).value, log[h..b]) ==> WasAdmitted(r, log, |log|, id)
  {
    hide HubView, At, WasAdmitted, AllNoOps;
    ReachableIsSound(r, log, |log|);
    BarrierIsThere(r, log, h, b, p);
    AdmittedExactly(r, log, |log|, id);
    if h <= b && AllNoOps(r, At(r, log, b).value, log[h..b]) {
      ConvergedHubSeesAdmitted(r, log, h, b, p, id);
    }
  }

  lemma BarrierIsThere(r: Reducer, log: seq<Event>, h: nat, b: nat, p: nat)
    requires b <= |log| && h <= p <= |log| && HubView(r, log, h, b, p).Ok?
    ensures At(r, log, b).Ok?
  {
  }

  /** A rejected event stops every later prefix of the log as well. */
  lemma RejectionIsFinal(r: Reducer, log: seq<Event>, more: seq<Event>)
    requires At(r, log, |log|).Err?
    ensures At(r, log + more, |log + more|).Err?
  {
    hide Fold, Reducer.Apply;
    AtGrows(r, log, log + more, |log|);
    if At(r, log + more, |log + more|).Ok? {
      ReachableEvolves(r, log + more, |log|, |log + more|);
      assert false;
    }
  }

  /** An event the state at the end of the log rejects stops the log for good. */
  lemma PoisonStopsTheLog(r: Reducer, log: seq<Event>, e: Event, more: seq<Event>)
    requires At(r, log, |log|).Ok? && r.Apply(At(r, log, |log|).value, e).Err?
    ensures At(r, log + [e] + more, |log + [e] + more|).Err?
  {
    hide Fold, Reducer.Apply;
    AtGrows(r, log, log + [e], |log|);
    AtStep(r, log + [e], |log|);
    RejectionIsFinal(r, log + [e], more);
  }

  /**
   Counterexample: a hub that replayed a merged request holds `s2` as the live subscription
   of its pair, and the shared state never had it.  The hub's unsubscription, or its worker's
   removal after a gone callback, stops every longer log.
   */
  lemma MergedWithdrawalStopsTheLog(e: Event, more: seq<Event>)
    requires e == SubscriptionUnsubscribed(META, "s2") || e == SubscriptionWasRemoved(META, "s2", "http_410")
    ensures HubView(PLAIN, MERGED_LOG, 2, 4, 4) == Ok(DIVERGED) && IsHolder(DIVERGED, "s2", "u", "cb")
    ensures At(PLAIN, MERGED_LOG + [e] + more, |MERGED_LOG + [e] + more|).Err?
  {
    hide At, HubView;
    ReplayedMergeInserts();
    PoisonStopsTheLog(PLAIN, MERGED_LOG, e, more);
  }

  /**
   Two registrations of one topic under different types, decided on any two views that let
   them through, stop the log wherever they stand in it.
   */
  lemma RacingRegistrationsStopTheLog(r: Reducer, naming: Naming, view: Snapshot, view': Snapshot, url: string,
                                      one: string, other: string, meta: Metadata, meta': Metadata,
                                      before: seq<Event>, between: seq<Event>, more: seq<Event>)
    requires RegisterTopic(r, naming, view, url, one, meta).Append?
    requires RegisterTopic(r, naming, view', url, other, meta').Append?
    requires RegisterTopic(r, naming, view, url, one, meta).event.topic.contentType
             != RegisterTopic(r, naming, view', url, other, meta').event.topic.contentType
    ensures var e, f := RegisterTopic(r, naming, view, url, one, meta).event, RegisterTopic(r, naming, view', url, other, meta').event;
            var log := before + [e] + between + [f] + more;
            At(r, log, |log|).Err?
  {
    hide At;
    var e, f := RegisterTopic(r, naming, view, url, one, meta).event, RegisterTopic(r, naming, view', url, other, meta').event;
    var log := before + [e] + between + [f];
    assert log[|before|] == e && log[|log| - 1] == f;
    if At(r, log, |log|).Ok? {
      RegistrationsAgree(r, log, |before|, |log| - 1);
      assert false;
    }
    RejectionIsFinal(r, log, more);
  }

  /** A subscription verified by a hub that missed the topic's deregistration stops the log. */
  lemma LateVerificationStopsTheLog(r: Reducer, naming: Naming, log: seq<Event>, h: nat, b: nat, p: nat, serverId: string, v: Verified,
                                    ciphertext: seq<bv8>, keyId: string, meta: Metadata, more: seq<Event>)
    requires b <= |log| && h <= p <= |log| && HubView(r, log, h, b, p).Ok? && At(r, log, |log|).Ok? && serverId != ""
    requires TopicIsActive(naming, HubView(r, log, h, b, p).value, v.topicUrl)
    requires !TopicIsActive(naming, At(r, log, |log|).value, v.topicUrl)
    requires SubscriptionVerifiedBy(r, naming, serverId, v, ciphertext, keyId, meta).Append?
    ensures var longer := log + [SubscriptionVerifiedBy(r, naming, serverId, v, ciphertext, keyId, meta).event] + more;
            At(r, longer, |longer|).Err?
  {
    hide At, HubView, Reducer.Apply, SubscriptionVerifiedBy;
    VerificationAcceptedExactly(r, naming, log, h, b, p, serverId, v, ciphertext, keyId, meta);
    HubTopicIsCanonical(r, log, h, b, p, naming.TopicId(v.topicUrl));
    PoisonStopsTheLog(r, log, SubscriptionVerifiedBy(r, naming, serverId, v, ciphertext, keyId, meta).event, more);
  }

  // ---------------------------------------------------------------- the content-type contract

  /** `e` is a registration of this topic, up to status and revision. */
  predicate Registers(e: Event, t: Topic) {
    e.TopicRegistered? && SameRegistration(e.topic, t)
  }

  ghost predicate Registered(events: seq<Event>, t: Topic) {
    exists k :: 0 <= k < |events| && Registers(events[k], t)
  }

  lemma ApplyNeedsRegistration(r: Reducer, s: Snapshot, e: Event, id: string)
    requires r.Apply(s, e).Ok?
    ensures var n := r.Apply(s, e).value.next;
            id in n.topics ==>
              (id in s.topics && SameRegistration(s.topics[id], n.topics[id])) || Registers(e, n.topics[id])
  {
  }

  lemma {:induction false} FoldNeedsRegistration(r: Reducer, s: Snapshot, events: seq<Event>, id: string)
    requires Fold(r, s, events).Ok? && id in Fold(r, s, events).value.topics
    ensures var t := Fold(r, s, events).value.topics[id];
            (id in s.topics && SameRegistration(s.topics[id], t)) || Registered(events, t)
    decreases |events|
  {
    hide Reducer.Apply;
    if events != [] {
      var n := |events| - 1;
      var before, after := Fold(r, s, events[..n]).value, Fold(r, s, events).value;
      ApplyNeedsRegistration(r, before, events[n], id);
      if !Registers(events[n], after.topics[id]) {
        FoldNeedsRegistration(r, s, events[..n], id);
        if Registered(events[..n], before.topics[id]) {
          var k :| 0 <= k < n && Registers(events[..n][k], before.topics[id]);
          assert Registers(events[k], after.topics[id]);
        }
      }
    }
  }

  /** Every topic a hub sees was registered by an event of the log. */
  lemma HubTopicIsRegistered(r: Reducer, log: seq<Event>, h: nat, b: nat, p: nat, id: string)
    requires b <= |log| && h <= p <= |log|
    requires HubView(r, log, h, b, p).Ok? && id in HubView(r, log, h, b, p).value.topics
    ensures Registered(log, HubView(r, log, h, b, p).value.topics[id])
  {
    hide Fold;
    var start, t := At(r, log, b).value, HubView(r, log, h, b, p).value.topics[id];
    FoldNeedsRegistration(r, start, log[h..p], id);
    if Registered(log[h..p], t) {
      var k :| 0 <= k < p - h && Registers(log[h..p][k], t);
      assert Registers(log[h + k], t);
    } else {
      FoldNeedsRegistration(r, EMPTY, log[..b], id);
      var k :| 0 <= k < b && Registers(log[..b][k], start.topics[id]);
      assert Registers(log[k], t);
    }
  }

  lemma RegistrationIsInstalled(r: Reducer, s: Snapshot, e: Event)
    requires e.TopicRegistered? && r.Apply(s, e).Ok?
    ensures var n := r.Apply(s, e).value.next;
            && e.topic.id in n.topics
            && n.topics[e.topic.id].contentType == e.topic.contentType
            && n.topics[e.topic.id].canonicalUrl == e.topic.canonicalUrl
    ensures e.topic.id in s.topics ==> s.topics[e.topic.id].contentType == e.topic.contentType
  {
  }

  /** All registrations of one identifier in an accepted log agree on the content type. */
  lemma RegistrationsAgree(r: Reducer, log: seq<Event>, i: nat, j: nat)
    requires i < |log| && j < |log| && At(r, log, |log|).Ok?
    requires log[i].TopicRegistered? && log[j].TopicRegistered? && log[i].topic.id == log[j].topic.id
    ensures log[i].topic.contentType == log[j].topic.contentType
    decreases if i <= j then 0 else 1
  {
    hide At, Reducer.Apply;
    if j < i {
      RegistrationsAgree(r, log, j, i);
    } else if i < j {
      ReachableEvolves(r, log, j + 1, |log|);
      ReachableEvolves(r, log, j, j + 1);
      ReachableEvolves(r, log, i + 1, j);
      ReachableEvolves(r, log, i, j);
      AtStep(r, log, i);
      AtStep(r, log, j);
      RegistrationIsInstalled(r, At(r, log, i).value, log[i]);
      RegistrationIsInstalled(r, At(r, log, j).value, log[j]);
      assert TopicKept(log[i].topic.id, At(r, log, i + 1).value, At(r, log, j).value);
    }
  }

  /** Every registration in the log carries the names the handler derives from its URL. */
  ghost predicate Named(naming: Naming, log: seq<Event>) {
    forall k :: 0 <= k < |log| && log[k].TopicRegistered? ==>
      && log[k].topic.id == naming.TopicId(log[k].topic.canonicalUrl)
      && log[k].topic.contentDestination == naming.Destination(log[k].topic.canonicalUrl)
  }

  lemma HandlerKeepsNamed(r: Reducer, naming: Naming, log: seq<Event>, view: Snapshot, url: string, contentType: string, meta: Metadata)
    requires Named(naming, log) && RegisterTopic(r, naming, view, url, contentType, meta).Append?
    ensures Named(naming, log + [RegisterTopic(r, naming, view, url, contentType, meta).event])
  {
  }

  datatype UpdateKind = ExactContent | EventOnly | OtherKind(text: string)

  datatype Update = Update(kind: UpdateKind, topicUrl: string, contentType: string, body: seq<bv8>)

  datatype PersistError = FetchUnavailable | UnsupportedKind | NoTopic | InvalidType | TopicUnavailable | TypeMismatch | NoMessageId

  datatype Sent = Sent(destination: string, message: Message)

  /** The gate in front of the durable send; `newId` is what the generator of message identifiers returned. */
  function Persist(r: Reducer, naming: Naming, view: Snapshot, u: Update, newId: Option<string>): Result<Sent, PersistError> {
    var id := naming.TopicId(u.topicUrl);
    if u.kind == EventOnly then Err(FetchUnavailable)
    else if u.kind != ExactContent then Err(UnsupportedKind)
    else if u.topicUrl == "" then Err(NoTopic)
    else if r.normalize(u.contentType).None? then Err(InvalidType)
    else if id !in view.topics || view.topics[id].status != TopicActive || view.topics[id].contentDestination == ""
      then Err(TopicUnavailable)
    else if r.normalize(u.contentType).value != view.topics[id].contentType then Err(TypeMismatch)
    else if newId.None? || newId.value == "" then Err(NoMessageId)
    else Ok(Sent(view.topics[id].contentDestination, Message(newId.value, u.body, "", map[], "")))
  }

  /** Exactly which updates are sent, and what is sent then. */
  lemma PersistExactly(r: Reducer, naming: Naming, view: Snapshot, u: Update, newId: Option<string>)
    ensures var d, id := Persist(r, naming, view, u, newId), "topic-" + naming.digest(u.topicUrl);
            && (d.Ok? <==>
                && u.kind == ExactContent && u.topicUrl != "" && newId.Some? && newId.value != ""
                && id in view.topics && view.topics[id].status == TopicActive && view.topics[id].contentDestination != ""
                && r.normalize(u.contentType) == Some(view.topics[id].contentType))
            && (d.Err? && u.kind == EventOnly ==> d.error == FetchUnavailable)
            && (d.Err? && u.kind == ExactContent && u.topicUrl != "" && r.normalize(u.contentType).Some? ==>
                  d.error ==
                  if !(id in view.topics && view.topics[id].status == TopicActive && view.topics[id].contentDestination != "")
                  then TopicUnavailable
                  else if r.normalize(u.contentType).value != view.topics[id].contentType then TypeMismatch else NoMessageId)
            && (d.Ok? ==>
                  && d.value.destination == view.topics[id].contentDestination
                  && d.value.message.id == newId.value && d.value.message.body == u.body
                  && d.value.message.contentType == "" && d.value.message.metadata == map[] && d.value.message.storageError == "")
  {
  }

  /** What a hub accepts, at any point of its run, goes to the destination that is derived from the topic's URL. */
  lemma PublishedToItsTopic(r: Reducer, naming: Naming, log: seq<Event>, h: nat, b: nat, p: nat, u: Update, newId: Option<string>)
    requires b <= |log| && h <= p <= |log| && Named(naming, log) && HubView(r, log, h, b, p).Ok?
    requires Persist(r, naming, HubView(r, log, h, b, p).value, u, newId).Ok?
    ensures Persist(r, naming, HubView(r, log, h, b, p).value, u, newId).value.destination == "websub-topic-" + naming.digest(u.topicUrl)
  {
    hide HubView;
    var view, id := HubView(r, log, h, b, p).value, naming.TopicId(u.topicUrl);
    HubViewIsSound(r, log, h, b, p);
    assert r.ValidTopic(id, view.topics[id], view.revision);
    HubTopicIsRegistered(r, log, h, b, p, id);
    var k :| 0 <= k < |log| && Registers(log[k], view.topics[id]);
    RegisteredAs(log[k], view.topics[id]);
    var url := log[k].topic.canonicalUrl;
    assert naming.TopicId(url)[|"topic-"|..] == naming.digest(url) && id[|"topic-"|..] == naming.digest(u.topicUrl);
  }

  lemma SameDestinationSameId(naming: Naming, a: string, b: string)
    requires naming.Destination(a) == naming.Destination(b)
    ensures naming.TopicId(a) == naming.TopicId(b)
  {
    var x, y := naming.Destination(a), naming.Destination(b);
    assert x[|"websub-topic-"|..] == naming.digest(a) && y[|"websub-topic-"|..] == naming.digest(b);
  }

  lemma RegisteredAs(e: Event, t: Topic)
    requires Registers(e, t)
    ensures e.topic.id == t.id && e.topic.contentType == t.contentType && e.topic.canonicalUrl == t.canonicalUrl
    ensures e.topic.contentDestination == t.contentDestination
  {
  }

  /**
   A body accepted by one hub, at any point of its run, is delivered under the content type
   it was published with by whatever worker reads its destination, on any hub, at any point
   of that hub's run.
   */
  lemma ContentTypeIsEndToEnd(r: Reducer, naming: Naming, log: seq<Event>, h: nat, b: nat, p: nat, h': nat, b': nat, p': nat,
                              u: Update, newId: Option<string>, id: string)
    requires b <= |log| && h <= p <= |log| && b' <= |log| && h' <= p' <= |log|
    requires At(r, log, |log|).Ok? && Named(naming, log)
    requires HubView(r, log, h, b, p).Ok? && HubView(r, log, h', b', p').Ok?
    requires Persist(r, naming, HubView(r, log, h, b, p).value, u, newId).Ok?
    requires id in HubView(r, log, h', b', p').value.topics
    requires HubView(r, log, h', b', p').value.topics[id].contentDestination
             == Persist(r, naming, HubView(r, log, h, b, p).value, u, newId).value.destination
    ensures r.normalize(u.contentType) == Some(HubView(r, log, h', b', p').value.topics[id].contentType)
    ensures Persist(r, naming, HubView(r, log, h, b, p).value, u, newId).value.message.body == u.body
  {
    hide HubView, At;
    var from := HubView(r, log, h, b, p).value.topics[naming.TopicId(u.topicUrl)];
    var to := HubView(r, log, h', b', p').value.topics[id];
    HubTopicIsRegistered(r, log, h, b, p, naming.TopicId(u.topicUrl));
    HubTopicIsRegistered(r, log, h', b', p', id);
    var i :| 0 <= i < |log| && Registers(log[i], from);
    var j :| 0 <= j < |log| && Registers(log[j], to);
    RegisteredAs(log[i], from);
    RegisteredAs(log[j], to);
    SameDestinationSameId(naming, from.canonicalUrl, to.canonicalUrl);
    RegistrationsAgree(r, log, i, j);
  }
}
