/**
 Worker ownership: which subscriptions a hub runs, one worker at a time, and why a worker
 may delete its progress.  Workers run and finish on their own at any moment; the manager
 keeps a finished worker registered until a later reconciliation finds its subscription
 undesired.  Workers, manager and projection share one event log.
 */
module DeliveryManager {
  import opened Wrappers
  import opened State
  import opened ReducerLaws
  import opened ReducerEffects
  import opened EventLog
  import opened Replay
  import opened Messages
  import opened KafkaConsumer
  import opened DeliveryWorker

  /** The hub wants a worker for this subscription: active, on an active topic, and its own. */
  predicate Desired(s: Snapshot, serverId: string, id: string) {
    && id in s.subscriptions
    && s.subscriptions[id].topicId in s.topics
    && s.topics[s.subscriptions[id].topicId].status == TopicActive
    && s.subscriptions[id].status == SubscriptionActive
    && s.subscriptions[id].serverId == serverId
  }

  /** How a worker that is no longer desired is to be closed. */
  function IntentFor(s: Snapshot, id: string): Intent {
    if id !in s.subscriptions || s.subscriptions[id].status == SubscriptionRemoved then ClosePermanent
    else if s.subscriptions[id].topicId !in s.topics
            || s.topics[s.subscriptions[id].topicId].status != TopicActive then ClosePermanent
    else CloseTemporary
  }

  /** The log has a removal of the subscription or a deregistration of its topic. */
  ghost predicate HasCause(log: seq<Event>, id: string, topicId: string) {
    HasRemoval(log, id) || HasDeregistration(log, topicId)
  }

  /** A verification of the subscription for that topic is in the log. */
  ghost predicate VerifiedFor(log: seq<Event>, id: string, topicId: string) {
    exists k :: 0 <= k < |log| && Verifies(log[k], id, topicId)
  }

  predicate Verifies(e: Event, id: string, topicId: string) {
    e.SubscriptionVerified? && e.subscription.id == id && e.subscription.topicId == topicId
  }

  /** The log alone says why a subscription's progress may be gone: it was removed, or a topic it was verified for deregistered. */
  ghost predicate CauseInLog(log: seq<Event>, id: string) {
    exists topicId :: VerifiedFor(log, id, topicId) && HasCause(log, id, topicId)
  }

  /** Whether a worker is asked to stop, and how it is to close. */
  datatype Orders = Orders(stop: bool, intent: Intent)

  class Manager {
    const serverId: string
    const stateLog: StateLog
    const strategy: Strategy
    const batchSize: nat
    var workers: map<string, Worker>
    var groups: map<string, Broker>  // each subscription's consumer group, as the message store keeps it
    ghost var created: set<Worker>   // every worker ever started
    ghost var seen: Snapshot         // the snapshot reconciled last

    /** A new hub process over whatever groups earlier processes have left in the message store. */
    constructor (serverId: string, stateLog: StateLog, strategy: Strategy, batchSize: nat, groups: map<string, Broker>)
      requires batchSize >= 1 && (strategy.HttpStrategy? ==> strategy.http.Valid())
      requires forall id :: id in groups ==> groups[id].Valid() && groups[id].AtLeastOnce()
      requires forall i, j :: i in groups && j in groups && i != j ==> groups[i] != groups[j]
      ensures Valid() && Wired() && Running() && this.serverId == serverId && this.stateLog == stateLog
      ensures workers == map[] && this.groups == groups && created == {} && seen == EMPTY
    {
      this.serverId, this.stateLog, this.strategy, this.batchSize := serverId, stateLog, strategy, batchSize;
      workers, this.groups := map[], groups;
      created, seen := {}, EMPTY;
    }

    /** The hub process stops at any moment, with its workers wherever they are, and a new one takes its place. */
    method Restart()
      requires Valid() && Wired() && Running()
      modifies this`workers, this`created, this`seen
      ensures Valid() && Wired() && Running() && workers == map[] && created == {} && seen == EMPTY
      ensures forall log :: old(Justified(log)) ==> Justified(log)
    {
      hide Broker.Valid, Broker.AtLeastOnce, CauseInLog;
      workers := map[];
      created, seen := {}, EMPTY;
    }

    /** Every unfinished worker is the registered one for its subscription; so there is at most one. */
    ghost predicate Valid()
      reads this`workers, this`created, created`finished
    {
      && (forall id :: id in workers ==> workers[id] in created && workers[id].subscriptionId == id)
      && (forall w :: w in created && !w.finished ==> Registered(workers, w))
    }

    /** The registry holds this very worker for its subscription. */
    ghost predicate Registered(registry: map<string, Worker>, w: Worker) {
      w.subscriptionId in registry && registry[w.subscriptionId] == w
    }

    /** Workers share the event log; each has a client of its own on its subscription's group. */
    ghost predicate Wired()
      reads this`created, this`groups
    {
      && batchSize >= 1 && (strategy.HttpStrategy? ==> strategy.http.Valid())
      && (forall w :: w in created ==> Attached(w, groups))
      && (forall v, w :: v in created && w in created && v != w ==> v.consumer != w.consumer)
      && (forall i, j :: i in groups && j in groups && i != j ==> groups[i] != groups[j])
    }

    ghost predicate Attached(w: Worker, g: map<string, Broker>) {
      && w.stateLog == stateLog && w.strategy == strategy && w.batchSize == batchSize
      && w.subscriptionId in g && w.consumer.broker == g[w.subscriptionId]
    }

    /** Every group has delivered at least once so far, and every unfinished worker can go on. */
    ghost predicate Running()
      reads this`created, this`groups, groups.Values, created`finished, set w | w in created :: w.consumer
      reads set w | w in created :: w.consumer.broker
    {
      && (forall id :: id in groups ==> groups[id].Valid() && groups[id].AtLeastOnce())
      && (forall w :: w in created && !w.finished ==> Ready(w))
    }

    ghost predicate Ready(w: Worker)
      reads w.consumer, w.consumer.broker
    {
      w.Valid() && w.consumer.delivered == 0
    }

    /** Every worker's subscription and topic are in the snapshot. */
    ghost predicate AllSeen(s: Snapshot)
      reads this`created
    {
      forall w :: w in created ==>
        && w.subscriptionId in s.subscriptions && s.subscriptions[w.subscriptionId].topicId == w.topicId
        && w.topicId in s.topics
    }

    /** A worker is told to delete its progress only if the log says why. */
    ghost predicate Caused(log: seq<Event>)
      reads this`created, created`stopIntent
    {
      forall w :: w in created && w.stopIntent.ClosePermanent? ==> HasCause(log, w.subscriptionId, w.topicId)
    }

    /** A group's progress was deleted only if the log says why. */
    ghost predicate DeletedForCause(log: seq<Event>)
      reads this`groups, groups.Values`deleted
    {
      forall id :: id in groups && groups[id].deleted ==> CauseInLog(log, id)
    }

    /** Every worker was started for a subscription and a topic that the log has verified. */
    ghost predicate Rooted(log: seq<Event>)
      reads this`created
    {
      forall w :: w in created ==> VerifiedFor(log, w.subscriptionId, w.topicId)
    }

    ghost predicate Justified(log: seq<Event>)
      reads this`created, this`groups, this`seen, created`stopIntent, groups.Values`deleted
    {
      AllSeen(seen) && Rooted(log) && Caused(log) && DeletedForCause(log)
    }

    /** At most one unfinished worker per subscription. */
    lemma OneWorkerPerSubscription(v: Worker, w: Worker)
      requires Valid() && v in created && w in created && !v.finished && !w.finished && v.subscriptionId == w.subscriptionId
      ensures v == w
    {
      assert Registered(workers, v) && Registered(workers, w);
    }

    /** The message store's group for a subscription, new if there was none. */
    method GroupOf(id: string) returns (g: Broker)
      requires Valid() && Wired() && Running()
      modifies this`groups
      ensures Valid() && Wired() && Running()
      ensures id in groups && groups[id] == g && (id in old(groups) ==> groups == old(groups))
      ensures id !in old(groups) ==> groups == old(groups)[id := g] && fresh(g) && !g.deleted
    {
      hide Broker.AtLeastOnce, Broker.Valid, Ready;
      if id in groups {
        return groups[id];
      }
      var partitions: set<int> := *;
      g := new Broker(partitions);
      groups := groups[id := g];
    }

    /** A worker on a new client of its subscription's group. */
    method Hire(g: Broker, id: string, topicId: string) returns (w: Worker)
      requires g.Valid() && g.AtLeastOnce() && batchSize >= 1
      ensures fresh(w) && fresh(w.consumer) && Ready(w) && !w.finished && w.stopIntent.CloseTemporary? && !w.stopRequested
      ensures !w.consumer.startEarliest && !w.consumer.sharedGroup && w.consumer.partitions == g.logs.Keys
      ensures w.subscriptionId == id && w.topicId == topicId && w.consumer.broker == g
      ensures w.stateLog == stateLog && w.strategy == strategy && w.batchSize == batchSize
    {
      hide Consumer.Valid, Broker.AtLeastOnce;
      var consumer := new Consumer(g, g.logs.Keys, false, false);
      w := new Worker(consumer, stateLog, strategy, topicId, id, batchSize);
    }

    /** Starts and registers a worker for a subscription that has none registered. */
    method Launch(id: string, topicId: string) returns (w: Worker)
      requires Valid() && Wired() && Running() && id !in workers
      modifies this`workers, this`created, this`groups
      ensures Valid() && Wired() && Running()
      ensures fresh(w) && fresh(w.consumer) && w.stopIntent.CloseTemporary? && !w.stopRequested && !w.finished
      ensures w.subscriptionId == id && w.topicId == topicId
      ensures created == old(created) + {w} && workers == old(workers)[id := w]
      ensures Grew(old(groups))
    {
      hide Broker.AtLeastOnce, Broker.Valid, Ready, Valid, Wired, Running;
      WiredFacts();
      var g := GroupOf(id);
      GroupFacts(id);
      w := Hire(g, id, topicId);
      Enlist(w);
    }

    lemma WiredFacts()
      requires Wired()
      ensures batchSize >= 1 && (strategy.HttpStrategy? ==> strategy.http.Valid())
      ensures forall w :: w in created ==> Attached(w, groups)
    {
    }

    lemma RegistryIsSound()
      requires Valid()
      ensures forall id :: id in workers ==> workers[id] in created && workers[id].subscriptionId == id
      ensures forall w :: w in created && !w.finished ==> Registered(workers, w)
    {
    }

    lemma RegistryFacts(id: string)
      requires Valid() && id in workers
      ensures workers[id] in created && workers[id].subscriptionId == id
    {
    }

    lemma GroupFacts(id: string)
      requires Running() && id in groups
      ensures groups[id].Valid() && groups[id].AtLeastOnce()
    {
    }

    /** Registers a worker that has just been made. */
    method Enlist(w: Worker)
      requires Valid() && Wired() && Running()
      requires w.subscriptionId !in workers && Attached(w, groups) && Ready(w) && !w.finished && w !in created
      requires forall v :: v in created ==> v.consumer != w.consumer
      modifies this`workers, this`created
      ensures Valid() && Wired() && Running()
      ensures created == old(created) + {w} && workers == old(workers)[w.subscriptionId := w]
    {
      hide Broker.AtLeastOnce, Broker.Valid, Ready, Attached;
      workers := workers[w.subscriptionId := w];
      created := created + {w};
    }

    /** Groups are only added, and an added group has lost nothing yet. */
    twostate predicate Grew(before: map<string, Broker>)
      reads this`groups, groups.Values`deleted
    {
      && (forall id :: id in before ==> id in groups && groups[id] == before[id])
      && (forall id :: id in groups && id !in before ==> fresh(groups[id]) && !groups[id].deleted)
    }

    /** The worker is for an active subscription of this server, on that subscription's topic, which is active. */
    ghost predicate Serves(s: Snapshot, w: Worker) {
      && w.subscriptionId in s.subscriptions && s.subscriptions[w.subscriptionId].status == SubscriptionActive
      && s.subscriptions[w.subscriptionId].serverId == serverId && s.subscriptions[w.subscriptionId].topicId == w.topicId
      && w.topicId in s.topics && s.topics[w.topicId].status == TopicActive
    }

    /** Which workers a scan has started: new objects, for desired subscriptions, with nothing decided about their end. */
    twostate predicate Started(s: Snapshot, before: set<Worker>)
      reads this`created, created
    {
      && before <= created
      && (forall w :: w in created && w !in before ==>
            && fresh(w) && fresh(w.consumer) && w.stopIntent.CloseTemporary? && !w.stopRequested && !w.finished
            && Serves(s, w))
    }

    /** Starts the workers that are desired and not registered; a factory error stops the scan. */
    method StartDesired(s: Snapshot) returns (ok: bool)
      requires Valid() && Wired() && Running()
      modifies this`workers, this`created, this`groups
      ensures Valid() && Wired() && Running()
      ensures Started(s, old(created)) && Grew(old(groups))
      ensures forall id :: id in old(workers) ==> id in workers && workers[id] == old(workers)[id]
      ensures forall id :: id in workers && id !in old(workers) ==> workers[id] !in old(created)
      ensures ok ==> forall id :: Desired(s, serverId, id) ==> id in workers
    {
      hide Valid, Wired, Running;
      var rest := s.subscriptions.Keys;
      while rest != {}
        invariant rest <= s.subscriptions.Keys
        invariant Valid() && Wired() && Running()
        invariant Started(s, old(created)) && Grew(old(groups))
        invariant forall id :: id in old(workers) ==> id in workers && workers[id] == old(workers)[id]
        invariant forall id :: id in workers && id !in old(workers) ==> workers[id] !in old(created)
        invariant forall id :: Desired(s, serverId, id) && id !in rest ==> id in workers
        decreases rest
      {
        var id := Pick(rest);
        rest := rest - {id};
        if Desired(s, serverId, id) && id !in workers {
          var refused: bool := *;
          if refused {
            return false;
          }
          var w := Launch(id, s.subscriptions[id].topicId);
        }
      }
      return true;
    }

    ghost function OrdersOf(w: Worker): Orders
      reads w`stopRequested, w`stopIntent
    {
      Orders(w.stopRequested, w.stopIntent)
    }

    /** A worker's orders after reconciling with `s`, given those it had. */
    ghost function OrdersAfter(s: Snapshot, id: string, had: Orders): Orders {
      if Desired(s, serverId, id) then had
      else Orders(true, if IntentFor(s, id).ClosePermanent? then ClosePermanent else had.intent)
    }

    /** Stops one worker unless it is desired, and forgets it if it has finished. */
    method StopOne(s: Snapshot, w: Worker)
      requires Valid() && Registered(workers, w)
      modifies this`workers, w`stopRequested, w`stopIntent
      ensures Valid()
      ensures workers == if Desired(s, serverId, w.subscriptionId) || !w.finished then old(workers)
                         else old(workers) - {w.subscriptionId}
      ensures OrdersOf(w) == OrdersAfter(s, w.subscriptionId, old(OrdersOf(w)))
    {
      hide Desired, IntentFor;
      if !Desired(s, serverId, w.subscriptionId) {
        w.Stop(IntentFor(s, w.subscriptionId));
        if w.finished {
          workers := workers - {w.subscriptionId};
        }
      }
    }

    /** Stops every registered worker that is not desired and forgets those that have finished. */
    method StopUndesired(s: Snapshot)
      requires Valid()
      modifies this`workers, created`stopRequested, created`stopIntent
      ensures Valid()
      ensures forall id :: id in workers <==>
                id in old(workers) && (Desired(s, serverId, id) || !old(workers)[id].finished)
      ensures forall id :: id in workers ==> workers[id] == old(workers)[id]
      ensures forall w :: w in created ==>
                OrdersOf(w) == if Registered(old(workers), w) then OrdersAfter(s, w.subscriptionId, old(OrdersOf(w)))
                               else old(OrdersOf(w))
    {
      hide Desired, IntentFor, OrdersAfter, Valid;
      RegistryIsSound();
      var rest := workers.Keys;
      while rest != {}
        invariant rest <= workers.Keys <= old(workers).Keys && Valid()
        invariant forall id :: id in old(workers) ==> old(workers)[id] in created && old(workers)[id].subscriptionId == id
        invariant forall id :: id in workers ==> workers[id] == old(workers)[id]
        invariant forall id :: id in old(workers) ==>
                    (id in workers <==> id in rest || Desired(s, serverId, id) || !old(workers)[id].finished)
        invariant forall w :: w in created ==>
                    OrdersOf(w) == if Registered(old(workers), w) && w.subscriptionId !in rest
                                   then OrdersAfter(s, w.subscriptionId, old(OrdersOf(w))) else old(OrdersOf(w))
        decreases rest
      {
        var id := Pick(rest);
        rest := rest - {id};
        StopOne(s, workers[id]);
      }
    }

    /** The first half of a reconciliation: start what is missing. */
    method Staff(s: Snapshot, ghost log: seq<Event>) returns (ok: bool)
      requires Valid() && Wired() && Running()
      modifies this`workers, this`created, this`groups, this`seen
      ensures Valid() && Wired() && Running()
      ensures Started(s, old(created)) && Grew(old(groups)) && seen == s
      ensures forall id :: id in old(workers) ==> id in workers && workers[id] == old(workers)[id]
      ensures forall id :: id in workers && id !in old(workers) ==> workers[id] !in old(created)
      ensures ok ==> forall id :: Desired(s, serverId, id) ==> id in workers
      ensures old(AllSeen(seen)) && Evolves(old(seen), s) ==> AllSeen(s)
      ensures old(Justified(log)) && Evolves(old(seen), s) && Explained(log, s) ==> Justified(log)
    {
      hide Evolves, Explained, HasCause, Wired, Running, Valid, VerifiedFor, CauseInLog;
      ok := StartDesired(s);
      seen := s;
      if old(AllSeen(seen)) && Evolves(old(seen), s) {
        StillSeen(old(seen), s, old(created));
      }
      if old(Justified(log)) && Explained(log, s) {
        forall w | w in created ensures VerifiedFor(log, w.subscriptionId, w.topicId) {
          if w !in old(created) {
            ExplainedIsVerified(log, s, w.subscriptionId);
          }
        }
      }
    }

    /** The second half: stop what is not wanted any more. */
    method Prune(s: Snapshot, ghost log: seq<Event>)
      requires Valid() && seen == s
      modifies this`workers, created`stopRequested, created`stopIntent
      ensures Valid()
      ensures forall id :: id in workers <==>
                id in old(workers) && (Desired(s, serverId, id) || !old(workers)[id].finished)
      ensures forall id :: id in workers ==> workers[id] == old(workers)[id]
      ensures forall id :: id in old(workers) ==>
                OrdersOf(old(workers)[id]) == OrdersAfter(s, id, old(OrdersOf(workers[id])))
      ensures old(Justified(log)) && Explained(log, s) ==> Justified(log)
    {
      hide Evolves, Explained, IntentFor, HasCause, Valid, VerifiedFor, CauseInLog, Desired;
      RegistryIsSound();
      StopUndesired(s);
      if old(Justified(log)) && Explained(log, s) {
        forall w | w in created && w.stopIntent.ClosePermanent? ensures HasCause(log, w.subscriptionId, w.topicId) {
          if !old(w.stopIntent).ClosePermanent? {
            PermanentHasCause(log, s, w.subscriptionId);
          }
        }
      }
    }

    /**
     Reconciles with a snapshot.  If every client could be opened, an active subscription of
     this server on an active topic has a worker afterwards, its old one untouched if there was
     one; any other registered worker is asked to stop and is forgotten if it has finished; and it
     is told to delete its progress exactly if its subscription is unknown or removed or its topic
     unknown or inactive.  Otherwise nothing is stopped.  As long as snapshots evolve and are
     explained by the log, no worker is ever told to delete its progress without a cause in it.
     */
    method Reconcile(s: Snapshot, ghost log: seq<Event>) returns (ok: bool)
      requires Valid() && Wired() && Running()
      modifies this`workers, this`created, this`groups, this`seen, created`stopRequested, created`stopIntent
      ensures Valid() && Wired() && Running()
      ensures old(created) <= created && seen == s && Grew(old(groups))
      ensures forall w :: w in created && w !in old(created) ==>
                fresh(w) && fresh(w.consumer) && Serves(s, w) && w.stopIntent.CloseTemporary? && !w.stopRequested && !w.finished
      ensures forall id :: id in workers && id !in old(workers) ==> workers[id] in created && workers[id] !in old(created)
      ensures ok ==> forall id ::
                && id in s.subscriptions && s.subscriptions[id].status == SubscriptionActive
                && s.subscriptions[id].serverId == serverId
                && s.subscriptions[id].topicId in s.topics && s.topics[s.subscriptions[id].topicId].status == TopicActive
                ==> id in workers
      ensures ok ==> forall id :: id in old(workers) ==>
                old(workers)[id].stopRequested ==
                (|| old(workers[id].stopRequested)
                 || id !in s.subscriptions || s.subscriptions[id].status != SubscriptionActive
                 || s.subscriptions[id].serverId != serverId
                 || s.subscriptions[id].topicId !in s.topics || s.topics[s.subscriptions[id].topicId].status != TopicActive)
      ensures ok ==> forall id :: id in old(workers) ==>
                old(workers)[id].stopIntent ==
                if || id !in s.subscriptions || s.subscriptions[id].status == SubscriptionRemoved
                   || s.subscriptions[id].topicId !in s.topics || s.topics[s.subscriptions[id].topicId].status != TopicActive
                then ClosePermanent else old(workers[id].stopIntent)
      ensures ok ==> forall id :: id in workers ==>
                Serves(s, workers[id]) || (id in old(workers) && workers[id] == old(workers)[id])
      ensures ok ==> forall id :: id in old(workers) && id !in workers ==> old(workers)[id].finished && old(workers)[id].stopRequested
      ensures forall id :: id in old(workers) && id in workers ==> workers[id] == old(workers)[id]
      ensures !ok ==> forall id :: id in old(workers) ==> id in workers
      ensures !ok ==> forall w :: w in old(created) ==>
                w.stopIntent == old(w.stopIntent) && w.stopRequested == old(w.stopRequested)
      ensures old(AllSeen(seen)) && Evolves(old(seen), s) ==> AllSeen(s)
      ensures old(Justified(log)) && Evolves(old(seen), s) && Explained(log, s) ==> Justified(log)
    {
      hide Evolves, Explained, Wired, Running, Valid, Justified, AllSeen, IntentFor, OrdersAfter, Desired;
      RegistryIsSound();
      UndesiredExactly(s);
      ok := Staff(s, log);
      RegistryIsSound();
      if ok {
        Prune(s, log);
      }
    }

    lemma UndesiredExactly(s: Snapshot)
      ensures forall id :: Desired(s, serverId, id) <==>
                && id in s.subscriptions && s.subscriptions[id].status == SubscriptionActive
                && s.subscriptions[id].serverId == serverId
                && s.subscriptions[id].topicId in s.topics && s.topics[s.subscriptions[id].topicId].status == TopicActive
      ensures forall id, had :: OrdersAfter(s, id, had).stop ==
                (|| had.stop || id !in s.subscriptions || s.subscriptions[id].status != SubscriptionActive
                 || s.subscriptions[id].serverId != serverId
                 || s.subscriptions[id].topicId !in s.topics || s.topics[s.subscriptions[id].topicId].status != TopicActive)
      ensures forall id, had :: OrdersAfter(s, id, had).intent ==
                if || id !in s.subscriptions || s.subscriptions[id].status == SubscriptionRemoved
                   || s.subscriptions[id].topicId !in s.topics || s.topics[s.subscriptions[id].topicId].status != TopicActive
                then ClosePermanent else had.intent
    {
    }

    /** Closing asks every registered worker to stop and keep its progress; no intent is weakened. */
    method CloseAll()
      requires Valid()
      modifies created`stopRequested, created`stopIntent
      ensures Valid()
      ensures forall w :: w in created ==> w.stopIntent == old(w.stopIntent)
      ensures forall id :: id in workers ==> workers[id].stopRequested
      ensures forall log :: old(Justified(log)) ==> Justified(log)
    {
      hide VerifiedFor, HasCause, CauseInLog;
      var rest := workers.Keys;
      while rest != {}
        invariant Valid()
        invariant forall w :: w in created ==> w.stopIntent == old(w.stopIntent)
        invariant forall id :: id in workers && id !in rest ==> workers[id].stopRequested
        decreases rest
      {
        var id := Pick(rest);
        rest := rest - {id};
        workers[id].Stop(CloseTemporary);
      }
    }

    lemma SameTopic(a: Snapshot, b: Snapshot, id: string)
      requires Evolves(a, b) && id in a.subscriptions
      ensures id in b.subscriptions && b.subscriptions[id].topicId == a.subscriptions[id].topicId
    {
      assert SubscriptionKept(id, a, b);
    }

    lemma StillSeen(a: Snapshot, b: Snapshot, known: set<Worker>)
      requires Evolves(a, b)
      requires forall w :: w in known ==>
                 && w.subscriptionId in a.subscriptions && a.subscriptions[w.subscriptionId].topicId == w.topicId
                 && w.topicId in a.topics
      ensures forall w :: w in known ==>
                && w.subscriptionId in b.subscriptions && b.subscriptions[w.subscriptionId].topicId == w.topicId
                && w.topicId in b.topics
    {
      forall w | w in known
        ensures w.subscriptionId in b.subscriptions && b.subscriptions[w.subscriptionId].topicId == w.topicId
        ensures w.topicId in b.topics
      {
        SameTopic(a, b, w.subscriptionId);
        assert TopicKept(w.topicId, a, b);
      }
    }

    lemma WorkerFacts(w: Worker)
      requires Valid() && Wired() && Running() && w in created && !w.finished
      ensures Registered(workers, w) && Ready(w)
      ensures w.stateLog == stateLog && w.strategy == strategy
      ensures w.subscriptionId in groups && w.consumer.broker == groups[w.subscriptionId]
      ensures strategy.HttpStrategy? ==> strategy.http.Valid()
    {
      assert Attached(w, groups);
    }

    /** Unfinished workers other than `w` have another client and another group. */
    lemma OthersAreApart(w: Worker)
      requires Valid() && Wired() && w in created && !w.finished
      ensures forall v :: v in created && v != w && !v.finished ==>
                v.consumer != w.consumer && v.consumer.broker != w.consumer.broker
      ensures forall id :: id in groups && id != w.subscriptionId ==> groups[id] != w.consumer.broker
    {
      forall v | v in created && v != w && !v.finished
        ensures v.consumer != w.consumer && v.consumer.broker != w.consumer.broker
      {
        assert Registered(workers, v) && Registered(workers, w);
        assert Attached(v, groups) && Attached(w, groups);
      }
      assert Attached(w, groups);
    }

    /** One worker runs for a while, on its own client and group, and possibly finishes. */
    method Slice(w: Worker, rounds: nat, meta: Metadata, patience: nat)
      requires Valid() && Wired() && Running() && w in created && !w.finished
      modifies w`stopIntent, w`finished, stateLog, w.consumer, w.consumer.broker
      ensures Valid() && Wired() && Running()
      ensures old(stateLog.events) <= stateLog.events
      ensures old(Justified(stateLog.events)) ==> Justified(stateLog.events)
    {
      hide Worker.Valid, Broker.AtLeastOnce, Broker.Valid, HasCause, Wired, Duty.EndedRightly, HasRemoval, Justified;
      WorkerFacts(w);
      OthersAreApart(w);
      var v, closed := w.Live(rounds, meta, patience);
      StaysJustified(w);
    }

    /** What one worker's stretch of running does to intents and groups keeps everything justified. */
    twostate lemma StaysJustified(w: Worker)
      requires w in created && w.subscriptionId in groups && w.consumer.broker == groups[w.subscriptionId]
      requires created == old(created) && groups == old(groups) && seen == old(seen)
      requires old(stateLog.events) <= stateLog.events
      requires forall v :: v in created && v != w ==> v.stopIntent == old(v.stopIntent)
      requires forall id :: id in groups && id != w.subscriptionId ==> groups[id].deleted == old(groups[id].deleted)
      requires w.stopIntent.ClosePermanent? ==>
                 old(w.stopIntent).ClosePermanent? || HasRemoval(stateLog.events, w.subscriptionId)
      requires w.consumer.broker.deleted ==> old(w.consumer.broker.deleted) || w.stopIntent.ClosePermanent?
      ensures old(Justified(stateLog.events)) ==> Justified(stateLog.events)
    {
      hide HasRemoval, HasDeregistration, VerifiedFor, CauseInLog;
      if old(Justified(stateLog.events)) {
        var was, now := old(stateLog.events), stateLog.events;
        forall v | v in created ensures VerifiedFor(now, v.subscriptionId, v.topicId) {
          VerifiedStays(was, now, v.subscriptionId, v.topicId);
        }
        forall v | v in created && v.stopIntent.ClosePermanent? ensures HasCause(now, v.subscriptionId, v.topicId) {
          CauseGrows(was, now, v.subscriptionId, v.topicId);
        }
        forall id | id in groups && groups[id].deleted ensures CauseInLog(now, id) {
          CauseStaysInLog(was, now, id);
          if !old(groups[id].deleted) {
            CauseNamed(now, id, w.topicId);
          }
        }
      }
    }

    /** Other hubs and requests append to the log. */
    method Grow(e: Event)
      requires Valid() && Wired() && Running()
      modifies stateLog
      ensures Valid() && Wired() && Running() && stateLog.events == old(stateLog.events) + [e]
      ensures old(Justified(stateLog.events)) ==> Justified(stateLog.events)
    {
      hide HasCause, VerifiedFor, CauseInLog, Valid, Wired, Running;
      ghost var was := stateLog.events;
      stateLog.events := stateLog.events + [e];
      forall id, topicId
        ensures HasCause(was, id, topicId) ==> HasCause(stateLog.events, id, topicId)
        ensures VerifiedFor(was, id, topicId) ==> VerifiedFor(stateLog.events, id, topicId)
      {
        CauseGrows(was, stateLog.events, id, topicId);
        VerifiedStays(was, stateLog.events, id, topicId);
      }
      forall id ensures CauseInLog(was, id) ==> CauseInLog(stateLog.events, id) {
        CauseStaysInLog(was, stateLog.events, id);
      }
    }
  }

  /** Subscriptions, removed subscriptions and inactive topics are there because the log says so. */
  ghost predicate Explained(log: seq<Event>, s: Snapshot) {
    && (forall id :: id in s.subscriptions ==> VerifiedFor(log, id, s.subscriptions[id].topicId))
    && (forall id :: id in s.subscriptions && s.subscriptions[id].status == SubscriptionRemoved ==> HasRemoval(log, id))
    && (forall id :: id in s.topics && s.topics[id].status != TopicActive ==> HasDeregistration(log, id))
  }

  /** A permanent intent for a known subscription on a known topic has its cause in the log. */
  lemma PermanentHasCause(log: seq<Event>, s: Snapshot, id: string)
    requires Explained(log, s) && id in s.subscriptions && s.subscriptions[id].topicId in s.topics
    requires IntentFor(s, id).ClosePermanent?
    ensures HasCause(log, id, s.subscriptions[id].topicId)
  {
  }

  lemma {:induction false} RemovalStays(log: seq<Event>, longer: seq<Event>, id: string)
    requires log <= longer
    ensures HasRemoval(log, id) ==> HasRemoval(longer, id)
    ensures HasDeregistration(log, id) ==> HasDeregistration(longer, id)
  {
    if HasRemoval(log, id) {
      var k :| 0 <= k < |log| && Removes(log[k], id);
      assert Removes(longer[k], id);
    }
    if HasDeregistration(log, id) {
      var k :| 0 <= k < |log| && Deregisters(log[k], id);
      assert Deregisters(longer[k], id);
    }
  }

  lemma ExplainedIsVerified(log: seq<Event>, s: Snapshot, id: string)
    requires Explained(log, s) && id in s.subscriptions
    ensures VerifiedFor(log, id, s.subscriptions[id].topicId)
  {
  }

  lemma VerifiedStays(log: seq<Event>, longer: seq<Event>, id: string, topicId: string)
    requires log <= longer
    ensures VerifiedFor(log, id, topicId) ==> VerifiedFor(longer, id, topicId)
  {
    if VerifiedFor(log, id, topicId) {
      var k :| 0 <= k < |log| && Verifies(log[k], id, topicId);
      assert Verifies(longer[k], id, topicId);
    }
  }

  lemma CauseStaysInLog(log: seq<Event>, longer: seq<Event>, id: string)
    requires log <= longer
    ensures CauseInLog(log, id) ==> CauseInLog(longer, id)
  {
    hide VerifiedFor, HasCause;
    if CauseInLog(log, id) {
      var topicId :| VerifiedFor(log, id, topicId) && HasCause(log, id, topicId);
      VerifiedStays(log, longer, id, topicId);
      CauseGrows(log, longer, id, topicId);
    }
  }

  lemma CauseNamed(log: seq<Event>, id: string, topicId: string)
    requires VerifiedFor(log, id, topicId) && HasCause(log, id, topicId)
    ensures CauseInLog(log, id)
  {
  }

  lemma CauseGrows(log: seq<Event>, longer: seq<Event>, id: string, topicId: string)
    requires log <= longer
    ensures HasCause(log, id, topicId) ==> HasCause(longer, id, topicId)
  {
    hide HasRemoval, HasDeregistration;
    RemovalStays(log, longer, id);
    RemovalStays(log, longer, topicId);
  }

  lemma StaysExplained(log: seq<Event>, longer: seq<Event>, s: Snapshot)
    requires log <= longer && Explained(log, s)
    ensures Explained(longer, s)
  {
    hide HasRemoval, HasDeregistration, VerifiedFor;
    forall id ensures HasRemoval(log, id) ==> HasRemoval(longer, id)
              ensures HasDeregistration(log, id) ==> HasDeregistration(longer, id)
    {
      RemovalStays(log, longer, id);
    }
    forall id | id in s.subscriptions ensures VerifiedFor(longer, id, s.subscriptions[id].topicId) {
      VerifiedStays(log, longer, id, s.subscriptions[id].topicId);
    }
  }

  lemma ApplyNeedsVerification(r: Reducer, s: Snapshot, e: Event, id: string)
    requires r.Apply(s, e).Ok?
    ensures var n := r.Apply(s, e).value.next;
            id in n.subscriptions ==>
              (id in s.subscriptions && s.subscriptions[id].topicId == n.subscriptions[id].topicId)
              || Verifies(e, id, n.subscriptions[id].topicId)
  {
  }

  /** One more event of the log keeps a view explained. */
  lemma StepStaysExplained(r: Reducer, log: seq<Event>, p: nat, s: Snapshot)
    requires p < |log| && Explained(log, s) && r.Apply(s, log[p]).Ok?
    ensures Explained(log, r.Apply(s, log[p]).value.next)
  {
    hide Reducer.Apply;
    var n := r.Apply(s, log[p]).value.next;
    forall id | id in n.subscriptions ensures VerifiedFor(log, id, n.subscriptions[id].topicId) {
      ApplyNeedsVerification(r, s, log[p], id);
    }
    forall id | id in n.subscriptions && n.subscriptions[id].status == SubscriptionRemoved ensures HasRemoval(log, id) {
      ApplyNeedsCause(r, s, log[p], id);
    }
    forall id | id in n.topics && n.topics[id].status != TopicActive ensures HasDeregistration(log, id) {
      ApplyNeedsCause(r, s, log[p], id);
    }
  }

  /** Every canonical state is explained by its log. */
  lemma ReachableIsExplained(r: Reducer, log: seq<Event>, n: nat)
    requires n <= |log| && At(r, log, n).Ok?
    ensures Explained(log, At(r, log, n).value)
  {
    hide Fold;
    var s := At(r, log, n).value;
    forall id | id in s.subscriptions ensures VerifiedFor(log, id, s.subscriptions[id].topicId) {
      ReachableIsSound(r, log, n);
      assert r.ValidSubscription(id, s.subscriptions[id], s.revision);
      FoldNeedsVoucher(r, EMPTY, log[..n], id);
      var k :| 0 <= k < n && Vouches(log[..n][k], s.subscriptions[id]);
      VouchedFor(log[k], s.subscriptions[id]);
      assert Verifies(log[k], id, s.subscriptions[id].topicId);
    }
    forall id | id in s.subscriptions && s.subscriptions[id].status == SubscriptionRemoved ensures HasRemoval(log, id) {
      FoldNeedsCause(r, EMPTY, log[..n], id);
      var k :| 0 <= k < n && Removes(log[..n][k], id);
      assert Removes(log[k], id);
    }
    forall id | id in s.topics && s.topics[id].status != TopicActive ensures HasDeregistration(log, id) {
      FoldNeedsCause(r, EMPTY, log[..n], id);
      var k :| 0 <= k < n && Deregisters(log[..n][k], id);
      assert Deregisters(log[k], id);
    }
  }

  /**
   A hub over any number of process lives, on one log and on consumer groups with any past.
   The log grows, the projection advances from its startup barrier, reconciliations happen at
   any moment, each worker runs in stretches of any length and finishes and closes at any
   moment, the manager closes, and the process stops and a new one starts from a new barrier.
   At every point there is at most one unfinished worker per subscription, every group has
   delivered at least once, and every group whose progress was deleted has its cause in the log.
   */
  method Oversee(m: Manager, r: Reducer, h: nat, b: nat, meta: Metadata, rounds: nat)
    returns (view: Result<Snapshot, Error>)
    requires h <= |m.stateLog.events| && b <= |m.stateLog.events|
    requires m.Valid() && m.Wired() && m.Running() && m.created == {} && m.seen == EMPTY
    requires m.DeletedForCause(m.stateLog.events)
    modifies m, m.stateLog, m.groups.Values
    ensures old(m.stateLog.events) <= m.stateLog.events
    ensures m.Valid() && m.Running() && m.Caused(m.stateLog.events) && m.DeletedForCause(m.stateLog.events)
    ensures forall id :: id in old(m.groups) ==> id in m.groups && m.groups[id] == old(m.groups)[id]
    ensures view.Ok? ==> Explained(m.stateLog.events, view.value)
  {
    hide Evolves, Explained, At, Fold, Reducer.Apply, HasCause,
         VerifiedFor, CauseInLog, Manager.Valid, Manager.Wired, Manager.Running, Manager.Justified;
    var p: nat := h;
    view := AtBarrier(m, r, b);
    NothingToJustify(m);
    for round := 0 to rounds
      invariant old(m.stateLog.events) <= m.stateLog.events && p <= |m.stateLog.events|
      invariant m.Valid() && m.Wired() && m.Running() && m.Justified(m.stateLog.events)
      invariant forall w :: w in m.created ==> fresh(w) && fresh(w.consumer)
      invariant forall id :: id in old(m.groups) ==> id in m.groups && m.groups[id] == old(m.groups)[id]
      invariant forall id :: id in m.groups ==> fresh(m.groups[id]) || m.groups[id] in old(m.groups.Values)
      invariant view.Ok? ==> Evolves(m.seen, view.value) && Explained(m.stateLog.events, view.value)
    {
      p, view := Turn(m, r, meta, p, view);
    }
    WhatJustifiedMeans(m, m.stateLog.events);
  }

  /** One thing that can happen to a hub. */
  method Turn(m: Manager, r: Reducer, meta: Metadata, p: nat, view: Result<Snapshot, Error>)
    returns (p': nat, view': Result<Snapshot, Error>)
    requires p <= |m.stateLog.events|
    requires m.Valid() && m.Wired() && m.Running() && m.Justified(m.stateLog.events)
    requires view.Ok? ==> Evolves(m.seen, view.value) && Explained(m.stateLog.events, view.value)
    modifies m, m.stateLog, m.created, m.groups.Values, set w | w in m.created :: w.consumer
    ensures old(m.stateLog.events) <= m.stateLog.events && p' <= |m.stateLog.events|
    ensures m.Valid() && m.Wired() && m.Running() && m.Justified(m.stateLog.events)
    ensures forall w :: w in m.created ==> w in old(m.created) || (fresh(w) && fresh(w.consumer))
    ensures forall id :: id in old(m.groups) ==> id in m.groups && m.groups[id] == old(m.groups)[id]
    ensures forall id :: id in m.groups && id !in old(m.groups) ==> fresh(m.groups[id])
    ensures view'.Ok? ==> Evolves(m.seen, view'.value) && Explained(m.stateLog.events, view'.value)
  {
    hide Evolves, Explained, At, Fold, Reducer.Apply, HasCause,
         VerifiedFor, CauseInLog, Manager.Valid, Manager.Wired, Manager.Running, Manager.Justified;
    p', view' := p, view;
    var choice: nat := *;
    if choice == 0 {
      var e: Event := *;
      if view.Ok? {
        StaysExplained(m.stateLog.events, m.stateLog.events + [e], view.value);
      }
      m.Grow(e);
    } else if choice == 1 && view.Ok? {
      p', view' := Advance(m, r, p, view.value);
    } else if choice == 2 && view.Ok? {
      var ok := m.Reconcile(view.value, m.stateLog.events);
      EvolvesReflexive(view.value);
    } else if choice == 3 {
      m.CloseAll();
    } else if choice == 4 {
      var barrier: nat, from: nat := *, *;
      if barrier <= |m.stateLog.events| && from <= |m.stateLog.events| {
        m.Restart();
        p' := from;
        view' := AtBarrier(m, r, barrier);
      }
    } else {
      var id: string := *;
      if id in m.workers && !m.workers[id].finished {
        var n: nat, patience: nat := *, *;
        m.RegistryFacts(id);
        m.WorkerFacts(m.workers[id]);
        m.Slice(m.workers[id], n, meta, patience);
        if view.Ok? {
          StaysExplained(old(m.stateLog.events), m.stateLog.events, view.value);
        }
      }
    }
  }

  lemma NothingToJustify(m: Manager)
    requires m.created == {} && m.DeletedForCause(m.stateLog.events)
    ensures m.Justified(m.stateLog.events)
  {
  }

  lemma WhatJustifiedMeans(m: Manager, log: seq<Event>)
    requires m.Justified(log)
    ensures m.Caused(log) && m.DeletedForCause(log)
  {
  }

  /** The state a new hub process starts from. */
  method AtBarrier(m: Manager, r: Reducer, b: nat) returns (view: Result<Snapshot, Error>)
    requires b <= |m.stateLog.events| && m.seen == EMPTY
    ensures view == At(r, m.stateLog.events, b)
    ensures view.Ok? ==> Evolves(m.seen, view.value) && Explained(m.stateLog.events, view.value)
  {
    hide At, Fold, Evolves, Explained;
    view := At(r, m.stateLog.events, b);
    if view.Ok? {
      ReachableIsExplained(r, m.stateLog.events, b);
      EvolvesFromEmpty(view.value);
    }
  }

  /** The projection applies the next event of the log, if there is one and it can. */
  method Advance(m: Manager, r: Reducer, p: nat, view: Snapshot) returns (p': nat, view': Result<Snapshot, Error>)
    requires p <= |m.stateLog.events| && Evolves(m.seen, view) && Explained(m.stateLog.events, view)
    ensures p <= p' <= |m.stateLog.events|
    ensures view'.Ok? ==> Evolves(m.seen, view'.value) && Explained(m.stateLog.events, view'.value)
  {
    hide Evolves, Explained, Reducer.Apply;
    p', view' := p, Ok(view);
    if p < |m.stateLog.events| {
      var next := r.Apply(view, m.stateLog.events[p]);
      if next.Ok? {
        StepStaysExplained(r, m.stateLog.events, p, view);
        ApplyEvolves(r, view, m.stateLog.events[p]);
        EvolvesTransitive(m.seen, view, next.value.next);
        p', view' := p + 1, Ok(next.value.next);
      } else {
        view' := Err(next.error);
      }
    }
  }

  // ---------------------------------------------------------------- from an event to a worker

  /** The event ends or suspends the subscription: it leaves, goes stale, or its topic is deregistered. */
  predicate Withdraws(e: Event, s: Snapshot, id: string) {
    match e
    case SubscriptionUnsubscribed(_, x) => x == id
    case SubscriptionWasRemoved(_, x, _) => x == id
    case SubscriptionWentStale(_, x, _) => x == id
    case TopicDeregistered(_, t) => id in s.subscriptions && s.subscriptions[id].topicId == t
    case _ => false
  }

  /** After an accepted withdrawal, the subscription is removed or stale or its topic inactive. */
  lemma WithdrawnExactly(r: Reducer, s: Snapshot, e: Event, id: string)
    requires r.Apply(s, e).Ok? && Withdraws(e, s, id)
    ensures var n := r.Apply(s, e).value.next;
            && id in n.subscriptions
            && (e.SubscriptionUnsubscribed? || e.SubscriptionWasRemoved? ==> n.subscriptions[id].status == SubscriptionRemoved)
            && (e.SubscriptionWentStale? ==> n.subscriptions[id].status == SubscriptionStale && n.topics == s.topics
                                             && id in s.subscriptions && n.subscriptions[id].topicId == s.subscriptions[id].topicId)
            && (e.TopicDeregistered? ==>
                  && n.subscriptions[id].topicId == e.topicId && e.topicId in n.topics
                  && n.topics[e.topicId].status == TopicInactive)
  {
    hide Reducer.Apply;
    OnlyValidApplies(r, s, e);
    match e
    case TopicDeregistered(meta, t) =>
      DeregistrationExactly(r, s, meta, t);
      SnapshotIsValidExactly(r, s);
    case SubscriptionWentStale(meta, x, reason) =>
      StaleExactly(r, s, meta, x, reason);
    case _ =>
      RemovalExactly(r, s, e);
  }

  lemma OnlyValidApplies(r: Reducer, s: Snapshot, e: Event)
    requires r.Apply(s, e).Ok?
    ensures r.ValidSnapshot(s) && r.ValidEvent(e)
  {
  }

  /**
   A withdrawal that the projection has applied reaches the worker: the next reconciliation
   asks it to stop.  If the subscription left or its topic was deregistered, it is to delete
   its progress; if it only went stale on an active topic, its intent stays as it was.
   */
  method ReconcileWithdrawal(m: Manager, r: Reducer, view: Snapshot, e: Event, id: string) returns (ok: bool)
    requires m.Valid() && m.Wired() && m.Running() && id in m.workers
    requires r.Apply(view, e).Ok? && Withdraws(e, view, id)
    modifies m`workers, m`created, m`groups, m`seen, m.created`stopRequested, m.created`stopIntent
    ensures m.Valid() && m.Wired() && m.Running() && m.seen == r.Apply(view, e).value.next
    ensures forall w :: w in m.created && w !in old(m.created) ==> fresh(w)
    ensures ok ==> old(m.workers)[id].stopRequested
    ensures ok && !e.SubscriptionWentStale? ==> old(m.workers)[id].stopIntent.ClosePermanent?
    ensures ok && e.SubscriptionWentStale? && view.subscriptions[id].topicId in view.topics
            && view.topics[view.subscriptions[id].topicId].status == TopicActive ==>
              old(m.workers)[id].stopIntent == old(m.workers[id].stopIntent)
    ensures if id in m.workers then m.workers[id] == old(m.workers)[id] else ok && old(m.workers)[id].finished
  {
    hide Reducer.Apply, Evolves, Explained, Manager.Valid, Manager.Wired,
         Manager.Running, Manager.Justified, Manager.AllSeen, Manager.Grew, Manager.Serves;
    WithdrawnExactly(r, view, e, id);
    ok := m.Reconcile(r.Apply(view, e).value.next, m.stateLog.events);
  }

  /**
   An admission or reactivation that the projection has applied gets its worker: for a
   subscription of this server on an active topic, the next reconciliation leaves one registered.
   That worker is running and not asked to stop iff none was registered or the registered one was
   so already: a worker that has finished, or was asked to stop, is not replaced.
   */
  method ReconcileAdmission(m: Manager, r: Reducer, view: Snapshot, e: Event, id: string) returns (ok: bool)
    requires m.Valid() && m.Wired() && m.Running() && r.Apply(view, e).Ok?
    requires || (e.SubscriptionVerified? && e.subscription.id == id && e.subscription.serverId == m.serverId
                 && r.Apply(view, e).value.changed)
             || (e.SubscriptionReactivated? && e.subscriptionId == id && view.subscriptions[id].serverId == m.serverId
                 && view.subscriptions[id].topicId in view.topics
                 && view.topics[view.subscriptions[id].topicId].status == TopicActive)
    modifies m`workers, m`created, m`groups, m`seen, m.created`stopRequested, m.created`stopIntent
    ensures m.Valid() && m.Wired() && m.Running() && m.seen == r.Apply(view, e).value.next
    ensures forall w :: w in m.created && w !in old(m.created) ==> fresh(w)
    ensures ok ==> id in m.workers
    ensures ok && id in old(m.workers) ==>
              && m.workers[id] == old(m.workers)[id]
              && m.workers[id].stopRequested == old(m.workers[id].stopRequested)
              && m.workers[id].stopIntent == old(m.workers[id].stopIntent)
    ensures ok ==>
              (!m.workers[id].finished && !m.workers[id].stopRequested <==>
               id in old(m.workers) ==> !old(m.workers[id].finished) && !old(m.workers[id].stopRequested))
  {
    hide Reducer.Apply, Evolves, Explained, Manager.Valid, Manager.Wired,
         Manager.Running, Manager.Justified, Manager.AllSeen, Manager.Grew, Manager.Serves;
    OnlyValidApplies(r, view, e);
    if e.SubscriptionVerified? {
      VerificationExactly(r, view, e.meta, e.subscription);
    } else {
      ReactivationExactly(r, view, e.meta, id);
    }
    ok := m.Reconcile(r.Apply(view, e).value.next, m.stateLog.events);
  }

  /**
   Counterexample, on every hub and for every subscription it runs: the subscription goes
   stale, a reconciliation asks its worker to stop, and before the worker is done the
   subscription is reactivated.  The next reconciliation finds the subscription active and the
   worker registered, and leaves the request to stop in place.
   */
  method ReactivatedTooEarly(m: Manager, r: Reducer, view: Snapshot, meta: Metadata, meta': Metadata, id: string, reason: string)
    returns (ok: bool)
    requires m.Valid() && m.Wired() && m.Running() && id in m.workers && !m.workers[id].finished
    requires r.ValidSnapshot(view)
    requires r.ValidEvent(SubscriptionWentStale(meta, id, reason)) && r.ValidEvent(SubscriptionReactivated(meta', id))
    requires id in view.subscriptions && view.subscriptions[id].status == SubscriptionActive
    requires view.subscriptions[id].serverId == m.serverId && view.subscriptions[id].topicId in view.topics
    requires view.topics[view.subscriptions[id].topicId].status == TopicActive
    modifies m`workers, m`created, m`groups, m`seen, m.created`stopRequested, m.created`stopIntent
    ensures ok ==>
              && id in m.seen.subscriptions && m.seen.subscriptions[id].status == SubscriptionActive
              && id in m.workers && m.workers[id] == old(m.workers)[id] && m.workers[id].stopRequested
  {
    hide Reducer.Apply, Reducer.ValidSnapshot, Reducer.ValidEvent, Manager.Valid, Manager.Wired, Manager.Running;
    var stale, back := SubscriptionWentStale(meta, id, reason), SubscriptionReactivated(meta', id);
    StaleExactly(r, view, meta, id, reason);
    ok := ReconcileWithdrawal(m, r, view, stale, id);
    if ok {
      ApplyKeepsValid(r, view, stale);
      var between := r.Apply(view, stale).value.next;
      ReactivationExactly(r, between, meta', id);
      ok := ReconcileAdmission(m, r, between, back, id);
    }
  }

  // ---------------------------------------------------------------- ownership

  /** `e` is the verification that admitted `x`. */
  predicate Vouches(e: Event, x: Subscription) {
    e.SubscriptionVerified? && SameTerms(e.subscription, x)
  }

  ghost predicate Vouched(events: seq<Event>, x: Subscription) {
    exists k :: 0 <= k < |events| && Vouches(events[k], x)
  }

  lemma ApplyNeedsVoucher(r: Reducer, s: Snapshot, e: Event, id: string)
    requires r.Apply(s, e).Ok?
    ensures var n := r.Apply(s, e).value.next;
            id in n.subscriptions ==>
              (id in s.subscriptions && SameTerms(s.subscriptions[id], n.subscriptions[id]))
              || Vouches(e, n.subscriptions[id])
  {
    hide Reducer.ValidSnapshot, Reducer.ValidEvent;
  }

  /** Every subscription was in the starting state or was admitted by one of the events. */
  lemma {:induction false} FoldNeedsVoucher(r: Reducer, s: Snapshot, events: seq<Event>, id: string)
    requires Fold(r, s, events).Ok? && id in Fold(r, s, events).value.subscriptions
    ensures var x := Fold(r, s, events).value.subscriptions[id];
            (id in s.subscriptions && SameTerms(s.subscriptions[id], x)) || Vouched(events, x)
    decreases |events|
  {
    hide Reducer.Apply;
    if events != [] {
      var n := |events| - 1;
      var t := Fold(r, s, events[..n]).value;
      ApplyNeedsVoucher(r, t, events[n], id);
      if !Vouches(events[n], Fold(r, s, events).value.subscriptions[id]) {
        FoldNeedsVoucher(r, s, events[..n], id);
        if Vouched(events[..n], t.subscriptions[id]) {
          var k :| 0 <= k < n && Vouches(events[..n][k], t.subscriptions[id]);
          assert Vouches(events[k], Fold(r, s, events).value.subscriptions[id]);
        }
      }
    }
  }

  /** Every subscription a hub sees was admitted by an event of the log. */
  lemma HubViewIsVouched(r: Reducer, log: seq<Event>, h: nat, b: nat, p: nat, id: string)
    requires b <= |log| && h <= p <= |log|
    requires HubView(r, log, h, b, p).Ok? && id in HubView(r, log, h, b, p).value.subscriptions
    ensures Vouched(log, HubView(r, log, h, b, p).value.subscriptions[id])
  {
    hide Fold;
    var start, x := At(r, log, b).value, HubView(r, log, h, b, p).value.subscriptions[id];
    FoldNeedsVoucher(r, start, log[h..p], id);
    if Vouched(log[h..p], x) {
      var k :| 0 <= k < p - h && Vouches(log[h..p][k], x);
      assert Vouches(log[h + k], x);
    } else {
      FoldNeedsVoucher(r, EMPTY, log[..b], id);
      var k :| 0 <= k < b && Vouches(log[..b][k], start.subscriptions[id]);
      assert Vouches(log[k], x);
    }
  }

  /** A verification of the subscription for that server is in the log. */
  ghost predicate VerifiedOn(log: seq<Event>, id: string, server: string) {
    exists k :: 0 <= k < |log| && log[k].SubscriptionVerified? && log[k].subscription.id == id && log[k].subscription.serverId == server
  }

  lemma DesiredIsVerified(r: Reducer, log: seq<Event>, h: nat, b: nat, p: nat, server: string, id: string)
    requires b <= |log| && h <= p <= |log| && HubView(r, log, h, b, p).Ok?
    requires Desired(HubView(r, log, h, b, p).value, server, id)
    ensures VerifiedOn(log, id, server)
  {
    hide HubView;
    var s := HubView(r, log, h, b, p).value;
    HubViewIsVouched(r, log, h, b, p, id);
    HubViewIsSound(r, log, h, b, p);
    var k :| 0 <= k < |log| && Vouches(log[k], s.subscriptions[id]);
    VouchedFor(log[k], s.subscriptions[id]);
    assert r.ValidSubscription(id, s.subscriptions[id], s.revision);
  }

  /** The hub's overlap was all no-ops at its barrier. */
  ghost predicate Converged(r: Reducer, log: seq<Event>, h: nat, b: nat)
    requires b <= |log|
  {
    h <= b && At(r, log, b).Ok? && AllNoOps(r, At(r, log, b).value, log[h..b])
  }

  /**
   Two hubs, each at any point of its own run, never both want the same subscription, unless
   the log has verified it for both servers and at least one of the hubs was changed by
   replaying its overlap.
   */
  lemma HubsNeverShareASubscription(r: Reducer, log: seq<Event>, h: nat, b: nat, p: nat, h': nat, b': nat, p': nat,
                                    server: string, server': string, id: string)
    requires b <= |log| && h <= p <= |log| && b' <= |log| && h' <= p' <= |log|
    requires HubView(r, log, h, b, p).Ok? && HubView(r, log, h', b', p').Ok?
    requires Desired(HubView(r, log, h, b, p).value, server, id)
    requires Desired(HubView(r, log, h', b', p').value, server', id)
    ensures || server == server'
            || (&& VerifiedOn(log, id, server) && VerifiedOn(log, id, server')
                && !(Converged(r, log, h, b) && Converged(r, log, h', b')))
  {
    hide HubView, At, AllNoOps, VerifiedOn;
    DesiredIsVerified(r, log, h, b, p, server, id);
    DesiredIsVerified(r, log, h', b', p', server', id);
    if Converged(r, log, h, b) && Converged(r, log, h', b') {
      ConvergedViewIsCanonical(r, log, h, b, p);
      ConvergedViewIsCanonical(r, log, h', b', p');
      CanonicalOwnerIsUnique(r, log, if b <= p then p else b, if b' <= p' then p' else b', server, server', id);
    }
  }

  lemma VouchedFor(e: Event, x: Subscription)
    requires Vouches(e, x)
    ensures e.subscription.id == x.id && e.subscription.serverId == x.serverId && e.subscription.topicId == x.topicId
  {
  }

  /** On canonical states no assumption is needed: an identifier keeps its server for good. */
  lemma CanonicalOwnerIsUnique(r: Reducer, log: seq<Event>, m: nat, n: nat, server: string, server': string, id: string)
    requires m <= |log| && n <= |log| && At(r, log, m).Ok? && At(r, log, n).Ok?
    requires Desired(At(r, log, m).value, server, id) && Desired(At(r, log, n).value, server', id)
    ensures server == server'
  {
    hide At;
    var a, b := if m <= n then m else n, if m <= n then n else m;
    ReachableEvolves(r, log, a, b);
    assert SubscriptionKept(id, At(r, log, a).value, At(r, log, b).value);
  }

  const TAKEN_OVER := SubscriptionVerified(META, Sub("s2", 2).(serverId := "hub2"))

  /**
   Counterexample when both exceptions hold: `s2` was first merged into `s1` for one server and, once `s1`
   had left, admitted for another.  The canonical state gives it to the second server, while
   a hub that replays the merged request wants it for the first.
   */
  lemma ReplayedMergeSharesASubscription()
    ensures var log := MERGED_LOG + [TAKEN_OVER];
            && VerifiedOn(log, "s2", "hub") && VerifiedOn(log, "s2", "hub2") && !Converged(PLAIN, log, 2, 4)
            && At(PLAIN, log, 5).Ok? && Desired(At(PLAIN, log, 5).value, "hub2", "s2")
            && HubView(PLAIN, log, 2, 4, 4).Ok? && Desired(HubView(PLAIN, log, 2, 4, 4).value, "hub", "s2")
  {
    hide Reducer.Apply, Fold;
    var log := MERGED_LOG + [TAKEN_OVER];
    assert log[2].subscription == Sub("s2", 2) && log[4].subscription.serverId == "hub2";
    ReplayedMergeInserts();
    MergedOverlapDiverges();
    AtGrows(PLAIN, MERGED_LOG, log, 4);
    assert log[2..4] == MERGED_LOG[2..4] && log[2..4][0] == VERIFY2;
    JoinAfterLeft("hub2");
    AtStep(PLAIN, log, 4);
  }
}
