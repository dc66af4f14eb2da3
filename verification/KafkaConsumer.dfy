/**
 The contiguous-acknowledgement consumer over a polling client.  The client is reduced to
 its contract: per-partition positions that are concrete once fetched, committed or set,
 and polls that hand out the next records of any partitions in any interleaving, or report
 an error after having taken some of them.
 */
module KafkaConsumer {
  import opened Wrappers
  import opened Messages
  import opened PendingQueue

  datatype Outcome = Done | ConsumerClosed | OutOfOrder | Mismatch | StoreFailed

  datatype Intent = CloseTemporary | ClosePermanent

  class Consumer {
    const broker: Broker
    const startEarliest: bool
    const sharedGroup: bool
    const partitions: set<int>
    var joined: bool                   // the group has assigned the partitions
    var position: map<int, nat>
    var reported: set<int>
    var established: map<int, nat>
    var pending: seq<Pending>
    var delivered: nat
    var nextReceipt: nat
    var closed: bool
    var permanent: bool
    ghost var base: map<int, nat>
    ghost var history: History
    ghost var torn: bool               // a poll since the last (re)open took records and failed
    ghost var issued: map<nat, Place>  // which record each receipt was issued for, for ever

    ghost function Now(): Client
      reads this, broker
    {
      Client(broker.logs, broker.committed, partitions, position, base, established, reported)
    }

    ghost predicate Issued(q: seq<Pending>)
      reads this`issued, this`nextReceipt
    {
      && (forall i :: 0 <= i < |q| ==> q[i].receipt in issued && issued[q[i].receipt] == q[i].at)
      && (forall k :: k in issued ==> 1 <= k <= nextReceipt)
    }

    ghost predicate Valid()
      reads this, broker
    {
      && broker.Valid()
      && Positioned(Now())
      && QueueOk(Now(), pending, nextReceipt)
      && Issued(pending)
      && delivered <= |pending|
      && (!closed ==> Known(Now()))
      && (!torn ==> InLogOrder(Now(), pending))
      && Anchored() && Tracked(pending)
    }

    /** A consumer that starts at the earliest record has skipped nothing. */
    ghost predicate Anchored()
      reads this`closed, this`base, broker`committed
    {
      startEarliest && !closed ==> FromStart(base, broker.committed)
    }

    /** Every record from a partition's beginning to its position has been seen, is in `q`, or was lost to a failed poll. */
    ghost predicate Tracked(q: seq<Pending>)
      reads this`torn, this`history, this`base, this`position, this`delivered
    {
      && history.origin.Keys == base.Keys
      && Accounted(history, position, q, delivered)
      && (!torn ==> history.lost == {})
    }

    /** Partitions may have begun; none has moved, and nothing was handed out or resolved. */
    twostate predicate OriginKept()
      reads this`history
    {
      && Extends(old(history).origin, history.origin)
      && history.handed == old(history).handed && history.resolved == old(history).resolved
    }

    /** Receipts keep the meaning they were issued with, and new ones are new numbers. */
    twostate predicate ReceiptsKept()
      reads this`issued, this`nextReceipt
    {
      Renumbers(old(issued), old(nextReceipt), issued, nextReceipt)
    }

    constructor (broker: Broker, partitions: set<int>, startEarliest: bool, sharedGroup: bool)
      requires broker.Valid() && partitions <= broker.logs.Keys
      ensures Valid() && !torn && pending == [] && delivered == 0 && !closed && !permanent
      ensures this.broker == broker && this.partitions == partitions && this.startEarliest == startEarliest
      ensures this.sharedGroup == sharedGroup
      ensures Now() == Reopened(Now()) && history == History(base, {}, [], {})
    {
      this.broker, this.partitions, this.startEarliest, this.sharedGroup :=
        broker, partitions, startEarliest, sharedGroup;
      joined, reported, established, pending := false, {}, map[], [];
      position := Committed(partitions, broker.committed);
      base := Committed(partitions, broker.committed);
      history := History(Committed(partitions, broker.committed), {}, [], {});
      delivered, nextReceipt, closed, permanent := 0, 0, false, false;
      torn, issued := false, map[];
      new;
      ReopenKeeps(Now());
    }

    /** Publishers append while the consumer is at rest. */
    method Elapse()
      requires Valid()
      modifies broker`logs
      ensures Valid() && broker.Grown()
    {
      hide FromStart, Positioned, AllGenuine, InLogOrder, Known, Accounted;
      ghost var before := Now();
      broker.Elapse();
      GrowthKeeps(before, pending, broker.logs);
    }

    // ---------------------------------------------------------------- fetching

    /** Where an uncommitted partition begins: the log start, or some end of the log up to now. */
    method Reset(p: int) returns (start: nat)
      requires p in broker.logs
      ensures start <= |broker.logs[p]| && (startEarliest ==> start == 0)
    {
      if startEarliest {
        return 0;
      }
      start :| start <= |broker.logs[p]|;
    }

    /** A partition begins at `start`. */
    method Begin(p: int, start: nat, ghost q: seq<Pending>)
      requires Anchored() && Tracked(q) && p !in base && (startEarliest ==> start == 0)
      modifies this`position, this`base, this`history
      ensures Anchored() && Tracked(q) && OriginKept()
      ensures base == old(base)[p := start] && position == old(position)[p := start]
    {
      hide Accounted, FromStart;
      AccountedFromHere(history, position, q, delivered, p, start);
      if startEarliest && !closed {
        FromStartKeeps(base, broker.committed, p, 0);
      }
      base, history := base[p := start], history.(origin := history.origin[p := start]);
      position := position[p := start];
    }

    /** Fixes where a partition begins, before anything of it was fetched. */
    method MakeConcrete(p: int, start: nat, ghost q: seq<Pending>)
      requires Positioned(Now()) && AllGenuine(Now(), q) && Anchored() && Tracked(q)
      requires p in partitions && p !in position && p in broker.logs && start <= |broker.logs[p]|
      requires startEarliest ==> start == 0
      modifies this`position, this`base, this`history
      ensures Now() == Concrete(old(Now()), p, start)
      ensures Positioned(Now()) && AllGenuine(Now(), q) && Anchored() && Tracked(q) && OriginKept()
      ensures old(InLogOrder(Now(), q)) ==> InLogOrder(Now(), q)
      ensures old(Known(Now())) ==> forall r :: r != p ==> KnownAt(Now(), r)
    {
      hide Positioned, AllGenuine, InLogOrder, Known, KnownAt, Anchored, Tracked, Extends;
      NotBegun(Now(), p);
      ConcreteKeeps(Now(), q, p, start);
      Begin(p, start, q);
    }

    /** A poll in progress: `q` is the queue followed by what the poll has taken so far. */
    ghost predicate Polling(q: seq<Pending>)
      reads this, broker
    {
      && broker.Valid() && Positioned(Now()) && Known(Now()) && Anchored() && Tracked(q)
      && pending <= q && delivered <= |pending|
      && QueueOk(Now(), q, nextReceipt + (|q| - |pending|))
      && Numbered(q[|pending|..], nextReceipt)
      && (!torn ==> InLogOrder(Now(), q))
    }

    /** Fixes the position of a partition that has none yet, if the policy leaves anything to take. */
    method Enter(p: int, ghost q: seq<Pending>) returns (ready: bool)
      requires Positioned(Now()) && AllGenuine(Now(), q) && Known(Now()) && Anchored() && Tracked(q)
      modifies this`position, this`base, this`history
      ensures Positioned(Now()) && AllGenuine(Now(), q) && Anchored() && Tracked(q) && OriginKept()
      ensures old(InLogOrder(Now(), q)) ==> InLogOrder(Now(), q)
      ensures ready ==> p in position && p in broker.logs && position[p] < |broker.logs[p]|
      ensures if ready then forall r :: r != p ==> KnownAt(Now(), r) else Known(Now())
    {
      hide AllGenuine, InLogOrder, Anchored, Tracked, KnownAt;
      if p !in partitions {
        return false;
      }
      if p in position {
        return position[p] < |broker.logs[p]|;
      }
      var start := Reset(p);
      if start >= |broker.logs[p]| {
        return false;
      }
      MakeConcrete(p, start, q);
      return true;
    }

    method TakeNext(p: int, q: seq<Pending>, counter: nat) returns (longer: seq<Pending>)
      requires Positioned(Now()) && QueueOk(Now(), q, counter)
      requires p in position && p in broker.logs && position[p] < |broker.logs[p]|
      requires (forall r :: r != p ==> KnownAt(Now(), r)) && Tracked(q)
      modifies this`position, this`reported
      ensures longer == q + [NextPending(old(Now()), p, counter)]
      ensures Positioned(Now()) && QueueOk(Now(), longer, counter + 1) && Known(Now()) && Tracked(longer)
      ensures old(InLogOrder(Now(), q)) ==> InLogOrder(Now(), longer)
    {
      hide Positioned, QueueOk, InLogOrder, Known, KnownAt, Accounted;
      AccountedTakes(history, position, q, delivered, p, NextPending(Now(), p, counter));
      ghost var c := Now();
      TakeKeeps(c, q, p, counter);
      if InLogOrder(c, q) { TakeLinesUp(c, q, p, counter); }
      longer := q + [Pending(Place(p, position[p]), counter + 1, broker.logs[p][position[p]])];
      position := position[p := position[p] + 1];
      reported := reported + {p};
      assert Now() == Taken(c, p);
    }

    /** Takes the next record of one partition, if there is one, under the next receipt. */
    method TakeFrom(p: int, q: seq<Pending>) returns (longer: seq<Pending>)
      requires Polling(q)
      modifies this`position, this`reported, this`base, this`history
      ensures Polling(longer) && OriginKept() && |q| <= |longer| <= |q| + 1
    {
      hide Positioned, AllGenuine, Ascending, FreshReceipts, InLogOrder, Known, KnownAt, Anchored, Tracked;
      var ready := Enter(p, q);
      if !ready {
        return q;
      }
      longer := TakeNext(p, q, nextReceipt + (|q| - |pending|));
      assert longer[|pending|..] == q[|pending|..] + [longer[|q|]];
    }

    /** Polls: the next records of any partitions in any interleaving, at most `max` of them. */
    method Poll(max: nat) returns (fetched: seq<Pending>)
      requires Valid() && !closed
      modifies this`position, this`reported, this`base, this`history, this`joined, broker`logs
      ensures Polling(pending + fetched) && OriginKept()
      ensures |fetched| <= max && broker.Grown()
    {
      hide Valid, Polling, Extends;
      StartPolling();
      var q := pending;
      var budget := max;
      ExtendsItself(history.origin);
      while budget > 0
        invariant Polling(q) && OriginKept() && broker.Grown()
        invariant |pending| <= |q| && |q| - |pending| + budget <= max
      {
        budget := budget - 1;
        var p: int := *;
        ghost var before := history.origin;
        q := TakeFrom(p, q);
        ExtendsChain(old(history).origin, before, history.origin);
      }
      PollingExtends(q);
      fetched := q[|pending|..];
      assert pending + fetched == q;
    }

    lemma PollingExtends(q: seq<Pending>)
      requires Polling(q)
      ensures pending <= q
    {
    }

    method StartPolling()
      requires Valid() && !closed
      modifies broker`logs, this`joined
      ensures Polling(pending) && broker.Grown()
    {
      hide Positioned, AllGenuine, Ascending, FreshReceipts, InLogOrder, Known, Anchored, Tracked, Issued;
      Elapse();
      joined := *;
      assert pending[|pending|..] == [];
    }

    /** Queues what a successful poll returned, under fresh receipts. */
    method AppendFetched(q: seq<Pending>)
      requires Polling(pending + q) && Issued(pending)
      modifies this`pending, this`nextReceipt, this`issued
      ensures Valid() && ReceiptsKept()
      ensures pending == old(pending) + q && nextReceipt == old(nextReceipt) + |q|
    {
      hide FromStart, Positioned, InLogOrder, QueueOk, Known, Accounted;
      assert (pending + q)[|pending|..] == q;
      var i := 0;
      while i < |q|
        invariant 0 <= i <= |q|
        invariant pending == old(pending) + q[..i] && nextReceipt == old(nextReceipt) + i
        invariant Now() == old(Now())
        invariant Issued(pending) && ReceiptsKept()
      {
        assert pending + [q[i]] == old(pending) + q[..i + 1];
        pending := pending + [q[i]];
        nextReceipt := nextReceipt + 1;
        issued := issued[q[i].receipt := q[i].at];
        i := i + 1;
      }
      assert q[..i] == q;
    }

    /** A poll that reports an error: whatever it took from the client is gone. */
    ghost method Tear(fetched: seq<Pending>)
      requires Polling(pending + fetched) && Issued(pending) && FreshReceipts(pending, nextReceipt)
      modifies this`torn, this`history
      ensures Valid()
      ensures torn == (old(torn) || fetched != [])
      ensures history == old(history).(lost := old(history).lost + Places(fetched))
    {
      hide FromStart, Positioned, InLogOrder, Known, Accounted;
      AccountedLoses(history, position, pending, delivered, fetched);
      torn, history := torn || fetched != [], history.(lost := history.lost + Places(fetched));
      QueuePrefix(Now(), pending, fetched, nextReceipt + |fetched|);
      assert fetched == [] ==> pending + fetched == pending;
    }

    /** Polls and queues; a poll that reports an error queues nothing. */
    method Fetch(max: nat) returns (ok: bool)
      requires Valid() && !closed
      modifies this`position, this`reported, this`base, this`history, this`joined, this`pending, this`nextReceipt,
               this`issued, this`torn, broker`logs
      ensures Valid() && ReceiptsKept() && broker.Grown() && OriginKept()
      ensures ok ==> old(pending) <= pending && |pending| <= |old(pending)| + max && torn == old(torn)
      ensures !ok ==> pending == old(pending)
    {
      hide Polling, Valid, Issued, FreshReceipts, Extends, Renumbers;
      QueueFacts();
      RenumbersItself(issued, nextReceipt);
      var fetched := Poll(max);
      ok := *;
      if ok {
        AppendFetched(fetched);
      } else {
        Tear(fetched);
      }
    }

    /** Marks the next queued records as handed out. */
    method HandOut(batch: seq<Pending>, end: nat)
      requires Valid() && delivered <= end <= |pending| && batch == pending[delivered..end]
      modifies this`delivered, this`history
      ensures Valid() && delivered == end && history == old(history).(handed := old(history).handed + Places(batch))
    {
      hide FromStart, Positioned, QueueOk, InLogOrder, Known, Issued, Accounted, Places, Anchored;
      AccountedHandOut(history, position, pending, delivered, end);
      history := history.(handed := history.handed + Places(batch));
      delivered := end;
    }

    /**
     Hands out the next records.  It polls only when everything queued has been handed out,
     and a failed poll hands out nothing and leaves the queue as it was.
     */
    method Receive(max: int) returns (ok: bool, batch: seq<Pending>)
      requires Valid()
      modifies this`position, this`reported, this`base, this`history, this`joined, this`pending, this`nextReceipt,
               this`issued, this`delivered, this`torn, broker`logs
      ensures Valid() && ReceiptsKept() && broker.Grown() && Extends(old(history).origin, history.origin)
      ensures history.handed == old(history).handed + Places(batch) && history.resolved == old(history).resolved
      ensures ok ==>
                && !closed && max >= 1 && torn == old(torn)
                && old(pending) <= pending && |pending| <= |old(pending)| + max
                && (old(delivered) < |old(pending)| ==> pending == old(pending))
                && delivered == (if old(delivered) + max <= |pending| then old(delivered) + max else |pending|)
                && old(delivered) <= delivered
                && batch == pending[old(delivered)..delivered]
      ensures !ok ==> batch == [] && pending == old(pending) && delivered == old(delivered)
    {
      hide Valid, Places, Extends, Renumbers, Issued, FreshReceipts;
      QueueFacts();
      NoPlaces();
      ExtendsItself(history.origin);
      RenumbersItself(issued, nextReceipt);
      if closed || max < 1 {
        return false, [];
      }
      var cancelled: bool := *;
      if cancelled {
        return false, [];
      }
      if delivered == |pending| {
        ok := Fetch(max);
        if !ok {
          return false, [];
        }
      }
      var end := if delivered + max <= |pending| then delivered + max else |pending|;
      batch := pending[delivered..end];
      HandOut(batch, end);
      return true, batch;
    }

    // ---------------------------------------------------------------- resolving

    lemma HeadCanCommit()
      requires Valid() && |pending| > 0
      ensures var at := pending[0].at;
              broker.Valid() && broker.Has(at) && (at.partition in broker.committed ==> broker.committed[at.partition] <= at.offset + 1)
    {
      assert Genuine(Now(), pending[0]);
    }

    /** A commit behind the head, whether or not it took effect, leaves the consumer valid. */
    twostate lemma CommitStaysValid()
      requires old(Valid()) && |pending| > 0 && broker.Valid()
      requires unchanged(this) && unchanged(broker`logs)
      requires || broker.committed == old(broker.committed)
               || broker.committed == old(broker.committed)[pending[0].at.partition := pending[0].at.offset + 1]
      ensures Valid()
    {
      hide FromStart, Positioned, QueueOk, InLogOrder, Known, Issued, Tracked, Broker.Valid;
      ghost var c, at := old(Now()), pending[0].at;
      if broker.committed != c.committed {
        CommitKeeps(c, pending, nextReceipt);
        if startEarliest && !closed {
          FromStartKeeps(base, c.committed, at.partition, at.offset + 1);
        }
        assert Now() == HeadCommitted(c, pending[0]);
      } else {
        assert Now() == c;
      }
    }

    /** Commits the head of the queue, which stays queued. */
    method CommitFirst() returns (confirmed: bool)
      requires Valid() && |pending| > 0
      modifies broker`committed, broker`first
      ensures Valid()
      ensures CommitsOnly(old(broker.committed), old(broker.first), broker.committed, broker.first, pending)
      ensures confirmed ==> broker.committed == old(broker.committed)[pending[0].at.partition := pending[0].at.offset + 1]
    {
      hide Valid, Broker.Valid, Broker.Has;
      HeadCanCommit();
      confirmed := broker.Commit(pending[0].at);
      CommitStaysValid();
    }

    /** Commits the head of the queue and, once confirmed, drops it. */
    method CommitHead() returns (confirmed: bool)
      requires Valid() && |pending| > 0
      modifies this`pending, this`delivered, this`established, this`base, this`history, broker`committed, broker`first
      ensures Valid()
      ensures CommitsOnly(old(broker.committed), old(broker.first), broker.committed, broker.first, old(pending))
      ensures confirmed ==>
                && broker.committed == old(broker.committed)[old(pending)[0].at.partition := old(pending)[0].at.offset + 1]
                && Dropped()
      ensures !confirmed ==> pending == old(pending) && delivered == old(delivered) && history == old(history)
    {
      hide Valid, CommitsOnly;
      confirmed := CommitFirst();
      if confirmed {
        DropHead();
      }
    }

    /** Exactly the head of the queue was resolved. */
    twostate predicate Dropped()
      reads this`pending, this`delivered, this`history
    {
      && |old(pending)| > 0 && pending == old(pending)[1..]
      && delivered == (if old(delivered) > 0 then old(delivered) - 1 else 0)
      && history == old(history).(resolved := old(history).resolved + [old(pending)[0].at])
    }

    /** Takes the head off the queue and moves its partition's base behind it. */
    method Shift()
      requires Anchored() && Tracked(pending) && |pending| > 0
      requires pending[0].at.partition in broker.committed && pending[0].at.partition in base
      modifies this`pending, this`delivered, this`base, this`history
      ensures Anchored() && Tracked(pending) && Dropped()
      ensures base == old(base)[old(pending)[0].at.partition := old(pending)[0].at.offset + 1]
    {
      hide FromStart, Accounted;
      var at := pending[0].at;
      if startEarliest && !closed {
        FromStartKeeps(base, broker.committed, at.partition, at.offset + 1);
      }
      AccountedResolves(history, position, pending, delivered);
      base, history := base[at.partition := at.offset + 1], history.(resolved := history.resolved + [at]);
      pending := pending[1..];
      if delivered > 0 {
        delivered := delivered - 1;
      }
    }

    lemma IssuedTail()
      requires Issued(pending) && |pending| > 0
      ensures Issued(pending[1..])
    {
    }

    /** What stays true of the client and the queue once the committed head is dropped. */
    lemma HeadCanDrop()
      requires Valid() && |pending| > 0
      requires pending[0].at.partition in broker.committed
               && broker.committed[pending[0].at.partition] == pending[0].at.offset + 1
      ensures var d := HeadResolved(Now(), pending[0]);
              && Positioned(d) && QueueOk(d, pending[1..], nextReceipt) && Issued(pending[1..])
              && (!closed ==> Known(d)) && (!torn ==> InLogOrder(d, pending[1..]))
      ensures pending[0].at.partition in base && Anchored() && Tracked(pending) && delivered <= |pending| && broker.Valid()
    {
      hide Positioned, QueueOk, InLogOrder, Known, Issued, Anchored, Tracked, Broker.Valid, HeadResolved;
      ResolveKeeps(Now(), pending, nextReceipt);
      BaseExists(Now(), pending, nextReceipt);
      if !torn {
        ResolveLinesUp(Now(), pending);
      }
      IssuedTail();
    }

    /** Drops the head of the queue, which the broker has committed, and remembers the offset behind it. */
    method DropHead()
      requires Valid() && |pending| > 0
      requires pending[0].at.partition in broker.committed
               && broker.committed[pending[0].at.partition] == pending[0].at.offset + 1
      modifies this`pending, this`delivered, this`established, this`base, this`history
      ensures Valid() && Dropped()
      ensures established == old(established)[old(pending)[0].at.partition := old(pending)[0].at.offset + 1]
    {
      hide Valid, Positioned, QueueOk, InLogOrder, Known, Issued, Anchored, Tracked, Broker.Valid;
      HeadCanDrop();
      ghost var c := Now();
      var head := pending[0];
      Shift();
      established := established[head.at.partition := head.at.offset + 1];
      assert Now() == HeadResolved(c, head);
      PutTogether();
    }

    lemma PutTogether()
      requires broker.Valid() && Positioned(Now()) && QueueOk(Now(), pending, nextReceipt) && Issued(pending)
      requires delivered <= |pending| && (!closed ==> Known(Now())) && (!torn ==> InLogOrder(Now(), pending))
      requires Anchored() && Tracked(pending)
      ensures Valid()
    {
    }

    /**
     Acknowledges the head of the queue.  Only the receipt issued for the head's own record
     is accepted, so an acknowledgement never resolves a record other than the one its
     receipt was issued for.
     */
    method Ack(receipt: nat) returns (outcome: Outcome)
      requires Valid()
      modifies this`pending, this`delivered, this`established, this`base, this`history, broker`committed, broker`first
      ensures Valid()
      ensures outcome.ConsumerClosed? <==> closed
      ensures outcome.OutOfOrder? <==> !closed && (|old(pending)| == 0 || receipt != old(pending)[0].receipt)
      ensures !outcome.Mismatch?
      ensures outcome.Done? ==>
                && Dropped() && receipt in issued && issued[receipt] == old(pending)[0].at
                && broker.committed ==
                   old(broker.committed)[issued[receipt].partition := issued[receipt].offset + 1]
      ensures !outcome.Done? ==> pending == old(pending) && delivered == old(delivered) && history == old(history)
      ensures CommitsOnly(old(broker.committed), old(broker.first), broker.committed, broker.first, old(pending))
      ensures outcome.ConsumerClosed? || outcome.OutOfOrder? ==> broker.committed == old(broker.committed)
    {
      hide Valid, Issued, FreshReceipts, CommitsOnly;
      QueueFacts();
      NothingCommits(broker.committed, broker.first, pending);
      if closed {
        return ConsumerClosed;
      }
      if |pending| == 0 || receipt != pending[0].receipt {
        return OutOfOrder;
      }
      var confirmed := CommitHead();
      outcome := if confirmed then Done else StoreFailed;
    }

    /** Asks for redelivery of the head: everything queued is to be handed out again. */
    method Nack(receipt: nat, negativeDelay: bool) returns (outcome: Outcome)
      requires Valid()
      modifies this`delivered
      ensures Valid()
      ensures outcome.ConsumerClosed? <==> closed
      ensures outcome.OutOfOrder? <==>
                !closed && !negativeDelay && (|pending| == 0 || receipt != pending[0].receipt)
      ensures outcome.Mismatch? <==> !closed && negativeDelay
      ensures !outcome.StoreFailed?
      ensures outcome.Done? ==>
                |pending| > 0 && receipt in issued && issued[receipt] == pending[0].at && delivered == 0
      ensures !outcome.Done? ==> delivered == old(delivered)
    {
      hide FromStart, Positioned, QueueOk, InLogOrder, Known;
      if closed {
        return ConsumerClosed;
      }
      if negativeDelay {
        return Mismatch;
      }
      if |pending| == 0 || receipt != pending[0].receipt {
        return OutOfOrder;
      }
      delivered := 0;
      return Done;
    }

    /** Stores a dead letter for the head of the queue, then commits it. */
    method DeadLetter(receipt: nat, letter: Letter) returns (outcome: Outcome)
      requires Valid()
      modifies this`pending, this`delivered, this`established, this`base, this`history,
               broker`committed, broker`first, broker`deadLetters
      ensures Valid()
      ensures outcome.ConsumerClosed? <==> closed
      ensures outcome.OutOfOrder? <==> !closed && (|old(pending)| == 0 || receipt != old(pending)[0].receipt)
      ensures outcome.Mismatch? <==>
                && !closed && |old(pending)| > 0 && receipt == old(pending)[0].receipt
                && old(pending)[0].message.id != "" && letter.message.id != old(pending)[0].message.id
      ensures outcome.Done? ==>
                && Dropped() && receipt in issued && issued[receipt] == old(pending)[0].at
                && broker.committed ==
                   old(broker.committed)[issued[receipt].partition := issued[receipt].offset + 1]
      ensures !outcome.Done? ==> pending == old(pending) && delivered == old(delivered) && history == old(history)
      ensures CommitsOnly(old(broker.committed), old(broker.first), broker.committed, broker.first, old(pending))
      ensures broker.committed != old(broker.committed) ==>
                broker.deadLetters == old(broker.deadLetters) + [Annotated(letter)]
      ensures broker.deadLetters == old(broker.deadLetters)
              || broker.deadLetters == old(broker.deadLetters) + [Annotated(letter)]
      ensures outcome.Done? ==> broker.deadLetters == old(broker.deadLetters) + [Annotated(letter)]
      ensures !outcome.Done? && !outcome.StoreFailed? ==> broker.deadLetters == old(broker.deadLetters)
    {
      hide FromStart, Positioned, QueueOk, InLogOrder, Known, Accounted, Anchored, Tracked;
      if closed {
        return ConsumerClosed;
      }
      if |pending| == 0 || receipt != pending[0].receipt {
        return OutOfOrder;
      }
      if pending[0].message.id != "" && letter.message.id != pending[0].message.id {
        return Mismatch;
      }
      var stored := broker.Bury(Annotated(letter));
      if !stored {
        return StoreFailed;
      }
      var confirmed := CommitHead();
      outcome := if confirmed then Done else StoreFailed;
    }

    // ---------------------------------------------------------------- opening and closing

    /**
     Replaces the client.  A new client stands at the committed offsets, with an empty
     queue; the receipt counter goes on.
     */
    method Reconnect() returns (ok: bool)
      requires Valid()
      modifies this`joined, this`position, this`reported, this`base, this`history, this`established,
               this`pending, this`delivered, this`closed, this`torn
      ensures Valid() && ReceiptsKept() && permanent == old(permanent)
      ensures ok ==> !closed && !torn && pending == [] && delivered == 0 && Now() == Reopened(Now())
      ensures ok ==> history == History(base, {}, [], {})
      ensures !ok && !permanent ==> closed
      ensures permanent ==> !ok
    {
      hide Valid, Reopened;
      if permanent {
        return false;
      }
      ok := *;
      if ok {
        Reopen();
      } else {
        StayClosed();
      }
    }

    /** The new client could not be opened; the old one is gone. */
    method StayClosed()
      requires Valid()
      modifies this`joined, this`established, this`closed
      ensures Valid() && closed
    {
      hide FromStart, Positioned, QueueOk, InLogOrder, Known, Issued, Tracked;
      ForgetKeeps(Now(), pending, nextReceipt);
      joined, established, closed := false, map[], true;
    }

    /** The new client is open. */
    method Reopen()
      requires Valid()
      modifies this`joined, this`position, this`reported, this`base, this`history, this`established,
               this`pending, this`delivered, this`closed, this`torn
      ensures Valid() && !closed && !torn && pending == [] && delivered == 0 && Now() == Reopened(Now())
      ensures history == History(base, {}, [], {})
    {
      hide FromStart, Positioned, QueueOk, InLogOrder, Known, Reopened, Issued, Broker.Valid, Tracked, Anchored;
      PartitionsExist(Now());
      IssuedNothing();
      StandAtCommitted();
      EmptyQueue(Now(), nextReceipt);
    }

    lemma IssuedNothing()
      requires Issued(pending)
      ensures Issued([])
    {
    }

    method StandAtCommitted()
      requires broker.Valid() && partitions <= broker.logs.Keys
      modifies this`joined, this`position, this`reported, this`base, this`history, this`established,
               this`pending, this`delivered, this`closed, this`torn
      ensures Positioned(Now()) && InLogOrder(Now(), []) && Known(Now()) && Now() == Reopened(Now())
      ensures Anchored() && Tracked(pending) && history == History(base, {}, [], {})
      ensures !closed && !torn && pending == [] && delivered == 0
    {
      hide FromStart, Positioned, InLogOrder, Known, Committed, Accounted, Broker.Valid;
      BeginAtCommitted(partitions, broker.committed);
      CommitsExist();
      ReopenKeeps(Now());
      position := Committed(partitions, broker.committed);
      base := Committed(partitions, broker.committed);
      history := History(base, {}, [], {});
      reported, established := {}, map[];
      joined, pending, delivered, closed, torn := false, [], 0, false, false;
    }

    lemma CommitsExist()
      requires broker.Valid()
      ensures forall p :: p in broker.committed ==> p in broker.logs && broker.committed[p] <= |broker.logs[p]|
    {
    }

    /** Closes the client; a permanent close also deletes the progress of a group of its own. */
    method Close(intent: Intent) returns (ok: bool)
      requires Valid()
      modifies this`closed, this`permanent, broker`committed, broker`first, broker`deleted
      ensures Valid()
      ensures intent.CloseTemporary? ==>
                ok && closed && permanent == old(permanent) && broker.committed == old(broker.committed)
      ensures intent.ClosePermanent? && ok ==> permanent
      ensures intent.ClosePermanent? && ok && !old(permanent) && !sharedGroup ==> broker.committed == map[]
      ensures closed || permanent
      ensures sharedGroup ==> broker.committed == old(broker.committed)
      ensures (broker.committed == old(broker.committed) && broker.first == old(broker.first))
              || broker.committed == map[]
      ensures broker.deleted ==> old(broker.deleted) || intent.ClosePermanent?
      ensures broker.committed != old(broker.committed) ==> broker.deleted
    {
      hide FromStart, Positioned, QueueOk, InLogOrder, Known, Tracked;
      if intent.ClosePermanent? && permanent {
        return true;
      }
      DeleteKeeps(Now(), pending, nextReceipt);
      closed := true;
      if intent.CloseTemporary? {
        return true;
      }
      if sharedGroup {
        permanent := true;
        return true;
      }
      ok := broker.DeleteGroup();
      if ok {
        permanent := true;
      }
    }

    // ---------------------------------------------------------------- catching up

    /** Records where a partition stands. */
    method RecordBoundary(p: int)
      requires broker.Valid() && Positioned(Now()) && QueueOk(Now(), pending, nextReceipt) && Issued(pending)
      requires delivered <= |pending| && Anchored() && Tracked(pending) && p in position
      requires (forall r :: r != p ==> KnownAt(Now(), r)) && (!torn ==> InLogOrder(Now(), pending))
      modifies this`established
      ensures Valid() && established == old(established)[p := position[p]]
    {
      hide Positioned, QueueOk, InLogOrder, Known, KnownAt, Issued, Anchored, Tracked, Broker.Valid;
      EstablishKeeps(Now(), pending, nextReceipt, p);
      established := established[p := position[p]];
    }

    /** Records a concrete position that is neither reported nor recorded: it is the committed offset. */
    method RecordCommitted(p: int)
      requires Valid() && !closed && p in position && p !in reported && p !in established
      modifies this`established
      ensures Valid() && established == old(established)[p := position[p]]
      ensures p in broker.committed && broker.committed[p] == position[p]
    {
      hide Positioned, QueueOk, InLogOrder, Known, KnownAt, Issued, Anchored, Tracked, Broker.Valid;
      KnownHere(Now(), p);
      AllKnown(Now());
      RecordBoundary(p);
    }

    /** Begins an uncommitted partition at a boundary of the caller's choosing. */
    method BeginAt(p: int, start: nat)
      requires Valid() && !closed && p in partitions && p !in position && p in broker.logs
      requires start <= |broker.logs[p]| && (startEarliest ==> start == 0)
      modifies this`position, this`base, this`history, this`established
      ensures Valid() && OriginKept() && position == old(position)[p := start]
      ensures established == old(established)[p := start]
    {
      hide Positioned, AllGenuine, Ascending, FreshReceipts, InLogOrder, Known, KnownAt, Issued, Anchored, Tracked, Broker.Valid;
      MakeConcrete(p, start, pending);
      RecordBoundary(p);
    }

    /**
     Makes a boundary concrete that neither the client reports nor the consumer recorded:
     the committed offset, or else the given end for a consumer that starts at the latest
     record and the log start for one that starts at the earliest.
     */
    method Establish(p: int, end: nat) returns (at: nat)
      requires Valid() && !closed && p in partitions && p in broker.logs && end == |broker.logs[p]|
      requires p !in reported && p !in established
      modifies this`position, this`base, this`history, this`established
      ensures Valid() && p in position && position[p] == at && established == old(established)[p := at]
      ensures p in broker.committed ==> at == broker.committed[p]
      ensures p !in broker.committed ==> at == if startEarliest then 0 else end
      ensures Extends(old(position), position)
      ensures forall r :: r in position && r !in old(position) ==> r == p
      ensures OriginKept()
    {
      hide Valid;
      BoundaryFacts(p);
      if p in position {
        RecordCommitted(p);
        at := position[p];
      } else {
        at := if startEarliest then 0 else end;
        BeginAt(p, at);
      }
    }

    /** The position used for one partition: reported, recorded, or made concrete now. */
    method PositionOf(p: int, end: nat) returns (at: nat)
      requires Valid() && !closed && p in partitions && p in broker.logs && end == |broker.logs[p]|
      modifies this`position, this`base, this`history, this`established
      ensures Valid() && p in position && at == position[p]
      ensures Extends(old(position), position)
      ensures Extends(old(established), established)
      ensures OriginKept()
    {
      BoundaryFacts(p);
      KnownBoundary(p);
      hide Valid;
      var reports: bool := *;
      if p in reported || (p in position && reports) {
        return position[p];
      }
      if p in established {
        return established[p];
      }
      at := Establish(p, end);
    }

    /**
     Whether everything up to the end offsets read in this call has been handed out: the answer
     is `true` exactly if the group has assigned the partitions, everything queued has been
     handed out, and the client stands at every end.  It means that every record of every assigned partition, from where it began
     to the end read in this call, was handed out, or resolved under its own receipt, or lost
     to a poll that reported an error; boundaries recorded earlier do not move.
     */
    method CaughtUp() returns (ok: bool, result: bool)
      requires Valid()
      modifies this`position, this`reported, this`base, this`history, this`joined, this`pending, this`nextReceipt,
               this`issued, this`torn, this`established, broker`logs
      ensures Valid() && ReceiptsKept() && broker.Grown() && OriginKept()
      ensures ok ==> (result <==> joined && AtEnds())
      ensures ok && result ==> EverythingTraced() && (!torn ==> EverythingSeen())
      ensures Extends(old(established), established)
      ensures delivered == old(delivered) && old(pending) <= pending
      ensures ok ==> torn == old(torn)
      ensures old(joined) || old(reported) != {} ==> pending == old(pending) && torn == old(torn)
    {
      hide Valid, EverythingSeen, EverythingTraced, Extends, Renumbers;
      ExtendsItself(history.origin);
      ExtendsItself(established);
      RenumbersItself(issued, nextReceipt);
      if closed {
        return false, false;
      }
      if delivered < |pending| {
        return true, false;
      }
      if reported == {} && !joined {
        ok := Fetch(1);
        if !ok {
          return false, false;
        }
        if delivered < |pending| {
          return true, false;
        }
      }
      ghost var origin := history.origin;
      ok, result := CompareEnds();
      ExtendsChain(old(history).origin, origin, history.origin);
    }

    /** Reads the end offsets and compares. */
    method CompareEnds() returns (ok: bool, result: bool)
      requires Valid() && !closed && delivered >= |pending|
      modifies this`position, this`base, this`history, this`established, broker`logs
      ensures Valid() && broker.Grown() && OriginKept()
      ensures ok ==> (result <==> joined && AtEnds())
      ensures ok && result ==> EverythingTraced() && (!torn ==> EverythingSeen())
      ensures Extends(old(established), established)
    {
      hide Valid, EverythingSeen, EverythingTraced, AtEnds, Extends;
      ExtendsItself(history.origin);
      ExtendsItself(established);
      Elapse();
      var endsUnknown: bool := *;
      if endsUnknown {
        return false, false;
      }
      if !joined {
        return true, false;
      }
      result := EndsReached();
      if result {
        SeenToTheEnd();
      }
      return true, result;
    }

    /** Everything queued has been handed out and the client stands at the end of every assigned partition. */
    ghost predicate AtEnds()
      reads this`delivered, this`pending, this`position, broker`logs
    {
      && delivered == |pending|
      && forall p :: p in partitions ==> p in position && p in broker.logs && position[p] == |broker.logs[p]|
    }

    /** Every record of every assigned partition, from where it began to its end, has been handed out or resolved. */
    ghost predicate EverythingSeen()
      reads this`history, broker`logs
    {
      && (forall p :: p in partitions ==> p in history.origin && p in broker.logs)
      && (forall p, offset :: p in partitions && history.origin[p] <= offset < |broker.logs[p]|
            ==> history.Seen(Place(p, offset)))
    }

    /** The same, up to records that a poll took before it reported an error. */
    ghost predicate EverythingTraced()
      reads this`history, broker`logs
    {
      && (forall p :: p in partitions ==> p in history.origin && p in broker.logs)
      && (forall p, offset :: p in partitions && history.origin[p] <= offset < |broker.logs[p]|
            ==> history.Seen(Place(p, offset)) || Place(p, offset) in history.lost)
    }

    lemma SeenToTheEnd()
      requires Valid() && AtEnds()
      ensures EverythingTraced() && (!torn ==> EverythingSeen())
    {
      BaseKeys(Now());
      hide Positioned, QueueOk, InLogOrder, Known, Issued, Accounted, FromStart, Broker.Valid;
      forall p, offset | p in partitions && history.origin[p] <= offset < |broker.logs[p]|
        ensures history.Seen(Place(p, offset)) || Place(p, offset) in history.lost
      {
        NothingUnseen(Now(), history, pending, p, offset);
      }
    }

    /** Compares every assigned partition's position with its end. */
    method EndsReached() returns (result: bool)
      requires Valid() && !closed && delivered >= |pending|
      modifies this`position, this`base, this`history, this`established
      ensures Valid() && OriginKept()
      ensures result <==> AtEnds()
      ensures Extends(old(established), established)
    {
      hide Valid, Extends, Issued, FreshReceipts;
      QueueFacts();
      ExtendsItself(history.origin);
      ExtendsItself(established);
      var rest := partitions;
      while rest != {}
        invariant rest <= partitions <= broker.logs.Keys
        invariant Valid() && OriginKept()
        invariant forall p :: p in partitions && p !in rest ==>
                    p in position && position[p] == |broker.logs[p]|
        invariant Extends(old(established), established)
        decreases rest
      {
        var p := Pick(rest);
        var end := |broker.logs[p]|;
        ghost var origin, recorded, stood := history.origin, established, position;
        var at := PositionOf(p, end);
        ExtendsChain(old(history).origin, origin, history.origin);
        ExtendsChain(old(established), recorded, established);
        StillThere(stood, position, partitions - rest);
        PositionBounded(p);
        if at < end {
          return false;
        }
        rest := rest - {p};
      }
      return true;
    }

    lemma QueueFacts()
      requires Valid()
      ensures Issued(pending) && delivered <= |pending| && FreshReceipts(pending, nextReceipt)
      ensures partitions <= broker.logs.Keys
      ensures |pending| > 0 ==> pending[0].receipt in issued && issued[pending[0].receipt] == pending[0].at
    {
    }

    lemma BoundaryFacts(p: int)
      requires Valid()
      ensures p in established ==> p in position && established[p] <= position[p]
      ensures p in reported ==> p in position
      ensures p in partitions && p in broker.committed ==> p in position
    {
    }

    /** A recorded boundary that the client does not report is where it stands. */
    lemma KnownBoundary(p: int)
      requires Valid() && !closed
      ensures p in established && p !in reported ==> established[p] == position[p]
    {
      assert KnownAt(Now(), p);
    }

    lemma PositionBounded(p: int)
      requires Valid() && p in position
      ensures p in broker.logs && position[p] <= |broker.logs[p]|
    {
    }
  }

  lemma KnownHere(c: Client, p: int)
    requires Known(c) && p in c.position && p !in c.reported && p !in c.established
    ensures p in c.committed && c.committed[p] == c.position[p]
  {
    assert KnownAt(c, p);
  }

  lemma AllKnown(c: Client)
    requires Known(c)
    ensures forall p :: KnownAt(c, p)
  {
  }

  /** A dead letter as the worker builds it. */
  datatype Letter = Letter(
    message: Message,
    topicId: string,
    subscriptionId: string,
    failureClass: string,
    attempt: string,
    storageError: string)

  /** What is stored for a letter: the same message under failure metadata. */
  function Annotated(l: Letter): Message {
    var m := l.message.metadata[
      "failure-class" := l.failureClass][
      "topic-id" := l.topicId][
      "subscription-id" := l.subscriptionId][
      "attempt" := l.attempt];
    l.message.(metadata := if l.storageError != "" then m["storage-error" := l.storageError] else m)
  }

  /** A stored dead letter, field by field: the record under its own or a new identifier, and why it is here. */
  ghost predicate IsLetter(l: Message, m: Message, topicId: string, subscriptionId: string, failure: string, attempt: string) {
    && l.body == m.body && l.contentType == m.contentType && l.storageError == ""
    && (if m.id == "" then "dlq-" <= l.id else l.id == m.id)
    && (forall k :: k in l.metadata <==>
          k in m.metadata || k in {"failure-class", "topic-id", "subscription-id", "attempt"}
          || (k == "storage-error" && m.storageError != ""))
    && l.metadata["failure-class"] == failure && l.metadata["attempt"] == attempt
    && l.metadata["topic-id"] == topicId && l.metadata["subscription-id"] == subscriptionId
    && (m.storageError != "" ==> l.metadata["storage-error"] == m.storageError)
    && (forall k :: k in m.metadata && k !in {"failure-class", "topic-id", "subscription-id", "attempt", "storage-error"}
          ==> l.metadata[k] == m.metadata[k])
    && ("storage-error" in m.metadata && m.storageError == "" ==> l.metadata["storage-error"] == m.metadata["storage-error"])
  }

  lemma LetterHasBody(l: Message, m: Message, topicId: string, subscriptionId: string, failure: string, attempt: string)
    requires IsLetter(l, m, topicId, subscriptionId, failure, attempt)
    ensures l.body == m.body
  {
  }

  lemma AnnotatedIsLetter(m: Message, id: string, topicId: string, subscriptionId: string, failure: string, attempt: string)
    requires if m.id == "" then "dlq-" <= id else id == m.id
    ensures IsLetter(Annotated(Letter(m.(storageError := "", id := id), topicId, subscriptionId, failure, attempt, m.storageError)),
                     m, topicId, subscriptionId, failure, attempt)
  {
  }

  /** The only commit an operation can make is the one behind the head of the queue. */
  ghost predicate CommitsOnly(
    committed: map<int, nat>, first: map<int, nat>, after: map<int, nat>, firstAfter: map<int, nat>, q: seq<Pending>)
  {
    || (after == committed && firstAfter == first)
    || (&& |q| > 0
        && after == committed[q[0].at.partition := q[0].at.offset + 1]
        && firstAfter == if q[0].at.partition in first then first else first[q[0].at.partition := q[0].at.offset])
  }

  /** The second map says everything the first does. */
  ghost predicate Extends(a: map<int, nat>, b: map<int, nat>) {
    forall p :: p in a ==> p in b && b[p] == a[p]
  }

  lemma ExtendsChain(a: map<int, nat>, b: map<int, nat>, c: map<int, nat>)
    requires Extends(a, b) && Extends(b, c)
    ensures Extends(a, c)
  {
  }

  lemma ExtendsItself(a: map<int, nat>)
    ensures Extends(a, a)
  {
  }

  /** Receipts keep the record they were issued for, and new receipts have new numbers. */
  ghost predicate Renumbers(issued: map<nat, Place>, counter: nat, issued': map<nat, Place>, counter': nat) {
    && counter <= counter'
    && (forall k :: k in issued ==> k in issued' && issued'[k] == issued[k])
    && (forall k :: k in issued' && k !in issued ==> counter < k)
  }

  lemma RenumbersItself(issued: map<nat, Place>, counter: nat)
    ensures Renumbers(issued, counter, issued, counter)
  {
  }

  lemma NoPlaces()
    ensures Places([]) == {}
  {
  }

  lemma NothingCommits(committed: map<int, nat>, first: map<int, nat>, q: seq<Pending>)
    ensures CommitsOnly(committed, first, committed, first, q)
  {
  }

  lemma StillThere(a: map<int, nat>, b: map<int, nat>, keys: set<int>)
    requires Extends(a, b)
    ensures forall p :: p in keys && p in a ==> p in b && b[p] == a[p]
  {
  }

  lemma NotBegun(c: Client, p: int)
    requires Positioned(c) && p !in c.position
    ensures p !in c.base
  {
  }

  lemma BaseKeys(c: Client)
    requires Positioned(c)
    ensures c.base.Keys == c.position.Keys
  {
  }

  lemma BeginAtCommitted(partitions: set<int>, committed: map<int, nat>)
    ensures var at := Committed(partitions, committed);
            FromStart(at, committed) && Accounted(History(at, {}, [], {}), at, [], 0)
  {
  }

  lemma PartitionsExist(c: Client)
    requires Positioned(c)
    ensures c.partitions <= c.logs.Keys
  {
  }

  lemma EmptyQueue(c: Client, counter: nat)
    ensures QueueOk(c, [], counter)
  {
  }

  lemma BaseExists(c: Client, q: seq<Pending>, counter: nat)
    requires Positioned(c) && QueueOk(c, q, counter) && |q| > 0
    ensures q[0].at.partition in c.base
  {
    assert Genuine(c, q[0]);
  }

  lemma HeadIsThere(c: Client, q: seq<Pending>, counter: nat)
    requires QueueOk(c, q, counter) && |q| > 0
    ensures Genuine(c, q[0])
  {
  }

  /** Receipts are the counter's next values, in order. */
  ghost predicate Numbered(q: seq<Pending>, counter: nat) {
    forall i :: 0 <= i < |q| ==> q[i].receipt == counter + i + 1
  }

  lemma QueuePrefix(c: Client, q: seq<Pending>, more: seq<Pending>, counter: nat)
    requires QueueOk(c, q + more, counter)
    ensures AllGenuine(c, q) && Ascending(q)
  {
    var whole := q + more;
    assert forall i :: 0 <= i < |q| ==> q[i] == whole[i];
  }
}
