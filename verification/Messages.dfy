/** Messages and the durable side of one destination: partition logs, one group's commits, the dead-letter log. */
module Messages {
  import opened Wrappers

  datatype Message = Message(
    id: string,
    body: seq<bv8>,
    contentType: string,
    metadata: map<string, string>,
    storageError: string)

  /** Names one record of the destination. */
  datatype Place = Place(partition: int, offset: nat)

  /** One attempt's answer: a success, the subscriber gone, or a failure with a status (0: none). */
  datatype Response = Delivered | Gone | Refused(status: nat)

  /** One delivery attempt: the record, what was sent for it, and the answer. */
  datatype Attempted = Attempted(at: Place, message: Message, response: Response)

  /**
   What a destination, one group's progress on it, and the delivery of its records amount to:
   the logs, the commits and the first commit of each partition, the dead letters, every
   delivery attempt, the records with a successful one, and where a record's letter is stored.
   */
  datatype Ledger = Ledger(
    logs: map<int, seq<Message>>,
    committed: map<int, nat>,
    first: map<int, nat>,
    letters: seq<Message>,
    attempts: seq<Attempted>,
    served: set<Place>,
    buried: map<Place, nat>) {

    ghost predicate Has(at: Place) {
      at.partition in logs && at.offset < |logs[at.partition]|
    }

    ghost function Read(at: Place): Message
      requires Has(at)
    {
      logs[at.partition][at.offset]
    }

    /** There was a successful attempt for the record. */
    ghost predicate Succeeded(at: Place) {
      exists k :: 0 <= k < |attempts| && attempts[k].at == at && attempts[k].response.Delivered?
    }

    ghost predicate WasRefused(at: Place) {
      exists k :: 0 <= k < |attempts| && attempts[k].at == at && attempts[k].response.Refused?
    }

    /** The record was delivered, or a dead letter with its body is stored. */
    ghost predicate Settled(at: Place) {
      at in served || at in buried
    }

    /** A record's letter has its body, and there is a reason for it: the record is malformed or was refused. */
    ghost predicate LetterFor(at: Place)
      requires at in buried
    {
      && buried[at] < |letters| && Has(at) && letters[buried[at]].body == Read(at).body
      && (Read(at).id == "" || Read(at).storageError != "" || WasRefused(at))
    }

    ghost predicate AttemptFor(a: Attempted) {
      Has(a.at) && a.message == Read(a.at) && a.message.id != "" && a.message.storageError == ""
    }

    /**
     What is remembered means what it says: a served record had a successful attempt, every
     attempt sent a well-formed record as it is stored, and every letter has its reason.
     */
    ghost predicate Truthful() {
      && (forall at :: at in served ==> Succeeded(at))
      && (forall k :: 0 <= k < |attempts| ==> AttemptFor(attempts[k]))
      && (forall at :: at in buried ==> LetterFor(at))
    }

    /** From a partition's first committed offset on, everything the commit has passed is settled. */
    ghost predicate AtLeastOnce() {
      && Truthful()
      && (forall p, offset :: p in committed && p in first && first[p] <= offset < committed[p]
            ==> Settled(Place(p, offset)))
    }

    function WithAttempt(a: Attempted): Ledger {
      this.(attempts := attempts + [a], served := if a.response.Delivered? then served + {a.at} else served)
    }

    function WithLetter(at: Place, m: Message): Ledger {
      this.(letters := letters + [m], buried := buried[at := |letters|])
    }

    /** The commit moves behind one record. */
    function WithCommit(at: Place): Ledger {
      this.(committed := committed[at.partition := at.offset + 1],
            first := if at.partition in first then first else first[at.partition := at.offset])
    }
  }

  /** The destination's logs only got longer. */
  ghost predicate Lengthened(was: Ledger, now: Ledger) {
    was.logs.Keys == now.logs.Keys && forall p :: p in was.logs ==> was.logs[p] <= now.logs[p]
  }

  /**
   What a commit means for one record it passed.  A malformed record was never sent and has its
   letter; any other was delivered, or it was refused and has its letter.
   */
  lemma PassedMeans(l: Ledger, at: Place)
    requires l.AtLeastOnce() && l.Has(at)
    requires at.partition in l.committed && at.partition in l.first && l.first[at.partition] <= at.offset < l.committed[at.partition]
    ensures var m := l.Read(at);
            if m.id == "" || m.storageError != "" then
              && at in l.buried && at !in l.served
              && (forall k :: 0 <= k < |l.attempts| ==> l.attempts[k].at != at)
            else l.Succeeded(at) || (at in l.buried && l.WasRefused(at))
    ensures at in l.buried ==> l.buried[at] < |l.letters| && l.letters[l.buried[at]].body == l.Read(at).body
  {
    assert l.Settled(Place(at.partition, at.offset));
    assert at in l.buried ==> l.LetterFor(at);
    var m := l.Read(at);
    if m.id == "" || m.storageError != "" {
      forall k | 0 <= k < |l.attempts| ensures l.attempts[k].at != at {
        assert l.AttemptFor(l.attempts[k]);
      }
      assert !l.Succeeded(at);
    }
  }

  lemma RefusalsStay(l: Ledger, a: Attempted, at: Place)
    ensures l.Succeeded(at) ==> l.WithAttempt(a).Succeeded(at)
    ensures l.WasRefused(at) ==> l.WithAttempt(a).WasRefused(at)
    ensures a.at == at && a.response.Delivered? ==> l.WithAttempt(a).Succeeded(at)
    ensures a.at == at && a.response.Refused? ==> l.WithAttempt(a).WasRefused(at)
  {
    var n := l.WithAttempt(a);
    assert n.attempts[|l.attempts|] == a;
    if l.Succeeded(at) {
      var k :| 0 <= k < |l.attempts| && l.attempts[k].at == at && l.attempts[k].response.Delivered?;
      assert n.attempts[k] == l.attempts[k];
    }
    if l.WasRefused(at) {
      var k :| 0 <= k < |l.attempts| && l.attempts[k].at == at && l.attempts[k].response.Refused?;
      assert n.attempts[k] == l.attempts[k];
    }
  }

  /** Remembering an attempt of a well-formed record. */
  lemma AttemptKeeps(l: Ledger, a: Attempted)
    requires l.AtLeastOnce() && l.AttemptFor(a)
    ensures l.WithAttempt(a).AtLeastOnce()
  {
    hide Ledger.Succeeded, Ledger.WasRefused;
    var n := l.WithAttempt(a);
    forall at | at in n.served ensures n.Succeeded(at) {
      RefusalsStay(l, a, at);
    }
    forall at | at in n.buried ensures n.LetterFor(at) {
      assert l.LetterFor(at);
      RefusalsStay(l, a, at);
    }
    forall k | 0 <= k < |n.attempts| ensures n.AttemptFor(n.attempts[k]) {
      if k < |l.attempts| {
        assert l.AttemptFor(l.attempts[k]);
      }
    }
    forall p, offset | p in n.committed && p in n.first && n.first[p] <= offset < n.committed[p]
      ensures n.Settled(Place(p, offset))
    {
      assert l.Settled(Place(p, offset));
    }
  }

  /** Storing a letter with the body of a record that is malformed or was refused. */
  lemma LetterKeeps(l: Ledger, at: Place, m: Message)
    requires l.AtLeastOnce() && l.Has(at) && m.body == l.Read(at).body
    requires l.Read(at).id == "" || l.Read(at).storageError != "" || l.WasRefused(at)
    ensures l.WithLetter(at, m).AtLeastOnce() && l.WithLetter(at, m).Settled(at)
  {
    var n := l.WithLetter(at, m);
    forall k ensures n.Succeeded(k) == l.Succeeded(k) && n.WasRefused(k) == l.WasRefused(k) {
    }
    hide Ledger.Succeeded, Ledger.WasRefused;
    forall k | k in n.buried ensures n.LetterFor(k) {
      if k != at {
        assert l.LetterFor(k);
      }
    }
    forall k | 0 <= k < |n.attempts| ensures n.AttemptFor(n.attempts[k]) {
      assert l.AttemptFor(l.attempts[k]);
    }
    forall p, offset | p in n.committed && p in n.first && n.first[p] <= offset < n.committed[p]
      ensures n.Settled(Place(p, offset))
    {
      assert l.Settled(Place(p, offset));
    }
  }

  /** Committing behind a settled record, no further than the next one. */
  lemma CommitKeepsEvidence(l: Ledger, at: Place)
    requires l.AtLeastOnce() && l.Settled(at) && l.first.Keys == l.committed.Keys
    requires at.partition in l.committed ==> at.offset <= l.committed[at.partition]
    ensures l.WithCommit(at).AtLeastOnce()
  {
    var n := l.WithCommit(at);
    SameMemory(l, n);
    hide Ledger.Truthful;
    forall p, offset | p in n.committed && p in n.first && n.first[p] <= offset < n.committed[p]
      ensures n.Settled(Place(p, offset))
    {
      if Place(p, offset) != at {
        assert l.Settled(Place(p, offset));
      }
    }
  }

  /** Logs that grew, and commits that changed, do not affect what is remembered. */
  lemma SameMemory(l: Ledger, n: Ledger)
    requires l.Truthful() && n.letters == l.letters && n.attempts == l.attempts && n.served == l.served && n.buried == l.buried
    requires Lengthened(l, n)
    ensures n.Truthful()
  {
    forall k ensures n.Succeeded(k) == l.Succeeded(k) && n.WasRefused(k) == l.WasRefused(k) {
    }
    hide Ledger.Succeeded, Ledger.WasRefused;
    forall k | k in n.buried ensures n.LetterFor(k) {
      assert l.LetterFor(k);
    }
    forall k | 0 <= k < |n.attempts| ensures n.AttemptFor(n.attempts[k]) {
      assert l.AttemptFor(l.attempts[k]);
    }
  }

  lemma GrowthKeepsEvidence(l: Ledger, n: Ledger)
    requires l.AtLeastOnce() && n == l.(logs := n.logs)
    requires Lengthened(l, n)
    ensures n.AtLeastOnce()
  {
    SameMemory(l, n);
    hide Ledger.Truthful;
    forall p, offset | p in n.committed && p in n.first && n.first[p] <= offset < n.committed[p]
      ensures n.Settled(Place(p, offset))
    {
      assert l.Settled(Place(p, offset));
    }
  }

  /**
   The broker as far as one consumer group sees it.  Commits can take effect without being
   confirmed.  Ghost fields remember history: the first offset ever committed for a partition,
   every delivery attempt, the records with a successful one, for each dead-lettered record
   where its letter is stored, and whether the group's progress was ever deleted.
   */
  class Broker {
    var logs: map<int, seq<Message>>
    var committed: map<int, nat>
    var deadLetters: seq<Message>
    ghost var first: map<int, nat>
    ghost var attempts: seq<Attempted>
    ghost var served: set<Place>
    ghost var buried: map<Place, nat>
    ghost var deleted: bool

    constructor (partitions: set<int>)
      ensures Valid() && AtLeastOnce()
      ensures logs.Keys == partitions && (forall p :: p in logs ==> logs[p] == [])
      ensures committed == map[] && deadLetters == [] && !deleted && FromTheStart()
    {
      logs := map p | p in partitions :: [];
      committed, deadLetters := map[], [];
      first, attempts, served, buried, deleted := map[], [], {}, map[], false;
    }

    ghost function Books(): Ledger
      reads this
    {
      Ledger(logs, committed, first, deadLetters, attempts, served, buried)
    }

    ghost predicate AtLeastOnce()
      reads this
    {
      Books().AtLeastOnce()
    }

    /** Every partition was committed from the start of its log on. */
    ghost predicate FromTheStart()
      reads this`first
    {
      forall p :: p in first ==> first[p] == 0
    }

    ghost predicate Valid()
      reads this
    {
      && committed.Keys <= logs.Keys
      && first.Keys == committed.Keys
      && (forall p :: p in committed ==> first[p] <= committed[p] <= |logs[p]|)
    }

    ghost predicate Has(at: Place)
      reads this
    {
      at.partition in logs && at.offset < |logs[at.partition]|
    }

    function Read(at: Place): Message
      requires Has(at)
      reads this
    {
      logs[at.partition][at.offset]
    }

    /** Every record that existed still does, unchanged. */
    twostate predicate Grown()
      reads this
    {
      && logs.Keys == old(logs).Keys
      && (forall p :: p in logs ==> old(logs)[p] <= logs[p])
    }

    /** Publishers append any number of records. */
    method Elapse()
      requires Valid()
      modifies this`logs
      ensures Valid() && Grown()
    {
      var budget: nat := *;
      while budget > 0
        invariant Valid() && logs.Keys == old(logs).Keys
        invariant forall p :: p in logs ==> old(logs)[p] <= logs[p]
      {
        var p: int := *;
        var m: Message := *;
        if p in logs {
          logs := logs[p := logs[p] + [m]];
        }
        budget := budget - 1;
      }
    }

    /** Commits the offset behind one record. */
    method Commit(at: Place) returns (confirmed: bool)
      requires Valid() && Has(at)
      requires at.partition in committed ==> committed[at.partition] <= at.offset + 1
      modifies this`committed, this`first
      ensures Valid()
      ensures || (!confirmed && committed == old(committed) && first == old(first))
              || (&& committed == old(committed)[at.partition := at.offset + 1]
                  && first == if at.partition in old(first) then old(first)
                              else old(first)[at.partition := at.offset])
    {
      var durable: bool := *;
      confirmed := *;
      confirmed := confirmed && durable;
      if durable {
        if at.partition !in committed {
          first := first[at.partition := at.offset];
        }
        committed := committed[at.partition := at.offset + 1];
      }
    }

    /** Deletes the group's progress. */
    method DeleteGroup() returns (confirmed: bool)
      requires Valid()
      modifies this`committed, this`first, this`deleted
      ensures Valid()
      ensures || (committed == map[] && deleted)
              || (!confirmed && committed == old(committed) && first == old(first) && deleted == old(deleted))
    {
      var durable: bool := *;
      confirmed := *;
      confirmed := confirmed && durable;
      if durable {
        committed, first, deleted := map[], map[], true;
      }
    }

    /** Stores a dead letter. */
    method Bury(m: Message) returns (confirmed: bool)
      modifies this`deadLetters
      ensures deadLetters == old(deadLetters) || deadLetters == old(deadLetters) + [m]
      ensures confirmed ==> deadLetters == old(deadLetters) + [m]
    {
      var durable: bool := *;
      confirmed := *;
      confirmed := confirmed && durable;
      if durable {
        deadLetters := deadLetters + [m];
      }
    }
  }
}
