/**
 The consumer's fetched-but-unresolved records, and where the client stands in each
 partition.  Everything here is a value; `KafkaConsumer` holds these values in its fields.
 */
module PendingQueue {
  import opened Messages

  datatype Pending = Pending(at: Place, receipt: nat, message: Message)

  /** The broker's side and the client's side of one consumer. */
  datatype Client = Client(
    logs: map<int, seq<Message>>,
    committed: map<int, nat>,
    partitions: set<int>,
    position: map<int, nat>,     // the next offset to fetch, where it is concrete
    base: map<int, nat>,         // the first offset not yet resolved
    established: map<int, nat>,  // the consumer's own record of a boundary
    reported: set<int>)          // partitions the client is sure to report a position for

  ghost predicate Positioned(c: Client) {
    && c.partitions <= c.logs.Keys
    && c.position.Keys <= c.partitions
    && c.base.Keys == c.position.Keys
    && c.established.Keys <= c.position.Keys
    && c.reported <= c.position.Keys
    && (forall p :: p in c.position ==> c.position[p] <= |c.logs[p]|)
    && (forall p :: p in c.established ==> c.established[p] <= c.position[p])
    && (forall p :: p in c.partitions && p in c.committed ==> p in c.position && c.committed[p] <= c.position[p])
  }

  /** A concrete position is one the client reports, or the consumer recorded, or the group committed if none is recorded. */
  ghost predicate KnownAt(c: Client, p: int) {
    p in c.position ==>
      || p in c.reported
      || (p in c.established && c.established[p] == c.position[p])
      || (p !in c.established && p in c.committed && c.committed[p] == c.position[p])
  }

  ghost predicate Known(c: Client) {
    forall p :: KnownAt(c, p)
  }

  /** A queued record is what the log holds, fetched already, and not behind what is committed. */
  ghost predicate Genuine(c: Client, x: Pending) {
    var p := x.at.partition;
    && p in c.position && p in c.logs && p in c.partitions && p in c.reported
    && x.at.offset < |c.logs[p]| && x.at.offset < c.position[p]
    && x.message == c.logs[p][x.at.offset]
    && (p in c.committed ==> c.committed[p] <= x.at.offset + 1)
  }

  ghost predicate AllGenuine(c: Client, q: seq<Pending>) {
    forall i :: 0 <= i < |q| ==> Genuine(c, q[i])
  }

  /** Each partition's records are queued in offset order. */
  ghost predicate Ascending(q: seq<Pending>) {
    forall i, j :: 0 <= i < j < |q| && q[i].at.partition == q[j].at.partition ==> q[i].at.offset < q[j].at.offset
  }

  /** Receipts strictly increase along the queue and are bounded by the counter. */
  ghost predicate FreshReceipts(q: seq<Pending>, counter: nat) {
    && (forall i :: 0 <= i < |q| ==> 1 <= q[i].receipt <= counter)
    && (forall i, j :: 0 <= i < j < |q| ==> q[i].receipt < q[j].receipt)
  }

  ghost predicate QueueOk(c: Client, q: seq<Pending>, counter: nat) {
    AllGenuine(c, q) && Ascending(q) && FreshReceipts(q, counter)
  }

  function Range(a: nat, b: nat): seq<nat>
    requires a <= b
  {
    seq(b - a, i requires 0 <= i < b - a => a + i)
  }

  /** The offsets of one partition's records, in queue order. */
  function Offsets(q: seq<Pending>, p: int): seq<nat>
    decreases |q|
  {
    if |q| == 0 then []
    else
      var last := q[|q| - 1];
      Offsets(q[..|q| - 1], p) + (if last.at.partition == p then [last.at.offset] else [])
  }

  /** For one partition, the queue holds exactly the fetched and unresolved records, in log order. */
  ghost predicate LineUp(c: Client, q: seq<Pending>, p: int) {
    && p in c.base && p in c.position && c.base[p] <= c.position[p]
    && Offsets(q, p) == Range(c.base[p], c.position[p])
    && (p in c.committed ==> c.base[p] <= c.committed[p] <= c.base[p] + 1)
  }

  ghost predicate InLogOrder(c: Client, q: seq<Pending>) {
    forall p :: p in c.position ==> LineUp(c, q, p)
  }

  /** Nothing of a partition without a commit has been resolved, or skipped, since the start of its log. */
  ghost predicate FromStart(base: map<int, nat>, committed: map<int, nat>) {
    forall p :: p in base && p !in committed ==> base[p] == 0
  }

  lemma FromStartKeeps(base: map<int, nat>, committed: map<int, nat>, p: int, offset: nat)
    requires FromStart(base, committed)
    ensures FromStart(base, committed[p := offset])
    ensures p in committed ==> FromStart(base[p := offset], committed)
    ensures FromStart(base[p := 0], committed)
  {
  }

  /**
   Since the last (re)open: where partitions began, what was handed out, what was resolved, in
   order, and what polls took that then reported an error.
   */
  datatype History = History(origin: map<int, nat>, handed: set<Place>, resolved: seq<Place>, lost: set<Place>) {
    ghost predicate Seen(at: Place) {
      at in handed || at in resolved
    }

    /** The record has been seen, is queued, or is lost. */
    ghost predicate Traces(q: seq<Pending>, at: Place) {
      Seen(at) || at in Places(q) || at in lost
    }
  }

  function Places(q: seq<Pending>): set<Place> {
    set x | x in q :: x.at
  }

  /** Every record between where a partition began and its position is traced, and what the queue counts as handed out was. */
  ghost predicate Accounted(h: History, position: map<int, nat>, q: seq<Pending>, delivered: nat) {
    && delivered <= |q|
    && (forall p, offset :: p in position && p in h.origin && h.origin[p] <= offset < position[p]
          ==> h.Traces(q, Place(p, offset)))
    && (forall i :: 0 <= i < delivered ==> h.Seen(q[i].at))
  }

  lemma AccountedFromHere(h: History, position: map<int, nat>, q: seq<Pending>, delivered: nat, p: int, start: nat)
    requires Accounted(h, position, q, delivered)
    ensures Accounted(h.(origin := h.origin[p := start]), position[p := start], q, delivered)
  {
    var h', position' := h.(origin := h.origin[p := start]), position[p := start];
    forall r, offset | r in position' && r in h'.origin && h'.origin[r] <= offset < position'[r]
      ensures h'.Traces(q, Place(r, offset))
    {
      assert h.Traces(q, Place(r, offset));
    }
    forall i | 0 <= i < delivered ensures h'.Seen(q[i].at) {
      assert h.Seen(q[i].at);
    }
  }

  /** The next record of a partition is fetched and queued. */
  lemma AccountedTakes(h: History, position: map<int, nat>, q: seq<Pending>, delivered: nat, p: int, x: Pending)
    requires Accounted(h, position, q, delivered) && p in position && x.at == Place(p, position[p])
    ensures Accounted(h, position[p := position[p] + 1], q + [x], delivered)
  {
    var position' := position[p := position[p] + 1];
    assert x in q + [x];
    forall r, offset | r in position' && r in h.origin && h.origin[r] <= offset < position'[r]
      ensures h.Traces(q + [x], Place(r, offset))
    {
      if Place(r, offset) != x.at {
        assert h.Traces(q, Place(r, offset));
      }
    }
  }

  /** A poll reports an error: what it took, behind the queue, is lost. */
  lemma AccountedLoses(h: History, position: map<int, nat>, q: seq<Pending>, delivered: nat, more: seq<Pending>)
    requires Accounted(h, position, q + more, delivered) && delivered <= |q|
    ensures Accounted(h.(lost := h.lost + Places(more)), position, q, delivered)
  {
    var h' := h.(lost := h.lost + Places(more));
    forall r, offset | r in position && r in h'.origin && h'.origin[r] <= offset < position[r]
      ensures h'.Traces(q, Place(r, offset))
    {
      assert h.Traces(q + more, Place(r, offset));
    }
    forall i | 0 <= i < delivered ensures h'.Seen(q[i].at) {
      assert h.Seen((q + more)[i].at);
    }
  }

  /** The next queued records are handed out. */
  lemma AccountedHandOut(h: History, position: map<int, nat>, q: seq<Pending>, delivered: nat, end: nat)
    requires Accounted(h, position, q, delivered) && delivered <= end <= |q|
    ensures Accounted(h.(handed := h.handed + Places(q[delivered..end])), position, q, end)
  {
    var h' := h.(handed := h.handed + Places(q[delivered..end]));
    forall p, offset | p in position && p in h'.origin && h'.origin[p] <= offset < position[p]
      ensures h'.Traces(q, Place(p, offset))
    {
      assert h.Traces(q, Place(p, offset));
    }
    forall i | 0 <= i < end ensures h'.Seen(q[i].at) {
      if i < delivered {
        assert h.Seen(q[i].at);
      } else {
        assert q[i] == q[delivered..end][i - delivered];
      }
    }
  }

  /** The head of the queue is resolved. */
  lemma AccountedResolves(h: History, position: map<int, nat>, q: seq<Pending>, delivered: nat)
    requires Accounted(h, position, q, delivered) && |q| > 0
    ensures Accounted(h.(resolved := h.resolved + [q[0].at]), position, q[1..], if delivered > 0 then delivered - 1 else 0)
  {
    var h' := h.(resolved := h.resolved + [q[0].at]);
    forall r, offset | r in position && r in h'.origin && h'.origin[r] <= offset < position[r]
      ensures h'.Traces(q[1..], Place(r, offset))
    {
      assert h.Traces(q, Place(r, offset));
      if Place(r, offset) in Places(q) {
        var x :| x in q && x.at == Place(r, offset);
        assert x == q[0] || x in q[1..];
      }
    }
    forall i | 0 <= i < delivered - 1 ensures h'.Seen(q[1..][i].at) {
      assert h.Seen(q[i + 1].at);
    }
  }

  // ------------------------------------------------------------------ offsets

  lemma OffsetsSnoc(q: seq<Pending>, x: Pending, p: int)
    ensures Offsets(q + [x], p) == Offsets(q, p) + (if x.at.partition == p then [x.at.offset] else [])
  {
    assert (q + [x])[..|q|] == q;
  }

  /** Taking the head away removes the head of its own partition and nothing else. */
  lemma {:induction false} OffsetsTail(q: seq<Pending>, p: int)
    requires |q| > 0
    ensures q[0].at.partition == p ==>
              |Offsets(q, p)| > 0 && Offsets(q, p)[0] == q[0].at.offset && Offsets(q[1..], p) == Offsets(q, p)[1..]
    ensures q[0].at.partition != p ==> Offsets(q[1..], p) == Offsets(q, p)
    decreases |q|
  {
    if |q| == 1 {
      assert q[..0] == [] && q[1..] == [];
    } else {
      var front := q[..|q| - 1];
      OffsetsTail(front, p);
      assert q[1..][..|q| - 2] == front[1..];
      assert q[1..][|q| - 2] == q[|q| - 1];
    }
  }

  lemma NoneYet(q: seq<Pending>, p: int)
    requires forall i :: 0 <= i < |q| ==> q[i].at.partition != p
    ensures Offsets(q, p) == []
    decreases |q|
  {
    if q != [] { NoneYet(q[..|q| - 1], p); }
  }

  /** Every listed offset belongs to some queued record. */
  lemma {:induction false} OffsetsMember(q: seq<Pending>, p: int, k: nat)
    requires k < |Offsets(q, p)|
    ensures exists i :: 0 <= i < |q| && q[i].at == Place(p, Offsets(q, p)[k])
    decreases |q|
  {
    var front := q[..|q| - 1];
    if k < |Offsets(front, p)| {
      OffsetsMember(front, p, k);
      var i :| 0 <= i < |front| && front[i].at == Place(p, Offsets(front, p)[k]);
      assert q[i].at == Place(p, Offsets(q, p)[k]);
    } else {
      assert q[|q| - 1].at == Place(p, Offsets(q, p)[k]);
    }
  }

  // -------------------------------------------------------------- the operations

  /** The logs grew. */
  lemma GrowthKeeps(c: Client, q: seq<Pending>, logs: map<int, seq<Message>>)
    requires Positioned(c) && AllGenuine(c, q)
    requires logs.Keys == c.logs.Keys && forall p :: p in logs ==> c.logs[p] <= logs[p]
    ensures Positioned(c.(logs := logs)) && AllGenuine(c.(logs := logs), q)
    ensures InLogOrder(c, q) ==> InLogOrder(c.(logs := logs), q)
    ensures Known(c) ==> Known(c.(logs := logs))
  {
    var d := c.(logs := logs);
    forall i | 0 <= i < |q| ensures Genuine(d, q[i]) { assert Genuine(c, q[i]); }
    forall p | p in d.position && InLogOrder(c, q) ensures LineUp(d, q, p) { assert LineUp(c, q, p); }
    forall p | Known(c) ensures KnownAt(d, p) { assert KnownAt(c, p); }
  }

  function Concrete(c: Client, p: int, start: nat): Client {
    c.(position := c.position[p := start], base := c.base[p := start])
  }

  /** A partition's position becomes concrete before anything of it was fetched. */
  lemma ConcreteKeeps(c: Client, q: seq<Pending>, p: int, start: nat)
    requires Positioned(c) && AllGenuine(c, q)
    requires p in c.partitions && p !in c.position && start <= |c.logs[p]|
    ensures Positioned(Concrete(c, p, start)) && AllGenuine(Concrete(c, p, start), q)
    ensures InLogOrder(c, q) ==> InLogOrder(Concrete(c, p, start), q)
    ensures Known(c) ==> forall r :: r != p ==> KnownAt(Concrete(c, p, start), r)
  {
    var d := Concrete(c, p, start);
    forall i | 0 <= i < |q| ensures Genuine(d, q[i]) && q[i].at.partition != p { assert Genuine(c, q[i]); }
    NoneYet(q, p);
    forall r | r in d.position && InLogOrder(c, q) ensures LineUp(d, q, r) {
      if r != p { assert LineUp(c, q, r); }
    }
    forall r | r != p && Known(c) ensures KnownAt(d, r) { assert KnownAt(c, r); }
  }

  function Taken(c: Client, p: int): Client
    requires p in c.position
  {
    c.(position := c.position[p := c.position[p] + 1], reported := c.reported + {p})
  }

  function NextPending(c: Client, p: int, counter: nat): Pending
    requires p in c.position && p in c.logs && c.position[p] < |c.logs[p]|
  {
    Pending(Place(p, c.position[p]), counter + 1, c.logs[p][c.position[p]])
  }

  /** The next record of a partition is fetched and queued. */
  lemma TakeKeeps(c: Client, q: seq<Pending>, p: int, counter: nat)
    requires Positioned(c) && QueueOk(c, q, counter) && p in c.position && c.position[p] < |c.logs[p]|
    ensures Positioned(Taken(c, p)) && QueueOk(Taken(c, p), q + [NextPending(c, p, counter)], counter + 1)
    ensures (forall r :: r != p ==> KnownAt(c, r)) ==> Known(Taken(c, p))
  {
    var x := NextPending(c, p, counter);
    var d, longer := Taken(c, p), q + [x];
    forall i | 0 <= i < |longer| ensures Genuine(d, longer[i]) {
      if i < |q| { assert Genuine(c, q[i]); }
    }
    forall i, j | 0 <= i < j < |longer| && longer[i].at.partition == longer[j].at.partition
      ensures longer[i].at.offset < longer[j].at.offset
    {
      assert Genuine(c, q[i]);
    }
    forall r | forall k :: k != p ==> KnownAt(c, k) ensures KnownAt(d, r) {
      if r != p { assert KnownAt(c, r); }
    }
  }

  lemma TakeLinesUp(c: Client, q: seq<Pending>, p: int, counter: nat)
    requires InLogOrder(c, q) && p in c.position && p in c.logs && c.position[p] < |c.logs[p]|
    ensures InLogOrder(Taken(c, p), q + [NextPending(c, p, counter)])
  {
    var at := c.position[p];
    var x := NextPending(c, p, counter);
    var d, longer := Taken(c, p), q + [x];
    forall r | r in d.position ensures LineUp(d, longer, r) {
      assert LineUp(c, q, r);
      OffsetsSnoc(q, x, r);
      if r == p { assert Range(c.base[p], at + 1) == Range(c.base[p], at) + [at]; }
    }
  }

  /** With the queue in log order, the head is the first unresolved record of its partition. */
  lemma HeadIsBase(c: Client, q: seq<Pending>, counter: nat)
    requires QueueOk(c, q, counter) && InLogOrder(c, q) && |q| > 0
    ensures var p := q[0].at.partition;
            && p in c.base && c.base[p] == q[0].at.offset
            && (p in c.committed ==> q[0].at.offset <= c.committed[p] <= q[0].at.offset + 1)
            && (FromStart(c.base, c.committed) && p !in c.committed ==> q[0].at.offset == 0)
  {
    var p := q[0].at.partition;
    assert Genuine(c, q[0]);
    assert LineUp(c, q, p);
    OffsetsTail(q, p);
  }

  /** The broker committed the head of the queue, whether or not the consumer learnt of it. */
  function HeadCommitted(c: Client, x: Pending): Client {
    c.(committed := c.committed[x.at.partition := x.at.offset + 1])
  }

  lemma CommitKeeps(c: Client, q: seq<Pending>, counter: nat)
    requires Positioned(c) && QueueOk(c, q, counter) && |q| > 0
    ensures var d := HeadCommitted(c, q[0]);
            && Positioned(d) && QueueOk(d, q, counter)
            && (InLogOrder(c, q) ==> InLogOrder(d, q))
            && (Known(c) ==> Known(d))
  {
    var d := HeadCommitted(c, q[0]);
    assert Genuine(c, q[0]);
    forall i | 0 <= i < |q| ensures Genuine(d, q[i]) {
      assert Genuine(c, q[i]);
    }
    forall r | r in d.position && InLogOrder(c, q) ensures LineUp(d, q, r) {
      assert LineUp(c, q, r);
      OffsetsTail(q, r);
    }
    forall r | Known(c) ensures KnownAt(d, r) { assert KnownAt(c, r); }
  }

  /** The consumer drops the committed head and remembers the offset behind it. */
  function HeadResolved(c: Client, x: Pending): Client {
    var p := x.at.partition;
    c.(base := c.base[p := x.at.offset + 1], established := c.established[p := x.at.offset + 1])
  }

  lemma ResolveKeeps(c: Client, q: seq<Pending>, counter: nat)
    requires Positioned(c) && QueueOk(c, q, counter) && |q| > 0
    requires q[0].at.partition in c.committed && c.committed[q[0].at.partition] == q[0].at.offset + 1
    ensures var d := HeadResolved(c, q[0]);
            && Positioned(d) && QueueOk(d, q[1..], counter)
            && (Known(c) ==> Known(d))
  {
    var d := HeadResolved(c, q[0]);
    assert Genuine(c, q[0]);
    forall i | 0 <= i < |q[1..]| ensures Genuine(d, q[1..][i]) {
      assert Genuine(c, q[i + 1]);
    }
    forall r | Known(c) ensures KnownAt(d, r) { assert KnownAt(c, r); }
  }

  lemma ResolveLinesUp(c: Client, q: seq<Pending>)
    requires InLogOrder(c, q) && |q| > 0
    requires q[0].at.partition in c.committed && c.committed[q[0].at.partition] == q[0].at.offset + 1
    ensures InLogOrder(HeadResolved(c, q[0]), q[1..])
  {
    var d := HeadResolved(c, q[0]);
    forall r | r in d.position ensures LineUp(d, q[1..], r) {
      assert LineUp(c, q, r);
      OffsetsTail(q, r);
    }
  }

  /** Forgetting recorded boundaries keeps the queue as good as it was. */
  lemma ForgetKeeps(c: Client, q: seq<Pending>, counter: nat)
    requires Positioned(c) && QueueOk(c, q, counter)
    ensures var d := c.(established := map[]);
            && Positioned(d) && QueueOk(d, q, counter)
            && (InLogOrder(c, q) ==> InLogOrder(d, q))
  {
    var d := c.(established := map[]);
    forall i | 0 <= i < |q| ensures Genuine(d, q[i]) { assert Genuine(c, q[i]); }
    forall r | r in d.position && InLogOrder(c, q) ensures LineUp(d, q, r) { assert LineUp(c, q, r); }
  }

  /** Deleting the group's progress keeps the queue as good as it was. */
  lemma DeleteKeeps(c: Client, q: seq<Pending>, counter: nat)
    requires Positioned(c) && QueueOk(c, q, counter)
    ensures var d := c.(committed := map[]);
            && Positioned(d) && QueueOk(d, q, counter)
            && (InLogOrder(c, q) ==> InLogOrder(d, q))
  {
    var d := c.(committed := map[]);
    forall i | 0 <= i < |q| ensures Genuine(d, q[i]) { assert Genuine(c, q[i]); }
    forall r | r in d.position && InLogOrder(c, q) ensures LineUp(d, q, r) { assert LineUp(c, q, r); }
  }

  /** Recording where a concrete position stands. */
  lemma EstablishKeeps(c: Client, q: seq<Pending>, counter: nat, p: int)
    requires Positioned(c) && QueueOk(c, q, counter) && p in c.position
    ensures var d := c.(established := c.established[p := c.position[p]]);
            && Positioned(d) && QueueOk(d, q, counter)
            && (InLogOrder(c, q) ==> InLogOrder(d, q))
            && ((forall r :: r != p ==> KnownAt(c, r)) ==> Known(d))
  {
    var d := c.(established := c.established[p := c.position[p]]);
    forall i | 0 <= i < |q| ensures Genuine(d, q[i]) { assert Genuine(c, q[i]); }
    forall r | r in d.position && InLogOrder(c, q) ensures LineUp(d, q, r) { assert LineUp(c, q, r); }
    forall r | forall k :: k != p ==> KnownAt(c, k) ensures KnownAt(d, r) {
      if r != p { assert KnownAt(c, r); }
    }
  }

  function Committed(partitions: set<int>, committed: map<int, nat>): map<int, nat> {
    map p | p in partitions && p in committed :: committed[p]
  }

  /** A freshly opened client stands at the committed offsets and nowhere else. */
  function Reopened(c: Client): Client {
    var at := Committed(c.partitions, c.committed);
    c.(position := at, base := at, established := map[], reported := {})
  }

  lemma ReopenKeeps(c: Client)
    requires c.partitions <= c.logs.Keys
    requires forall p :: p in c.committed ==> p in c.logs && c.committed[p] <= |c.logs[p]|
    ensures Positioned(Reopened(c)) && QueueOk(Reopened(c), [], 0) && InLogOrder(Reopened(c), [])
    ensures Known(Reopened(c))
  {
    var d := Reopened(c);
    forall p | p in d.position ensures LineUp(d, [], p) {
      assert Range(d.base[p], d.position[p]) == [];
    }
  }

  /** The client after a reopen and, where no commit says otherwise, the start policy. */
  function Resumed(c: Client, p: int, start: nat): Client {
    if p in Reopened(c).position then Reopened(c) else Concrete(Reopened(c), p, start)
  }

  predicate IsCommitted(c: Client, p: int, offset: nat) {
    p in c.committed && offset < c.committed[p]
  }

  /** Whatever lay between the first unresolved record and the new beginning is committed. */
  ghost predicate SkipsNothing(c: Client, p: int, start: nat)
    requires p in c.base
  {
    forall offset :: c.base[p] <= offset < Resumed(c, p, start).base[p] ==> IsCommitted(c, p, offset)
  }

  /**
   A reopen followed by the start policy skips no unresolved record iff the partition has a
   commit, or the consumer starts at the earliest record, or the policy happens to begin no
   later than the first unresolved record.
   */
  lemma ReopenSkipsNothingExactly(c: Client, q: seq<Pending>, p: int, startEarliest: bool, start: nat)
    requires LineUp(c, q, p) && p in c.partitions && (startEarliest ==> start == 0)
    ensures SkipsNothing(c, p, start) <==> p in c.committed || startEarliest || start <= c.base[p]
  {
    var d := Resumed(c, p, start);
    if p in c.committed {
      assert d.base[p] == c.committed[p];
    } else {
      assert d.base[p] == start;
      if c.base[p] < start {
        assert !IsCommitted(c, p, c.base[p]);
      }
    }
  }

  const A_RECORD := Message("m", [], "", map[], "")
  const NEWCOMER := Client(map[0 := []], map[], {0}, map[], map[], map[], {})
  const BEGUN := Concrete(NEWCOMER, 0, 0)
  const PUBLISHED := BEGUN.(logs := map[0 := [A_RECORD]])

  /**
   Counterexample: a consumer that starts at the latest record stands at the end of an empty
   log, one record is published, fetched and handed out, and the client is reopened before
   anything was committed.  The new client begins behind the record, which nobody resolved.
   */
  lemma UncommittedRecordIsLost()
    ensures var x := NextPending(PUBLISHED, 0, 0);
            var c := Taken(PUBLISHED, 0);
            var h := History(map[0 := 0], {x.at}, [], {});
            && Positioned(c) && QueueOk(c, [x], 1) && InLogOrder(c, [x]) && Accounted(h, c.position, [x], 1)
            && x.at == Place(0, 0) && x.message == A_RECORD && x.at in h.handed
            && x.at !in h.resolved && 0 !in c.committed
            && Resumed(c, 0, 1).base[0] == 1 && !SkipsNothing(c, 0, 1)
  {
    hide Positioned, QueueOk, LineUp, SkipsNothing, Accounted;
    var x, c := NextPending(PUBLISHED, 0, 0), Taken(PUBLISHED, 0);
    PublishedIsInOrder();
    TakeKeeps(PUBLISHED, [], 0, 0);
    TakeLinesUp(PUBLISHED, [], 0, 0);
    var h := History(map[0 := 0], {}, [], {});
    AccountedTakes(h, PUBLISHED.position, [], 0, 0, x);
    assert [] + [x] == [x] && [x][0..1] == [x] && Places([x]) == {x.at} && {} + {x.at} == {x.at};
    AccountedHandOut(h, c.position, [x], 0, 1);
    ReopenSkipsNothingExactly(c, [x], 0, false, 1);
  }

  /**
   Counterexample: the poll that took the only record of the log reported an error.  The
   client stands at the end and has nothing left to hand out, so the consumer reports that it
   is caught up; the record was neither handed out nor resolved.
   */
  lemma TornClientLooksCaughtUp()
    ensures var x := NextPending(PUBLISHED, 0, 0);
            var c := Taken(PUBLISHED, 0);
            var h := History(map[0 := 0], {}, [], {x.at});
            && Positioned(c) && QueueOk(c, [], 1) && Accounted(h, c.position, [], 0)
            && c.position[0] == |c.logs[0]| && h.origin[0] <= 0 < |c.logs[0]| && !h.Seen(Place(0, 0))
  {
    hide Positioned, LineUp, Accounted;
    var x, c := NextPending(PUBLISHED, 0, 0), Taken(PUBLISHED, 0);
    PublishedIsInOrder();
    TakeKeeps(PUBLISHED, [], 0, 0);
    var h := History(map[0 := 0], {}, [], {});
    AccountedTakes(h, PUBLISHED.position, [], 0, 0, x);
    AccountedLoses(h, c.position, [], 0, [x]);
    assert Places([x]) == {x.at} && {} + {x.at} == {x.at};
  }

  lemma PublishedIsInOrder()
    ensures Positioned(PUBLISHED) && QueueOk(PUBLISHED, [], 0) && InLogOrder(PUBLISHED, [])
    ensures Accounted(History(map[0 := 0], {}, [], {}), PUBLISHED.position, [], 0)
  {
    assert Offsets([], 0) == [] && Range(0, 0) == [];
    assert LineUp(PUBLISHED, [], 0);
  }

  /**
   Soundness of "caught up": when every queued record has been handed out and a position has
   reached the end, each record of the partition from where it began to its end has been
   handed out, or resolved, or lost to a poll that reported an error.
   */
  lemma NothingUnseen(c: Client, h: History, q: seq<Pending>, p: int, offset: nat)
    requires Accounted(h, c.position, q, |q|) && p in c.position && p in c.logs && p in h.origin
    requires c.position[p] == |c.logs[p]| && h.origin[p] <= offset < |c.logs[p]|
    ensures h.Seen(Place(p, offset)) || Place(p, offset) in h.lost
  {
    assert h.Traces(q, Place(p, offset));
    if Place(p, offset) in Places(q) {
      var x :| x in q && x.at == Place(p, offset);
    }
  }
}
