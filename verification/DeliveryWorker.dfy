/**
 The delivery worker driving the consumer: receive, attempt, then acknowledge, ask for
 redelivery, dead-letter, or end the subscription; reconnect after every receive error.
 Attempts, store failures and cancellations are nondeterministic; a run is cut off after
 any number of rounds, so what holds at the end holds at every point between records.
 */
module DeliveryWorker {
  import opened Wrappers
  import opened State
  import EventLog
  import opened Messages
  import opened PendingQueue
  import opened KafkaConsumer
  import opened RetryPolicy

  datatype StoreAction = ActionRedeliver | ActionDeadLetter | ActionFail

  datatype StoreRetry = StoreRetry(
    redeliverCodes: set<nat>,
    deadLetterCodes: set<nat>,
    failCodes: set<nat>,
    defaultAction: StoreAction,
    networkFailureAction: StoreAction) {

    function ActionFor(status: nat): StoreAction {
      if status == 0 then networkFailureAction
      else if status in redeliverCodes then ActionRedeliver
      else if status in deadLetterCodes then ActionDeadLetter
      else if status in failCodes then ActionFail
      else defaultAction
    }
  }

  datatype Strategy = HttpStrategy(http: HttpRetry) | StoreStrategy(store: StoreRetry)

  datatype Verdict =
    | Proceed
    | Redeliver
    | Removed
    | Stale
    | Ended(cause: Outcome)
    | Cancelled

  // ---------------------------------------------------------------- what an answer means

  function Digit(d: nat): char
    requires d < 10
  {
    "0123456789"[d]
  }

  function Decimal(n: nat): string {
    if n < 10 then [Digit(n)] else Decimal(n / 10) + [Digit(n % 10)]
  }

  /** How a failed attempt is reported. */
  function FailureClass(status: nat): string {
    if status > 0 then "http_" + Decimal(status) else "network_failure"
  }

  /** The number that decimal digits denote. */
  function Numeral(digits: string): int {
    if digits == [] then 0 else 10 * Numeral(digits[..|digits| - 1]) + (digits[|digits| - 1] as int - '0' as int)
  }

  lemma {:induction false} DecimalDenotes(n: nat)
    ensures |Decimal(n)| >= 1 && Numeral(Decimal(n)) == n && (n > 0 ==> Decimal(n)[0] != '0')
  {
    var d := Decimal(n);
    DigitDenotes(n % 10);
    if n < 10 {
      assert d[..0] == [];
    } else {
      DecimalDenotes(n / 10);
      assert d[..|d| - 1] == Decimal(n / 10);
    }
  }

  lemma DigitDenotes(d: nat)
    requires d < 10
    ensures Digit(d) as int == '0' as int + d
  {
  }

  /** A failure is reported as `http_` and its status in decimal, or as a network failure without one. */
  lemma FailureClassExactly(status: nat)
    ensures status == 0 ==> FailureClass(status) == "network_failure"
    ensures status > 0 ==>
              && "http_" < FailureClass(status) && Numeral(FailureClass(status)[5..]) == status
              && FailureClass(status)[5] != '0'
  {
    DecimalDenotes(status);
    if status > 0 {
      assert FailureClass(status)[5..] == Decimal(status);
    }
  }

  /** The event is in the log behind this verdict; if the append was not confirmed, it may be. */
  ghost predicate Recorded(appended: seq<Event>, e: Event, v: Verdict, confirmed: Verdict) {
    || (v == confirmed && appended == [e])
    || (v == Ended(StoreFailed) && (appended == [] || appended == [e]))
  }

  /** A letter is stored behind a `Proceed`; if storing or committing failed, one may be. */
  ghost predicate Lettered(letters: seq<Message>, v: Verdict, m: Message, topicId: string, id: string, failure: string, attempt: string) {
    && (v.Proceed? || v == Ended(StoreFailed))
    && (|letters| == 1 || (v.Ended? && letters == []))
    && (|letters| == 1 ==> IsLetter(letters[0], m, topicId, id, failure, attempt))
  }

  /**
   The HTTP strategy, from the answers it got: every answer but the last was a failure to be
   retried, and the last one decides.
   */
  ghost predicate HttpSays(http: HttpRetry, tries: seq<Attempted>, v: Verdict, appended: seq<Event>, id: string, meta: Metadata) {
    && (forall i :: 0 <= i < |tries| - 1 ==>
          && tries[i].response.Refused?
          && (tries[i].response.status == 0 || tries[i].response.status in http.retryStatusCodes))
    && (!http.resetOnExhaust ==> |tries| <= http.maxAttempts)
    && if |tries| == 0 then v == Cancelled && appended == []
       else match tries[|tries| - 1].response
            case Delivered => (v == Proceed || v == Ended(StoreFailed)) && appended == []
            case Gone => Recorded(appended, SubscriptionWasRemoved(meta, id, "http_410"), v, Removed)
            case Refused(c) =>
              if c != 0 && c !in http.retryStatusCodes then
                Recorded(appended, SubscriptionWentStale(meta, id, FailureClass(c)), v, Stale)
              else if !http.resetOnExhaust && |tries| == http.maxAttempts then
                Recorded(appended, SubscriptionWentStale(meta, id, "retry_exhausted"), v, Stale)
              else v == Cancelled && appended == []
  }

  /** One answer that ends the attempts, and what is done about it. */
  ghost predicate Decides(http: HttpRetry, r: Response, v: Verdict, appended: seq<Event>, id: string, meta: Metadata) {
    match r
    case Delivered => (v == Proceed || v == Ended(StoreFailed)) && appended == []
    case Gone => Recorded(appended, SubscriptionWasRemoved(meta, id, "http_410"), v, Removed)
    case Refused(c) =>
      if c != 0 && c !in http.retryStatusCodes then
        Recorded(appended, SubscriptionWentStale(meta, id, FailureClass(c)), v, Stale)
      else Recorded(appended, SubscriptionWentStale(meta, id, "retry_exhausted"), v, Stale)
  }

  /** An attempt of this record whose failure is to be retried. */
  ghost predicate Repeats(http: HttpRetry, x: Pending, t: Attempted) {
    && t.at == x.at && t.message == x.message
    && t.response.Refused? && (t.response.status == 0 || t.response.status in http.retryStatusCodes)
  }

  /** Attempts that all have to be repeated decide nothing yet. */
  lemma StillTrying(http: HttpRetry, x: Pending, tries: seq<Attempted>, id: string, meta: Metadata)
    requires forall i :: 0 <= i < |tries| ==> Repeats(http, x, tries[i])
    requires !http.resetOnExhaust ==> |tries| < http.maxAttempts
    ensures HttpSays(http, tries, Cancelled, [], id, meta)
  {
  }

  /** The answer to one more attempt decides. */
  lemma LastDecides(http: HttpRetry, x: Pending, before: seq<Attempted>, r: Response, v: Verdict, appended: seq<Event>,
                    id: string, meta: Metadata)
    requires forall i :: 0 <= i < |before| ==> Repeats(http, x, before[i])
    requires !http.resetOnExhaust ==> |before| < http.maxAttempts
    requires r.Refused? && (r.status == 0 || r.status in http.retryStatusCodes) ==>
               !http.resetOnExhaust && |before| + 1 == http.maxAttempts
    requires Decides(http, r, v, appended, id, meta)
    ensures HttpSays(http, before + [Attempted(x.at, x.message, r)], v, appended, id, meta)
  {
    hide Recorded;
  }

  /** The message-store strategy, from the one answer it got and the configured codes. */
  ghost predicate StoreSays(store: StoreRetry, tries: seq<Attempted>, v: Verdict, appended: seq<Event>, letters: seq<Message>,
                            m: Message, topicId: string, id: string, meta: Metadata)
  {
    && |tries| == 1
    && match tries[0].response
       case Delivered => (v == Proceed || v == Ended(StoreFailed)) && appended == [] && letters == []
       case Gone => Recorded(appended, SubscriptionWasRemoved(meta, id, "http_410"), v, Removed) && letters == []
       case Refused(c) =>
         var listed := c in store.redeliverCodes || c in store.deadLetterCodes || c in store.failCodes;
         if c == 0 then Acts(store.networkFailureAction, c, v, appended, letters, m, topicId, id, meta)
         else if c in store.redeliverCodes then Acts(ActionRedeliver, c, v, appended, letters, m, topicId, id, meta)
         else if c in store.deadLetterCodes then Acts(ActionDeadLetter, c, v, appended, letters, m, topicId, id, meta)
         else if c in store.failCodes then Acts(ActionFail, c, v, appended, letters, m, topicId, id, meta)
         else !listed && Acts(store.defaultAction, c, v, appended, letters, m, topicId, id, meta)
  }

  ghost predicate Acts(action: StoreAction, status: nat, v: Verdict, appended: seq<Event>, letters: seq<Message>,
                       m: Message, topicId: string, id: string, meta: Metadata)
  {
    match action
    case ActionRedeliver => v == Redeliver && appended == [] && letters == []
    case ActionDeadLetter => appended == [] && Lettered(letters, v, m, topicId, id, FailureClass(status), "1")
    case ActionFail => Recorded(appended, SubscriptionWentStale(meta, id, FailureClass(status)), v, Stale) && letters == []
  }

  /**
   Over any number of records: only the last answer can be that the subscriber is gone, and
   then the removal is recorded before the worker ends for good; a stale mark follows a refused
   attempt; and nothing else is ever appended to the event log.
   */
  ghost predicate Concluded(tries: seq<Attempted>, appended: seq<Event>, v: Verdict, id: string, meta: Metadata) {
    && (forall i :: 0 <= i < |tries| - 1 ==> !tries[i].response.Gone?)
    && (|tries| > 0 && tries[|tries| - 1].response.Gone? ==> v.Removed? || v.Ended?)
    && (v.Removed? ==> |tries| > 0 && tries[|tries| - 1].response.Gone? && appended == [SubscriptionWasRemoved(meta, id, "http_410")])
    && (v.Stale? ==>
          && |tries| > 0 && tries[|tries| - 1].response.Refused?
          && |appended| == 1 && appended[0].SubscriptionWentStale? && appended[0].subscriptionId == id && appended[0].meta == meta)
    && (v.Ended? ==>
          appended == []
          || (&& |tries| > 0 && |appended| == 1 && appended[0].meta == meta
              && ((tries[|tries| - 1].response.Gone? && appended[0] == SubscriptionWasRemoved(meta, id, "http_410"))
                  || (tries[|tries| - 1].response.Refused? && appended[0].SubscriptionWentStale? && appended[0].subscriptionId == id))))
    && (v.Proceed? || v.Redeliver? || v.Cancelled? ==> appended == [])
  }

  lemma ConcludedChain(a: seq<Attempted>, b: seq<Attempted>, appended: seq<Event>, u: Verdict, v: Verdict, id: string, meta: Metadata)
    requires (u.Proceed? || u.Redeliver? || u.Cancelled?) && Concluded(a, [], u, id, meta) && Concluded(b, appended, v, id, meta)
    ensures Concluded(a + b, appended, v, id, meta)
  {
  }

  lemma LetterStored(was: seq<Message>, now: seq<Message>, l: Message, v: Verdict, m: Message,
                     topicId: string, id: string, failure: string, attempt: string)
    requires IsLetter(l, m, topicId, id, failure, attempt) && (now == was || now == was + [l])
    requires v.Proceed? ==> now == was + [l]
    requires v.Proceed? || v == Ended(StoreFailed)
    ensures was <= now && Lettered(now[|was|..], v, m, topicId, id, failure, attempt)
  {
    hide IsLetter;
  }

  lemma RemovalIsThere(was: seq<Event>, now: seq<Event>, tries: seq<Attempted>, v: Verdict, id: string, meta: Metadata)
    requires was <= now && v.Removed? && Concluded(tries, now[|was|..], v, id, meta)
    ensures EventLog.HasRemoval(now, id)
  {
    assert now[|was|..][0] == now[|was|] && EventLog.Removes(now[|was|], id);
  }

  lemma HttpConcludes(http: HttpRetry, tries: seq<Attempted>, v: Verdict, appended: seq<Event>, id: string, meta: Metadata)
    requires HttpSays(http, tries, v, appended, id, meta)
    ensures Concluded(tries, appended, v, id, meta)
  {
    hide FailureClass;
  }

  lemma StoreConcludes(store: StoreRetry, tries: seq<Attempted>, v: Verdict, appended: seq<Event>, letters: seq<Message>,
                       m: Message, topicId: string, id: string, meta: Metadata)
    requires StoreSays(store, tries, v, appended, letters, m, topicId, id, meta)
    ensures Concluded(tries, appended, v, id, meta)
  {
    hide FailureClass, IsLetter;
  }

  /** What a worker is for. */
  datatype Duty = Duty(strategy: Strategy, topicId: string, subscriptionId: string) {

    /** The record's letter is stored, with this failure and attempt. */
    ghost predicate BuriedAs(x: Pending, failure: string, attempt: string, now: Ledger) {
      && x.at in now.buried && now.buried[x.at] < |now.letters|
      && IsLetter(now.letters[now.buried[x.at]], x.message, topicId, subscriptionId, failure, attempt)
    }

    /** How a record got resolved: malformed ones by a letter, others by a delivery or, by the store strategy, a letter. */
    ghost predicate ResolvedRightly(x: Pending, now: Ledger) {
      if x.message.storageError != "" then BuriedAs(x, "storage_decode", "0", now)
      else if x.message.id == "" then BuriedAs(x, "missing_message_id", "0", now)
      else || x.at in now.served
           || (strategy.StoreStrategy? && exists c :: BuriedAs(x, FailureClass(c), "1", now))
    }

    /** What was sent, stored and recorded for one record, on the record's own fields. */
    ghost predicate Treated(x: Pending, v: Verdict, meta: Metadata, was: Ledger, now: Ledger, events: seq<Event>, events': seq<Event>) {
      && Kept(x, was, now) && events <= events'
      && var tries, letters, appended := now.attempts[|was.attempts|..], now.letters[|was.letters|..], events'[|events|..];
         && (forall i :: 0 <= i < |tries| ==> tries[i].at == x.at && tries[i].message == x.message)
         && if x.message.storageError != "" then
              && tries == [] && appended == [] && now.served == was.served
              && Lettered(letters, v, x.message, topicId, subscriptionId, "storage_decode", "0")
            else if x.message.id == "" then
              && tries == [] && appended == [] && now.served == was.served
              && Lettered(letters, v, x.message, topicId, subscriptionId, "missing_message_id", "0")
            else match strategy
                 case HttpStrategy(http) =>
                   && letters == [] && now.buried == was.buried
                   && HttpSays(http, tries, v, appended, subscriptionId, meta)
                 case StoreStrategy(store) =>
                   StoreSays(store, tries, v, appended, letters, x.message, topicId, subscriptionId, meta)
    }

    /** Under the HTTP strategy, the records that got a letter since are malformed. */
    ghost predicate LettersAreDue(was: Ledger, now: Ledger) {
      && Lengthened(was, now)
      && (strategy.HttpStrategy? ==>
            forall at :: at in now.buried && at !in was.buried ==>
                           now.Has(at) && (now.Read(at).id == "" || now.Read(at).storageError != ""))
    }

    /** What was attempted and appended since, and how it ended. */
    ghost predicate EndedRightly(v: Verdict, meta: Metadata, was: Ledger, now: Ledger, events: seq<Event>, events': seq<Event>) {
      && was.attempts <= now.attempts && events <= events'
      && Concluded(now.attempts[|was.attempts|..], events'[|events|..], v, subscriptionId, meta)
    }
  }

  /** Earlier evidence stays: attempts, served records, and the letters of other records. */
  ghost predicate Kept(x: Pending, was: Ledger, now: Ledger) {
    && was.served <= now.served && was.letters <= now.letters && was.attempts <= now.attempts
    && (forall at :: at in was.buried && at != x.at ==> at in now.buried && now.buried[at] == was.buried[at])
    && now.buried.Keys <= was.buried.Keys + {x.at}
  }

  lemma TreatedConcludes(d: Duty, x: Pending, v: Verdict, meta: Metadata, was: Ledger, now: Ledger, events: seq<Event>, events': seq<Event>)
    requires d.Treated(x, v, meta, was, now, events, events')
    ensures d.EndedRightly(v, meta, was, now, events, events')
  {
    hide HttpSays, StoreSays, IsLetter;
    var tries, letters, appended := now.attempts[|was.attempts|..], now.letters[|was.letters|..], events'[|events|..];
    if x.message.storageError == "" && x.message.id != "" {
      match d.strategy
      case HttpStrategy(http) => HttpConcludes(http, tries, v, appended, d.subscriptionId, meta);
      case StoreStrategy(store) =>
        StoreConcludes(store, tries, v, appended, letters, x.message, d.topicId, d.subscriptionId, meta);
    }
  }

  lemma DueSinceFirst(d: Duty, first: Ledger, was: Ledger, now: Ledger)
    requires d.LettersAreDue(first, was) && d.LettersAreDue(was, now)
    ensures d.LettersAreDue(first, now)
  {
    forall at | was.Has(at) ensures now.Has(at) && now.Read(at) == was.Read(at) {
      assert was.logs[at.partition] <= now.logs[at.partition];
    }
  }

  lemma TreatedIsDue(d: Duty, x: Pending, v: Verdict, meta: Metadata, was: Ledger, now: Ledger, events: seq<Event>, events': seq<Event>)
    requires d.Treated(x, v, meta, was, now, events, events') && now.logs == was.logs
    requires was.Has(x.at) && x.message == was.Read(x.at)
    ensures d.LettersAreDue(was, now)
  {
    hide HttpSays, StoreSays, Lettered;
  }

  /** What happened to one record leaves another one resolved as it was. */
  lemma StillResolved(d: Duty, x: Pending, y: Pending, was: Ledger, now: Ledger)
    requires Kept(x, was, now) && x.at != y.at && d.ResolvedRightly(y, was)
    ensures d.ResolvedRightly(y, now)
  {
    hide IsLetter, FailureClass;
    forall failure, attempt | d.BuriedAs(y, failure, attempt, was) ensures d.BuriedAs(y, failure, attempt, now) {
    }
  }

  /** A conclusion that was not final, followed by another. */
  lemma EndsFurther(d: Duty, u: Verdict, v: Verdict, meta: Metadata, first: Ledger, was: Ledger, now: Ledger,
                    events: seq<Event>, events': seq<Event>)
    requires u.Proceed? || u.Redeliver? || u.Cancelled?
    requires d.EndedRightly(u, meta, first, was, events, events) && d.EndedRightly(v, meta, was, now, events, events')
    ensures d.EndedRightly(v, meta, first, now, events, events')
    ensures v.Proceed? || v.Redeliver? || v.Cancelled? ==> events' == events
  {
    var a, b := was.attempts[|first.attempts|..], now.attempts[|was.attempts|..];
    assert now.attempts[|first.attempts|..] == a + b && events[|events|..] == [];
    ConcludedChain(a, b, events'[|events|..], u, v, d.subscriptionId, meta);
    assert events' == events + events'[|events|..];
  }

  lemma NothingYet(d: Duty, meta: Metadata, l: Ledger, events: seq<Event>)
    ensures d.EndedRightly(Proceed, meta, l, l, events, events) && d.EndedRightly(Cancelled, meta, l, l, events, events)
    ensures d.LettersAreDue(l, l)
  {
    assert l.attempts[|l.attempts|..] == [] && events[|events|..] == [];
  }

  lemma OnlyReceived(d: Duty, meta: Metadata, first: Ledger, was: Ledger, now: Ledger, events: seq<Event>)
    requires d.EndedRightly(Cancelled, meta, first, was, events, events) && d.LettersAreDue(first, was)
    requires now == was.(logs := now.logs) && Lengthened(was, now)
    ensures d.EndedRightly(Cancelled, meta, first, now, events, events) && d.LettersAreDue(first, now)
  {
    DueSinceFirst(d, first, was, now);
  }

  lemma TreatedKeeps(d: Duty, x: Pending, v: Verdict, meta: Metadata, was: Ledger, now: Ledger, events: seq<Event>, events': seq<Event>)
    requires d.Treated(x, v, meta, was, now, events, events')
    ensures Kept(x, was, now)
  {
  }

  /** A batch that was not the last does not end the run. */
  lemma GoingOn(d: Duty, v: Verdict, meta: Metadata, was: Ledger, now: Ledger, events: seq<Event>)
    requires (v.Proceed? || v.Redeliver?) && d.EndedRightly(v, meta, was, now, events, events)
    ensures d.EndedRightly(Cancelled, meta, was, now, events, events)
  {
  }

  /** The state-event log that lifecycle events are appended to. */
  class StateLog {
    var events: seq<Event>

    constructor ()
      ensures events == []
    {
      events := [];
    }

    method Append(e: Event) returns (confirmed: bool)
      modifies this
      ensures events == old(events) || events == old(events) + [e]
      ensures confirmed ==> events == old(events) + [e]
    {
      var durable: bool := *;
      confirmed := *;
      confirmed := confirmed && durable;
      if durable {
        events := events + [e];
      }
    }
  }

  class Worker {
    const consumer: Consumer
    const stateLog: StateLog
    const strategy: Strategy
    const topicId: string
    const subscriptionId: string
    const batchSize: nat
    var stopRequested: bool
    var stopIntent: Intent
    var finished: bool   // the manager's signal that the run is over

    constructor (consumer: Consumer, stateLog: StateLog, strategy: Strategy, topicId: string,
                 subscriptionId: string, batchSize: nat)
      requires batchSize >= 1
      ensures this.consumer == consumer && this.stateLog == stateLog && this.strategy == strategy
      ensures this.topicId == topicId && this.subscriptionId == subscriptionId && this.batchSize == batchSize
      ensures stopIntent == CloseTemporary && !stopRequested && !finished
    {
      this.consumer, this.stateLog, this.strategy := consumer, stateLog, strategy;
      this.topicId, this.subscriptionId, this.batchSize := topicId, subscriptionId, batchSize;
      stopRequested, stopIntent, finished := false, CloseTemporary, false;
    }

    /** Between records: the queue is in log order, nothing was lost, and `AtLeastOnce` holds. */
    ghost predicate Valid()
      reads consumer, consumer.broker
    {
      && consumer.Valid() && !consumer.torn && !consumer.closed
      && |consumer.pending| <= batchSize
      && batchSize >= 1
      && ResolvedWereHanded(consumer.history)
      && Evidence()
    }

    /** At least once from the first commit on; from the start of the log for a consumer that starts there. */
    ghost predicate Evidence()
      reads consumer.broker
    {
      consumer.broker.AtLeastOnce() && (consumer.startEarliest ==> consumer.broker.FromTheStart())
    }

    // ------------------------------------------------------------ stopping

    /** A permanent intent wins over any number of temporary ones, in either order. */
    method Stop(intent: Intent)
      modifies this`stopRequested, this`stopIntent
      ensures stopRequested
      ensures stopIntent == if old(stopIntent).ClosePermanent? then ClosePermanent else intent
    {
      stopRequested := true;
      if intent.ClosePermanent? {
        stopIntent := intent;
      }
    }

    // ------------------------------------------------------------ resolving

    ghost function Duties(): Duty {
      Duty(strategy, topicId, subscriptionId)
    }

    /** The record at the head of the queue, in the middle of a batch that was handed out whole. */
    ghost predicate AtHead(x: Pending)
      reads consumer, consumer.broker
    {
      && Valid() && |consumer.pending| > 0 && consumer.pending[0] == x
      && consumer.delivered == |consumer.pending|
    }

    /** What a verdict says about the queue; in particular the worker is never out of order. */
    twostate predicate Moved(v: Verdict)
      reads consumer
    {
      && (v.Proceed? ==> consumer.Dropped() && consumer.delivered == |consumer.pending|)
      && (!v.Proceed? ==> consumer.pending == old(consumer.pending) && consumer.history == old(consumer.history))
      && (v.Redeliver? ==> consumer.delivered == 0)
      && (v.Ended? ==> v.cause.StoreFailed?)
      && consumer.permanent == old(consumer.permanent)
    }

    lemma HeadFacts(x: Pending)
      requires AtHead(x)
      ensures var b := consumer.broker;
              && b.Has(x.at) && x.message == b.Read(x.at)
              && x.receipt in consumer.issued
              && b.first.Keys == b.committed.Keys
              && (x.at.partition in b.committed ==> x.at.offset <= b.committed[x.at.partition])
              && (consumer.startEarliest && x.at.partition !in b.committed ==> x.at.offset == 0)
      ensures x.at in consumer.history.handed
    {
      hide FromStart, Positioned, InLogOrder;
      HeadIsThere(consumer.Now(), consumer.pending, consumer.nextReceipt);
      HeadIsBase(consumer.Now(), consumer.pending, consumer.nextReceipt);
    }

    /** After a commit behind a settled head, whether or not it took effect, the evidence holds. */
    lemma CommitIsCovered(x: Pending, was: Ledger)
      requires was.AtLeastOnce() && was.Settled(x.at) && was.first.Keys == was.committed.Keys
      requires x.at.partition in was.committed ==> x.at.offset <= was.committed[x.at.partition]
      requires consumer.startEarliest && x.at.partition !in was.committed ==> x.at.offset == 0
      requires consumer.startEarliest ==> forall p :: p in was.first ==> was.first[p] == 0
      requires consumer.broker.Books() == was || consumer.broker.Books() == was.WithCommit(x.at)
      ensures Evidence()
    {
      hide Ledger.AtLeastOnce, Ledger.Settled;
      CommitKeepsEvidence(was, x.at);
    }

    /** Acknowledges a record that has been delivered. */
    method Acknowledge(x: Pending) returns (v: Verdict)
      requires AtHead(x) && x.at in consumer.broker.served
      modifies consumer, consumer.broker`committed, consumer.broker`first
      ensures Valid() && Moved(v) && (v.Proceed? || v.Ended?)
    {
      hide Consumer.Valid, ResolvedWereHanded, Ledger.AtLeastOnce;
      HeadFacts(x);
      ghost var was := consumer.broker.Books();
      var outcome := consumer.Ack(x.receipt);
      DroppedWasHanded();
      CommitIsCovered(x, was);
      v := if outcome.Done? then Proceed else Ended(outcome);
    }

    /** Remembers where a record's dead letter is stored. */
    ghost method NoteLetter(at: Place, index: nat)
      requires consumer.Valid()
      modifies consumer.broker`buried
      ensures consumer.Valid() && consumer.broker.buried == old(consumer.broker.buried)[at := index]
    {
      hide FromStart, Positioned, QueueOk, InLogOrder, Known, Consumer.Issued, Accounted;
      consumer.broker.buried := consumer.broker.buried[at := index];
    }

    /** The resolved head was handed out, so the record of resolutions stays within what was handed out. */
    twostate lemma DroppedWasHanded()
      requires old(ResolvedWereHanded(consumer.history)) && |old(consumer.pending)| > 0
      requires old(consumer.pending)[0].at in old(consumer.history).handed
      requires consumer.Dropped() || consumer.history == old(consumer.history)
      ensures ResolvedWereHanded(consumer.history)
    {
    }

    /** Stores this letter for the record and, if it is stored, notes where and commits the record. */
    method Inter(x: Pending, letter: Letter) returns (v: Verdict)
      requires AtHead(x) && Annotated(letter).body == x.message.body
      requires x.message.id != "" ==> letter.message.id == x.message.id
      requires x.message.id == "" || x.message.storageError != "" || consumer.broker.Books().WasRefused(x.at)
      modifies consumer.broker`buried, consumer, consumer.broker`committed, consumer.broker`first, consumer.broker`deadLetters
      ensures Valid() && Moved(v) && (v.Proceed? || v.Ended?)
      ensures var was, now := old(consumer.broker.Books()), consumer.broker.Books();
              || (!v.Proceed? && now == was)
              || (now.letters == was.letters + [Annotated(letter)] && now.buried == was.buried[x.at := |was.letters|])
    {
      hide Consumer.Valid, ResolvedWereHanded, Ledger.AtLeastOnce, Ledger.Settled, Ledger.WasRefused, Annotated;
      HeadFacts(x);
      ghost var was := consumer.broker.Books();
      LetterKeeps(was, x.at, Annotated(letter));
      var outcome := consumer.DeadLetter(x.receipt, letter);
      DroppedWasHanded();
      if consumer.broker.deadLetters != was.letters {
        NoteLetter(x.at, |was.letters|);
        CommitIsCovered(x, was.WithLetter(x.at, Annotated(letter)));
      } else {
        assert consumer.broker.Books() == was;
      }
      v := if outcome.Done? then Proceed else Ended(outcome);
    }

    /** Dead-letters a record that is malformed or was refused. */
    method Bury(x: Pending, failure: string, attempt: string) returns (v: Verdict)
      requires AtHead(x)
      requires x.message.id == "" || x.message.storageError != "" || consumer.broker.Books().WasRefused(x.at)
      modifies consumer.broker`buried, consumer, consumer.broker`committed, consumer.broker`first, consumer.broker`deadLetters
      ensures Valid() && Moved(v)
      ensures Kept(x, old(consumer.broker.Books()), consumer.broker.Books())
      ensures Lettered(consumer.broker.deadLetters[|old(consumer.broker.deadLetters)|..], v, x.message,
                       topicId, subscriptionId, failure, attempt)
      ensures v.Proceed? ==> Duties().BuriedAs(x, failure, attempt, consumer.broker.Books())
    {
      hide Consumer.Valid, ResolvedWereHanded, Ledger.AtLeastOnce, Ledger.WasRefused, Annotated, IsLetter, Lettered;
      var newId: string := *;
      var id := if x.message.id == "" then "dlq-" + newId else x.message.id;
      var letter := Letter(x.message.(storageError := "", id := id), topicId, subscriptionId, failure, attempt, x.message.storageError);
      AnnotatedIsLetter(x.message, id, topicId, subscriptionId, failure, attempt);
      LetterHasBody(Annotated(letter), x.message, topicId, subscriptionId, failure, attempt);
      v := Inter(x, letter);
      LetterStored(old(consumer.broker.deadLetters), consumer.broker.deadLetters, Annotated(letter), v, x.message,
                   topicId, subscriptionId, failure, attempt);
    }

    // ------------------------------------------------------------ one record

    /** One delivery attempt of a well-formed record; a success is evidence for it. */
    method Attempt(x: Pending) returns (r: Response)
      requires AtHead(x) && x.message.id != "" && x.message.storageError == ""
      modifies consumer.broker`served, consumer.broker`attempts
      ensures AtHead(x)
      ensures consumer.broker.Books() == old(consumer.broker.Books()).WithAttempt(Attempted(x.at, x.message, r))
    {
      hide FromStart, Positioned, QueueOk, InLogOrder, Known, Consumer.Issued, Accounted, Ledger.AtLeastOnce, ResolvedWereHanded;
      HeadFacts(x);
      r := *;
      ghost var a, was := Attempted(x.at, x.message, r), consumer.broker.Books();
      AttemptKeeps(was, a);
      consumer.broker.attempts := consumer.broker.attempts + [a];
      if r.Delivered? {
        consumer.broker.served := consumer.broker.served + {x.at};
      }
      assert consumer.broker.Books() == was.WithAttempt(a);
    }

    method AskRedelivery(x: Pending) returns (v: Verdict)
      requires AtHead(x)
      modifies consumer`delivered
      ensures Valid() && Moved(v) && v.Redeliver?
    {
      hide FromStart, Positioned, QueueOk, InLogOrder, Known, Broker.AtLeastOnce, Broker.FromTheStart;
      var outcome := consumer.Nack(x.receipt, false);
      assert outcome.Done?;
      v := Redeliver;
    }

    /** The subscriber is gone: record the removal durably before ending for good. */
    method Remove(meta: Metadata) returns (v: Verdict)
      modifies stateLog
      ensures old(stateLog.events) <= stateLog.events
      ensures Recorded(stateLog.events[|old(stateLog.events)|..], SubscriptionWasRemoved(meta, subscriptionId, "http_410"), v, Removed)
    {
      var confirmed := stateLog.Append(SubscriptionWasRemoved(meta, subscriptionId, "http_410"));
      v := if confirmed then Removed else Ended(StoreFailed);
    }

    method MarkStale(meta: Metadata, reason: string) returns (v: Verdict)
      modifies stateLog
      ensures old(stateLog.events) <= stateLog.events
      ensures Recorded(stateLog.events[|old(stateLog.events)|..], SubscriptionWentStale(meta, subscriptionId, reason), v, Stale)
    {
      var confirmed := stateLog.Append(SubscriptionWentStale(meta, subscriptionId, reason));
      v := if confirmed then Stale else Ended(StoreFailed);
    }

    /** One HTTP attempt, the `number`-th since the last reset; no verdict means the record is to be retried. */
    method AttemptHttp(x: Pending, http: HttpRetry, meta: Metadata, number: nat) returns (v: Option<Verdict>, r: Response)
      requires AtHead(x) && x.message.id != "" && x.message.storageError == ""
      modifies consumer.broker`served, consumer.broker`attempts, stateLog, consumer, consumer.broker`committed, consumer.broker`first
      ensures consumer.broker.attempts == old(consumer.broker.attempts) + [Attempted(x.at, x.message, r)]
      ensures old(consumer.broker.served) <= consumer.broker.served && old(stateLog.events) <= stateLog.events
      ensures v.None? <==>
                && r.Refused? && (r.status == 0 || r.status in http.retryStatusCodes)
                && (http.resetOnExhaust || number < http.maxAttempts)
      ensures v.None? ==>
                && AtHead(x) && stateLog.events == old(stateLog.events)
                && consumer.pending == old(consumer.pending) && consumer.history == old(consumer.history)
                && consumer.permanent == old(consumer.permanent)
      ensures v.Some? ==>
                && Valid() && Moved(v.value) && !v.value.Cancelled?
                && Decides(http, r, v.value, stateLog.events[|old(stateLog.events)|..], subscriptionId, meta)
                && (v.value.Proceed? ==> x.at in consumer.broker.served)
    {
      hide Consumer.Valid, Ledger.AtLeastOnce, FailureClass, ResolvedWereHanded;
      r := Attempt(x);
      var verdict: Verdict;
      if r.Delivered? {
        verdict := Acknowledge(x);
        return Some(verdict), r;
      }
      if r.Gone? {
        verdict := Remove(meta);
        return Some(verdict), r;
      }
      if !http.Retryable(r.status) {
        verdict := MarkStale(meta, FailureClass(r.status));
        return Some(verdict), r;
      }
      if number >= http.maxAttempts && !http.resetOnExhaust {
        verdict := MarkStale(meta, "retry_exhausted");
        return Some(verdict), r;
      }
      return None, r;
    }

    /**
     Attempts until the record is delivered, the subscriber is gone, the status is not
     retryable or the attempts are exhausted; the last answer decides.  Without reset on
     exhaustion it makes at most the configured number of attempts with one wait fewer, and it
     ends by itself.
     */
    method DeliverHttp(x: Pending, http: HttpRetry, meta: Metadata, patience: nat)
      returns (v: Verdict, waits: seq<real>, interrupted: bool, ghost tries: seq<Attempted>)
      requires AtHead(x) && http.Valid() && x.message.id != "" && x.message.storageError == ""
      modifies consumer.broker`served, consumer.broker`attempts, stateLog, consumer, consumer.broker`committed, consumer.broker`first
      ensures Valid() && Moved(v)
      ensures consumer.broker.attempts == old(consumer.broker.attempts) + tries
      ensures forall i :: 0 <= i < |tries| ==> tries[i].at == x.at && tries[i].message == x.message
      ensures old(consumer.broker.served) <= consumer.broker.served && old(stateLog.events) <= stateLog.events
      ensures HttpSays(http, tries, v, stateLog.events[|old(stateLog.events)|..], subscriptionId, meta)
      ensures v.Proceed? ==> x.at in consumer.broker.served
      ensures AllShort(http, waits) && FollowsPolicy(http, waits) && |waits| <= |tries| <= |waits| + 1
      ensures !http.resetOnExhaust ==>
                |waits| <= http.maxAttempts - 1 && Total(waits) <= (http.maxAttempts - 1) as real * http.Longest()
      ensures v.Cancelled? ==> interrupted || |tries| == patience
    {
      hide Consumer.Valid, Ledger.AtLeastOnce, ResolvedWereHanded, RetryDelay, Total, AllShort,
           FollowsPolicy, HttpRetry.Longest, FailureClass, NumberAfter, Recorded, HttpSays, Decides;
      waits, interrupted, tries := [], false, [];
      v := Cancelled;
      var attempts, number := 0, 0;
      NoWaits(http);
      NoAttempts(http);
      StillTrying(http, x, tries, subscriptionId, meta);
      assert stateLog.events[|stateLog.events|..] == [];
      while attempts < patience
        invariant AtHead(x) && consumer.pending == old(consumer.pending) && consumer.history == old(consumer.history)
        invariant stateLog.events == old(stateLog.events) && old(consumer.broker.served) <= consumer.broker.served
        invariant consumer.permanent == old(consumer.permanent)
        invariant v == Cancelled && !interrupted && attempts == |waits| == |tries| <= patience
        invariant consumer.broker.attempts == old(consumer.broker.attempts) + tries
        invariant forall i :: 0 <= i < |tries| ==> Repeats(http, x, tries[i])
        invariant HttpSays(http, tries, v, [], subscriptionId, meta)
        invariant AllShort(http, waits) && FollowsPolicy(http, waits)
        invariant number == NumberAfter(http, attempts) && number < http.maxAttempts
        invariant !http.resetOnExhaust ==> number == attempts
      {
        attempts, number := attempts + 1, number + 1;
        var verdict, r := AttemptHttp(x, http, meta, number);
        ghost var before := tries;
        tries := tries + [Attempted(x.at, x.message, r)];
        if verdict.Some? {
          v := verdict.value;
          LastDecides(http, x, before, r, v, stateLog.events[|old(stateLog.events)|..], subscriptionId, meta);
          break;
        }
        StillTrying(http, x, tries, subscriptionId, meta);
        if number >= http.maxAttempts {
          number := 0;
        }
        NextNumber(http, attempts - 1, number);
        var jitter: real := *;
        if !(0.0 <= jitter <= 1.0) {
          jitter := 0.5;
        }
        WaitOnceMore(http, waits, number, jitter);
        waits := waits + [RetryDelay(http, number, jitter)];
        interrupted := *;
        if interrupted {
          break;
        }
      }
      if !http.resetOnExhaust {
        TotalWithinBudget(http, waits);
      }
    }

    /** One attempt; the configured action decides what a failure means. */
    method DeliverOnce(x: Pending, store: StoreRetry, meta: Metadata) returns (v: Verdict, ghost t: Attempted)
      requires AtHead(x) && x.message.id != "" && x.message.storageError == ""
      modifies consumer.broker`served, consumer.broker`attempts, consumer.broker`buried, stateLog, consumer,
               consumer.broker`committed, consumer.broker`first, consumer.broker`deadLetters
      ensures Valid() && Moved(v)
      ensures Kept(x, old(consumer.broker.Books()), consumer.broker.Books()) && old(stateLog.events) <= stateLog.events
      ensures consumer.broker.attempts == old(consumer.broker.attempts) + [t] && t.at == x.at && t.message == x.message
      ensures StoreSays(store, [t], v, stateLog.events[|old(stateLog.events)|..],
                        consumer.broker.deadLetters[|old(consumer.broker.deadLetters)|..],
                        x.message, topicId, subscriptionId, meta)
      ensures v.Proceed? ==>
                || x.at in consumer.broker.served
                || (t.response.Refused? && Duties().BuriedAs(x, FailureClass(t.response.status), "1", consumer.broker.Books()))
    {
      hide Consumer.Valid, Ledger.AtLeastOnce, ResolvedWereHanded, FailureClass, IsLetter, Ledger.WasRefused, Ledger.Succeeded;
      var response := Attempt(x);
      t := Attempted(x.at, x.message, response);
      match response
      case Delivered =>
        v := Acknowledge(x);
      case Gone =>
        v := Remove(meta);
      case Refused(status) =>
        match store.ActionFor(status)
        case ActionRedeliver =>
          v := AskRedelivery(x);
        case ActionDeadLetter =>
          RefusalsStay(old(consumer.broker.Books()), t, x.at);
          v := Bury(x, FailureClass(status), "1");
        case ActionFail =>
          v := MarkStale(meta, FailureClass(status));
    }

    /** A record that cannot be delivered as it is stored. */
    predicate Malformed(m: Message) {
      m.storageError != "" || m.id == ""
    }

    /**
     One record.  A malformed one gets a letter and is never sent; any other is sent as the
     strategy says, and under the HTTP strategy never gets a letter.
     */
    method Deliver(x: Pending, meta: Metadata, patience: nat) returns (v: Verdict)
      requires AtHead(x) && (strategy.HttpStrategy? ==> strategy.http.Valid())
      modifies consumer.broker`served, consumer.broker`attempts, consumer.broker`buried, stateLog, consumer,
               consumer.broker`committed, consumer.broker`first, consumer.broker`deadLetters
      ensures Valid() && Moved(v)
      ensures Duties().Treated(x, v, meta, old(consumer.broker.Books()), consumer.broker.Books(),
                               old(stateLog.events), stateLog.events)
      ensures v.Proceed? ==> Duties().ResolvedRightly(x, consumer.broker.Books())
      ensures old(consumer.broker.Has(x.at)) && x.message == old(consumer.broker.Read(x.at))
    {
      hide Consumer.Valid, Ledger.AtLeastOnce, ResolvedWereHanded, FailureClass, IsLetter, HttpSays,
           StoreSays, FollowsPolicy, AllShort, Total, HttpRetry.Longest, Lettered;
      HeadFacts(x);
      if Malformed(x.message) {
        v := Bury(x, if x.message.storageError != "" then "storage_decode" else "missing_message_id", "0");
        return;
      }
      match strategy
      case HttpStrategy(http) =>
        var waits, interrupted;
        ghost var tries;
        v, waits, interrupted, tries := DeliverHttp(x, http, meta, patience);
        assert consumer.broker.attempts[|old(consumer.broker.attempts)|..] == tries;
      case StoreStrategy(store) =>
        ghost var t;
        v, t := DeliverOnce(x, store, meta);
        assert consumer.broker.attempts[|old(consumer.broker.attempts)|..] == [t];
    }

    // ------------------------------------------------------------ the run

    /** Reconnects until a new client is open or the context ends. */
    method Reconnect(patience: nat) returns (ok: bool)
      requires consumer.Valid() && batchSize >= 1 && Evidence()
      modifies consumer
      ensures consumer.Valid() && Evidence() && consumer.permanent == old(consumer.permanent)
      ensures ok ==> Valid() && consumer.pending == [] && consumer.delivered == 0
      ensures ok || consumer.closed || consumer.permanent || patience == 0
    {
      hide FromStart, Positioned, QueueOk, InLogOrder, Known, Broker.AtLeastOnce, Broker.FromTheStart;
      var rounds := patience;
      while rounds > 0
        invariant consumer.Valid() && Evidence() && consumer.permanent == old(consumer.permanent)
        invariant rounds < patience ==> consumer.closed || consumer.permanent
      {
        ok := consumer.Reconnect();
        if ok {
          return true;
        }
        rounds := rounds - 1;
      }
      return false;
    }

    /** Receives the next batch: it is the whole queue, and every record of it has now been handed out. */
    method NextBatch() returns (ok: bool, batch: seq<Pending>)
      requires Valid() && consumer.delivered == 0
      modifies consumer, consumer.broker`logs
      ensures consumer.Valid() && Evidence() && consumer.permanent == old(consumer.permanent)
      ensures Lengthened(old(consumer.broker.Books()), consumer.broker.Books())
      ensures ok ==> Valid() && batch == consumer.pending && consumer.delivered == |consumer.pending|
    {
      hide Consumer.Valid, Ledger.AtLeastOnce;
      ghost var was := consumer.broker.Books();
      ok, batch := consumer.Receive(batchSize);
      GrowthKeepsEvidence(was, consumer.broker.Books());
    }

    /**
     Delivers a batch in queue order until a verdict other than `Proceed`: the records that
     get resolved are a prefix of the batch, in its order, each in the right way, and the rest
     stays queued.
     */
    method HandleBatch(batch: seq<Pending>, meta: Metadata, patience: nat) returns (v: Verdict, ghost done: nat)
      requires Valid() && batch == consumer.pending && consumer.delivered == |consumer.pending|
      requires strategy.HttpStrategy? ==> strategy.http.Valid()
      modifies consumer.broker`served, consumer.broker`attempts, consumer.broker`buried, stateLog, consumer,
               consumer.broker`committed, consumer.broker`first, consumer.broker`deadLetters
      ensures Valid() && (v.Ended? ==> v.cause.StoreFailed?) && consumer.permanent == old(consumer.permanent)
      ensures v.Proceed? || v.Redeliver? ==> consumer.delivered == 0
      ensures done <= |batch| && consumer.pending == batch[done..]
      ensures consumer.history.resolved == old(consumer.history).resolved + InOrder(batch[..done])
      ensures v.Proceed? ==> done == |batch|
      ensures forall i :: 0 <= i < done ==> Duties().ResolvedRightly(batch[i], consumer.broker.Books())
      ensures Duties().EndedRightly(v, meta, old(consumer.broker.Books()), consumer.broker.Books(),
                                    old(stateLog.events), stateLog.events)
      ensures Duties().LettersAreDue(old(consumer.broker.Books()), consumer.broker.Books())
    {
      hide Consumer.Valid, Ledger.AtLeastOnce, ResolvedWereHanded, Duty.EndedRightly,
           Duty.Treated, Duty.ResolvedRightly, Duty.LettersAreDue, Kept;
      v := Proceed;
      var i := 0;
      done := 0;
      BatchIsDistinct(batch);
      ghost var first, duty := consumer.broker.Books(), Duties();
      NothingYet(duty, meta, first, stateLog.events);
      while i < |batch|
        invariant 0 <= i <= |batch| && done == i
        invariant Valid() && v.Proceed? && consumer.permanent == old(consumer.permanent)
        invariant consumer.pending == batch[i..] && consumer.delivered == |batch| - i
        invariant consumer.history.resolved == old(consumer.history).resolved + InOrder(batch[..i])
        invariant forall j :: 0 <= j < i ==> duty.ResolvedRightly(batch[j], consumer.broker.Books())
        invariant stateLog.events == old(stateLog.events)
        invariant duty.EndedRightly(Proceed, meta, first, consumer.broker.Books(), stateLog.events, stateLog.events)
        invariant duty.LettersAreDue(first, consumer.broker.Books())
      {
        assert consumer.pending[0] == batch[i];
        ghost var was, events := consumer.broker.Books(), stateLog.events;
        v := Deliver(batch[i], meta, patience);
        ghost var now := consumer.broker.Books();
        TreatedConcludes(duty, batch[i], v, meta, was, now, events, stateLog.events);
        TreatedKeeps(duty, batch[i], v, meta, was, now, events, stateLog.events);
        TreatedIsDue(duty, batch[i], v, meta, was, now, events, stateLog.events);
        DueSinceFirst(duty, first, was, now);
        EndsFurther(duty, Proceed, v, meta, first, was, now, events, stateLog.events);
        forall j | 0 <= j < i ensures duty.ResolvedRightly(batch[j], now) {
          StillResolved(duty, batch[i], batch[j], was, now);
        }
        if !v.Proceed? {
          return;
        }
        assert batch[i..][1..] == batch[i + 1..];
        assert batch[..i + 1] == batch[..i] + [batch[i]];
        i := i + 1;
        done := i;
      }
    }

    /** Records of one batch are at different places. */
    lemma BatchIsDistinct(batch: seq<Pending>)
      requires consumer.Valid() && batch == consumer.pending
      ensures forall i, j :: 0 <= i < j < |batch| ==> batch[i].at != batch[j].at
    {
    }

    /**
     A stretch of the worker's run, of any number of rounds; a live one can be continued.
     Whatever failed, was lost or was redelivered on the way: every record the commit has
     passed since the first one is settled, and the worker never saw an out-of-order answer.
     The only answer that the subscriber is gone is the last one; its removal is then recorded
     and the intent becomes permanent, or recording it was not confirmed.  The intent becomes
     permanent for no other reason, and nothing is appended to the event log but that removal or
     one stale mark.
     */
    method Run(rounds: nat, meta: Metadata, patience: nat) returns (v: Verdict, live: bool)
      requires Valid() && consumer.delivered == 0
      requires strategy.HttpStrategy? ==> strategy.http.Valid()
      modifies this`stopIntent, stateLog, consumer, consumer.broker
      ensures consumer.Valid() && Evidence()
      ensures live ==> Valid() && consumer.delivered == 0 && v.Cancelled?
      ensures v.Ended? ==> v.cause.StoreFailed?
      ensures Valid() || consumer.closed || consumer.permanent || patience == 0
      ensures Duties().EndedRightly(v, meta, old(consumer.broker.Books()), consumer.broker.Books(),
                                    old(stateLog.events), stateLog.events)
      ensures Duties().LettersAreDue(old(consumer.broker.Books()), consumer.broker.Books())
      ensures stopIntent == if v.Removed? then ClosePermanent else old(stopIntent)
      ensures consumer.broker.deleted == old(consumer.broker.deleted)
      ensures consumer.permanent == old(consumer.permanent)
    {
      hide Consumer.Valid, Ledger.AtLeastOnce, ResolvedWereHanded,
           Duty.EndedRightly, Duty.ResolvedRightly, Duty.LettersAreDue, Lengthened;
      ghost var first, duty := consumer.broker.Books(), Duties();
      NothingYet(duty, meta, first, stateLog.events);
      var n := rounds;
      while n > 0
        invariant Valid() && consumer.delivered == 0
        invariant stopIntent == old(stopIntent) && stateLog.events == old(stateLog.events)
        invariant consumer.broker.deleted == old(consumer.broker.deleted) && consumer.permanent == old(consumer.permanent)
        invariant duty.EndedRightly(Cancelled, meta, first, consumer.broker.Books(), stateLog.events, stateLog.events)
        invariant duty.LettersAreDue(first, consumer.broker.Books())
      {
        n := n - 1;
        ghost var was, events := consumer.broker.Books(), stateLog.events;
        var ok, batch := NextBatch();
        OnlyReceived(duty, meta, first, was, consumer.broker.Books(), events);
        if !ok {
          ok := Reconnect(patience);
          if !ok {
            return Cancelled, false;
          }
        } else {
          ghost var before := consumer.broker.Books();
          ghost var done: nat;
          v, done := HandleBatch(batch, meta, patience);
          EndsFurther(duty, Cancelled, v, meta, first, before, consumer.broker.Books(), events, stateLog.events);
          DueSinceFirst(duty, first, before, consumer.broker.Books());
          if v.Removed? {
            stopIntent := ClosePermanent;
            return v, false;
          }
          if !v.Proceed? && !v.Redeliver? {
            return v, false;
          }
          GoingOn(duty, v, meta, first, consumer.broker.Books(), events);
        }
      }
      return Cancelled, true;
    }

    /** The deferred close: progress is deleted under a permanent intent, and only then. */
    method Finish() returns (ok: bool)
      requires consumer.Valid() && Evidence()
      modifies consumer`closed, consumer`permanent, consumer.broker`committed, consumer.broker`first, consumer.broker`deleted
      ensures consumer.Valid() && (consumer.closed || consumer.permanent)
      ensures Evidence()
      ensures stopIntent.CloseTemporary? ==> ok && consumer.closed && consumer.broker.committed == old(consumer.broker.committed)
      ensures stopIntent.ClosePermanent? && ok && !old(consumer.permanent) && !consumer.sharedGroup ==>
                consumer.permanent && consumer.broker.committed == map[]
      ensures consumer.broker.deleted ==> old(consumer.broker.deleted) || stopIntent.ClosePermanent?
    {
      hide FromStart, Positioned, QueueOk, InLogOrder, Known;
      ok := consumer.Close(stopIntent);
    }

    /** Runs for a while and, when the run is over, closes and signals the manager. */
    method Live(rounds: nat, meta: Metadata, patience: nat) returns (v: Verdict, closed: bool)
      requires Valid() && consumer.delivered == 0 && !finished
      requires strategy.HttpStrategy? ==> strategy.http.Valid()
      modifies this`stopIntent, this`finished, stateLog, consumer, consumer.broker
      ensures consumer.broker.Valid() && consumer.broker.AtLeastOnce()
      ensures !finished ==> Valid() && consumer.delivered == 0
      ensures Duties().EndedRightly(v, meta, old(consumer.broker.Books()), consumer.broker.Books(),
                                    old(stateLog.events), stateLog.events)
      ensures stopIntent == if v.Removed? then ClosePermanent else old(stopIntent)
      ensures v != Cancelled ==> finished
      ensures finished ==> consumer.closed || consumer.permanent
      ensures finished && stopIntent.CloseTemporary? ==> closed && consumer.closed
      ensures stopIntent.ClosePermanent? ==>
                old(stopIntent).ClosePermanent? || EventLog.HasRemoval(stateLog.events, subscriptionId)
      ensures finished && stopIntent.ClosePermanent? && closed && !old(consumer.permanent) && !consumer.sharedGroup ==>
                consumer.broker.committed == map[]
      ensures consumer.broker.deleted ==> old(consumer.broker.deleted) || stopIntent.ClosePermanent?
      ensures old(stateLog.events) <= stateLog.events
    {
      hide Ledger.AtLeastOnce, Consumer.Valid, Broker.Valid, Concluded, ResolvedWereHanded;
      var live;
      v, live := Run(rounds, meta, patience);
      closed := false;
      if v.Removed? {
        RemovalIsThere(old(stateLog.events), stateLog.events, consumer.broker.attempts[|old(consumer.broker.attempts)|..],
                       v, subscriptionId, meta);
      }
      if !live {
        closed := Finish();
        finished := true;
      }
      ConsumerHasBroker();
    }

    lemma ConsumerHasBroker()
      requires consumer.Valid()
      ensures consumer.broker.Valid()
    {
    }
  }

  /**
   At least once, across any number of worker lives over the same progress: each life opens
   a consumer, runs for some rounds, and closes it or just stops.  A worker's consumer starts
   at the latest record; one that starts at the earliest misses nothing from the log's start on.
   */
  method Lives(broker: Broker, stateLog: StateLog, strategy: Strategy, meta: Metadata,
               topicId: string, subscriptionId: string, batchSize: nat, startEarliest: bool, lives: nat)
    requires broker.Valid() && broker.AtLeastOnce() && batchSize >= 1
    requires startEarliest ==> broker.FromTheStart()
    requires strategy.HttpStrategy? ==> strategy.http.Valid()
    modifies broker, stateLog
    ensures broker.Valid() && broker.AtLeastOnce()
    ensures startEarliest ==> broker.FromTheStart()
  {
    hide FromStart, Positioned, QueueOk, InLogOrder, Known, Broker.AtLeastOnce, Broker.FromTheStart;
    var n := lives;
    while n > 0
      invariant broker.Valid() && broker.AtLeastOnce()
      invariant startEarliest ==> broker.FromTheStart()
    {
      n := n - 1;
      var consumer := new Consumer(broker, broker.logs.Keys, startEarliest, false);
      var worker := new Worker(consumer, stateLog, strategy, topicId, subscriptionId, batchSize);
      var rounds: nat, patience: nat := *, *;
      var v, _ := worker.Run(rounds, meta, patience);
      var crashed: bool := *;
      if !crashed {
        var closed := worker.Finish();
      }
    }
  }

  /** The records a list names, in its order. */
  function InOrder(q: seq<Pending>): seq<Place> {
    seq(|q|, i requires 0 <= i < |q| => q[i].at)
  }

  /** A worker resolves only what it was handed. */
  ghost predicate ResolvedWereHanded(h: History) {
    forall at :: at in h.resolved ==> at in h.handed
  }

  lemma NoWaits(http: HttpRetry)
    requires http.maxAttempts >= 1
    ensures AllShort(http, []) && FollowsPolicy(http, [])
  {
  }
}
