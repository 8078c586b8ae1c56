/**
 One delivery of a message, from its body to its settlement, and the retries of a message that keeps
 failing. Each delivery is one step; the broker's headers and PostgreSQL's answers are parameters.
 */
module Delivery {
  import opened Wrappers
  import opened ChildRows
  import opened Latch
  import opened StalePurge
  import opened Store
  import opened Reconciliation
  import Runs = ReconciliationRuns

  /******* The requeue budget *******/

  const MAX_REQUEUES := 500

  // The two counters among a delivery's headers; a counter that is not an integer reads as absent.
  datatype Headers = Headers(acquired: Option<int>, delivery: Option<int>)

  function Handouts(headers: Option<Headers>): int {
    match headers
    case None => 0
    case Some(Headers(Some(a), Some(d))) => if a > d then a else d
    case Some(Headers(acquired, delivery)) => acquired.GetOr(delivery.GetOr(0))
  }

  // RabbitMQ counts every return in the first counter and only some of them in the second.
  predicate Counts(headers: Option<Headers>, handouts: nat) {
    match headers
    case None => handouts == 0
    case Some(Headers(acquired, delivery)) =>
      acquired == (if handouts == 0 then None else Some(handouts)) && 0 <= delivery.GetOr(0) <= handouts
  }

  /******* Failures *******/

  datatype ErrorClass =
    | InterfaceError
    | OperationalError
    | DatabaseUnavailableError
    | DataError
    | IntegrityError
    | OtherError

  // What a record's transaction raises; `permanent` is SQLSTATE class 54, whatever the class.
  datatype Failure = Failure(permanent: bool, error: ErrorClass)

  // Neither a database error nor a verdict: a message that is not an object, a failed reconciliation.
  const UNEXPECTED := Failure(false, OtherError)

  datatype FailureKind = Transient | Deterministic

  function ClassifyError(f: Failure): FailureKind {
    if f.permanent then Deterministic
    else if f.error.InterfaceError? || f.error.OperationalError? || f.error.DatabaseUnavailableError? then Transient
    else if f.error.DataError? || f.error.IntegrityError? then Deterministic
    else Transient
  }

  function Classify(f: Failure, handouts: int): FailureKind {
    var kind := ClassifyError(f);
    if kind.Transient? && handouts >= MAX_REQUEUES then Deterministic else kind
  }

  /******* One delivery *******/

  datatype Id = Missing | Falsy | NotUuid | Uuid

  datatype Body =
    | Unparsable
    | NotAnObject
    | FileComplete
    | ExtractionComplete(signal: Signal)
    | RecordBody(id: Id, record: Record)

  datatype Message = Message(dataType: DataType, body: Body)

  // What one delivery meets: a shutdown, the clock, a failing transaction, the dead-letter queues.
  datatype Environment = Environment(
    headers: Option<Headers>,
    shutdown: bool,
    now: int,
    write: Option<Failure>,
    broker: BrokerAnswers,
    fault: Fault)

  datatype Settlement = Ack | Reject | Requeue | Defer

  // How the handler ends: a settlement it names, or an exception it raises.
  datatype Outcome = Settled(settlement: Settlement) | Raised(failure: Failure, reconciliationFailed: bool)

  function Handle(l: Loader, m: Message, env: Environment, refresh: bool, cap: Cap): (Loader, Outcome) {
    match m.body
    case Unparsable => (Mark(l, {m.dataType}), Settled(Reject))
    case NotAnObject => (l, Raised(UNEXPECTED, false))
    case FileComplete => (l, Settled(Ack))
    case ExtractionComplete(s) =>
      var (after, ok) := HandleSignal(l, s, env.broker, env.fault, cap);
      (after, if ok then Settled(Ack) else Raised(UNEXPECTED, true))
    case RecordBody(id, r) =>
      if !id.Uuid? then (Mark(l, {m.dataType}), Settled(Reject))
      else if env.write.Some? then (l, Raised(env.write.value, false))
      else (l.(tables := CommitRecord(l.tables, r, env.now, refresh)), Settled(Ack))
  }

  function SettlementOf(o: Outcome, handouts: int): Settlement {
    match o
    case Settled(s) => s
    case Raised(f, _) => if Classify(f, handouts).Transient? then Requeue else Reject
  }

  function Deliver(l: Loader, m: Message, env: Environment, refresh: bool, cap: Cap): (Loader, Settlement) {
    if env.shutdown then (l, Defer)
    else
      var (after, outcome) := Handle(l, m, env, refresh, cap);
      var settlement := SettlementOf(outcome, Handouts(env.headers));
      (if settlement.Reject? && !(outcome.Raised? && outcome.reconciliationFailed) then Mark(after, {m.dataType}) else after, settlement)
  }

  /******* The handlers *******/

  // A rejection the handler names is marked before it returns, so before the broker is told.
  method RejectDelivery(purge: StaleChildRowPurge, d: DataType) returns (o: Outcome)
    modifies purge`deadLettered
    ensures o == Settled(Reject) && purge.deadLettered == old(purge.deadLettered) + {d}
  {
    purge.RecordDeadLetter(d);
    return Settled(Reject);
  }

  method HandleDataMessage(purge: StaleChildRowPurge, db: Postgres, processor: MusicBrainzRecordProcessor, m: Message, env: Environment)
    returns (o: Outcome)
    modifies purge, db
    ensures (Loader(purge.State(), db.tables, db.vetoLatch), o)
            == Handle(old(Loader(purge.State(), db.tables, db.vetoLatch)), m, env, old(processor.writer.refreshUpdatedAt), purge.cap)
    ensures o == Settled(Reject) ==> m.dataType in purge.deadLettered
  {
    match m.body {
      case Unparsable =>
        o := RejectDelivery(purge, m.dataType);
      case NotAnObject =>
        return Raised(UNEXPECTED, false);
      case FileComplete =>
        return Settled(Ack);
      case ExtractionComplete(s) =>
        var ok := ReconcileDeletedChildRows(purge, db, s, env.broker, env.fault);
        return if ok then Settled(Ack) else Raised(UNEXPECTED, true);
      case RecordBody(id, r) =>
        if !id.Uuid? {
          o := RejectDelivery(purge, m.dataType);
          return;
        }
        if env.write.Some? {
          return Raised(env.write.value, false);
        }
        processor.ProcessRecord(db, r, env.now);
        return Settled(Ack);
    }
  }

  method OnDataMessage(purge: StaleChildRowPurge, db: Postgres, processor: MusicBrainzRecordProcessor, m: Message, env: Environment)
    returns (settlement: Settlement)
    modifies purge, db
    ensures (Loader(purge.State(), db.tables, db.vetoLatch), settlement)
            == Deliver(old(Loader(purge.State(), db.tables, db.vetoLatch)), m, env, old(processor.writer.refreshUpdatedAt), purge.cap)
  {
    if env.shutdown {
      return Defer;
    }
    var o := HandleDataMessage(purge, db, processor, m, env);
    settlement := SettlementOf(o, Handouts(env.headers));
    if settlement == Reject && !(o.Raised? && o.reconciliationFailed) {
      purge.RecordDeadLetter(m.dataType);
    }
  }

  /******* How each message settles *******/

  // The count is the greatest the headers state, or zero when they state none.
  lemma HandoutsIsTheGreatest(acquired: Option<int>, delivery: Option<int>)
    ensures var n := Handouts(Some(Headers(acquired, delivery)));
            && (acquired.Some? ==> acquired.value <= n) && (delivery.Some? ==> delivery.value <= n)
            && (acquired == Some(n) || delivery == Some(n) || (acquired.None? && delivery.None? && n == 0))
  {
  }

  // A record without a usable id, or one the broker handed over with an unreadable body, is rejected and
  // marked at once, however often it came before.
  lemma InvalidIsRejected(l: Loader, m: Message, env: Environment, refresh: bool, cap: Cap)
    requires !env.shutdown
    requires m.body.Unparsable? || (m.body.RecordBody? && (m.body.id.Missing? || m.body.id.Falsy? || m.body.id.NotUuid?))
    ensures Deliver(l, m, env, refresh, cap)
            == (l.(purge := l.purge.(deadLettered := l.purge.deadLettered + {m.dataType})), Reject)
  {
    MarkedOnce(l, m.dataType);
  }

  // A record whose transaction fails: a verdict on the record rejects and marks it at once; an outage, or
  // an error of no known kind, requeues it unchanged until the budget is spent, and then does the same.
  lemma FailedRecordSettles(l: Loader, m: Message, env: Environment, refresh: bool, cap: Cap, i: nat)
    requires !env.shutdown && m.body.RecordBody? && m.body.id.Uuid? && env.write.Some? && Counts(env.headers, i)
    ensures var f := env.write.value;
            Deliver(l, m, env, refresh, cap)
            == if f.permanent || f.error.DataError? || f.error.IntegrityError? || i >= 500
               then (l.(purge := l.purge.(deadLettered := l.purge.deadLettered + {m.dataType})), Reject)
               else (l, Requeue)
  {
    ComesBackIff(m, Attempt(l, env), i, refresh, cap);
  }

  // A message that is not an object is retried within the same budget.
  lemma NotAnObjectSettles(l: Loader, m: Message, env: Environment, refresh: bool, cap: Cap, i: nat)
    requires !env.shutdown && m.body.NotAnObject? && Counts(env.headers, i)
    ensures Deliver(l, m, env, refresh, cap)
            == if i >= 500 then (l.(purge := l.purge.(deadLettered := l.purge.deadLettered + {m.dataType})), Reject)
               else (l, Requeue)
  {
    ComesBackIff(m, Attempt(l, env), i, refresh, cap);
  }

  // A valid record whose transaction commits is acknowledged, with both tables upserted.
  lemma CommittedRecordSettles(l: Loader, m: Message, env: Environment, refresh: bool, cap: Cap)
    requires !env.shutdown && m.body.RecordBody? && m.body.id.Uuid? && env.write.None?
    ensures var r, (after, settlement) := m.body.record, Deliver(l, m, env, refresh, cap);
            && settlement.Ack? && after.purge == l.purge && after.latch == l.latch
            && after.tables.relationships
               == UpsertAll(l.tables.relationships, DeriveRelationships(r.mbid, EntityType(r.dataType), r.relations), env.now, refresh)
            && after.tables.externalLinks
               == UpsertAll(l.tables.externalLinks, DeriveLinks(r.mbid, EntityType(r.dataType), r.links), env.now, refresh)
  {
  }

  // A signal is acknowledged when its handling finished. When it failed it is requeued within the budget
  // and rejected past it, and in every case leaves what the handling left: no mark of its own.
  lemma SignalSettles(l: Loader, m: Message, env: Environment, refresh: bool, cap: Cap, i: nat)
    requires !env.shutdown && m.body.ExtractionComplete? && Counts(env.headers, i)
    ensures var (after, ok) := HandleSignal(l, m.body.signal, env.broker, env.fault, cap);
            Deliver(l, m, env, refresh, cap) == (after, if ok then Ack else if i >= 500 then Reject else Requeue)
  {
    ComesBackIff(m, Attempt(l, env), i, refresh, cap);
  }

  /******* Deliveries are the events of a run *******/

  // What a settled or failed delivery is to the reconciliation.
  function EventsOf(m: Message, env: Environment, settlement: Settlement): seq<Runs.Event> {
    if settlement.Defer? then []
    else if m.body.ExtractionComplete? then [Runs.Signalled(m.body.signal, env.broker, env.fault)]
    else if settlement.Reject? then [Runs.Rejected(m.dataType)]
    else if settlement.Ack? && m.body.RecordBody? then [Runs.Committed(m.body.record, env.now)]
    else []
  }

  lemma MarkedOnce(l: Loader, d: DataType)
    ensures Mark(Mark(l, {d}), {d}) == Mark(l, {d})
  {
    assert l.purge.deadLettered + {d} + {d} == l.purge.deadLettered + {d};
  }

  // Every delivery is exactly those events: a record is committed whole or marked, a message that will
  // come back changes nothing, and a rejected signal adds no mark of its own.
  lemma DeliveryIsItsEvents(l: Loader, m: Message, env: Environment, cap: Cap)
    ensures var (after, settlement) := Deliver(l, m, env, true, cap);
            after == Runs.Run(l, EventsOf(m, env, settlement), cap)
  {
    var (after, settlement) := Deliver(l, m, env, true, cap);
    var es := EventsOf(m, env, settlement);
    if es != [] {
      assert es[..0] == [] && Runs.Run(l, es[..0], cap) == l;
    }
    MarkedOnce(l, m.dataType);
  }

  // Nothing that is not a signal is dropped without its trace, and a mark never comes from less.
  lemma SettledWithItsTrace(l: Loader, m: Message, env: Environment, cap: Cap)
    requires !m.body.ExtractionComplete?
    ensures var (after, settlement) := Deliver(l, m, env, true, cap);
            && (settlement.Reject? ==> after == Mark(l, {m.dataType}))
            && (settlement.Ack? && m.body.RecordBody? ==>
                  after == l.(tables := CommitRecord(l.tables, m.body.record, env.now, true)))
            && (settlement.Requeue? || settlement.Defer? || m.body.FileComplete? ==> after == l)
            && (after.purge != l.purge ==> settlement.Reject?)
  {
    MarkedOnce(l, m.dataType);
  }

  /******* Retries end *******/

  // The closing of its connection that dead-letters a queued message. A nack is not a closing.
  const DELIVERY_LIMIT := 20

  // Where the broker keeps a message: with its returns of any kind, and those by a closed connection.
  datatype Place = Queued(handouts: nat, closings: nat) | Acked | DeadLettered

  // One attempt, with whatever the rest of the loader did before it.
  datatype Attempt = Attempt(loader: Loader, env: Environment)

  function Settlements(m: Message, a: Attempt, refresh: bool, cap: Cap): Settlement {
    Deliver(a.loader, m, a.env, refresh, cap).1
  }

  // A deferred delivery goes back when the connection closes, which spends the queue's delivery limit.
  function Moved(p: Place, settlement: Settlement): Place {
    if !p.Queued? then p
    else
      match settlement
      case Ack => Acked
      case Reject => Place.DeadLettered
      case Requeue => p.(handouts := p.handouts + 1)
      case Defer =>
        if p.closings + 1 >= DELIVERY_LIMIT then Place.DeadLettered
        else Queued(p.handouts + 1, p.closings + 1)
  }

  function Follow(m: Message, attempts: seq<Attempt>, refresh: bool, cap: Cap): Place {
    if attempts == [] then Queued(0, 0)
    else
      var last := |attempts| - 1;
      Moved(Follow(m, attempts[..last], refresh, cap), Settlements(m, attempts[last], refresh, cap))
  }

  // The broker's counter before each attempt is the number of earlier ones.
  ghost predicate AllCounted(attempts: seq<Attempt>) {
    forall i :: 0 <= i < |attempts| ==> Counts(attempts[i].env.headers, i)
  }

  // What the attempt itself would end in, however often the message came back before.
  function Verdict(m: Message, a: Attempt, refresh: bool, cap: Cap): Outcome {
    Handle(a.loader, m, a.env, refresh, cap).1
  }

  predicate Retryable(o: Outcome) {
    o.Raised? && ClassifyError(o.failure).Transient?
  }

  // The i-th attempt, counted from zero, gives the message back.
  predicate ComesBack(m: Message, a: Attempt, i: nat, refresh: bool, cap: Cap) {
    a.env.shutdown || (i < MAX_REQUEUES && Retryable(Verdict(m, a, refresh, cap)))
  }

  function Deferrals(attempts: seq<Attempt>): (n: nat)
    ensures n <= |attempts|
  {
    if attempts == [] then 0
    else Deferrals(attempts[..|attempts| - 1]) + if attempts[|attempts| - 1].env.shutdown then 1 else 0
  }

  lemma ComesBackIff(m: Message, a: Attempt, i: nat, refresh: bool, cap: Cap)
    requires Counts(a.env.headers, i)
    ensures var s := Settlements(m, a, refresh, cap);
            (ComesBack(m, a, i, refresh, cap) <==> s.Requeue? || s.Defer?) && (a.env.shutdown <==> s.Defer?)
    ensures Handouts(a.env.headers) == i
  {
  }

  // A message is still queued exactly when each attempt was deferred by a shutdown, or failed for a
  // reason worth retrying within the budget, and the deferrals stayed under the delivery limit.
  lemma {:induction false} StillQueuedIff(m: Message, attempts: seq<Attempt>, refresh: bool, cap: Cap)
    requires AllCounted(attempts)
    ensures var p := Follow(m, attempts, refresh, cap);
            && (p.Queued? <==> Deferrals(attempts) < DELIVERY_LIMIT
                               && forall i :: 0 <= i < |attempts| ==> ComesBack(m, attempts[i], i, refresh, cap))
            && (p.Queued? ==> p == Queued(|attempts|, Deferrals(attempts)))
  {
    if attempts != [] {
      var last := |attempts| - 1;
      var before := attempts[..last];
      StillQueuedIff(m, before, refresh, cap);
      ComesBackIff(m, attempts[last], last, refresh, cap);
      assert forall i :: 0 <= i < last ==> before[i] == attempts[i];
    }
  }

  // The first attempt that does not come back decides, whatever happens later.
  lemma FirstSettlementDecides(m: Message, before: seq<Attempt>, a: Attempt, more: seq<Attempt>, refresh: bool, cap: Cap)
    requires AllCounted(before + [a]) && Deferrals(before) < DELIVERY_LIMIT
    requires forall i :: 0 <= i < |before| ==> ComesBack(m, before[i], i, refresh, cap)
    requires !ComesBack(m, a, |before|, refresh, cap)
    ensures Follow(m, before + [a] + more, refresh, cap)
            == if Settlements(m, a, refresh, cap).Ack? then Acked else Place.DeadLettered
  {
    assert forall i :: 0 <= i < |before| ==> before[i] == (before + [a])[i];
    StillQueuedIff(m, before, refresh, cap);
    assert (before + [a])[|before|] == a && (before + [a])[..|before|] == before;
    ComesBackIff(m, a, |before|, refresh, cap);
    SettledStaysSettled(m, before + [a], more, refresh, cap);
  }

  // An attempt that settled a message settled it for good.
  lemma {:induction false} SettledStaysSettled(m: Message, attempts: seq<Attempt>, more: seq<Attempt>, refresh: bool, cap: Cap)
    requires !Follow(m, attempts, refresh, cap).Queued?
    ensures Follow(m, attempts + more, refresh, cap) == Follow(m, attempts, refresh, cap)
  {
    if more == [] {
      assert attempts + more == attempts;
    } else {
      SettledStaysSettled(m, attempts, more[..|more| - 1], refresh, cap);
      assert (attempts + more)[..|attempts + more| - 1] == attempts + more[..|more| - 1];
    }
  }

  // Deferrals among the attempts past the budget.
  lemma {:induction false} DeferredTail(attempts: seq<Attempt>, from: nat)
    requires from <= |attempts| && forall i :: from <= i < |attempts| ==> attempts[i].env.shutdown
    ensures Deferrals(attempts) >= |attempts| - from
  {
    if |attempts| > from {
      var init := attempts[..|attempts| - 1];
      assert forall i :: from <= i < |init| ==> init[i] == attempts[i];
      DeferredTail(init, from);
    }
  }

  // No message outlives its budget: an attempt past it that is not deferred settles it, and together with
  // the delivery limit no message whatever is handed out more often than the two allow.
  lemma RetriesEnd(m: Message, attempts: seq<Attempt>, refresh: bool, cap: Cap)
    requires AllCounted(attempts)
    requires || |attempts| >= MAX_REQUEUES + DELIVERY_LIMIT
             || (|attempts| > MAX_REQUEUES && !attempts[|attempts| - 1].env.shutdown)
    ensures !Follow(m, attempts, refresh, cap).Queued?
  {
    StillQueuedIff(m, attempts, refresh, cap);
    if Follow(m, attempts, refresh, cap).Queued? && |attempts| >= MAX_REQUEUES + DELIVERY_LIMIT {
      forall i | MAX_REQUEUES <= i < |attempts| ensures attempts[i].env.shutdown {
        assert ComesBack(m, attempts[i], i, refresh, cap);
      }
      DeferredTail(attempts, MAX_REQUEUES);
    }
  }

  // And none loses it early to failures alone: one that fails every time for a reason worth retrying is
  // dead-lettered by attempt number MAX_REQUEUES + 1, not before.
  lemma {:induction false} DeadLetteredExactlyAtTheBudget(m: Message, attempts: seq<Attempt>, refresh: bool, cap: Cap)
    requires AllCounted(attempts)
    requires forall i :: 0 <= i < |attempts| ==> !attempts[i].env.shutdown && Retryable(Verdict(m, attempts[i], refresh, cap))
    ensures Deferrals(attempts) == 0
    ensures Follow(m, attempts, refresh, cap)
            == if |attempts| > 500 then Place.DeadLettered else Queued(|attempts|, 0)
  {
    if attempts != [] {
      var last := |attempts| - 1;
      var before := attempts[..last];
      assert forall i :: 0 <= i < last ==> before[i] == attempts[i];
      DeadLetteredExactlyAtTheBudget(m, before, refresh, cap);
      ComesBackIff(m, attempts[last], last, refresh, cap);
    }
  }

  // Restarts can lose it early: a message that always comes back within its budget is dead-lettered
  // exactly when its deferrals reach the delivery limit.
  lemma {:induction false} RestartsDeadLetterIff(m: Message, attempts: seq<Attempt>, refresh: bool, cap: Cap)
    requires AllCounted(attempts)
    requires forall i :: 0 <= i < |attempts| ==> ComesBack(m, attempts[i], i, refresh, cap)
    ensures Follow(m, attempts, refresh, cap)
            == if Deferrals(attempts) >= 20 then Place.DeadLettered else Queued(|attempts|, Deferrals(attempts))
  {
    if attempts != [] {
      var last := |attempts| - 1;
      var before := attempts[..last];
      assert forall i :: 0 <= i < last ==> before[i] == attempts[i];
      RestartsDeadLetterIff(m, before, refresh, cap);
      ComesBackIff(m, attempts[last], last, refresh, cap);
    }
  }
}
