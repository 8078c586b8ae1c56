/**
 Delete-reconciliation: the purge object, the veto gathered before a decision, and the handling of
 one `extraction_complete` signal. The functions are the specification; the class and its callers
 meet them.
 */
module Reconciliation {
  import opened Wrappers
  import opened ChildRows
  import opened Latch
  import opened StalePurge
  import opened Store

  /******* Purge state *******/

  datatype PurgeState = PurgeState(latch: Latch, deadLettered: set<DataType>, settled: Option<int>)

  const NEW_PURGE := PurgeState(UNLATCHED, {}, None)

  datatype Veto = NotLatched | AlreadySettled | DeadLettered(types: set<DataType>) | EmptyCounts(types: set<DataType>)

  datatype PurgeResult = Skipped(veto: Veto) | Failed | Purged(deleted: seq<nat>)

  predicate IsSettled(p: PurgeState) {
    p.latch.boundary.Some? && p.settled == p.latch.boundary
  }

  // A missing count and a zero count both read as no records.
  function EmptyTypes(l: Latch): set<DataType> {
    set d | d in l.signals && (l.signals[d] == None || l.signals[d] == Some(0))
  }

  function VetoReason(p: PurgeState): Option<Veto> {
    if !IsLatched(p.latch) then Some(NotLatched)
    else if IsSettled(p) then Some(AlreadySettled)
    else if p.deadLettered != {} then Some(DeadLettered(p.deadLettered))
    else if EmptyTypes(p.latch) != {} then Some(EmptyCounts(EmptyTypes(p.latch)))
    else None
  }

  function Settle(p: PurgeState): PurgeState {
    p.(settled := p.latch.boundary, deadLettered := {})
  }

  function PurgeTables(tables: Tables, boundary: int, cap: Cap): Tables {
    Tables(PurgeTable(tables.relationships, boundary, cap), PurgeTable(tables.externalLinks, boundary, cap))
  }

  function DeletedCounts(tables: Tables, boundary: int, cap: Cap): seq<int> {
    seq(|RECONCILED_TABLES|, i requires 0 <= i < |RECONCILED_TABLES| =>
      var t := tables.Get(RECONCILED_TABLES[i]);
      |t| - |PurgeTable(t, boundary, cap)|)
  }

  /******* One signal *******/

  // What survives a restart (`tables`, `latch`) and what does not (`purge`).
  datatype Loader = Loader(purge: PurgeState, tables: Tables, latch: VetoLatch)

  // Where PostgreSQL or the write admission fails while a signal is handled. TableFails(i) is a
  // statement against table i, or the commit for any larger i.
  datatype Fault = NoFault | NoAdmission | LatchReadFails | LatchWriteFails | TableFails(i: nat)

  // Each type's dead-letter count; a type the broker could not answer for is absent.
  type BrokerAnswers = map<DataType, nat>

  function BrokerMarks(broker: BrokerAnswers): set<DataType> {
    set d | d in ALL_TYPES && (d !in broker || broker[d] > 0)
  }

  function ExtractionKey(s: Signal): Option<string> {
    if s.version != "" then Some(s.version)
    else if s.startedAtText != "" then Some(s.startedAtText)
    else None
  }

  function AfterCompletion(p: PurgeState, s: Signal): PurgeState {
    p.(latch := Step(p.latch, Completion(s)))
  }

  function Mark(l: Loader, types: set<DataType>): Loader {
    l.(purge := l.purge.(deadLettered := l.purge.deadLettered + types))
  }

  // The state after gathering the veto, and whether PostgreSQL let it be gathered and recorded.
  function SettlePurgeVeto(l: Loader, s: Signal, broker: BrokerAnswers, fault: Fault): (Loader, bool) {
    if IsSettled(l.purge) then (l, true)
    else
      var marked, key := Mark(l, BrokerMarks(broker)), ExtractionKey(s);
      if key.None? then (marked, true)
      else if fault.NoAdmission? || fault.LatchReadFails? then (marked, false)
      else
        var merged := Mark(marked, Recorded(l.latch, key.value));
        if fault.LatchWriteFails? then (merged, false)
        else
          var all := Recorded(l.latch, key.value) + merged.purge.deadLettered;
          (merged.(latch := l.latch[key.value := all]), true)
  }

  function PurgeStep(l: Loader, cap: Cap, fault: Fault): (Loader, PurgeResult) {
    var veto, boundary := VetoReason(l.purge), l.purge.latch.boundary;
    if veto.Some? then
      (if IsLatched(l.purge.latch) then l.(purge := Settle(l.purge)) else l, Skipped(veto.value))
    else if fault.NoAdmission? || fault.TableFails? then (l, Failed)
    else
      (l.(purge := Settle(l.purge), tables := PurgeTables(l.tables, boundary.value, cap)),
       Purged(DeletedCounts(l.tables, boundary.value, cap)))
  }

  // The state after one delivery of a signal, and whether it may be acknowledged.
  function HandleSignal(l: Loader, s: Signal, broker: BrokerAnswers, fault: Fault, cap: Cap): (Loader, bool) {
    var collected := l.(purge := AfterCompletion(l.purge, s));
    if !IsLatched(collected.purge.latch) then (collected, true)
    else
      var (gathered, ok) := SettlePurgeVeto(collected, s, broker, fault);
      if !ok then (gathered, false)
      else
        var (after, result) := PurgeStep(gathered, cap, fault);
        (after, !result.Failed?)
  }

  /******* The purge object *******/

  class StaleChildRowPurge {
    const cap: Cap
    var boundary: Option<int>
    var signals: map<DataType, Option<int>>
    var deadLettered: set<DataType>
    var settledBoundary: Option<int>

    function State(): PurgeState
      reads this
    {
      PurgeState(Latch(boundary, signals), deadLettered, settledBoundary)
    }

    constructor (cap: Cap)
      ensures State() == NEW_PURGE && this.cap == cap
    {
      this.cap := cap;
      boundary, signals, deadLettered, settledBoundary := None, map[], {}, None;
    }

    method Reset()
      modifies this
      ensures State() == old(State()).(latch := UNLATCHED, deadLettered := {})
    {
      boundary := None;
      signals := map[];
      deadLettered := {};
    }

    method RecordDeadLetter(dataType: DataType)
      modifies `deadLettered
      ensures deadLettered == old(deadLettered) + {dataType}
    {
      deadLettered := deadLettered + {dataType};
    }

    method RecordCompletion(s: Signal)
      modifies `boundary, `signals
      ensures State() == AfterCompletion(old(State()), s)
    {
      if s.startedAt.None? {
        boundary := None;
        signals := map[];
        return;
      }
      if boundary.Some? && s.startedAt.value < boundary.value {
        return;
      }
      if boundary.None? || s.startedAt.value > boundary.value {
        boundary := s.startedAt;
        signals := map[];
      }
      signals := signals[s.dataType := s.count];
    }

    predicate IsLatched()
      reads this
    {
      boundary.Some? && ALL_TYPES <= signals.Keys
    }

    method SettleBoundary(b: Option<int>)
      modifies `settledBoundary, `deadLettered
      ensures settledBoundary == b && deadLettered == {}
    {
      settledBoundary := b;
      deadLettered := {};
    }

    // Count, count the stale rows, refuse at the cap, delete: one table inside the transaction.
    method PurgeOne(t: Table, boundary: int) returns (t': Table, deleted: nat)
      ensures t' == PurgeTable(t, boundary, cap) && deleted == |t| - |t'|
    {
      FreshSize(t, boundary);
      var total := |t|;
      if total == 0 {
        assert Stale(t, boundary) == {};
        return t, 0;
      }
      var stale := |Stale(t, boundary)|;
      if stale == 0 {
        assert Fresh(t, boundary) == t;
        return t, 0;
      }
      if stale * cap.den >= cap.num * total {
        return t, 0;
      }
      t' := Fresh(t, boundary);
      deleted := total - |t'|;
    }

    // The transaction's body: table by table, up to the first statement that fails.
    method PurgeEach(tables: Tables, boundary: int, fault: Fault) returns (ok: bool, staged: Tables, deleted: seq<nat>)
      ensures ok <==> !fault.TableFails?
      ensures ok ==> staged == PurgeTables(tables, boundary, cap) && deleted == DeletedCounts(tables, boundary, cap)
    {
      staged, deleted := tables, [];
      for i := 0 to |RECONCILED_TABLES|
        invariant |deleted| == i
        invariant forall j :: 0 <= j < |RECONCILED_TABLES| ==>
                    var name := RECONCILED_TABLES[j];
                    staged.Get(name) == if j < i then PurgeTable(tables.Get(name), boundary, cap) else tables.Get(name)
        invariant forall j :: 0 <= j < i ==> deleted[j] == DeletedCounts(tables, boundary, cap)[j]
      {
        if fault == TableFails(i) {
          return false, staged, deleted;
        }
        var t, n := PurgeOne(staged.Get(RECONCILED_TABLES[i]), boundary);
        staged, deleted := staged.With(RECONCILED_TABLES[i], t), deleted + [n];
      }
      ok := !fault.TableFails?;
      assert staged.Get(RECONCILED_TABLES[0]) == staged.relationships && staged.Get(RECONCILED_TABLES[1]) == staged.externalLinks;
      assert deleted == DeletedCounts(tables, boundary, cap);
    }

    // Every table's deletion commits, or none does.
    method Purge(db: Postgres, fault: Fault) returns (r: PurgeResult)
      modifies `settledBoundary, `deadLettered, db`tables
      ensures (Loader(State(), db.tables, db.vetoLatch), r)
              == PurgeStep(old(Loader(State(), db.tables, db.vetoLatch)), cap, fault)
    {
      var veto := VetoReason(State());
      if veto.Some? {
        if IsLatched() {
          SettleBoundary(boundary);
        }
        return Skipped(veto.value);
      }
      if fault.NoAdmission? {
        return Failed;
      }
      var ok, staged, deleted := PurgeEach(db.tables, boundary.value, fault);
      if !ok {
        return Failed;
      }
      db.tables := staged;
      SettleBoundary(boundary);
      return Purged(deleted);
    }
  }

  /******* The signal handler *******/

  method GatherVeto(purge: StaleChildRowPurge, db: Postgres, s: Signal, broker: BrokerAnswers, fault: Fault)
    returns (ok: bool)
    modifies purge`deadLettered, db`vetoLatch
    ensures (Loader(purge.State(), db.tables, db.vetoLatch), ok)
            == SettlePurgeVeto(old(Loader(purge.State(), db.tables, db.vetoLatch)), s, broker, fault)
  {
    if IsSettled(purge.State()) {
      return true;
    }
    for i := 0 to |DATA_TYPES|
      invariant purge.deadLettered == old(purge.deadLettered) + set d | d in BrokerMarks(broker) && d in DATA_TYPES[..i]
      invariant unchanged(purge`boundary) && unchanged(purge`signals) && unchanged(purge`settledBoundary) && unchanged(db)
    {
      var d := DATA_TYPES[i];
      assert DATA_TYPES[..i + 1] == DATA_TYPES[..i] + [d];
      if d !in broker || broker[d] > 0 {
        purge.RecordDeadLetter(d);
      }
    }
    EveryTypeListed();
    assert DATA_TYPES[..|DATA_TYPES|] == DATA_TYPES;
    assert (set d | d in BrokerMarks(broker) && d in DATA_TYPES) == BrokerMarks(broker);
    var key := ExtractionKey(s);
    if key.None? {
      return true;
    }
    if fault.NoAdmission? || fault.LatchReadFails? {
      return false;
    }
    purge.deadLettered := purge.deadLettered + Recorded(db.vetoLatch, key.value);
    if fault.LatchWriteFails? {
      return false;
    }
    db.RecordExtraction(key.value, purge.deadLettered);
    return true;
  }

  // False only when the reconciliation was attempted and failed, so the signal must be requeued.
  method ReconcileDeletedChildRows(purge: StaleChildRowPurge?, db: Postgres, s: Signal, broker: BrokerAnswers, fault: Fault)
    returns (ok: bool)
    modifies purge, db
    ensures purge == null ==> ok && unchanged(db)
    ensures purge != null ==>
              (Loader(purge.State(), db.tables, db.vetoLatch), ok)
              == HandleSignal(old(Loader(purge.State(), db.tables, db.vetoLatch)), s, broker, fault, purge.cap)
  {
    if purge == null {
      return true;
    }
    purge.RecordCompletion(s);
    if !purge.IsLatched() {
      return true;
    }
    ok := GatherVeto(purge, db, s, broker, fault);
    if !ok {
      return false;
    }
    var r := purge.Purge(db, fault);
    return !r.Failed?;
  }
}
