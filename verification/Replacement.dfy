/**
 Reconciliation refines replacement: upserting a whole dump over old rows and purging at its
 `started_at` leaves the contents that throwing the tables away and loading the dump would.
 */
module Replacement {
  import opened Wrappers
  import opened ChildRows
  import opened Convergence
  import opened Latch
  import opened StalePurge
  import opened Store
  import opened Reconciliation
  import opened ReconciliationRuns

  /******* One table *******/

  // The contents a fresh load of these rows has.
  ghost function Catalogue(ds: set<Derived>): map<ChildKey, Option<bool>>
    requires Agree(ds)
  {
    map k | k in KeysOf(ds) :: EndedFor(ds, k)
  }

  ghost function EndedFor(ds: set<Derived>, k: ChildKey): Option<bool>
    requires k in KeysOf(ds)
  {
    var d :| d in ds && d.key == k;
    d.ended
  }

  ghost predicate CommittedFrom(bs: seq<Batch>, b: int) {
    forall x :: x in bs ==> x.now >= b
  }

  // After the dump is replayed, the stale rows are the old ones it did not report.
  lemma StaleAfterReplay(t: Table, bs: seq<Batch>, b: int)
    requires CommittedFrom(bs, b)
    ensures Stale(Replay(t, bs), b) == Stale(t, b) - KeysOf(Reported(bs))
  {
    ReplayIsMerge(t, bs);
    ReplayedRows(bs);
  }

  // The keys a replay and a purge leave, from any starting table and either side of the cap.
  lemma KeysAfterPurge(t: Table, bs: seq<Batch>, b: int, cap: Cap)
    requires CommittedFrom(bs, b)
    ensures var loaded := Replay(t, bs);
            PurgeTable(loaded, b, cap).Keys
            == KeysOf(Reported(bs)) + if Accepts(loaded, b, cap) then Refreshed(t, b).Keys else t.Keys
  {
    PurgeKeepsExactly(Replay(t, bs), b, cap);
    StaleAfterReplay(t, bs, b);
    ReplayIsMerge(t, bs);
    ReplayedRows(bs);
  }

  lemma ReplayIsTheCatalogue(bs: seq<Batch>)
    requires Agree(Reported(bs))
    ensures Contents(Replay(map[], bs)) == Catalogue(Reported(bs))
  {
    ReplayedRows(bs);
    var e := Replay(map[], bs);
    forall k | k in e ensures e[k].ended == EndedFor(Reported(bs), k) {
      assert Derived(k, e[k].ended) in Reported(bs);
    }
  }

  /******* A run of one extraction *******/

  function BatchOf(e: Event, name: TableName): seq<Batch> {
    if e.Committed? then [Batch(RecordRows(e.record, name), e.now)] else []
  }

  function Batches(es: seq<Event>, name: TableName): seq<Batch> {
    if es == [] then [] else Batches(es[..|es| - 1], name) + BatchOf(es[|es| - 1], name)
  }

  ghost function DumpRows(dump: set<Record>, name: TableName): set<Derived> {
    set r, d | r in dump && d in RecordRows(r, name) :: d
  }

  // A signal of the extraction started at `b`, with records to its name.
  predicate SignalOf(s: Signal, b: int, key: string) {
    s.startedAt == Some(b) && ExtractionKey(s) == Some(key) && s.count.Some? && s.count.value != 0
  }

  // The extraction's own records, committed from `b` on, and the signals of the types before the last,
  // whatever faults and broker answers they meet.
  predicate EventOf(e: Event, dump: set<Record>, b: int, key: string, last: DataType) {
    || (e.Committed? && e.record in dump && e.now >= b)
    || (e.Signalled? && SignalOf(e.signal, b, key) && e.signal.dataType != last)
  }

  predicate Extraction(es: seq<Event>, dump: set<Record>, b: int, key: string, last: DataType) {
    forall e :: e in es ==> EventOf(e, dump, b, key, last)
  }

  ghost function SignalledTypes(es: seq<Event>): set<DataType> {
    set e | e in es && e.Signalled? :: e.signal.dataType
  }

  ghost function CommittedRecords(es: seq<Event>): set<Record> {
    set e | e in es && e.Committed? :: e.record
  }

  // Nothing of this extraction is collected, marked, recorded or settled yet.
  predicate ReadyFor(l: Loader, b: int, key: string) {
    && NotAbove(l.purge.latch.boundary, Some(b)) && l.purge.latch.boundary != Some(b)
    && l.purge.deadLettered == {} && l.purge.settled != Some(b)
    && Recorded(l.latch, key) == {}
  }

  // While the extraction is being collected: the latch holds the types seen so far, and nothing vetoes.
  ghost predicate Collecting(l: Loader, m: Loader, es: seq<Event>, b: int) {
    && m.purge.deadLettered == {} && m.purge.settled == l.purge.settled && m.latch == l.latch
    && (if SignalledTypes(es) == {} then m.purge.latch == l.purge.latch
        else m.purge.latch.boundary == Some(b) && m.purge.latch.signals.Keys == SignalledTypes(es)
             && EmptyTypes(m.purge.latch) == {})
  }

  lemma BatchesStep(t: Table, es: seq<Event>, e: Event, name: TableName)
    ensures Batches(es + [e], name) == Batches(es, name) + BatchOf(e, name)
    ensures Replay(t, Batches(es + [e], name))
            == if e.Committed? then UpsertAll(Replay(t, Batches(es, name)), RecordRows(e.record, name), e.now, true)
               else Replay(t, Batches(es, name))
  {
    assert (es + [e])[..|es|] == es;
    var bs := Batches(es + [e], name);
    if e.Committed? {
      assert bs[..|bs| - 1] == Batches(es, name);
    } else {
      assert bs == Batches(es, name);
    }
  }

  lemma SignalledStep(es: seq<Event>, e: Event)
    ensures SignalledTypes(es + [e]) == SignalledTypes(es) + if e.Signalled? then {e.signal.dataType} else {}
  {
    assert forall x :: x in es + [e] <==> x in es || x == e;
    if e.Signalled? {
      assert e in es + [e];
    }
  }

  // A signal that leaves the last type outstanding is collected and decides nothing.
  lemma UnfinishedSignal(m: Loader, e: Event, b: int, key: string, last: DataType, cap: Cap)
    requires e.Signalled? && SignalOf(e.signal, b, key) && e.signal.dataType != last
    requires NotAbove(m.purge.latch.boundary, Some(b))
    requires m.purge.latch.boundary == Some(b) ==> last !in m.purge.latch.signals && EmptyTypes(m.purge.latch) == {}
    ensures var latch := Collected(m, e.signal).purge.latch;
            && Next(m, e, cap) == Collected(m, e.signal)
            && latch.boundary == Some(b) && EmptyTypes(latch) == {}
            && latch.signals.Keys == {e.signal.dataType} +
                 if m.purge.latch.boundary == Some(b) then m.purge.latch.signals.Keys else {}
  {
    var latch := Collected(m, e.signal).purge.latch;
    assert last !in latch.signals;
    assert !IsLatched(latch) by { EveryTypeListed(); }
    forall d | d in latch.signals ensures d !in EmptyTypes(latch) {
      assert d !in EmptyTypes(m.purge.latch) || m.purge.latch.boundary != Some(b);
    }
  }

  lemma CollectingSignal(l: Loader, m: Loader, es: seq<Event>, e: Event, b: int, key: string, last: DataType, cap: Cap)
    requires ReadyFor(l, b, key) && Collecting(l, m, es, b) && last !in SignalledTypes(es)
    requires e.Signalled? && SignalOf(e.signal, b, key) && e.signal.dataType != last
    ensures Collecting(l, Next(m, e, cap), es + [e], b)
  {
    UnfinishedSignal(m, e, b, key, last, cap);
    SignalledStep(es, e);
    assert Next(m, e, cap).latch == m.latch;
    assert e.signal.dataType in SignalledTypes(es + [e]);
  }

  lemma CollectingStep(l: Loader, m: Loader, es: seq<Event>, e: Event, dump: set<Record>, b: int, key: string, last: DataType, cap: Cap)
    requires ReadyFor(l, b, key) && Collecting(l, m, es, b)
    requires Extraction(es, dump, b, key, last) && EventOf(e, dump, b, key, last)
    ensures Collecting(l, Next(m, e, cap), es + [e], b)
  {
    if e.Signalled? {
      CollectingSignal(l, m, es, e, b, key, last, cap);
    } else {
      SignalledStep(es, e);
      assert SignalledTypes(es + [e]) == SignalledTypes(es);
    }
  }

  lemma {:induction false} RunIsCollecting(l: Loader, es: seq<Event>, dump: set<Record>, b: int, key: string, last: DataType, cap: Cap)
    requires ReadyFor(l, b, key) && Extraction(es, dump, b, key, last)
    ensures Collecting(l, Run(l, es, cap), es, b)
  {
    if es != [] {
      var init, e := es[..|es| - 1], es[|es| - 1];
      assert e in es && forall x :: x in init ==> x in es;
      assert es == init + [e];
      RunIsCollecting(l, init, dump, b, key, last, cap);
      CollectingStep(l, Run(l, init, cap), init, e, dump, b, key, last, cap);
    }
  }

  lemma {:induction false} BatchesReport(es: seq<Event>, name: TableName, b: int)
    requires forall e :: e in es && e.Committed? ==> e.now >= b
    ensures Reported(Batches(es, name)) == DumpRows(CommittedRecords(es), name)
    ensures CommittedFrom(Batches(es, name), b)
  {
    if es != [] {
      var init, e := es[..|es| - 1], es[|es| - 1];
      assert e in es && forall x :: x in init ==> x in es;
      assert forall x :: x in es <==> x in init || x == e;
      BatchesReport(init, name, b);
      assert Batches(es, name) == Batches(init, name) + BatchOf(e, name);
      if e.Committed? {
        var last := Batch(RecordRows(e.record, name), e.now);
        assert Reported(Batches(es, name)) == Reported(Batches(init, name)) + set d | d in last.rows;
        assert CommittedRecords(es) == CommittedRecords(init) + {e.record};
      } else {
        assert Batches(es, name) == Batches(init, name);
        assert CommittedRecords(es) == CommittedRecords(init);
      }
    }
  }

  /******* Any run that ends in the purge *******/

  // What may happen between `b` and the purge: records of the dump commit, and no later extraction
  // signals. Everything else is free: other and older signals, unusable ones, failures, dead letters,
  // resets and restarts.
  predicate During(e: Event, dump: set<Record>, b: int) {
    && (e.Committed? ==> e.record in dump && e.now >= b)
    && (e.Signalled? ==> NotAbove(e.signal.startedAt, Some(b)))
  }

  lemma UpsertsAreFresh(t: Table, ds: seq<Derived>, now: int, b: int)
    requires b <= now
    ensures Fresh(UpsertAll(t, ds, now, true), b) == UpsertAll(Fresh(t, b), ds, now, true)
  {
    UpsertsAreMerge(t, ds, now);
    UpsertsAreMerge(Fresh(t, b), ds, now);
    UpsertedRows(ds, now);
    var e := UpsertAll(map[], ds, now, true);
    assert Fresh(t + e, b).Keys == (Fresh(t, b) + e).Keys;
  }

  lemma EarlierPurgeKeepsFresh(t: Table, earlier: int, b: int, cap: Cap)
    requires earlier <= b
    ensures Fresh(PurgeTable(t, earlier, cap), b) == Fresh(t, b)
  {
    assert Fresh(PurgeTable(t, earlier, cap), b).Keys == Fresh(t, b).Keys;
  }

  lemma SignalKeepsFresh(m: Loader, s: Signal, broker: BrokerAnswers, fault: Fault, b: int, cap: Cap, name: TableName)
    requires NotAbove(m.purge.latch.boundary, Some(b)) && NotAbove(s.startedAt, Some(b))
    ensures var n := HandleSignal(m, s, broker, fault, cap).0;
            Fresh(n.tables.Get(name), b) == Fresh(m.tables.Get(name), b) && NotAbove(n.purge.latch.boundary, Some(b))
  {
    BoundaryAfterSignal(m, s, broker, fault, cap);
    TablesAfterSignal(m, s, broker, fault, cap);
    if Purges(m, s, broker, fault) {
      EarlierPurgeKeepsFresh(m.tables.Get(name), Collected(m, s).purge.latch.boundary.value, b, cap);
    }
  }

  lemma EventKeepsFresh(m: Loader, e: Event, dump: set<Record>, b: int, cap: Cap, name: TableName)
    requires NotAbove(m.purge.latch.boundary, Some(b)) && During(e, dump, b)
    ensures NotAbove(Next(m, e, cap).purge.latch.boundary, Some(b))
    ensures Fresh(Next(m, e, cap).tables.Get(name), b)
            == if e.Committed? then UpsertAll(Fresh(m.tables.Get(name), b), RecordRows(e.record, name), e.now, true)
               else Fresh(m.tables.Get(name), b)
  {
    match e {
      case Committed(r, now) => UpsertsAreFresh(m.tables.Get(name), RecordRows(r, name), now, b);
      case Signalled(s, broker, fault) => SignalKeepsFresh(m, s, broker, fault, b, cap, name);
      case _ =>
    }
  }

  // All along, the rows refreshed since `b` are exactly the replayed records'.
  lemma {:induction false} FreshPartIsTheLoad(l: Loader, es: seq<Event>, dump: set<Record>, b: int, cap: Cap, name: TableName)
    requires NotAbove(l.purge.latch.boundary, Some(b)) && Fresh(l.tables.Get(name), b) == map[]
    requires forall e :: e in es ==> During(e, dump, b)
    ensures NotAbove(Run(l, es, cap).purge.latch.boundary, Some(b))
    ensures Fresh(Run(l, es, cap).tables.Get(name), b) == Replay(map[], Batches(es, name))
  {
    if es != [] {
      var init, e := es[..|es| - 1], es[|es| - 1];
      assert e in es && forall x :: x in init ==> x in es;
      assert es == init + [e];
      FreshPartIsTheLoad(l, init, dump, b, cap, name);
      BatchesStep(map[], init, e, name);
      EventKeepsFresh(Run(l, init, cap), e, dump, b, cap, name);
    }
  }

  // An extraction's run over tables of older rows, ended by a signal that purges at its start.
  ghost predicate EndsInPurge(l: Loader, es: seq<Event>, s: Signal, broker: BrokerAnswers, fault: Fault,
                              dump: set<Record>, b: int, cap: Cap, name: TableName)
  {
    var m := Run(l, es, cap);
    && NotAbove(l.purge.latch.boundary, Some(b))
    && (forall k :: k in l.tables.Get(name) ==> l.tables.Get(name)[k].updatedAt < b)
    && (forall e :: e in es ==> During(e, dump, b)) && CommittedRecords(es) == dump
    && Purges(m, s, broker, fault) && Collected(m, s).purge.latch.boundary == Some(b)
  }

  // The headline. After any such run that committed every record of a dump, in any order and any number
  // of times, the purge leaves each table literally as loading the same records into an empty one would,
  // refresh times included, if and only if the cap accepted that table's purge.
  lemma AnyPurgeIsReplacementIff(l: Loader, es: seq<Event>, s: Signal, broker: BrokerAnswers, fault: Fault,
                                 dump: set<Record>, b: int, cap: Cap, name: TableName)
    requires EndsInPurge(l, es, s, broker, fault, dump, b, cap, name)
    ensures var m := Run(l, es, cap);
            HandleSignal(m, s, broker, fault, cap).0.tables.Get(name) == Replay(map[], Batches(es, name))
            <==> Accepts(m.tables.Get(name), b, cap)
  {
    var m := Run(l, es, cap);
    assert Fresh(l.tables.Get(name), b) == map[];
    FreshPartIsTheLoad(l, es, dump, b, cap, name);
    TablesAfterSignal(m, s, broker, fault, cap);
    PurgeLeavesTheFreshPartIff(m.tables.Get(name), b, cap);
  }

  // Its keys are then exactly those the dump derives, again if and only if the cap accepted.
  lemma AnyPurgeLeavesTheDumpsKeysIff(l: Loader, es: seq<Event>, s: Signal, broker: BrokerAnswers, fault: Fault,
                                      dump: set<Record>, b: int, cap: Cap, name: TableName)
    requires EndsInPurge(l, es, s, broker, fault, dump, b, cap, name)
    ensures var m := Run(l, es, cap);
            HandleSignal(m, s, broker, fault, cap).0.tables.Get(name).Keys == KeysOf(DumpRows(dump, name))
            <==> Accepts(m.tables.Get(name), b, cap)
  {
    var m := Run(l, es, cap);
    assert Fresh(l.tables.Get(name), b) == map[];
    FreshPartIsTheLoad(l, es, dump, b, cap, name);
    BatchesReport(es, name, b);
    ReplayedRows(Batches(es, name));
    TablesAfterSignal(m, s, broker, fault, cap);
    PurgeLeavesTheFreshPartIff(m.tables.Get(name), b, cap);
  }

  // When the dump's reports of a key agree on `ended`, so is what a reader sees, in whatever order the
  // records came.
  lemma AnyPurgeLeavesTheCatalogueIff(l: Loader, es: seq<Event>, s: Signal, broker: BrokerAnswers, fault: Fault,
                                      dump: set<Record>, b: int, cap: Cap, name: TableName)
    requires EndsInPurge(l, es, s, broker, fault, dump, b, cap, name) && Agree(DumpRows(dump, name))
    ensures var m := Run(l, es, cap);
            Contents(HandleSignal(m, s, broker, fault, cap).0.tables.Get(name)) == Catalogue(DumpRows(dump, name))
            <==> Accepts(m.tables.Get(name), b, cap)
  {
    var m := Run(l, es, cap);
    BatchesReport(es, name, b);
    ReplayIsTheCatalogue(Batches(es, name));
    ReplayedRows(Batches(es, name));
    AnyPurgeIsReplacementIff(l, es, s, broker, fault, dump, b, cap, name);
    AnyPurgeLeavesTheDumpsKeysIff(l, es, s, broker, fault, dump, b, cap, name);
    var after := HandleSignal(m, s, broker, fault, cap).0.tables.Get(name);
    assert Contents(after).Keys == after.Keys && Catalogue(DumpRows(dump, name)).Keys == KeysOf(DumpRows(dump, name));
  }

  lemma PurgeLeavesTheFreshPartIff(t: Table, b: int, cap: Cap)
    ensures PurgeTable(t, b, cap) == Fresh(t, b) <==> Accepts(t, b, cap)
    ensures PurgeTable(t, b, cap).Keys == Fresh(t, b).Keys <==> Accepts(t, b, cap)
  {
    PurgeKeepsExactly(t, b, cap);
    assert Refreshed(t, b).Keys == t.Keys ==> Refreshed(t, b) == t;
  }

  /******* Four clean signals do purge *******/

  lemma CountedSignalLeavesNoneEmpty(l: Latch, s: Signal, b: int, key: string)
    requires SignalOf(s, b, key) && NotAbove(l.boundary, Some(b))
    requires l.boundary == Some(b) ==> EmptyTypes(l) == {}
    ensures EmptyTypes(Step(l, Completion(s))) == {}
  {
    forall d | d in Step(l, Completion(s)).signals ensures d !in EmptyTypes(Step(l, Completion(s))) {
      assert d !in EmptyTypes(l) || l.boundary != Some(b);
    }
  }

  // A fourth signal over a full, clean collection purges at its boundary.
  lemma LastSignalPurges(m: Loader, last: Signal, b: int, key: string, cap: Cap)
    requires SignalOf(last, b, key) && m.purge.latch.boundary == Some(b)
    requires m.purge.latch.signals.Keys + {last.dataType} == ALL_TYPES && EmptyTypes(m.purge.latch) == {}
    requires m.purge.deadLettered == {} && m.purge.settled != Some(b) && Recorded(m.latch, key) == {}
    ensures Purges(m, last, CLEAN_BROKER, NoFault) && Collected(m, last).purge.latch.boundary == Some(b)
  {
    CleanBrokerMarksNothing();
    CountedSignalLeavesNoneEmpty(m.purge.latch, last, b, key);
    assert Collected(m, last).purge.latch.signals.Keys == ALL_TYPES;
    assert GatheredMarks(m, last, CLEAN_BROKER) == {};
  }

  // A clean extraction's fourth signal does purge, at `b`.
  lemma FourthSignalPurges(l: Loader, es: seq<Event>, last: Signal, dump: set<Record>, b: int, key: string, cap: Cap)
    requires ReadyFor(l, b, key)
    requires Extraction(es, dump, b, key, last.dataType) && SignalOf(last, b, key)
    requires SignalledTypes(es) + {last.dataType} == ALL_TYPES
    ensures var m := Run(l, es, cap);
            && Purges(m, last, CLEAN_BROKER, NoFault) && Collected(m, last).purge.latch.boundary == Some(b)
            && HandleSignal(m, last, CLEAN_BROKER, NoFault, cap).0.tables == PurgeTables(m.tables, b, cap)
  {
    RunIsCollecting(l, es, dump, b, key, last.dataType, cap);
    assert SignalledTypes(es) != {} by { assert Artists in ALL_TYPES && Labels in ALL_TYPES; }
    LastSignalPurges(Run(l, es, cap), last, b, key, cap);
    TablesAfterSignal(Run(l, es, cap), last, CLEAN_BROKER, NoFault, cap);
  }

  // Failing any number of times on the way to that decision changes nothing.
  lemma RetriedFourthSignalPurgesOnce(l: Loader, es: seq<Event>, last: Signal, dump: set<Record>, b: int, key: string,
                                      cap: Cap, faults: seq<Fault>)
    requires ReadyFor(l, b, key)
    requires Extraction(es, dump, b, key, last.dataType) && SignalOf(last, b, key)
    requires SignalledTypes(es) + {last.dataType} == ALL_TYPES
    ensures HandleSignal(Attempts(Run(l, es, cap), last, CLEAN_BROKER, faults, cap), last, CLEAN_BROKER, NoFault, cap).0.tables
            == PurgeTables(Run(l, es, cap).tables, b, cap)
  {
    FourthSignalPurges(l, es, last, dump, b, key, cap);
    FailedAttemptsAreInvisible(Run(l, es, cap), last, CLEAN_BROKER, faults, cap);
  }

  // One extraction over tables of older rows: every record of its dump commits, in any order and any
  // number of times, interleaved with three types' signals.
  ghost predicate Extracts(l: Loader, es: seq<Event>, last: Signal, dump: set<Record>, b: int, key: string, name: TableName) {
    && ReadyFor(l, b, key)
    && Extraction(es, dump, b, key, last.dataType) && SignalOf(last, b, key)
    && SignalledTypes(es) + {last.dataType} == ALL_TYPES && CommittedRecords(es) == dump
    && (forall k :: k in l.tables.Get(name) ==> l.tables.Get(name)[k].updatedAt < b)
  }

  lemma ExtractionEndsInPurge(l: Loader, es: seq<Event>, last: Signal, dump: set<Record>, b: int, key: string,
                              cap: Cap, name: TableName)
    requires Extracts(l, es, last, dump, b, key, name)
    ensures EndsInPurge(l, es, last, CLEAN_BROKER, NoFault, dump, b, cap, name)
    ensures Run(l, es + [Signalled(last, CLEAN_BROKER, NoFault)], cap)
            == HandleSignal(Run(l, es, cap), last, CLEAN_BROKER, NoFault, cap).0
  {
    RunSnoc(l, es, Signalled(last, CLEAN_BROKER, NoFault), cap);
    FourthSignalPurges(l, es, last, dump, b, key, cap);
    assert forall e :: e in es ==> During(e, dump, b);
  }

  // Its fourth signal leaves a fresh load of each table exactly when the cap accepts.
  lemma ReconciliationRefinesReplacement(l: Loader, es: seq<Event>, last: Signal, dump: set<Record>, b: int, key: string,
                                         cap: Cap, name: TableName)
    requires Extracts(l, es, last, dump, b, key, name)
    ensures var before := Run(l, es, cap).tables.Get(name);
            var after := Run(l, es + [Signalled(last, CLEAN_BROKER, NoFault)], cap).tables.Get(name);
            && (after == Replay(map[], Batches(es, name)) <==> Accepts(before, b, cap))
            && (after.Keys == KeysOf(DumpRows(dump, name)) <==> Accepts(before, b, cap))
            && (Agree(DumpRows(dump, name)) ==>
                  (Contents(after) == Catalogue(DumpRows(dump, name)) <==> Accepts(before, b, cap)))
  {
    ExtractionEndsInPurge(l, es, last, dump, b, key, cap, name);
    AnyPurgeIsReplacementIff(l, es, last, CLEAN_BROKER, NoFault, dump, b, cap, name);
    AnyPurgeLeavesTheDumpsKeysIff(l, es, last, CLEAN_BROKER, NoFault, dump, b, cap, name);
    if Agree(DumpRows(dump, name)) {
      AnyPurgeLeavesTheCatalogueIff(l, es, last, CLEAN_BROKER, NoFault, dump, b, cap, name);
    }
  }

  /******* The dump's relationships, from either endpoint *******/

  // How each type names itself in a row.
  const TYPE_NAMES: map<DataType, string> :=
    map[Artists := "artist", Labels := "label", ReleaseGroups := "release-group", Releases := "release"]

  lemma TypeNamed(d: DataType)
    ensures d in TYPE_NAMES && TYPE_NAMES[d] == EntityType(d)
  {
    match d { case Artists => case Labels => case ReleaseGroups => case Releases => }
  }

  // A report naming its other endpoint, that endpoint's type and the kind.
  predicate NamesAll(report: RelationReport) {
    && report.targetMbid.Some? && report.targetMbid.value != ""
    && report.targetType.Some? && report.targetType.value != ""
    && report.kind.Some? && report.kind.value != ""
  }

  // Record `r` states relationship `f` in one of its reports, from whichever endpoint it is.
  predicate States(r: Record, report: RelationReport, f: Derived) {
    && f.key.RelationshipKey? && NamesAll(report)
    && f.key.kind == report.kind.value
    && f.key.attributes == (if report.attributes.Some? then report.attributes.value else [])
    && f.key.beginDate == report.beginDate && f.key.endDate == report.endDate
    && f.ended == Some(report.ended.Some? && report.ended.value)
    && r.dataType in TYPE_NAMES
    && var otherType := if report.targetType.value == "release_group" then "release-group" else report.targetType.value;
       var own, other := (r.mbid, TYPE_NAMES[r.dataType]), (report.targetMbid.value, otherType);
       var source, target := (f.key.sourceMbid, f.key.sourceType), (f.key.targetMbid, f.key.targetType);
       if report.direction == Some("backward") then own == target && other == source
       else own == source && other == target
  }

  lemma StatedIsDerived(r: Record, report: RelationReport, d: Derived)
    ensures States(r, report, d) <==>
            UsableRelation(report) && d == DeriveRelationship(r.mbid, EntityType(r.dataType), report)
    ensures UsableRelation(report) <==> NamesAll(report)
  {
    TypeNamed(r.dataType);
    assert "release_group" != TYPE_NAMES[r.dataType] by {
      assert "release_group"[0] != "artist"[0] && "release_group"[0] != "label"[0] && "release_group"[7] != "release-group"[7];
      assert |"release_group"| != |"release"|;
    }
    if NamesAll(report) {
      var e := DeriveRelationship(r.mbid, EntityType(r.dataType), report);
      assert States(r, report, e);
    }
  }

  lemma RowsAreStated(r: Record, d: Derived)
    ensures d in RecordRows(r, Relationships) <==> exists report :: report in r.relations && States(r, report, d)
  {
    DerivedRelationshipsAre(r.mbid, EntityType(r.dataType), r.relations);
    forall report { StatedIsDerived(r, report, d); }
  }

  ghost predicate ReportsOnly(dump: set<Record>, facts: set<Derived>) {
    forall r, report :: r in dump && report in r.relations && NamesAll(report) ==>
                          exists f :: f in facts && States(r, report, f)
  }

  ghost predicate ReportsAll(dump: set<Record>, facts: set<Derived>) {
    forall f :: f in facts ==> exists r, report :: r in dump && report in r.relations && States(r, report, f)
  }

  lemma DerivedRowIsAFact(dump: set<Record>, facts: set<Derived>, r: Record, d: Derived)
    requires ReportsOnly(dump, facts) && r in dump && d in RecordRows(r, Relationships)
    ensures d in facts
  {
    RowsAreStated(r, d);
    var report :| report in r.relations && States(r, report, d);
    assert UsableRelation(report);
    var f :| f in facts && States(r, report, f);
    StatedIsDerived(r, report, d);
    StatedIsDerived(r, report, f);
  }

  lemma FactIsADerivedRow(dump: set<Record>, facts: set<Derived>, f: Derived)
    requires ReportsAll(dump, facts) && f in facts
    ensures f in DumpRows(dump, Relationships)
  {
    var r, report :| r in dump && report in r.relations && States(r, report, f);
    RowsAreStated(r, f);
  }

  // If the dump's reports state exactly the relationships `facts`, each from at least one endpoint,
  // then `facts` are the rows it derives.
  lemma FactsAreTheDerivedRows(dump: set<Record>, facts: set<Derived>)
    requires ReportsOnly(dump, facts) && ReportsAll(dump, facts)
    ensures DumpRows(dump, Relationships) == facts
  {
    forall d | d in DumpRows(dump, Relationships) ensures d in facts {
      var r :| r in dump && d in RecordRows(r, Relationships);
      DerivedRowIsAFact(dump, facts, r, d);
    }
    forall f | f in facts ensures f in DumpRows(dump, Relationships) {
      FactIsADerivedRow(dump, facts, f);
    }
  }

  // So the reconciled relationships are the stated ones, whichever endpoints reported them.
  lemma RelationshipsAreTheFacts(l: Loader, es: seq<Event>, last: Signal, dump: set<Record>, facts: set<Derived>,
                                 b: int, key: string, cap: Cap)
    requires Extracts(l, es, last, dump, b, key, Relationships)
    requires ReportsOnly(dump, facts) && ReportsAll(dump, facts) && Agree(facts)
    ensures var before, after := Run(l, es, cap), Run(l, es + [Signalled(last, CLEAN_BROKER, NoFault)], cap);
            Contents(after.tables.relationships) == Catalogue(facts) <==> Accepts(before.tables.relationships, b, cap)
  {
    FactsAreTheDerivedRows(dump, facts);
    ReconciliationRefinesReplacement(l, es, last, dump, b, key, cap, Relationships);
  }

  /******* The dump's external links *******/

  // Record `r` states link row `f` in one of its links.
  predicate StatesLink(r: Record, link: LinkReport, f: Derived) {
    && f.key.LinkKey? && f.ended.None?
    && r.dataType in TYPE_NAMES && f.key.mbid == r.mbid && f.key.entityType == TYPE_NAMES[r.dataType]
    && link.url == Some(f.key.url) && f.key.url != ""
    && link.service == Some(f.key.service) && f.key.service != ""
  }

  lemma LinkRowsAreStated(r: Record, f: Derived)
    ensures f in RecordRows(r, ExternalLinks) <==> exists link :: link in r.links && StatesLink(r, link, f)
  {
    TypeNamed(r.dataType);
    DerivedLinksAre(r.mbid, EntityType(r.dataType), r.links, f);
    if f in RecordRows(r, ExternalLinks) {
      var link :| link in r.links && link.url == Some(f.key.url) && link.service == Some(f.key.service);
      assert StatesLink(r, link, f);
    }
  }

  // `facts` are the links the dump states, each by at least one record.
  ghost predicate LinksStated(dump: set<Record>, facts: set<Derived>) {
    forall f :: f in facts <==> exists r, link :: r in dump && link in r.links && StatesLink(r, link, f)
  }

  lemma LinkFactsAreTheDerivedRows(dump: set<Record>, facts: set<Derived>)
    requires LinksStated(dump, facts)
    ensures DumpRows(dump, ExternalLinks) == facts && Agree(facts)
  {
    forall f ensures f in DumpRows(dump, ExternalLinks) <==> f in facts {
      if f in facts {
        var r, link :| r in dump && link in r.links && StatesLink(r, link, f);
        LinkRowsAreStated(r, f);
      }
      if f in DumpRows(dump, ExternalLinks) {
        var r :| r in dump && f in RecordRows(r, ExternalLinks);
        LinkRowsAreStated(r, f);
      }
    }
    forall f | f in facts ensures f.ended.None? {
      var r, link :| r in dump && link in r.links && StatesLink(r, link, f);
    }
  }

  // So the reconciled links are the stated ones.
  lemma LinksAreTheFacts(l: Loader, es: seq<Event>, last: Signal, dump: set<Record>, facts: set<Derived>,
                         b: int, key: string, cap: Cap)
    requires Extracts(l, es, last, dump, b, key, ExternalLinks) && LinksStated(dump, facts)
    ensures Agree(facts)
    ensures var before, after := Run(l, es, cap), Run(l, es + [Signalled(last, CLEAN_BROKER, NoFault)], cap);
            Contents(after.tables.externalLinks) == Catalogue(facts) <==> Accepts(before.tables.externalLinks, b, cap)
  {
    LinkFactsAreTheDerivedRows(dump, facts);
    ReconciliationRefinesReplacement(l, es, last, dump, b, key, cap, ExternalLinks);
  }
}
