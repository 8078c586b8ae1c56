/**
 What one signal does, stated on the message, the broker's counts and the stored rows themselves: when
 it deletes, what it records, and when it must come back.
 */
module SignalEffect {
  import opened Wrappers
  import opened ChildRows
  import opened Latch
  import opened StalePurge
  import opened Store
  import opened Reconciliation
  import opened ReconciliationRuns

  // The extraction a signal names: its version, or failing that its started_at text.
  predicate Names(s: Signal, key: string) {
    key != "" && (s.version == key || (s.version == "" && s.startedAtText == key))
  }

  predicate Nameless(s: Signal) {
    s.version == "" && s.startedAtText == ""
  }

  // Every type has signalled for a boundary that was not the last one decided.
  ghost predicate Deciding(l: Loader, s: Signal) {
    var latch := Step(l.purge.latch, Completion(s));
    latch.boundary.Some? && latch.boundary != l.purge.settled && forall d: DataType :: d in latch.signals
  }

  // No mark in memory, no dead letter or silence at the broker, no recorded veto, and a non-zero count
  // from every type.
  ghost predicate Unvetoed(l: Loader, s: Signal, broker: BrokerAnswers) {
    var latch := Step(l.purge.latch, Completion(s));
    && l.purge.deadLettered == {}
    && (forall d: DataType :: d in broker && broker[d] == 0)
    && (forall key :: Names(s, key) && key in l.latch ==> l.latch[key] == {})
    && (forall d :: d in latch.signals ==> latch.signals[d].Some? && latch.signals[d].value != 0)
  }

  // PostgreSQL answers what an unvetoed, or a vetoed, decision asks of it.
  predicate PurgeReaches(s: Signal, fault: Fault) {
    fault.NoFault? || (Nameless(s) && (fault.LatchReadFails? || fault.LatchWriteFails?))
  }

  predicate VetoReaches(s: Signal, fault: Fault) {
    Nameless(s) || fault.NoFault? || fault.TableFails?
  }

  lemma KeyIsNamed(s: Signal)
    ensures forall key :: Names(s, key) <==> ExtractionKey(s) == Some(key)
    ensures Nameless(s) <==> ExtractionKey(s).None?
  {
  }

  lemma DecidingIsDecides(l: Loader, s: Signal)
    ensures Deciding(l, s) <==> Decides(l, s)
  {
    EveryTypeListed();
  }

  lemma BrokerMarksAre(broker: BrokerAnswers)
    ensures forall d: DataType :: d in BrokerMarks(broker) <==> d !in broker || broker[d] > 0
  {
    EveryTypeListed();
  }

  lemma UnvetoedIs(l: Loader, s: Signal, broker: BrokerAnswers)
    ensures Unvetoed(l, s, broker) <==> GatheredMarks(l, s, broker) == {} && EmptyTypes(Collected(l, s).purge.latch) == {}
  {
    KeyIsNamed(s);
    BrokerMarksAre(broker);
    if GatheredMarks(l, s, broker) == {} && EmptyTypes(Collected(l, s).purge.latch) == {} {
      forall d: DataType ensures d in broker && broker[d] == 0 {
        assert d !in GatheredMarks(l, s, broker);
      }
      var latch := Step(l.purge.latch, Completion(s));
      forall d | d in latch.signals ensures latch.signals[d].Some? && latch.signals[d].value != 0 {
        assert d !in EmptyTypes(latch);
      }
    }
  }

  // A signal deletes exactly the rows not refreshed since the boundary, from each table that accepts it,
  // when it decides an extraction nothing vetoes; every other signal leaves both tables alone.
  lemma SignalDeletesExactly(l: Loader, s: Signal, broker: BrokerAnswers, fault: Fault, cap: Cap, name: TableName)
    ensures var t, b := l.tables.Get(name), Step(l.purge.latch, Completion(s)).boundary;
            HandleSignal(l, s, broker, fault, cap).0.tables.Get(name)
            == if Deciding(l, s) && Unvetoed(l, s, broker) && PurgeReaches(s, fault) && Accepts(t, b.value, cap)
               then Refreshed(t, b.value) else t
  {
    KeyIsNamed(s);
    DecidingIsDecides(l, s);
    UnvetoedIs(l, s, broker);
    TablesAfterSignal(l, s, broker, fault, cap);
    if Purges(l, s, broker, fault) {
      PurgeKeepsExactly(l.tables.Get(name), Collected(l, s).purge.latch.boundary.value, cap);
    }
  }

  lemma SignalDeletesNothing(l: Loader, s: Signal, broker: BrokerAnswers, fault: Fault, cap: Cap)
    requires !Unvetoed(l, s, broker)
    ensures HandleSignal(l, s, broker, fault, cap).0.tables == l.tables
  {
    SignalDeletesExactly(l, s, broker, fault, cap, Relationships);
    SignalDeletesExactly(l, s, broker, fault, cap, ExternalLinks);
    var after := HandleSignal(l, s, broker, fault, cap).0.tables;
    assert after.relationships == after.Get(Relationships) && after.externalLinks == after.Get(ExternalLinks);
  }

  // A dead letter at the broker, or a broker that does not answer, vetoes whatever else holds.
  lemma BrokerDeadLetterVetoes(l: Loader, s: Signal, broker: BrokerAnswers, fault: Fault, cap: Cap, d: DataType)
    requires d !in broker || broker[d] > 0
    ensures HandleSignal(l, s, broker, fault, cap).0.tables == l.tables
  {
    SignalDeletesNothing(l, s, broker, fault, cap);
  }

  // So does a type that reports no records, or does not say how many.
  lemma EmptyCountVetoes(l: Loader, s: Signal, broker: BrokerAnswers, fault: Fault, cap: Cap, d: DataType)
    requires var latch := Step(l.purge.latch, Completion(s));
             d in latch.signals && (latch.signals[d].None? || latch.signals[d] == Some(0))
    ensures HandleSignal(l, s, broker, fault, cap).0.tables == l.tables
  {
    SignalDeletesNothing(l, s, broker, fault, cap);
  }

  lemma FinishedDecision(l: Loader, s: Signal, broker: BrokerAnswers, fault: Fault, cap: Cap)
    requires Decides(l, s) && HandleSignal(l, s, broker, fault, cap).1
    ensures var after := HandleSignal(l, s, broker, fault, cap).0;
            && after.purge == PurgeState(Collected(l, s).purge.latch, {}, Collected(l, s).purge.latch.boundary)
            && after.latch == WithRecord(l.latch, s, GatheredMarks(l, s, broker))
  {
    Gathered(l, s, broker, fault);
  }

  // A decision that finishes settles its boundary, clears the marks, and leaves on the record of the
  // extraction it names exactly the earlier record, this process's marks, and each type the broker
  // reported a dead letter for or could not answer for. No other record changes.
  lemma FinishedDecisionRecordsExactly(l: Loader, s: Signal, broker: BrokerAnswers, fault: Fault, cap: Cap)
    requires Deciding(l, s) && HandleSignal(l, s, broker, fault, cap).1
    ensures var after, latch := HandleSignal(l, s, broker, fault, cap).0, Step(l.purge.latch, Completion(s));
            && after.purge == PurgeState(latch, {}, latch.boundary)
            && (forall key :: Names(s, key) ==> key in after.latch && forall d: DataType :: d in after.latch[key] <==>
                  || (key in l.latch && d in l.latch[key]) || d in l.purge.deadLettered
                  || d !in broker || broker[d] > 0)
            && (forall key :: !Names(s, key) ==>
                  ((key in after.latch <==> key in l.latch) && (key in l.latch ==> after.latch[key] == l.latch[key])))
  {
    DecidingIsDecides(l, s);
    FinishedDecision(l, s, broker, fault, cap);
    RecordedMarksAre(l, s, broker);
  }

  lemma RecordedMarksAre(l: Loader, s: Signal, broker: BrokerAnswers)
    ensures var latch := WithRecord(l.latch, s, GatheredMarks(l, s, broker));
            && (forall key :: Names(s, key) ==> key in latch && forall d: DataType :: d in latch[key] <==>
                  || (key in l.latch && d in l.latch[key]) || d in l.purge.deadLettered
                  || d !in broker || broker[d] > 0)
            && (forall key :: !Names(s, key) ==>
                  ((key in latch <==> key in l.latch) && (key in l.latch ==> latch[key] == l.latch[key])))
  {
    KeyIsNamed(s);
    BrokerMarksAre(broker);
  }

  // A signal may be acknowledged exactly when it decides nothing, or PostgreSQL answered all that its
  // decision asked: less when it is vetoed.
  lemma FinishesExactlyWhen(l: Loader, s: Signal, broker: BrokerAnswers, fault: Fault, cap: Cap)
    ensures HandleSignal(l, s, broker, fault, cap).1 <==>
            !Deciding(l, s) || if Unvetoed(l, s, broker) then PurgeReaches(s, fault) else VetoReaches(s, fault)
  {
    KeyIsNamed(s);
    DecidingIsDecides(l, s);
    UnvetoedIs(l, s, broker);
    if Decides(l, s) {
      Gathered(l, s, broker, fault);
    }
  }

  // The counts a purge reports are the rows it took from each table.
  lemma ReportedCountsAreTheRowsTaken(l: Loader, cap: Cap, fault: Fault, i: nat)
    requires PurgeStep(l, cap, fault).1.Purged? && i < 2
    ensures var (after, result) := PurgeStep(l, cap, fault);
            var name := if i == 0 then Relationships else ExternalLinks;
            |result.deleted| == 2 && result.deleted[i] + |after.tables.Get(name)| == |l.tables.Get(name)|
  {
  }
}
