/** The durable veto record over whole runs: what it protects, and exactly where it is bypassed. */
module RecordedVeto {
  import opened Wrappers
  import opened ChildRows
  import opened Convergence
  import opened Latch
  import opened StalePurge
  import opened Store
  import opened Reconciliation
  import opened ReconciliationRuns

  /******* Whole-run veto safety *******/

  predicate Vetoed(l: Loader, key: string) {
    Recorded(l.latch, key) != {}
  }

  lemma NextKeepsRecords(l: Loader, e: Event, cap: Cap, key: string)
    ensures Recorded(l.latch, key) <= Recorded(Next(l, e, cap).latch, key)
  {
  }

  lemma {:induction false} RecordsOnlyGrow(l: Loader, es: seq<Event>, cap: Cap, key: string)
    ensures Recorded(l.latch, key) <= Recorded(Run(l, es, cap).latch, key)
  {
    if es != [] {
      RecordsOnlyGrow(l, es[..|es| - 1], cap, key);
      NextKeepsRecords(Run(l, es[..|es| - 1], cap), es[|es| - 1], cap, key);
    }
  }

  // Once a version's record is non-empty, no signal of that version deletes a row: whatever ran in
  // between, restarts and cleared marks included, and whatever the broker answers or PostgreSQL does.
  lemma VetoedVersionNeverPurges(l: Loader, es: seq<Event>, s: Signal, broker: BrokerAnswers, fault: Fault, cap: Cap)
    requires ExtractionKey(s).Some? && Vetoed(l, ExtractionKey(s).value)
    ensures var before := Run(l, es, cap);
            HandleSignal(before, s, broker, fault, cap).0.tables == before.tables
  {
    RecordsOnlyGrow(l, es, cap, ExtractionKey(s).value);
    TablesAfterSignal(Run(l, es, cap), s, broker, fault, cap);
  }

  // A decision that is vetoed leaves the vetoing types on the record of the signal that took it.
  lemma VetoIsRecorded(l: Loader, s: Signal, broker: BrokerAnswers, fault: Fault, cap: Cap)
    requires Decides(l, s) && ExtractionKey(s).Some?
    requires HandleSignal(l, s, broker, fault, cap).1
    ensures ExtractionKey(s).value in HandleSignal(l, s, broker, fault, cap).0.latch
    ensures Recorded(HandleSignal(l, s, broker, fault, cap).0.latch, ExtractionKey(s).value) == GatheredMarks(l, s, broker)
  {
  }

  /******* Marks *******/

  // PostgreSQL lets the veto be gathered and recorded, or there is no key to record it under.
  predicate Recordable(s: Signal, fault: Fault) {
    ExtractionKey(s).None? || fault.NoFault? || fault.TableFails?
  }

  // A reset, a restart, or a signal on a full collection that is already settled or can be recorded.
  predicate ClearsMarks(l: Loader, e: Event) {
    || e.WasReset? || e.Restarted?
    || (e.Signalled? && IsLatched(Collected(l, e.signal).purge.latch)
        && (IsSettled(Collected(l, e.signal).purge) || Recordable(e.signal, e.fault)))
  }

  // A dead-letter mark is lost exactly then: a duplicate of a settled extraction clears the marks of the
  // next one too.
  lemma MarkLostIff(l: Loader, e: Event, cap: Cap, d: DataType)
    requires d in l.purge.deadLettered
    ensures d !in Next(l, e, cap).purge.deadLettered <==> ClearsMarks(l, e)
  {
    if e.Signalled? && Decides(l, e.signal) {
      Gathered(l, e.signal, e.broker, e.fault);
    }
  }

  // No event of the run clears the marks.
  predicate KeepsMarks(l: Loader, es: seq<Event>, cap: Cap) {
    es != [] ==>
      KeepsMarks(l, es[..|es| - 1], cap) && !ClearsMarks(Run(l, es[..|es| - 1], cap), es[|es| - 1])
  }

  lemma {:induction false} MarkSurvives(l: Loader, es: seq<Event>, cap: Cap, d: DataType)
    requires d in l.purge.deadLettered && KeepsMarks(l, es, cap)
    ensures d in Run(l, es, cap).purge.deadLettered
  {
    if es != [] {
      MarkSurvives(l, es[..|es| - 1], cap, d);
      MarkLostIff(Run(l, es[..|es| - 1], cap), es[|es| - 1], cap, d);
    }
  }

  // A rejected record protects its rows for good. If nothing cleared its mark, the next keyed decision
  // deletes nothing; and once that decision is finished with, no signal of its version ever deletes, in
  // any run that follows, restarts included.
  lemma DeadLetterProtectsForGood(l: Loader, d: DataType, es: seq<Event>, s: Signal, broker: BrokerAnswers, fault: Fault,
                                  later: seq<Event>, s': Signal, broker': BrokerAnswers, fault': Fault, cap: Cap)
    requires KeepsMarks(Next(l, Rejected(d), cap), es, cap)
    requires ExtractionKey(s).Some? && ExtractionKey(s') == ExtractionKey(s)
    requires Decides(Run(Next(l, Rejected(d), cap), es, cap), s)
    ensures var m := Run(Next(l, Rejected(d), cap), es, cap);
            var (after, ok) := HandleSignal(m, s, broker, fault, cap);
            && after.tables == m.tables
            && (ok ==> d in Recorded(after.latch, ExtractionKey(s).value)
                       && HandleSignal(Run(after, later, cap), s', broker', fault', cap).0.tables == Run(after, later, cap).tables)
  {
    var marked := Next(l, Rejected(d), cap);
    MarkSurvives(marked, es, cap, d);
    var m := Run(marked, es, cap);
    assert d in GatheredMarks(m, s, broker);
    TablesAfterSignal(m, s, broker, fault, cap);
    var (after, ok) := HandleSignal(m, s, broker, fault, cap);
    if ok {
      VetoIsRecorded(m, s, broker, fault, cap);
      VetoedVersionNeverPurges(after, later, s', broker', fault', cap);
    }
  }

  /******* A veto per extraction: where it holds *******/

  // Each usable `started_at` has one key.
  predicate Named(s: Signal, keyOf: map<int, string>) {
    s.startedAt.Some? && s.startedAt.value in keyOf && ExtractionKey(s) == Some(keyOf[s.startedAt.value])
  }

  // An older signal on the boundary being collected: the latch ignores it, yet it decides that newer
  // extraction when it is full, undecided, unmarked and counted, and then consults its own record.
  predicate DecidesAsStraggler(l: Loader, s: Signal) {
    && s.startedAt.Some? && l.purge.latch.boundary.Some? && s.startedAt.value < l.purge.latch.boundary.value
    && IsLatched(l.purge.latch) && l.purge.settled != l.purge.latch.boundary
    && l.purge.deadLettered == {} && EmptyTypes(l.purge.latch) == {}
    && (ExtractionKey(s).Some? ==> Recorded(l.latch, ExtractionKey(s).value) == {})
  }

  // The table has no row older than `b`, or refuses to lose them.
  predicate Stays(t: Table, b: int, cap: Cap) {
    Refreshed(t, b) == t || !Accepts(t, b, cap)
  }

  predicate NothingToPurge(tables: Tables, b: int, cap: Cap) {
    Stays(tables.relationships, b, cap) && Stays(tables.externalLinks, b, cap)
  }

  lemma PurgeChangesIff(tables: Tables, b: int, cap: Cap)
    ensures PurgeTables(tables, b, cap) == tables <==> NothingToPurge(tables, b, cap)
  {
    PurgeKeepsExactly(tables.relationships, b, cap);
    PurgeKeepsExactly(tables.externalLinks, b, cap);
  }

  lemma PurgesIffStraggler(l: Loader, s: Signal, keyOf: map<int, string>)
    requires Named(s, keyOf)
    requires var b := Collected(l, s).purge.latch.boundary; b.Some? && b.value in keyOf && Vetoed(l, keyOf[b.value])
    ensures Purges(l, s, CLEAN_BROKER, NoFault) <==> DecidesAsStraggler(l, s)
    ensures forall broker, fault :: Purges(l, s, broker, fault) ==> Purges(l, s, CLEAN_BROKER, NoFault)
  {
    CleanBrokerMarksNothing();
    assert Collected(l, s).purge.latch.boundary == s.startedAt ==> GatheredMarks(l, s, CLEAN_BROKER) != {};
  }

  // The veto recorded for the extraction at the boundary is sure to be honoured exactly when the signal
  // does not decide as a straggler, or no table has anything to lose.
  lemma RecordedVetoHonouredIff(l: Loader, s: Signal, cap: Cap, keyOf: map<int, string>)
    requires Named(s, keyOf)
    requires var b := Collected(l, s).purge.latch.boundary; b.Some? && b.value in keyOf && Vetoed(l, keyOf[b.value])
    ensures (forall broker, fault :: HandleSignal(l, s, broker, fault, cap).0.tables == l.tables) <==>
            (!DecidesAsStraggler(l, s) || NothingToPurge(l.tables, Collected(l, s).purge.latch.boundary.value, cap))
  {
    var b := Collected(l, s).purge.latch.boundary.value;
    PurgesIffStraggler(l, s, keyOf);
    PurgeChangesIff(l.tables, b, cap);
    forall broker, fault
      ensures HandleSignal(l, s, broker, fault, cap).0.tables
              == if Purges(l, s, broker, fault) then PurgeTables(l.tables, b, cap) else l.tables
    {
      TablesAfterSignal(l, s, broker, fault, cap);
    }
  }

  // A vetoed extraction's own signals are harmless at every later point of a run, whatever the boundary.
  lemma OwnSignalsHonourTheRecord(l: Loader, es: seq<Event>, s: Signal, broker: BrokerAnswers, fault: Fault, cap: Cap,
                                  keyOf: map<int, string>)
    requires Named(s, keyOf) && Vetoed(l, keyOf[s.startedAt.value])
    ensures HandleSignal(Run(l, es, cap), s, broker, fault, cap).0.tables == Run(l, es, cap).tables
  {
    VetoedVersionNeverPurges(l, es, s, broker, fault, cap);
  }

  /******* Records written or vetoed *******/

  lemma {:induction false} CommittedRowsAreFresh(l: Loader, es: seq<Event>, e: Event, cap: Cap, b: int, name: TableName, d: Derived)
    requires SignalsUpTo(es, b) && CommitsFrom(es, b) && NotAbove(l.purge.latch.boundary, Some(b))
    requires e in es && e.Committed? && d in RecordRows(e.record, name)
    ensures HoldsFresh(Run(l, es, cap), b, name, d.key)
  {
    var init, last := es[..|es| - 1], es[|es| - 1];
    assert last in es && (forall x :: x in init ==> x in es) && (e in init || e == last);
    if e in init {
      CommittedRowsAreFresh(l, init, e, cap, b, name, d);
      NextKeepsFresh(Run(l, init, cap), last, cap, b, name, d.key);
    } else {
      BoundaryUpTo(l, init, cap, b);
      CommitIsFresh(Run(l, init, cap).tables.Get(name), RecordRows(e.record, name), e.now, d);
    }
  }

  lemma CommitIsFresh(t: Table, rows: seq<Derived>, now: int, d: Derived)
    requires d in rows
    ensures var t' := UpsertAll(t, rows, now, true); d.key in t' && t'[d.key].updatedAt == now
  {
    UpsertsAreMerge(t, rows, now);
    UpsertedRows(rows, now);
    assert d.key in KeysOf(set x | x in rows);
  }

  lemma {:induction false} BoundaryUpTo(l: Loader, es: seq<Event>, cap: Cap, b: int)
    requires SignalsUpTo(es, b) && NotAbove(l.purge.latch.boundary, Some(b))
    ensures NotAbove(Run(l, es, cap).purge.latch.boundary, Some(b))
  {
    if es != [] {
      var init, e := es[..|es| - 1], es[|es| - 1];
      assert e in es && forall x :: x in init ==> x in es;
      BoundaryUpTo(l, init, cap, b);
      if e.Signalled? {
        BoundaryAfterSignal(Run(l, init, cap), e.signal, e.broker, e.fault, cap);
      }
    }
  }

  // A record is safe in every run of its extraction once it is written or visibly missing: if it was
  // committed, or its type is marked in memory, on the signal's record or by the broker, no signal up to
  // `b` deletes a row it derives.
  lemma WrittenOrVetoedRowsAreSafe(l: Loader, es: seq<Event>, r: Record, s: Signal, broker: BrokerAnswers, fault: Fault,
                                   cap: Cap, b: int, name: TableName, d: Derived)
    requires SignalsUpTo(es, b) && CommitsFrom(es, b) && NotAbove(l.purge.latch.boundary, Some(b))
    requires NotAbove(s.startedAt, Some(b)) && d in RecordRows(r, name)
    requires (exists e :: e in es && e.Committed? && e.record == r) || r.dataType in GatheredMarks(Run(l, es, cap), s, broker)
    requires d.key in Run(l, es, cap).tables.Get(name)
    ensures var t, t' := Run(l, es, cap).tables.Get(name), HandleSignal(Run(l, es, cap), s, broker, fault, cap).0.tables.Get(name);
            d.key in t' && t'[d.key] == t[d.key]
  {
    DeletedExactlyWhen(Run(l, es, cap), s, broker, fault, cap, name, d.key);
    if e :| e in es && e.Committed? && e.record == r {
      CommittedRowsAreFresh(l, es, e, cap, b, name, d);
    }
  }

  /******* A straggler bypasses the record *******/

  // The rejected record in its dead-letter queue.
  const ONE_DEAD_LETTER: BrokerAnswers := map[Artists := 1, Labels := 0, ReleaseGroups := 0, Releases := 0]

  // A process that latched the newer extraction, was vetoed by a dead letter, restarted once that was
  // cleared, collected the extraction again, and failed to read the record on its fourth signal.
  function UpToTheVeto(newer: int, key: string): seq<Event> {
    CleanSignals(newer, key)[..3] + [Rejected(Artists)] + [VetoedSignal(newer, key)]
  }

  function VetoedSignal(at: int, key: string): Event {
    Signalled(SignalFor(Releases, at, key), ONE_DEAD_LETTER, NoFault)
  }

  function UpToTheFailure(newer: int, key: string): seq<Event> {
    UpToTheVeto(newer, key) + [Restarted] + CleanSignals(newer, key)[..3]
    + [Signalled(SignalFor(Releases, newer, key), CLEAN_BROKER, LatchReadFails)]
  }

  // From a new process over any tables, this run reaches a recorded veto that a redelivered signal of an
  // older extraction then purges past; it deletes rows unless neither table has anything to lose.
  lemma StragglerBypassesTheRecord(tables: Tables, older: int, newer: int, olderKey: string, newerKey: string, cap: Cap)
    requires older < newer && olderKey != "" && newerKey != "" && olderKey != newerKey
    ensures var before := Run(Loader(NEW_PURGE, tables, map[]), UpToTheFailure(newer, newerKey), cap);
            var after := Next(before, CleanSignal(Releases, older, olderKey), cap);
            && before.tables == tables && Vetoed(before, newerKey) && before.purge.latch.boundary == Some(newer)
            && after.tables == PurgeTables(tables, newer, cap) && after.purge.settled == Some(newer)
            && (after.tables != tables <==> !NothingToPurge(tables, newer, cap))
  {
    var l := Loader(NEW_PURGE, tables, map[]);
    ReachesTheVeto(l, newer, newerKey, cap);
    var vetoed := UpToTheVeto(newer, newerKey);
    RunSnoc(l, vetoed, Restarted, cap);
    SignalsCollect(l, vetoed + [Restarted], 3, newer, newerKey, cap);
    var again := vetoed + [Restarted] + CleanSignals(newer, newerKey)[..3];
    RunSnoc(l, again, Signalled(SignalFor(Releases, newer, newerKey), CLEAN_BROKER, LatchReadFails), cap);
    FailsToRead(Run(l, again, cap), newer, newerKey, cap);
    StragglerDecides(Run(l, UpToTheFailure(newer, newerKey), cap), older, newer, olderKey, cap);
    PurgeChangesIff(tables, newer, cap);
  }

  lemma ReachesTheVeto(l: Loader, newer: int, key: string, cap: Cap)
    requires l.purge == NEW_PURGE && l.latch == map[] && key != ""
    ensures var m := Run(l, UpToTheVeto(newer, key), cap); m.tables == l.tables && m.latch == map[key := {Artists}]
  {
    var three := CleanSignals(newer, key)[..3];
    assert [] + three == three;
    SignalsCollect(l, [], 3, newer, key, cap);
    RunSnoc(l, three, Rejected(Artists), cap);
    RunSnoc(l, three + [Rejected(Artists)], VetoedSignal(newer, key), cap);
    VetoedDecision(Run(l, three + [Rejected(Artists)], cap), newer, key, cap);
  }

  lemma VetoedDecision(m: Loader, at: int, key: string, cap: Cap)
    requires m.purge == PurgeState(Latch(Some(at), Ones(3)), {Artists}, None) && m.latch == map[] && key != ""
    ensures var m' := Next(m, VetoedSignal(at, key), cap); m'.tables == m.tables && m'.latch == map[key := {Artists}]
  {
    var s := SignalFor(Releases, at, key);
    OnesAreThree();
    assert Collected(m, s).purge.latch.signals.Keys == ALL_TYPES;
    assert BrokerMarks(ONE_DEAD_LETTER) <= {Artists};
    assert GatheredMarks(m, s, ONE_DEAD_LETTER) == {Artists};
    GoodDecision(m, s, ONE_DEAD_LETTER, cap);
  }

  lemma FailsToRead(m: Loader, at: int, key: string, cap: Cap)
    requires m.purge == PurgeState(Latch(Some(at), Ones(3)), {}, None) && key != ""
    ensures Next(m, Signalled(SignalFor(Releases, at, key), CLEAN_BROKER, LatchReadFails), cap)
            == m.(purge := PurgeState(Latch(Some(at), Ones(3)[Releases := Some(1)]), {}, None))
  {
    CleanBrokerMarksNothing();
    OnesAreThree();
    assert Collected(m, SignalFor(Releases, at, key)).purge.latch.signals.Keys == ALL_TYPES;
    assert {} + BrokerMarks(CLEAN_BROKER) == {};
  }

  lemma StragglerDecides(m: Loader, older: int, newer: int, olderKey: string, cap: Cap)
    requires m.purge == PurgeState(Latch(Some(newer), Ones(3)[Releases := Some(1)]), {}, None)
    requires older < newer && olderKey != "" && Recorded(m.latch, olderKey) == {}
    ensures var m' := Next(m, CleanSignal(Releases, older, olderKey), cap);
            m'.tables == PurgeTables(m.tables, newer, cap) && m'.purge.settled == Some(newer)
  {
    var s := SignalFor(Releases, older, olderKey);
    OnesAreThree();
    CleanBrokerMarksNothing();
    assert m.purge.latch.signals.Keys == ALL_TYPES;
    assert GatheredMarks(m, s, CLEAN_BROKER) == {};
    assert EmptyTypes(Collected(m, s).purge.latch) == {};
    GoodDecision(m, s, CLEAN_BROKER, cap);
  }
}
