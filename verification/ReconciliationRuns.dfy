/**
 Whole runs of the reconciliation: records, dead letters, signals with their broker answers and
 faults, resets and process restarts, in any order.
 */
module ReconciliationRuns {
  import opened Wrappers
  import opened ChildRows
  import opened Convergence
  import opened Latch
  import opened StalePurge
  import opened Store
  import opened Reconciliation

  datatype Event =
    | Committed(record: Record, now: int)
    | Rejected(dataType: DataType)
    | Signalled(signal: Signal, broker: BrokerAnswers, fault: Fault)
    | WasReset
    | Restarted

  function Next(l: Loader, e: Event, cap: Cap): Loader {
    match e
    case Committed(r, now) => l.(tables := CommitRecord(l.tables, r, now, true))
    case Rejected(d) => Mark(l, {d})
    case Signalled(s, broker, fault) => HandleSignal(l, s, broker, fault, cap).0
    case WasReset => l.(purge := l.purge.(latch := UNLATCHED, deadLettered := {}))
    case Restarted => l.(purge := NEW_PURGE)
  }

  function Run(l: Loader, es: seq<Event>, cap: Cap): Loader {
    if es == [] then l else Next(Run(l, es[..|es| - 1], cap), es[|es| - 1], cap)
  }

  lemma RunSnoc(l: Loader, es: seq<Event>, e: Event, cap: Cap)
    ensures Run(l, es + [e], cap) == Next(Run(l, es, cap), e, cap)
  {
    assert (es + [e])[..|es|] == es;
  }

  /******* Exactly when a signal deletes *******/

  function Collected(l: Loader, s: Signal): Loader {
    l.(purge := AfterCompletion(l.purge, s))
  }

  // The signal completes a collection that has not been decided.
  predicate Decides(l: Loader, s: Signal) {
    var p := Collected(l, s).purge;
    IsLatched(p.latch) && !IsSettled(p)
  }

  // Everything the decision gathers: this process's marks, the broker's, and the stored record.
  function GatheredMarks(l: Loader, s: Signal, broker: BrokerAnswers): set<DataType> {
    var key := ExtractionKey(s);
    l.purge.deadLettered + BrokerMarks(broker) + if key.Some? then Recorded(l.latch, key.value) else {}
  }

  // PostgreSQL answers every statement an unvetoed decision issues.
  predicate Reaches(s: Signal, fault: Fault) {
    fault.NoFault? || (ExtractionKey(s).None? && (fault.LatchReadFails? || fault.LatchWriteFails?))
  }

  predicate Purges(l: Loader, s: Signal, broker: BrokerAnswers, fault: Fault) {
    && Decides(l, s) && Reaches(s, fault)
    && GatheredMarks(l, s, broker) == {}
    && EmptyTypes(Collected(l, s).purge.latch) == {}
  }

  function WithRecord(latch: VetoLatch, s: Signal, marks: set<DataType>): VetoLatch {
    var key := ExtractionKey(s);
    if key.Some? then latch[key.value := marks] else latch
  }

  // What gathering the veto does before an undecided extraction is decided.
  lemma Gathered(l: Loader, s: Signal, broker: BrokerAnswers, fault: Fault)
    requires Decides(l, s)
    ensures var (g, ok) := SettlePurgeVeto(Collected(l, s), s, broker, fault);
            && (ok <==> ExtractionKey(s).None? || fault.NoFault? || fault.TableFails?)
            && g.tables == l.tables
            && g.purge == Collected(l, s).purge.(deadLettered := g.purge.deadLettered)
            && l.purge.deadLettered + BrokerMarks(broker) <= g.purge.deadLettered <= GatheredMarks(l, s, broker)
            && (if ok then g.purge.deadLettered == GatheredMarks(l, s, broker)
                           && g.latch == WithRecord(l.latch, s, GatheredMarks(l, s, broker))
                else g.latch == l.latch)
  {
    var memory := l.purge.deadLettered + BrokerMarks(broker);
    assert memory + {} == memory;
    if ExtractionKey(s).Some? {
      var stored := Recorded(l.latch, ExtractionKey(s).value);
      assert stored + (memory + stored) == memory + stored;
    }
  }

  // A delivery that meets no fault decides the extraction: the marks it gathered are recorded, the
  // boundary settled, and the tables purged unless something vetoed.
  lemma GoodDecision(l: Loader, s: Signal, broker: BrokerAnswers, cap: Cap)
    requires Decides(l, s)
    ensures var p := Collected(l, s).purge;
            HandleSignal(l, s, broker, NoFault, cap) == (
              Loader(PurgeState(p.latch, {}, p.latch.boundary),
                     if Purges(l, s, broker, NoFault) then PurgeTables(l.tables, p.latch.boundary.value, cap) else l.tables,
                     WithRecord(l.latch, s, GatheredMarks(l, s, broker))),
              true)
  {
    Gathered(l, s, broker, NoFault);
  }

  // The tables after a signal: purged at the latched boundary under one condition, otherwise untouched.
  lemma TablesAfterSignal(l: Loader, s: Signal, broker: BrokerAnswers, fault: Fault, cap: Cap)
    ensures var l' := HandleSignal(l, s, broker, fault, cap).0;
            l'.tables == if Purges(l, s, broker, fault)
                         then PurgeTables(l.tables, Collected(l, s).purge.latch.boundary.value, cap)
                         else l.tables
  {
    if Decides(l, s) {
      Gathered(l, s, broker, fault);
    }
  }

  // A row disappears exactly when the purge runs, the row predates the boundary, and its table is
  // under the cap; a row that stays is unchanged.
  lemma DeletedExactlyWhen(l: Loader, s: Signal, broker: BrokerAnswers, fault: Fault, cap: Cap, name: TableName, k: ChildKey)
    requires k in l.tables.Get(name)
    ensures var t, t' := l.tables.Get(name), HandleSignal(l, s, broker, fault, cap).0.tables.Get(name);
            && (k !in t' <==>
                  && Purges(l, s, broker, fault)
                  && t[k].updatedAt < Collected(l, s).purge.latch.boundary.value
                  && Accepts(t, Collected(l, s).purge.latch.boundary.value, cap))
            && (k in t' ==> t'[k] == t[k])
  {
    TablesAfterSignal(l, s, broker, fault, cap);
    PurgeKeepsExactly(l.tables.Get(name), Collected(l, s).purge.latch.boundary.GetOr(0), cap);
  }

  /******* Purge safety on every reachable state *******/

  predicate SignalsUpTo(es: seq<Event>, b: int) {
    forall e :: e in es && e.Signalled? ==> NotAbove(e.signal.startedAt, Some(b))
  }

  predicate CommitsFrom(es: seq<Event>, b: int) {
    forall e :: e in es && e.Committed? ==> e.now >= b
  }

  ghost predicate HoldsFresh(l: Loader, b: int, name: TableName, k: ChildKey) {
    && NotAbove(l.purge.latch.boundary, Some(b))
    && k in l.tables.Get(name) && l.tables.Get(name)[k].updatedAt >= b
  }

  lemma NextKeepsFresh(l: Loader, e: Event, cap: Cap, b: int, name: TableName, k: ChildKey)
    requires HoldsFresh(l, b, name, k) && SignalsUpTo([e], b) && CommitsFrom([e], b)
    ensures HoldsFresh(Next(l, e, cap), b, name, k)
  {
    assert e in [e];
    match e {
      case Committed(r, now) => CommitKeepsFresh(l.tables.Get(name), RecordRows(r, name), now, b, k);
      case Signalled(s, broker, fault) =>
        DeletedExactlyWhen(l, s, broker, fault, cap, name, k);
        BoundaryAfterSignal(l, s, broker, fault, cap);
      case _ =>
    }
  }

  lemma BoundaryAfterSignal(l: Loader, s: Signal, broker: BrokerAnswers, fault: Fault, cap: Cap)
    ensures HandleSignal(l, s, broker, fault, cap).0.purge.latch == Collected(l, s).purge.latch
  {
  }

  // A row refreshed at or after `b` outlives every run that decides nothing past `b`.
  lemma {:induction false} FreshRowsSurvive(l: Loader, es: seq<Event>, cap: Cap, b: int, name: TableName, k: ChildKey)
    requires SignalsUpTo(es, b) && CommitsFrom(es, b) && HoldsFresh(l, b, name, k)
    ensures HoldsFresh(Run(l, es, cap), b, name, k)
  {
    if es != [] {
      var init, e := es[..|es| - 1], es[|es| - 1];
      assert e in es && forall x :: x in init ==> x in es;
      FreshRowsSurvive(l, init, cap, b, name, k);
      NextKeepsFresh(Run(l, init, cap), e, cap, b, name, k);
    }
  }

  lemma CommitKeepsFresh(t: Table, ds: seq<Derived>, now: int, b: int, k: ChildKey)
    requires now >= b && k in t && t[k].updatedAt >= b
    ensures var t' := UpsertAll(t, ds, now, true); k in t' && t'[k].updatedAt >= b
  {
    UpsertsAreMerge(t, ds, now);
    UpsertedRows(ds, now);
  }

  // So a relationship re-sent during the extraction survives it, from whichever endpoint it came.
  lemma ResentRowsSurvive(l: Loader, r: Record, now: int, es: seq<Event>, cap: Cap, b: int, name: TableName, d: Derived)
    requires SignalsUpTo(es, b) && CommitsFrom(es, b) && NotAbove(l.purge.latch.boundary, Some(b))
    requires now >= b && d in RecordRows(r, name)
    ensures d.key in Run(Next(l, Committed(r, now), cap), es, cap).tables.Get(name)
  {
    var rows := RecordRows(r, name);
    UpsertsAreMerge(l.tables.Get(name), rows, now);
    UpsertedRows(rows, now);
    assert d.key in KeysOf(set x | x in rows);
    FreshRowsSurvive(Next(l, Committed(r, now), cap), es, cap, b, name, d.key);
  }

  /******* The latch of a run *******/

  // What a run does to the latch; a restart forgets what a reset does.
  function LatchEvents(es: seq<Event>): seq<LatchEvent> {
    if es == [] then []
    else
      var e := es[|es| - 1];
      LatchEvents(es[..|es| - 1])
      + if e.Signalled? then [Completion(e.signal)] else if e.WasReset? || e.Restarted? then [Reset] else []
  }

  lemma CollectSnoc(l: Latch, h: seq<LatchEvent>, e: LatchEvent)
    ensures Collect(l, h + [e]) == Step(Collect(l, h), e)
  {
    assert (h + [e])[..|h|] == h;
  }

  lemma NextCollects(l: Loader, e: Event, cap: Cap)
    ensures Next(l, e, cap).purge.latch
            == if e.Signalled? then Step(l.purge.latch, Completion(e.signal))
               else if e.WasReset? || e.Restarted? then UNLATCHED else l.purge.latch
  {
    if e.Signalled? {
      BoundaryAfterSignal(l, e.signal, e.broker, e.fault, cap);
    }
  }

  // The latch of any run is its signals, resets and restarts collected.
  lemma {:induction false} RunCollects(l: Loader, es: seq<Event>, cap: Cap)
    ensures Run(l, es, cap).purge.latch == Collect(l.purge.latch, LatchEvents(es))
  {
    if es != [] {
      var init, e := es[..|es| - 1], es[|es| - 1];
      RunCollects(l, init, cap);
      NextCollects(Run(l, init, cap), e, cap);
      if e.Signalled? {
        CollectSnoc(l.purge.latch, LatchEvents(init), Completion(e.signal));
      } else if e.WasReset? || e.Restarted? {
        CollectSnoc(l.purge.latch, LatchEvents(init), Reset);
      } else {
        assert LatchEvents(es) == LatchEvents(init);
      }
    }
  }

  // So what a process has collected is always the declarative reading of what it has seen.
  lemma RunMeetsItsReading(tables: Tables, latch: VetoLatch, es: seq<Event>, cap: Cap)
    ensures LatchedState(LatchEvents(es), Run(Loader(NEW_PURGE, tables, latch), es, cap).purge.latch)
  {
    RunCollects(Loader(NEW_PURGE, tables, latch), es, cap);
    LatchMeetsItsReading(LatchEvents(es));
  }

  lemma {:induction false} LatchEventsAppend(es: seq<Event>, more: seq<Event>)
    ensures LatchEvents(es + more) == LatchEvents(es) + LatchEvents(more)
  {
    if more == [] {
      assert es + more == es;
    } else {
      LatchEventsAppend(es, more[..|more| - 1]);
      assert (es + more)[..|es + more| - 1] == es + more[..|more| - 1];
    }
  }

  lemma {:induction false} CollectAppend(l: Latch, h: seq<LatchEvent>, g: seq<LatchEvent>)
    ensures Collect(l, h + g) == Collect(Collect(l, h), g)
  {
    if g == [] {
      assert h + g == h;
    } else {
      CollectAppend(l, h, g[..|g| - 1]);
      assert (h + g)[..|h + g| - 1] == h + g[..|g| - 1];
    }
  }

  /******* A restart only narrows *******/

  lemma {:induction false} NothingLatchedNothingCollected(h: seq<LatchEvent>)
    ensures Collect(UNLATCHED, h).boundary.None? ==> Collect(UNLATCHED, h).signals == map[]
  {
    if h != [] {
      NothingLatchedNothingCollected(h[..|h| - 1]);
    }
  }

  // Restart a process anywhere in any run of its life: whatever row a later signal then deletes is older
  // than the boundary the unrestarted process would have had at that signal.
  lemma RestartedDeletesOnlyStale(tables: Tables, latch: VetoLatch, es: seq<Event>, more: seq<Event>,
                                  s: Signal, broker: BrokerAnswers, fault: Fault, cap: Cap, name: TableName, k: ChildKey)
    requires var restarted := Run(Loader(NEW_PURGE, tables, latch), es + [Restarted] + more, cap);
             k in restarted.tables.Get(name) && k !in HandleSignal(restarted, s, broker, fault, cap).0.tables.Get(name)
    ensures var l := Loader(NEW_PURGE, tables, latch);
            var restarted, kept := Run(l, es + [Restarted] + more, cap), Collected(Run(l, es + more, cap), s).purge.latch.boundary;
            kept.Some? && restarted.tables.Get(name)[k].updatedAt < kept.value
  {
    var l := Loader(NEW_PURGE, tables, latch);
    DeletedExactlyWhen(Run(l, es + [Restarted] + more, cap), s, broker, fault, cap, name, k);
    RestartLowersTheBoundary(l, es, more, s, cap);
  }

  // At any later signal, the boundary after a restart is never above the one without it.
  lemma RestartLowersTheBoundary(l: Loader, es: seq<Event>, more: seq<Event>, s: Signal, cap: Cap)
    requires l.purge.latch == UNLATCHED
    ensures NotAbove(Collected(Run(l, es + [Restarted] + more, cap), s).purge.latch.boundary,
                     Collected(Run(l, es + more, cap), s).purge.latch.boundary)
  {
    var h, g := LatchEvents(es), LatchEvents(more);
    RunCollects(l, es + [Restarted] + more, cap);
    RunCollects(l, es + more, cap);
    RestartSplits(es, more);
    CollectAppend(UNLATCHED, h, g);
    CollectAppend(UNLATCHED, h + [Reset], g);
    CollectSnoc(UNLATCHED, h, Reset);
    NothingLatchedNothingCollected(h);
    RestartOnlyNarrows(Collect(UNLATCHED, h), g + [Completion(s)]);
    CollectSnoc(UNLATCHED, g, Completion(s));
    CollectSnoc(Collect(UNLATCHED, h), g, Completion(s));
  }

  lemma RestartSplits(es: seq<Event>, more: seq<Event>)
    ensures LatchEvents(es + more) == LatchEvents(es) + LatchEvents(more)
    ensures LatchEvents(es + [Restarted] + more) == LatchEvents(es) + [Reset] + LatchEvents(more)
  {
    LatchEventsAppend(es, more);
    LatchEventsAppend(es + [Restarted], more);
    assert (es + [Restarted])[..|es|] == es;
  }

  const CLEAN_BROKER: BrokerAnswers := map[Artists := 0, Labels := 0, ReleaseGroups := 0, Releases := 0]

  lemma CleanBrokerMarksNothing()
    ensures BrokerMarks(CLEAN_BROKER) == {}
  {
    forall d: DataType ensures d !in BrokerMarks(CLEAN_BROKER) {
      match d { case Artists => case Labels => case ReleaseGroups => case Releases => }
    }
  }

  /******* A clean collection *******/

  function SignalFor(d: DataType, startedAt: int, version: string): Signal {
    Signal(d, Some(startedAt), Some(1), version, "")
  }

  function CleanSignal(d: DataType, startedAt: int, key: string): Event {
    Signalled(SignalFor(d, startedAt, key), CLEAN_BROKER, NoFault)
  }

  function CleanSignals(startedAt: int, key: string): seq<Event> {
    [CleanSignal(Artists, startedAt, key), CleanSignal(Labels, startedAt, key),
     CleanSignal(ReleaseGroups, startedAt, key), CleanSignal(Releases, startedAt, key)]
  }

  // A signal that collects a type without completing the collection.
  lemma SignalCollects(m: Loader, d: DataType, at: int, key: string, cap: Cap)
    requires NotAbove(m.purge.latch.boundary, Some(at)) && d != Releases
    requires m.purge.latch.boundary == Some(at) ==> Releases !in m.purge.latch.signals
    ensures Next(m, CleanSignal(d, at, key), cap)
            == m.(purge := m.purge.(latch := Latch(Some(at), SignalledSoFar(m, at)[d := Some(1)])))
  {
    assert Releases in ALL_TYPES;
  }

  function SignalledSoFar(l: Loader, at: int): map<DataType, Option<int>> {
    if l.purge.latch.boundary == Some(at) then l.purge.latch.signals else map[]
  }

  // The first `n` types, one record each.
  function Ones(n: nat): (m: map<DataType, Option<int>>)
    requires n <= 3
    ensures Releases !in m
  {
    if n == 0 then map[] else Ones(n - 1)[DATA_TYPES[n - 1] := Some(1)]
  }

  lemma OnesAreThree()
    ensures Ones(3) == map[Artists := Some(1), Labels := Some(1), ReleaseGroups := Some(1)]
  {
    assert Ones(2) == map[Artists := Some(1), Labels := Some(1)] && Ones(1) == map[Artists := Some(1)];
  }

  // After any run, the first `n` signals of an extraction that is not yet collected.
  lemma {:induction false} SignalsCollect(l: Loader, es: seq<Event>, n: nat, at: int, key: string, cap: Cap)
    requires NotAbove(Run(l, es, cap).purge.latch.boundary, Some(at)) && Run(l, es, cap).purge.latch.boundary != Some(at)
    requires 1 <= n <= 3
    ensures var m := Run(l, es, cap);
            Run(l, es + CleanSignals(at, key)[..n], cap) == m.(purge := m.purge.(latch := Latch(Some(at), Ones(n))))
  {
    var before := es + CleanSignals(at, key)[..n - 1];
    if n == 1 {
      assert before == es;
    } else {
      SignalsCollect(l, es, n - 1, at, key, cap);
    }
    var e := CleanSignal(DATA_TYPES[n - 1], at, key);
    assert es + CleanSignals(at, key)[..n] == before + [e];
    RunSnoc(l, before, e, cap);
    SignalCollects(Run(l, before, cap), DATA_TYPES[n - 1], at, key, cap);
  }

  /******* Failed attempts *******/

  // A delivery that must be requeued left tables and settled boundary alone, lost no mark and no record,
  // and added nothing to the latch but its own signal.
  lemma FailureChangesNothingDurable(l: Loader, s: Signal, broker: BrokerAnswers, fault: Fault, cap: Cap)
    requires !HandleSignal(l, s, broker, fault, cap).1
    ensures var l' := HandleSignal(l, s, broker, fault, cap).0;
            && l'.tables == l.tables
            && l'.purge.latch == Collected(l, s).purge.latch && l'.purge.settled == l.purge.settled
            && l.purge.deadLettered <= l'.purge.deadLettered
            && forall key :: Recorded(l.latch, key) <= Recorded(l'.latch, key)
  {
  }

  function Attempts(l: Loader, s: Signal, broker: BrokerAnswers, faults: seq<Fault>, cap: Cap): Loader {
    if faults == [] then l
    else HandleSignal(Attempts(l, s, broker, faults[..|faults| - 1], cap), s, broker, faults[|faults| - 1], cap).0
  }

  // What a failed attempt leaves for the next one to gather.
  lemma FailedAttempt(l: Loader, s: Signal, broker: BrokerAnswers, fault: Fault, cap: Cap)
    requires !HandleSignal(l, s, broker, fault, cap).1
    ensures var first := HandleSignal(l, s, broker, fault, cap).0;
            && Decides(l, s) && Decides(first, s)
            && Collected(first, s).purge.latch == Collected(l, s).purge.latch
            && first.tables == l.tables
            && GatheredMarks(first, s, broker) == GatheredMarks(l, s, broker)
            && WithRecord(first.latch, s, GatheredMarks(l, s, broker)) == WithRecord(l.latch, s, GatheredMarks(l, s, broker))
  {
    BoundaryAfterSignal(l, s, broker, fault, cap);
    Gathered(l, s, broker, fault);
  }

  // An attempt that was not requeued leaves nothing for its redelivery to do.
  lemma DuplicateIsHarmless(l: Loader, s: Signal, broker: BrokerAnswers, fault: Fault, cap: Cap)
    requires HandleSignal(l, s, broker, fault, cap).1
    ensures var first := HandleSignal(l, s, broker, fault, cap).0;
            HandleSignal(first, s, broker, NoFault, cap).0 == first
  {
    BoundaryAfterSignal(l, s, broker, fault, cap);
    var first := HandleSignal(l, s, broker, fault, cap).0;
    assert Collected(first, s).purge.latch == Collected(l, s).purge.latch;
    assert Collected(first, s) == first;
  }

  // An attempt that went through although PostgreSQL was failing needed nothing from it.
  lemma UnaffectedAttempt(l: Loader, s: Signal, broker: BrokerAnswers, fault: Fault, cap: Cap)
    requires HandleSignal(l, s, broker, fault, cap).1
    ensures HandleSignal(l, s, broker, fault, cap).0 == HandleSignal(l, s, broker, NoFault, cap).0
  {
    if Decides(l, s) {
      Gathered(l, s, broker, fault);
      Gathered(l, s, broker, NoFault);
    }
  }

  // Redelivering a signal after one attempt, failed or not, ends where a single good attempt does.
  lemma OneAttemptIsInvisible(l: Loader, s: Signal, broker: BrokerAnswers, fault: Fault, cap: Cap)
    ensures HandleSignal(HandleSignal(l, s, broker, fault, cap).0, s, broker, NoFault, cap).0
            == HandleSignal(l, s, broker, NoFault, cap).0
  {
    if HandleSignal(l, s, broker, fault, cap).1 {
      DuplicateIsHarmless(l, s, broker, fault, cap);
      UnaffectedAttempt(l, s, broker, fault, cap);
    } else {
      FailedAttempt(l, s, broker, fault, cap);
      GoodDecision(l, s, broker, cap);
      GoodDecision(HandleSignal(l, s, broker, fault, cap).0, s, broker, cap);
    }
  }

  // Any number of attempts against one broker answer, then a success: the same state as one success.
  lemma {:induction false} FailedAttemptsAreInvisible(l: Loader, s: Signal, broker: BrokerAnswers, faults: seq<Fault>, cap: Cap)
    ensures HandleSignal(Attempts(l, s, broker, faults, cap), s, broker, NoFault, cap).0
            == HandleSignal(l, s, broker, NoFault, cap).0
  {
    if faults != [] {
      var init := faults[..|faults| - 1];
      OneAttemptIsInvisible(Attempts(l, s, broker, init, cap), s, broker, faults[|faults| - 1], cap);
      FailedAttemptsAreInvisible(l, s, broker, init, cap);
    }
  }
}
