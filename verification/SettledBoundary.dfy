/** Which extractions a run decides, and exactly when a boundary already decided is refused. */
module SettledBoundary {
  import opened Wrappers
  import opened ChildRows
  import opened Latch
  import opened StalePurge
  import opened Store
  import opened Reconciliation
  import opened ReconciliationRuns

  /******* Decisions are strictly increasing *******/

  // The boundary a delivery finishes with, purged or vetoed.
  function Decision(l: Loader, e: Event, cap: Cap): Option<int> {
    if e.Signalled? && Decides(l, e.signal) && HandleSignal(l, e.signal, e.broker, e.fault, cap).1
    then Collected(l, e.signal).purge.latch.boundary
    else None
  }

  function Taken(l: Loader, e: Event, cap: Cap): seq<int> {
    var d := Decision(l, e, cap);
    if d.Some? then [d.value] else []
  }

  function Decisions(l: Loader, es: seq<Event>, cap: Cap): seq<int> {
    if es == [] then []
    else
      var init := es[..|es| - 1];
      Decisions(l, init, cap) + Taken(Run(l, init, cap), es[|es| - 1], cap)
  }

  // No reset, no restart, and every signal names a usable start.
  predicate Uninterrupted(e: Event) {
    !e.WasReset? && !e.Restarted? && (e.Signalled? ==> e.signal.startedAt.Some?)
  }

  lemma NextDecides(l: Loader, e: Event, cap: Cap)
    requires Uninterrupted(e)
    ensures var l', d := Next(l, e, cap), Decision(l, e, cap);
            && NotAbove(l.purge.latch.boundary, l'.purge.latch.boundary)
            && (if d.Some? then l'.purge.settled == l'.purge.latch.boundary == d && l.purge.settled != d
                else l'.purge.settled == l.purge.settled)
  {
    SettledAfter(l, e, cap);
    if e.Signalled? {
      BoundaryAfterSignal(l, e.signal, e.broker, e.fault, cap);
    }
  }

  predicate Increasing(ds: seq<int>) {
    forall i, j :: 0 <= i < j < |ds| ==> ds[i] < ds[j]
  }

  predicate NotBehind(p: PurgeState) {
    NotAbove(p.settled, p.latch.boundary)
  }

  // Deciding `ds` led from `start` to `now` in order. Where the boundary was not behind the settled one,
  // it never falls behind, and the first decision passes the settled one too.
  predicate InOrder(start: PurgeState, ds: seq<int>, now: PurgeState) {
    && NotAbove(start.latch.boundary, now.latch.boundary)
    && Increasing(ds)
    && (if ds == [] then now.settled == start.settled else now.settled == Some(ds[|ds| - 1]) && NotBehind(now))
    && (NotBehind(start) ==> NotBehind(now) && (ds != [] ==> !NotAbove(Some(ds[0]), start.settled)))
  }

  lemma NextStaysInOrder(start: PurgeState, ds: seq<int>, l: Loader, e: Event, cap: Cap)
    requires Uninterrupted(e) && InOrder(start, ds, l.purge)
    ensures InOrder(start, ds + Taken(l, e, cap), Next(l, e, cap).purge)
  {
    NextDecides(l, e, cap);
    if Decision(l, e, cap).None? {
      assert ds + Taken(l, e, cap) == ds;
    }
  }

  // From any state, also one left by a reset or an unusable start: until the next clearing event the
  // boundary never drops and decisions strictly increase, each settling the boundary it decided.
  lemma {:induction false} DecisionsIncrease(l: Loader, es: seq<Event>, cap: Cap)
    requires forall e :: e in es ==> Uninterrupted(e)
    ensures InOrder(l.purge, Decisions(l, es, cap), Run(l, es, cap).purge)
  {
    if es != [] {
      var init, e := es[..|es| - 1], es[|es| - 1];
      assert e in es && forall x :: x in init ==> x in es;
      DecisionsIncrease(l, init, cap);
      NextStaysInOrder(l.purge, Decisions(l, init, cap), Run(l, init, cap), e, cap);
    }
  }

  /******* Exactly which boundary is refused *******/

  // The last boundary this process decided, or the one it started with.
  function LastDecided(l: Loader, es: seq<Event>, cap: Cap): Option<int> {
    if es == [] then l.purge.settled
    else
      var init, e := es[..|es| - 1], es[|es| - 1];
      if e.Restarted? then None
      else if Decision(Run(l, init, cap), e, cap).Some? then Decision(Run(l, init, cap), e, cap)
      else LastDecided(l, init, cap)
  }

  lemma SettledAfter(l: Loader, e: Event, cap: Cap)
    ensures var d := Decision(l, e, cap);
            Next(l, e, cap).purge.settled == if e.Restarted? then None else if d.Some? then d else l.purge.settled
  {
    if e.Signalled? {
      if Decides(l, e.signal) {
        Gathered(l, e.signal, e.broker, e.fault);
      }
    }
  }

  lemma {:induction false} SettledIsLastDecided(l: Loader, es: seq<Event>, cap: Cap)
    ensures Run(l, es, cap).purge.settled == LastDecided(l, es, cap)
  {
    if es != [] {
      var init, e := es[..|es| - 1], es[|es| - 1];
      SettledIsLastDecided(l, init, cap);
      SettledAfter(Run(l, init, cap), e, cap);
    }
  }

  // After any run, a signal that completes a collection is refused exactly when its boundary is the last
  // one this process decided; any other settled boundary is decided again.
  lemma RefusedIffLastDecided(l: Loader, es: seq<Event>, s: Signal, cap: Cap)
    requires IsLatched(Collected(Run(l, es, cap), s).purge.latch)
    ensures !Decides(Run(l, es, cap), s)
            <==> LastDecided(l, es, cap) == Collected(Run(l, es, cap), s).purge.latch.boundary
  {
    SettledIsLastDecided(l, es, cap);
  }

  lemma FourthSignalDecides(m: Loader, at: int, key: string, cap: Cap)
    requires m.purge.latch == Latch(Some(at), Ones(3))
    requires m.purge.deadLettered == {} && m.purge.settled != Some(at) && key != "" && Recorded(m.latch, key) == {}
    ensures Decision(m, CleanSignal(Releases, at, key), cap) == Some(at)
    ensures var l' := Next(m, CleanSignal(Releases, at, key), cap);
            && l'.purge.settled == Some(at) && l'.purge.latch.boundary == Some(at) && l'.purge.deadLettered == {}
            && l'.latch == m.latch[key := {}]
  {
    var s := SignalFor(Releases, at, key);
    CleanBrokerMarksNothing();
    OnesAreThree();
    assert Collected(m, s).purge.latch.signals.Keys == ALL_TYPES;
    assert GatheredMarks(m, s, CLEAN_BROKER) == {};
    GoodDecision(m, s, CLEAN_BROKER, cap);
  }

  lemma SettledByFour(tables: Tables, at: int, key: string, cap: Cap)
    requires key != ""
    ensures var l, three := Loader(NEW_PURGE, tables, map[]), CleanSignals(at, key)[..3];
            Decision(Run(l, three, cap), CleanSignal(Releases, at, key), cap) == Some(at)
    ensures var m := Run(Loader(NEW_PURGE, tables, map[]), CleanSignals(at, key), cap);
            m.purge.settled == Some(at) && m.purge.deadLettered == {} && m.latch == map[key := {}]
  {
    var l, three := Loader(NEW_PURGE, tables, map[]), CleanSignals(at, key)[..3];
    assert [] + three == three && three + [CleanSignal(Releases, at, key)] == CleanSignals(at, key);
    SignalsCollect(l, [], 3, at, key, cap);
    FourthSignalDecides(Run(l, three, cap), at, key, cap);
    RunSnoc(l, three, CleanSignal(Releases, at, key), cap);
  }

  // An unusable start breaks the order. A new process decides the newer extraction, then hears an
  // unusable start: the older extraction is decided next, and the newer one a second time.
  lemma ClearedLatchDecidesAgain(tables: Tables, older: int, newer: int, olderKey: string, newerKey: string, unusable: Signal, cap: Cap)
    requires older < newer && olderKey != "" && newerKey != "" && unusable.startedAt.None?
    ensures var start := Loader(NEW_PURGE, tables, map[]);
            var fourthOlder, fourthNewer := CleanSignal(Releases, older, olderKey), CleanSignal(Releases, newer, newerKey);
            var l := Run(start, CleanSignals(newer, newerKey), cap);
            var first := [Signalled(unusable, CLEAN_BROKER, NoFault)] + CleanSignals(older, olderKey)[..3];
            var second := first + [fourthOlder] + CleanSignals(newer, newerKey)[..3];
            && Decision(Run(start, CleanSignals(newer, newerKey)[..3], cap), fourthNewer, cap) == Some(newer)
            && Decision(Run(l, first, cap), fourthOlder, cap) == Some(older)
            && Decision(Run(l, second, cap), fourthNewer, cap) == Some(newer)
  {
    SettledByFour(tables, newer, newerKey, cap);
    SettledDecidesAgain(Run(Loader(NEW_PURGE, tables, map[]), CleanSignals(newer, newerKey), cap),
                        older, newer, olderKey, newerKey, unusable, cap);
  }

  lemma SettledDecidesAgain(l: Loader, older: int, newer: int, olderKey: string, newerKey: string, unusable: Signal, cap: Cap)
    requires l.purge.settled == Some(newer) && older < newer && unusable.startedAt.None?
    requires l.purge.deadLettered == {} && olderKey != "" && newerKey != ""
    requires Recorded(l.latch, olderKey) == {} == Recorded(l.latch, newerKey)
    ensures var fourthOlder, fourthNewer := CleanSignal(Releases, older, olderKey), CleanSignal(Releases, newer, newerKey);
            var first := [Signalled(unusable, CLEAN_BROKER, NoFault)] + CleanSignals(older, olderKey)[..3];
            var second := first + [fourthOlder] + CleanSignals(newer, newerKey)[..3];
            && Decision(Run(l, first, cap), fourthOlder, cap) == Some(older)
            && Decision(Run(l, second, cap), fourthNewer, cap) == Some(newer)
  {
    var e := Signalled(unusable, CLEAN_BROKER, NoFault);
    var fourthOlder := CleanSignal(Releases, older, olderKey);
    UnusableSignalClears(l, unusable, cap);
    SignalsCollect(l, [e], 3, older, olderKey, cap);
    var first := [e] + CleanSignals(older, olderKey)[..3];
    FourthSignalDecides(Run(l, first, cap), older, olderKey, cap);
    RunSnoc(l, first, fourthOlder, cap);
    SignalsCollect(l, first + [fourthOlder], 3, newer, newerKey, cap);
    FourthSignalDecides(Run(l, first + [fourthOlder] + CleanSignals(newer, newerKey)[..3], cap), newer, newerKey, cap);
  }

  lemma UnusableSignalClears(l: Loader, unusable: Signal, cap: Cap)
    requires unusable.startedAt.None?
    ensures Run(l, [Signalled(unusable, CLEAN_BROKER, NoFault)], cap) == l.(purge := l.purge.(latch := UNLATCHED))
  {
    var e := Signalled(unusable, CLEAN_BROKER, NoFault);
    RunSnoc(l, [], e, cap);
    assert [] + [e] == [e];
  }

  /******* Extractions still being collected *******/

  // Nothing clears the process's state, and no signal completes a collection.
  predicate Unfinished(l: Latch, es: seq<Event>) {
    es != [] ==>
      var e := es[|es| - 1];
      && Unfinished(l, es[..|es| - 1])
      && !e.WasReset? && !e.Restarted? && (e.Signalled? ==> !IsLatched(Collect(l, LatchEvents(es))))
  }

  function RejectedTypes(es: seq<Event>): set<DataType> {
    if es == [] then {}
    else RejectedTypes(es[..|es| - 1]) + if es[|es| - 1].Rejected? then {es[|es| - 1].dataType} else {}
  }

  // Until a collection completes nothing is settled, recorded or purged, and the marks are exactly the
  // types rejected, whatever signals come and whatever fails.
  lemma {:induction false} UnfinishedRunOnlyMarks(l: Loader, es: seq<Event>, cap: Cap)
    requires Unfinished(l.purge.latch, es)
    ensures var m := Run(l, es, cap);
            && m.purge.settled == l.purge.settled && m.latch == l.latch
            && m.purge.deadLettered == l.purge.deadLettered + RejectedTypes(es)
            && m.purge.latch == Collect(l.purge.latch, LatchEvents(es))
            && Decisions(l, es, cap) == []
  {
    RunCollects(l, es, cap);
    if es != [] {
      var init, e := es[..|es| - 1], es[|es| - 1];
      UnfinishedRunOnlyMarks(l, init, cap);
      if e.Signalled? {
        CollectSnoc(l.purge.latch, LatchEvents(init), Completion(e.signal));
        assert Collected(Run(l, init, cap), e.signal).purge.latch == Collect(l.purge.latch, LatchEvents(es));
      }
    }
  }
}
