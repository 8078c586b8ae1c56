/**
 The transaction-scoped lock on one (release, source) range of `graph.issued_on`, step by step: any
 number of transactions, each locking, deleting, inserting row by row, then committing or aborting,
 interleaved in every way.
 */
module RangeLock {
  import opened Wrappers

  type TxnId = nat
  type Range = string
  type Rows = map<string, int>

  // Deleting sees the committed rows of the range; inserting goes on one medium at a time.
  datatype Phase = Waiting | Locked | Inserting(deleted: set<string>, inserted: Rows) | Committed | Aborted

  datatype Txn = Txn(range: Range, rows: Rows, phase: Phase) {
    predicate Active() {
      phase.Locked? || phase.Inserting?
    }
  }

  // `committed` holds every range's committed rows; a lock is held by one transaction.
  datatype System = System(committed: map<Range, Rows>, holders: map<Range, TxnId>, txns: map<TxnId, Txn>)

  function RowsIn(s: System, range: Range): Rows {
    if range in s.committed then s.committed[range] else map[]
  }

  datatype Action =
    | Begin(range: Range, rows: Rows)
    | Acquire
    | Delete
    | Insert(medium: string)
    | Commit
    | Abort

  // A transaction that has not been refused its lock may move; waiting is simply not moving.
  predicate Enabled(s: System, t: TxnId, a: Action) {
    EnabledUnlocked(s, t, a) && (a.Acquire? ==> s.txns[t].range !in s.holders)
  }

  // The same, had nobody to wait for a lock.
  predicate EnabledUnlocked(s: System, t: TxnId, a: Action) {
    match a
    case Begin(_, _) => t !in s.txns
    case Acquire => t in s.txns && s.txns[t].phase.Waiting?
    case Delete => t in s.txns && s.txns[t].phase.Locked?
    case Insert(m) => t in s.txns && s.txns[t].phase.Inserting? && m in s.txns[t].rows && m !in s.txns[t].phase.inserted
    case Commit => t in s.txns && s.txns[t].phase.Inserting? && s.txns[t].phase.inserted == s.txns[t].rows
    case Abort => t in s.txns && (s.txns[t].Active() || s.txns[t].phase.Waiting?)
  }

  function Release(s: System, t: TxnId): map<Range, TxnId> {
    map r | r in s.holders && s.holders[r] != t :: s.holders[r]
  }

  function Next(s: System, t: TxnId, a: Action): System
    requires EnabledUnlocked(s, t, a)
  {
    match a
    case Begin(range, rows) => s.(txns := s.txns[t := Txn(range, rows, Waiting)])
    case Acquire => s.(holders := s.holders[s.txns[t].range := t], txns := s.txns[t := s.txns[t].(phase := Locked)])
    case Delete =>
      s.(txns := s.txns[t := s.txns[t].(phase := Inserting(RowsIn(s, s.txns[t].range).Keys, map[]))])
    case Insert(m) =>
      var x := s.txns[t];
      s.(txns := s.txns[t := x.(phase := x.phase.(inserted := x.phase.inserted[m := x.rows[m]]))])
    case Commit =>
      var x := s.txns[t];
      System(s.committed[x.range := (RowsIn(s, x.range) - x.phase.deleted) + x.phase.inserted],
             Release(s, t), s.txns[t := x.(phase := Committed)])
    case Abort => System(s.committed, Release(s, t), s.txns[t := s.txns[t].(phase := Aborted)])
  }

  // The insert meets a live row of its own primary key: one still committed, or one another open
  // transaction of the range has inserted.
  ghost predicate Conflicts(s: System, t: TxnId, m: string)
    requires t in s.txns && s.txns[t].phase.Inserting?
  {
    var x := s.txns[t];
    || (m in RowsIn(s, x.range) && m !in x.phase.deleted)
    || (exists u :: u in s.txns && u != t && s.txns[u].range == x.range && s.txns[u].phase.Inserting? && m in s.txns[u].phase.inserted)
  }

  /******* Runs *******/

  datatype Step = Step(txn: TxnId, action: Action)

  const EMPTY := System(map[], map[], map[])

  // The system after an interleaving, None when some step of it was not enabled.
  function After(start: System, steps: seq<Step>): Option<System> {
    if steps == [] then Some(start)
    else
      var before, last := After(start, steps[..|steps| - 1]), steps[|steps| - 1];
      if before.Some? && Enabled(before.value, last.txn, last.action) then Some(Next(before.value, last.txn, last.action))
      else None
  }

  // The last transaction of the range that committed.
  function LastCommitter(steps: seq<Step>, start: System, range: Range): Option<TxnId>
    requires After(start, steps).Some?
  {
    if steps == [] then None
    else
      var init, last := steps[..|steps| - 1], steps[|steps| - 1];
      if last.action.Commit? && After(start, init).value.txns[last.txn].range == range then Some(last.txn)
      else LastCommitter(init, start, range)
  }

  // The lock's holder is the one active transaction of its range, and a deleter has seen every row.
  ghost predicate Inv(s: System) {
    && (forall t :: t in s.txns && s.txns[t].Active() ==> s.txns[t].range in s.holders && s.holders[s.txns[t].range] == t)
    && (forall r :: r in s.holders ==> s.holders[r] in s.txns && s.txns[s.holders[r]].Active() && s.txns[s.holders[r]].range == r)
    && (forall t :: t in s.txns && s.txns[t].phase.Inserting? ==>
          && s.txns[t].phase.deleted == RowsIn(s, s.txns[t].range).Keys
          && (forall m :: m in s.txns[t].phase.inserted ==> m in s.txns[t].rows && s.txns[t].phase.inserted[m] == s.txns[t].rows[m]))
  }

  lemma OthersElsewhere(s: System, t: TxnId, u: TxnId)
    requires Inv(s) && t in s.txns && u in s.txns && t != u && s.txns[t].Active() && s.txns[u].Active()
    ensures s.txns[t].range != s.txns[u].range
  {
  }

  lemma CommitKeepsInv(s: System, t: TxnId)
    requires Inv(s) && Enabled(s, t, Commit)
    ensures Inv(Next(s, t, Commit))
  {
    var s' := Next(s, t, Commit);
    forall u | u in s'.txns && s'.txns[u].Active()
      ensures s'.txns[u] == s.txns[u] && s.txns[u].range != s.txns[t].range
    {
      OthersElsewhere(s, t, u);
    }
    forall r | r in s'.holders
      ensures s'.holders[r] in s'.txns && s'.txns[s'.holders[r]].Active() && s'.txns[s'.holders[r]].range == r
    {
      assert r in s.holders && s'.holders[r] == s.holders[r] != t;
    }
    assert forall u :: u in s'.txns && s'.txns[u].phase.Inserting? ==>
                         s'.txns[u].Active() && RowsIn(s', s.txns[u].range) == RowsIn(s, s.txns[u].range);
  }

  lemma AbortKeepsInv(s: System, t: TxnId)
    requires Inv(s) && Enabled(s, t, Abort)
    ensures Inv(Next(s, t, Abort))
  {
    var s' := Next(s, t, Abort);
    forall u | u in s'.txns && s'.txns[u].Active() ensures s'.txns[u] == s.txns[u] && s'.txns[u].range in s'.holders {
      assert u != t;
    }
    forall r | r in s'.holders
      ensures s'.holders[r] in s'.txns && s'.txns[s'.holders[r]].Active() && s'.txns[s'.holders[r]].range == r
    {
      assert r in s.holders && s'.holders[r] == s.holders[r] != t;
    }
    assert forall u :: u in s'.txns && s'.txns[u].phase.Inserting? ==> s'.txns[u].Active();
  }

  lemma BeginKeepsInv(s: System, t: TxnId, range: Range, rows: Rows)
    requires Inv(s) && Enabled(s, t, Begin(range, rows))
    ensures Inv(Next(s, t, Begin(range, rows)))
  {
    var s' := Next(s, t, Begin(range, rows));
    assert forall u :: u in s'.txns && u != t ==> u in s.txns && s'.txns[u] == s.txns[u];
  }

  lemma AcquireKeepsInv(s: System, t: TxnId)
    requires Inv(s) && Enabled(s, t, Acquire)
    ensures Inv(Next(s, t, Acquire))
  {
    var s' := Next(s, t, Acquire);
    forall u | u in s'.txns && u != t ensures u in s.txns && s'.txns[u] == s.txns[u] {}
    forall u | u in s.txns && s.txns[u].Active() ensures s.txns[u].range != s.txns[t].range {}
  }

  // A deletion or an insertion moves no lock.
  lemma WriteKeepsInv(s: System, t: TxnId, a: Action)
    requires Inv(s) && Enabled(s, t, a) && (a.Delete? || a.Insert?)
    ensures Inv(Next(s, t, a))
  {
    var s' := Next(s, t, a);
    assert s'.txns.Keys == s.txns.Keys && s'.holders == s.holders && s'.committed == s.committed;
    forall u | u in s.txns ensures s'.txns[u].Active() == s.txns[u].Active() && s'.txns[u].range == s.txns[u].range {}
  }

  lemma NextKeepsInv(s: System, t: TxnId, a: Action)
    requires Inv(s) && Enabled(s, t, a)
    ensures Inv(Next(s, t, a))
  {
    match a {
      case Commit => CommitKeepsInv(s, t);
      case Abort => AbortKeepsInv(s, t);
      case Begin(range, rows) => BeginKeepsInv(s, t, range, rows);
      case Acquire => AcquireKeepsInv(s, t);
      case _ => WriteKeepsInv(s, t, a);
    }
  }

  lemma {:induction false} RunsKeepInv(start: System, steps: seq<Step>)
    requires Inv(start) && After(start, steps).Some?
    ensures Inv(After(start, steps).value)
  {
    if steps != [] {
      var init, last := steps[..|steps| - 1], steps[|steps| - 1];
      RunsKeepInv(start, init);
      NextKeepsInv(After(start, init).value, last.txn, last.action);
    }
  }

  // At most one transaction of a range is past its lock, in every interleaving.
  lemma AtMostOneHolder(start: System, steps: seq<Step>, t: TxnId, u: TxnId)
    requires Inv(start) && After(start, steps).Some?
    requires var s := After(start, steps).value;
             t in s.txns && u in s.txns && s.txns[t].range == s.txns[u].range && s.txns[t].Active() && s.txns[u].Active()
    ensures t == u
  {
    RunsKeepInv(start, steps);
  }

  // So the plain insert never meets an existing primary key.
  lemma InsertNeverConflicts(start: System, steps: seq<Step>, t: TxnId, m: string)
    requires Inv(start) && After(start, steps).Some? && Enabled(After(start, steps).value, t, Insert(m))
    ensures !Conflicts(After(start, steps).value, t, m)
  {
    RunsKeepInv(start, steps);
    var s := After(start, steps).value;
    assert s.txns[t].Active();
    forall u | u in s.txns && u != t && s.txns[u].Active() ensures s.txns[u].range != s.txns[t].range {
      OthersElsewhere(s, t, u);
    }
  }

  // A committing transaction deleted every row of the range and inserted all of its own.
  lemma CommitWritesItsRows(s: System, t: TxnId)
    requires Inv(s) && Enabled(s, t, Commit)
    ensures var x := s.txns[t]; (RowsIn(s, x.range) - x.phase.deleted) + x.phase.inserted == x.rows
  {
    var x := s.txns[t];
    assert x.phase.deleted == RowsIn(s, x.range).Keys;
    assert RowsIn(s, x.range) - x.phase.deleted == map[];
  }

  lemma NextCommitted(s: System, t: TxnId, a: Action, range: Range)
    requires Inv(s) && Enabled(s, t, a)
    ensures RowsIn(Next(s, t, a), range)
            == if a.Commit? && s.txns[t].range == range then s.txns[t].rows else RowsIn(s, range)
    ensures forall u :: u in s.txns ==> u in Next(s, t, a).txns && Next(s, t, a).txns[u].rows == s.txns[u].rows
  {
    if a.Commit? {
      CommitWritesItsRows(s, t);
    }
  }

  // The committed range is always the last committer's rows, whole; before any commit, what it was.
  lemma {:induction false} RangeIsTheLastCommitters(start: System, steps: seq<Step>, range: Range)
    requires Inv(start) && After(start, steps).Some?
    ensures var s, last := After(start, steps).value, LastCommitter(steps, start, range);
            if last.Some? then last.value in s.txns && RowsIn(s, range) == s.txns[last.value].rows
            else RowsIn(s, range) == RowsIn(start, range)
  {
    if steps != [] {
      var init, step := steps[..|steps| - 1], steps[|steps| - 1];
      RangeIsTheLastCommitters(start, init, range);
      RunsKeepInv(start, init);
      NextCommitted(After(start, init).value, step.txn, step.action, range);
    }
  }

  // A waiting transaction holds no lock, because the lock is the first thing it takes: waiting for one
  // cannot close a cycle.
  lemma WaitersHoldNothing(start: System, steps: seq<Step>, t: TxnId)
    requires Inv(start) && After(start, steps).Some?
    requires t in After(start, steps).value.txns && After(start, steps).value.txns[t].phase.Waiting?
    ensures t !in After(start, steps).value.holders.Values
  {
    RunsKeepInv(start, steps);
  }

  // And a range that is waited for always has a transaction that can move, or is free.
  lemma HeldLockMakesProgress(start: System, steps: seq<Step>, range: Range)
    requires Inv(start) && After(start, steps).Some? && range in After(start, steps).value.holders
    ensures var s := After(start, steps).value;
            var t := s.holders[range];
            Enabled(s, t, Delete) || Enabled(s, t, Commit) || exists m :: Enabled(s, t, Insert(m))
  {
    RunsKeepInv(start, steps);
    var s := After(start, steps).value;
    var t := s.holders[range];
    var x := s.txns[t];
    if x.phase.Inserting? {
      if m :| m in x.rows && m !in x.phase.inserted {
        assert Enabled(s, t, Insert(m));
      } else {
        assert x.phase.inserted == x.rows;
      }
    }
  }

  // So whoever waits can take the lock, or the lock has a holder that can move: no interleaving is stuck.
  lemma WaitingIsNeverStuck(start: System, steps: seq<Step>, t: TxnId)
    requires Inv(start) && After(start, steps).Some?
    requires t in After(start, steps).value.txns && After(start, steps).value.txns[t].phase.Waiting?
    ensures var s := After(start, steps).value;
            var range := s.txns[t].range;
            || Enabled(s, t, Acquire)
            || (range in s.holders && var u := s.holders[range];
                Enabled(s, u, Delete) || Enabled(s, u, Commit) || exists m :: Enabled(s, u, Insert(m)))
  {
    if After(start, steps).value.txns[t].range in After(start, steps).value.holders {
      HeldLockMakesProgress(start, steps, After(start, steps).value.txns[t].range);
    }
  }

  // Commit and abort release the range, keep every other lock, and an abort leaves no trace in the rows.
  lemma EndingReleases(start: System, steps: seq<Step>, t: TxnId, a: Action)
    requires Inv(start) && After(start, steps).Some?
    requires Enabled(After(start, steps).value, t, a) && (a.Commit? || a.Abort?)
    requires After(start, steps).value.txns[t].Active()
    ensures var s := After(start, steps).value;
            var s', range := Next(s, t, a), s.txns[t].range;
            && range !in s'.holders
            && (forall r :: r != range && r in s.holders ==> r in s'.holders && s'.holders[r] == s.holders[r])
            && (a.Abort? ==> s'.committed == s.committed)
  {
    RunsKeepInv(start, steps);
  }

  /******* With the lock and without it *******/

  lemma EmptyIsFree()
    ensures Inv(EMPTY)
  {
  }

  // From the empty system, no interleaving of locking transactions reaches a duplicate key.
  lemma LockedWritersNeverConflict(steps: seq<Step>, t: TxnId, m: string)
    requires After(EMPTY, steps).Some? && Enabled(After(EMPTY, steps).value, t, Insert(m))
    ensures !Conflicts(After(EMPTY, steps).value, t, m)
  {
    EmptyIsFree();
    InsertNeverConflicts(EMPTY, steps, t, m);
  }

  // The system after an interleaving of transactions that never wait.
  function AfterUnlocked(start: System, steps: seq<Step>): Option<System> {
    if steps == [] then Some(start)
    else
      var before, last := AfterUnlocked(start, steps[..|steps| - 1]), steps[|steps| - 1];
      if before.Some? && EnabledUnlocked(before.value, last.txn, last.action)
      then Some(Next(before.value, last.txn, last.action))
      else None
  }

  lemma UnlockedSnoc(start: System, steps: seq<Step>, step: Step)
    requires AfterUnlocked(start, steps).Some? && EnabledUnlocked(AfterUnlocked(start, steps).value, step.txn, step.action)
    ensures AfterUnlocked(start, steps + [step]) == Some(Next(AfterUnlocked(start, steps).value, step.txn, step.action))
  {
    assert (steps + [step])[..|steps|] == steps;
  }

  // Both transactions begin, go past the lock and delete nothing.
  function BothDelete(range: Range, a: Rows, b: Rows): seq<Step> {
    [Step(0, Begin(range, a))] + [Step(1, Begin(range, b))] + [Step(0, Acquire)] + [Step(1, Acquire)]
    + [Step(0, Delete)] + [Step(1, Delete)]
  }

  // The two transactions in given phases, over an empty range.
  function Pair(range: Range, a: Rows, p: Phase, b: Rows, q: Phase, holders: map<Range, TxnId>): System {
    System(map[], holders, map[0 := Txn(range, a, p), 1 := Txn(range, b, q)])
  }

  lemma BothBegin(range: Range, a: Rows, b: Rows)
    ensures AfterUnlocked(EMPTY, [Step(0, Begin(range, a))] + [Step(1, Begin(range, b))])
            == Some(Pair(range, a, Waiting, b, Waiting, map[]))
  {
    var first := Step(0, Begin(range, a));
    UnlockedSnoc(EMPTY, [], first);
    assert [] + [first] == [first];
    UnlockedSnoc(EMPTY, [first], Step(1, Begin(range, b)));
    assert Next(Next(EMPTY, 0, first.action), 1, Begin(range, b)).txns == Pair(range, a, Waiting, b, Waiting, map[]).txns;
  }

  lemma FirstAcquires(range: Range, a: Rows, b: Rows, p: Phase, holders: map<Range, TxnId>)
    ensures Next(Pair(range, a, Waiting, b, p, holders), 0, Acquire)
            == Pair(range, a, Locked, b, p, holders[range := 0])
  {
    var s := Pair(range, a, Waiting, b, p, holders);
    assert Next(s, 0, Acquire).txns == Pair(range, a, Locked, b, p, holders).txns;
  }

  lemma SecondAcquires(range: Range, a: Rows, b: Rows, p: Phase, holders: map<Range, TxnId>)
    ensures Next(Pair(range, a, p, b, Waiting, holders), 1, Acquire)
            == Pair(range, a, p, b, Locked, holders[range := 1])
  {
    var s := Pair(range, a, p, b, Waiting, holders);
    assert Next(s, 1, Acquire).txns == Pair(range, a, p, b, Locked, holders).txns;
  }

  lemma FirstDeletes(range: Range, a: Rows, b: Rows, p: Phase, holders: map<Range, TxnId>)
    ensures Next(Pair(range, a, Locked, b, p, holders), 0, Delete)
            == Pair(range, a, Inserting({}, map[]), b, p, holders)
  {
    var s := Pair(range, a, Locked, b, p, holders);
    assert RowsIn(s, range).Keys == {};
    assert Next(s, 0, Delete).txns == Pair(range, a, Inserting({}, map[]), b, p, holders).txns;
  }

  lemma SecondDeletes(range: Range, a: Rows, b: Rows, p: Phase, holders: map<Range, TxnId>)
    ensures Next(Pair(range, a, p, b, Locked, holders), 1, Delete)
            == Pair(range, a, p, b, Inserting({}, map[]), holders)
  {
    var s := Pair(range, a, p, b, Locked, holders);
    assert RowsIn(s, range).Keys == {};
    assert Next(s, 1, Delete).txns == Pair(range, a, p, b, Inserting({}, map[]), holders).txns;
  }

  lemma BothReachTheInserts(range: Range, a: Rows, b: Rows)
    ensures AfterUnlocked(EMPTY, BothDelete(range, a, b))
            == Some(Pair(range, a, Inserting({}, map[]), b, Inserting({}, map[]), map[range := 1]))
  {
    BothBegin(range, a, b);
    var steps := [Step(0, Begin(range, a))] + [Step(1, Begin(range, b))];
    FirstAcquires(range, a, b, Waiting, map[]);
    UnlockedSnoc(EMPTY, steps, Step(0, Acquire));
    SecondAcquires(range, a, b, Locked, map[range := 0]);
    UnlockedSnoc(EMPTY, steps + [Step(0, Acquire)], Step(1, Acquire));
    assert map[range := 0][range := 1] == map[range := 1];
    FirstDeletes(range, a, b, Locked, map[range := 1]);
    steps := steps + [Step(0, Acquire)] + [Step(1, Acquire)];
    UnlockedSnoc(EMPTY, steps, Step(0, Delete));
    SecondDeletes(range, a, b, Inserting({}, map[]), map[range := 1]);
    UnlockedSnoc(EMPTY, steps + [Step(0, Delete)], Step(1, Delete));
  }

  // Without the lock, any two messages that share a medium reach a duplicate key from an empty range:
  // both delete nothing, and the second insert meets the first one's row.
  lemma UnlockedWritersConflict(range: Range, a: Rows, b: Rows, m: string)
    requires m in a && m in b
    ensures var s := AfterUnlocked(EMPTY, BothDelete(range, a, b) + [Step(0, Insert(m))]);
            s.Some? && EnabledUnlocked(s.value, 1, Insert(m)) && Conflicts(s.value, 1, m)
  {
    BothReachTheInserts(range, a, b);
    UnlockedSnoc(EMPTY, BothDelete(range, a, b), Step(0, Insert(m)));
    var s := AfterUnlocked(EMPTY, BothDelete(range, a, b) + [Step(0, Insert(m))]).value;
    assert 0 in s.txns && s.txns[0].range == range && m in s.txns[0].phase.inserted;
  }
}
