/**
 The four-signal latch: `extraction_complete` signals collected on a shared `started_at`.
 `Step` is the loader's update; `LatchedState` says what any history leaves, without replaying it.
 */
module Latch {
  import opened Wrappers
  import opened ChildRows

  // `startedAt` is the parsed `started_at`, None when unusable; `count` is this type's entry of
  // `record_counts` when it is an integer. `version` and `startedAtText` are the stripped texts.
  datatype Signal = Signal(dataType: DataType, startedAt: Option<int>, count: Option<int>,
                           version: string, startedAtText: string)

  datatype LatchEvent = Completion(signal: Signal) | Reset

  datatype Latch = Latch(boundary: Option<int>, signals: map<DataType, Option<int>>)

  const UNLATCHED := Latch(None, map[])

  function Step(l: Latch, e: LatchEvent): Latch {
    match e
    case Reset => UNLATCHED
    case Completion(s) =>
      if s.startedAt.None? then UNLATCHED
      else if l.boundary.Some? && s.startedAt.value < l.boundary.value then l
      else
        var kept := if l.boundary == s.startedAt then l.signals else map[];
        Latch(s.startedAt, kept[s.dataType := s.count])
  }

  function Collect(l: Latch, h: seq<LatchEvent>): Latch {
    if h == [] then l else Step(Collect(l, h[..|h| - 1]), h[|h| - 1])
  }

  predicate IsLatched(l: Latch) {
    l.boundary.Some? && ALL_TYPES <= l.signals.Keys
  }

  predicate Clears(e: LatchEvent) {
    e.Reset? || e.signal.startedAt.None?
  }

  // None is below every boundary.
  predicate NotAbove(a: Option<int>, b: Option<int>) {
    a.None? || (b.Some? && a.value <= b.value)
  }

  /******* What a history latches, stated on the history itself *******/

  // Event `i` is a usable signal that nothing after it clears.
  ghost predicate Live(h: seq<LatchEvent>, i: int) {
    0 <= i < |h| && forall j :: i <= j < |h| ==> !Clears(h[j])
  }

  ghost predicate LiveAt(h: seq<LatchEvent>, i: int, b: int) {
    Live(h, i) && h[i].signal.startedAt == Some(b)
  }

  ghost predicate LatestFor(h: seq<LatchEvent>, i: int, d: DataType, b: int) {
    && LiveAt(h, i, b) && h[i].signal.dataType == d
    && forall j :: i < j < |h| && LiveAt(h, j, b) ==> h[j].signal.dataType != d
  }

  // The boundary is the greatest live `started_at`, and each count is its type's latest at exactly it.
  ghost predicate LatchedState(h: seq<LatchEvent>, l: Latch) {
    && (l.boundary.None? ==> l.signals == map[] && forall i :: !Live(h, i))
    && (l.boundary.Some? ==>
          && (exists i :: LiveAt(h, i, l.boundary.value))
          && (forall i :: Live(h, i) ==> h[i].signal.startedAt.value <= l.boundary.value)
          && (forall d :: d in l.signals <==> exists i :: LatestFor(h, i, d, l.boundary.value))
          && (forall i, d :: LatestFor(h, i, d, l.boundary.value) ==> d in l.signals && l.signals[d] == h[i].signal.count))
  }

  lemma LiveAppend(h: seq<LatchEvent>, e: LatchEvent)
    ensures forall i :: Live(h + [e], i) <==> !Clears(e) && (i == |h| || Live(h, i))
  {
    var g := h + [e];
    assert g[|h|] == e;
    forall i ensures Live(g, i) <==> !Clears(e) && (i == |h| || Live(h, i)) {
      if Live(g, i) && i != |h| {
        forall j | i <= j < |h| ensures !Clears(h[j]) { assert g[j] == h[j]; }
      }
    }
  }

  lemma LatestAppend(h: seq<LatchEvent>, e: LatchEvent, d: DataType, b: int)
    requires !Clears(e)
    ensures var here := e.signal.startedAt == Some(b) && e.signal.dataType == d;
            forall i :: LatestFor(h + [e], i, d, b) <==> if here then i == |h| else LatestFor(h, i, d, b)
  {
    LiveAppend(h, e);
    var g := h + [e];
    assert g[|h|] == e;
    assert forall i :: LiveAt(g, i, b) <==> (i == |h| && e.signal.startedAt == Some(b)) || LiveAt(h, i, b);
  }

  // For every history of signals and resets, the latch is what the declarative reading says.
  lemma {:induction false} LatchMeetsItsReading(h: seq<LatchEvent>)
    ensures LatchedState(h, Collect(UNLATCHED, h))
  {
    if h != [] {
      var init, e := h[..|h| - 1], h[|h| - 1];
      assert h == init + [e];
      LatchMeetsItsReading(init);
      LiveAppend(init, e);
      if !Clears(e) {
        StepKeepsReading(init, Collect(UNLATCHED, init), e);
      }
    }
  }

  lemma StepKeepsReading(h: seq<LatchEvent>, l: Latch, e: LatchEvent)
    requires LatchedState(h, l) && !Clears(e)
    ensures LatchedState(h + [e], Step(l, e))
  {
    LiveAppend(h, e);
    var g, l' := h + [e], Step(l, e);
    var b := l'.boundary.value;
    assert g[|h|] == e;
    assert Live(g, |h|);
    forall d
      ensures d in l'.signals <==> exists i :: LatestFor(g, i, d, b)
      ensures forall i :: LatestFor(g, i, d, b) ==> d in l'.signals && l'.signals[d] == g[i].signal.count
    {
      LatestAppend(h, e, d, b);
      if e.signal.startedAt == Some(b) && e.signal.dataType == d {
        assert LatestFor(g, |h|, d, b);
      } else if l.boundary != Some(b) {
        assert forall i :: !LatestFor(h, i, d, b);
      }
    }
    if e.signal.startedAt != Some(b) {
      var i :| LiveAt(h, i, b);
      assert LiveAt(g, i, b);
    } else {
      assert LiveAt(g, |h|, b);
    }
  }

  /******* Order and repetition *******/

  // Signals for one type and one `started_at` carry one count.
  ghost predicate CountsAgree(h: seq<LatchEvent>) {
    forall a, b :: a in h && b in h && a.Completion? && b.Completion?
                   && a.signal.dataType == b.signal.dataType && a.signal.startedAt == b.signal.startedAt
                   ==> a.signal.count == b.signal.count
  }

  ghost predicate NothingClears(h: seq<LatchEvent>) {
    forall e :: e in h ==> !Clears(e)
  }

  ghost predicate Within(h: seq<LatchEvent>, g: seq<LatchEvent>) {
    forall e :: e in h ==> e in g
  }

  // The latched types and counts depend only on which signals arrived.
  lemma OrderAndRepetitionDoNotMatter(h: seq<LatchEvent>, g: seq<LatchEvent>)
    requires Within(h, g) && Within(g, h)
    requires NothingClears(h) && CountsAgree(h)
    ensures Collect(UNLATCHED, h) == Collect(UNLATCHED, g)
  {
    var l, m := Collect(UNLATCHED, h), Collect(UNLATCHED, g);
    BoundaryWithin(h, g);
    BoundaryWithin(g, h);
    SignalsWithin(h, g);
    SignalsWithin(g, h);
    assert l.signals == m.signals;
  }

  lemma BoundaryWithin(h: seq<LatchEvent>, g: seq<LatchEvent>)
    requires Within(h, g) && NothingClears(g)
    ensures NotAbove(Collect(UNLATCHED, h).boundary, Collect(UNLATCHED, g).boundary)
  {
    LatchMeetsItsReading(h);
    LatchMeetsItsReading(g);
    var l := Collect(UNLATCHED, h);
    if l.boundary.Some? {
      var i :| LiveAt(h, i, l.boundary.value);
      assert h[i] in g;
      var j :| 0 <= j < |g| && g[j] == h[i];
      assert Live(g, j);
    }
  }

  lemma SignalsWithin(h: seq<LatchEvent>, g: seq<LatchEvent>)
    requires Within(h, g) && Within(g, h) && NothingClears(g) && CountsAgree(h)
    requires Collect(UNLATCHED, h).boundary == Collect(UNLATCHED, g).boundary
    ensures var l, m := Collect(UNLATCHED, h).signals, Collect(UNLATCHED, g).signals;
            forall d :: d in l ==> d in m && l[d] == m[d]
  {
    LatchMeetsItsReading(h);
    LatchMeetsItsReading(g);
    var l, m := Collect(UNLATCHED, h), Collect(UNLATCHED, g);
    forall d | d in l.signals ensures d in m.signals && l.signals[d] == m.signals[d] {
      var b := l.boundary.value;
      var i :| LatestFor(h, i, d, b);
      assert h[i] in g;
      var j :| 0 <= j < |g| && g[j] == h[i];
      assert LiveAt(g, j, b);
      var k := LatestExists(g, j, d, b);
      assert g[k] in h;
      assert h[i].signal.count == g[k].signal.count;
    }
  }

  lemma {:induction false} LatestExists(h: seq<LatchEvent>, i: int, d: DataType, b: int) returns (k: int)
    requires LiveAt(h, i, b) && h[i].signal.dataType == d
    ensures LatestFor(h, k, d, b)
    decreases |h| - i
  {
    if j :| i < j < |h| && LiveAt(h, j, b) && h[j].signal.dataType == d {
      k := LatestExists(h, j, d, b);
    } else {
      k := i;
    }
  }

  /******* A restart only narrows *******/

  // What a process restarted after `p` latches from the rest of the history, against one that was not:
  // never a later boundary, and at the same boundary no signal the other lacks.
  lemma {:induction false} RestartOnlyNarrows(l: Latch, q: seq<LatchEvent>)
    requires l.boundary.None? ==> l.signals == map[]
    ensures var restarted, kept := Collect(UNLATCHED, q), Collect(l, q);
            && NotAbove(restarted.boundary, kept.boundary)
            && (restarted.boundary == kept.boundary ==>
                  forall d :: d in restarted.signals ==> d in kept.signals && restarted.signals[d] == kept.signals[d])
            && (restarted.boundary.None? ==> restarted.signals == map[])
            && (kept.boundary.None? ==> kept.signals == map[])
  {
    if q != [] {
      RestartOnlyNarrows(l, q[..|q| - 1]);
    }
  }
}
