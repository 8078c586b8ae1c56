/**
 The Discogs link log: each entity upsert that changes a stored Discogs id appends one event in the
 same statement.
 */
module LinkEvents {
  import opened Wrappers

  datatype EntityKind = Artist | Label | Release | Master

  // One row of artists, labels, releases or release_groups.
  datatype Entity = Entity(kind: EntityKind, mbid: string)

  type DiscogsId = Option<int>

  datatype EventKind = LinkAdded | LinkRemoved | LinkChanged

  datatype LinkEvent = LinkEvent(entity: Entity, event: EventKind, before: DiscogsId, after: DiscogsId, sourceRef: string)

  datatype Ledger = Ledger(ids: map<Entity, DiscogsId>, log: seq<LinkEvent>)

  datatype Message = Message(entity: Entity, discogsId: DiscogsId, sourceRef: string)

  function KindOf(before: DiscogsId, after: DiscogsId): EventKind {
    if before.None? then LinkAdded else if after.None? then LinkRemoved else LinkChanged
  }

  // The statement's three parts over one snapshot: `snapshot` is what `old` reads.
  function UpsertFrom(s: Ledger, snapshot: map<Entity, DiscogsId>, m: Message): Ledger {
    var stored := s.ids[m.entity := m.discogsId];
    if m.entity in snapshot && snapshot[m.entity] != m.discogsId then
      Ledger(stored, s.log + [LinkEvent(m.entity, KindOf(snapshot[m.entity], m.discogsId),
                                        snapshot[m.entity], m.discogsId, m.sourceRef)])
    else
      Ledger(stored, s.log)
  }

  // Messages for one MBID are serialised: each reads what the previous one stored.
  function Upsert(s: Ledger, m: Message): Ledger {
    UpsertFrom(s, s.ids, m)
  }

  function Load(s: Ledger, ms: seq<Message>): Ledger {
    if ms == [] then s else Upsert(Load(s, ms[..|ms| - 1]), ms[|ms| - 1])
  }

  class LinkStore {
    var ids: map<Entity, DiscogsId>
    var log: seq<LinkEvent>

    function View(): Ledger
      reads this
    {
      Ledger(ids, log)
    }

    constructor ()
      ensures View() == Ledger(map[], [])
    {
      ids, log := map[], [];
    }

    method UpsertEntity(m: Message)
      modifies this
      ensures View() == Upsert(old(View()), m)
    {
      var held := if m.entity in ids then Some(ids[m.entity]) else None;
      ids := ids[m.entity := m.discogsId];
      if held.Some? && held.value != m.discogsId {
        var event := if held.value == None then LinkAdded else if m.discogsId == None then LinkRemoved else LinkChanged;
        log := log + [LinkEvent(m.entity, event, held.value, m.discogsId, m.sourceRef)];
      }
    }
  }

  /******* One row's events *******/

  function EventsOf(log: seq<LinkEvent>, x: Entity): seq<LinkEvent> {
    if log == [] then []
    else EventsOf(log[..|log| - 1], x) + if log[|log| - 1].entity == x then [log[|log| - 1]] else []
  }

  lemma EventsAppend(log: seq<LinkEvent>, e: LinkEvent, x: Entity)
    ensures EventsOf(log + [e], x) == EventsOf(log, x) + if e.entity == x then [e] else []
  {
    assert (log + [e])[..|log|] == log;
  }

  // The events lead from `first` to `last`, each starting where the previous one ended.
  ghost predicate Chains(events: seq<LinkEvent>, first: DiscogsId, last: DiscogsId) {
    if events == [] then first == last
    else
      var e := events[|events| - 1];
      e.after == last && Chains(events[..|events| - 1], first, e.before)
  }

  lemma ChainAppend(events: seq<LinkEvent>, e: LinkEvent, first: DiscogsId, last: DiscogsId, end: DiscogsId)
    requires Chains(events, first, last)
    ensures Chains(events + [e], first, end) <==> e.before == last && end == e.after
  {
    assert (events + [e])[..|events|] == events;
    if Chains(events, first, e.before) {
      ChainEnds(events, first, last, e.before);
    }
  }

  lemma ChainEnds(events: seq<LinkEvent>, first: DiscogsId, last: DiscogsId, last': DiscogsId)
    requires Chains(events, first, last) && Chains(events, first, last')
    ensures last == last'
  {
  }

  ghost predicate WellKinded(events: seq<LinkEvent>) {
    forall i :: 0 <= i < |events| ==>
      && events[i].before != events[i].after
      && (events[i].event.LinkAdded? <==> events[i].before.None?)
      && (events[i].event.LinkRemoved? <==> events[i].after.None?)
  }

  // What the messages alone say: the first and the last id stated for a row.
  function IdsStated(ms: seq<Message>, x: Entity): seq<DiscogsId> {
    if ms == [] then []
    else IdsStated(ms[..|ms| - 1], x) + if ms[|ms| - 1].entity == x then [ms[|ms| - 1].discogsId] else []
  }

  function EventFor(s: Ledger, m: Message): LinkEvent
    requires m.entity in s.ids
  {
    LinkEvent(m.entity, KindOf(s.ids[m.entity], m.discogsId), s.ids[m.entity], m.discogsId, m.sourceRef)
  }

  lemma UpsertAppends(s: Ledger, m: Message, x: Entity)
    ensures EventsOf(Upsert(s, m).log, x)
            == EventsOf(s.log, x) + if m.entity == x && x in s.ids && s.ids[x] != m.discogsId then [EventFor(s, m)] else []
  {
    if m.entity in s.ids && s.ids[m.entity] != m.discogsId {
      EventsAppend(s.log, EventFor(s, m), x);
    }
  }

  ghost predicate Replays(s: Ledger, stated: seq<DiscogsId>, x: Entity) {
    var events := EventsOf(s.log, x);
    if stated == [] then x !in s.ids && events == []
    else x in s.ids && s.ids[x] == stated[|stated| - 1]
         && Chains(events, stated[0], s.ids[x]) && WellKinded(events)
  }

  lemma UpsertReplays(s: Ledger, stated: seq<DiscogsId>, m: Message)
    requires Replays(s, stated, m.entity)
    ensures Replays(Upsert(s, m), stated + [m.discogsId], m.entity)
  {
    var x := m.entity;
    UpsertAppends(s, m, x);
    if stated != [] && s.ids[x] != m.discogsId {
      var events, e := EventsOf(s.log, x), EventFor(s, m);
      ChainAppend(events, e, stated[0], s.ids[x], m.discogsId);
      assert WellKinded(events + [e]);
    }
  }

  // For any run over any ledger whose log replays to the row: so does the log after the run. A row exists
  // iff a message ever named it, holds the last id stated, and its events lead there from the first.
  lemma {:induction false} LogReplaysToTheRow(s: Ledger, stated: seq<DiscogsId>, ms: seq<Message>, x: Entity)
    requires Replays(s, stated, x)
    ensures Replays(Load(s, ms), stated + IdsStated(ms, x), x)
  {
    if ms == [] {
      assert stated + IdsStated(ms, x) == stated;
    } else {
      var init, m := ms[..|ms| - 1], ms[|ms| - 1];
      LogReplaysToTheRow(s, stated, init, x);
      UpsertAppends(Load(s, init), m, x);
      if m.entity == x {
        UpsertReplays(Load(s, init), stated + IdsStated(init, x), m);
        assert stated + IdsStated(ms, x) == stated + IdsStated(init, x) + [m.discogsId];
      } else {
        assert EventsOf(Load(s, ms).log, x) == EventsOf(Load(s, init).log, x);
        assert IdsStated(ms, x) == IdsStated(init, x);
      }
    }
  }

  // A row that predates the log replays from the id it held, and a row not yet stored from nothing.
  lemma RowWithoutEventsReplays(s: Ledger, x: Entity)
    requires EventsOf(s.log, x) == []
    ensures Replays(s, StatedBefore(s, x), x)
  {
  }

  function StatedBefore(s: Ledger, x: Entity): seq<DiscogsId> {
    if x in s.ids then [s.ids[x]] else []
  }

  // How often consecutive ids differ.
  function Changes(stated: seq<DiscogsId>): nat {
    if |stated| <= 1 then 0
    else Changes(stated[..|stated| - 1]) + if stated[|stated| - 1] != stated[|stated| - 2] then 1 else 0
  }

  lemma ChangesSnoc(stated: seq<DiscogsId>, id: DiscogsId)
    ensures Changes(stated + [id]) == Changes(stated) + if stated != [] && stated[|stated| - 1] != id then 1 else 0
  {
    assert (stated + [id])[..|stated|] == stated;
  }

  // After any run, the id a row holds is the last one stated, or the one it held.
  lemma {:induction false} LastIdIsHeld(s: Ledger, ms: seq<Message>, x: Entity)
    ensures var all, held := StatedBefore(s, x) + IdsStated(ms, x), StatedBefore(Load(s, ms), x);
            held == if all == [] then [] else [all[|all| - 1]]
  {
    if ms != [] {
      LastIdIsHeld(s, ms[..|ms| - 1], x);
    }
  }

  lemma UpsertCounts(s: Ledger, before: seq<DiscogsId>, m: Message)
    requires StatedBefore(s, m.entity) == if before == [] then [] else [before[|before| - 1]]
    ensures |EventsOf(Upsert(s, m).log, m.entity)| - |EventsOf(s.log, m.entity)|
            == Changes(before + [m.discogsId]) - Changes(before)
  {
    UpsertAppends(s, m, m.entity);
    ChangesSnoc(before, m.discogsId);
  }

  // Over any ledger, a run adds to a row's events one for each change of id and none for a repeated one.
  lemma {:induction false} OneEventPerChange(s: Ledger, ms: seq<Message>, x: Entity)
    ensures |EventsOf(Load(s, ms).log, x)| == |EventsOf(s.log, x)| + Changes(StatedBefore(s, x) + IdsStated(ms, x))
  {
    if ms == [] {
      assert StatedBefore(s, x) + IdsStated(ms, x) == StatedBefore(s, x);
    } else {
      var init, m := ms[..|ms| - 1], ms[|ms| - 1];
      OneEventPerChange(s, init, x);
      var before := StatedBefore(s, x) + IdsStated(init, x);
      if m.entity == x {
        LastIdIsHeld(s, init, x);
        UpsertCounts(Load(s, init), before, m);
        assert StatedBefore(s, x) + IdsStated(ms, x) == before + [m.discogsId];
      } else {
        UpsertAppends(Load(s, init), m, x);
        assert StatedBefore(s, x) + IdsStated(ms, x) == before;
      }
    }
  }

  // A redelivered message finds its own id stored and adds nothing.
  lemma RedeliveryAddsNothing(s: Ledger, m: Message)
    ensures Upsert(Upsert(s, m), m) == Upsert(s, m)
  {
    assert Upsert(s, m).ids[m.entity := m.discogsId] == Upsert(s, m).ids;
  }

  // Two messages for one row racing in separate transactions: `old` may read an id that is no longer
  // stored, or no row at all when both are the row's first. The log keeps chaining to the row exactly when
  // what it read was the stored id, or when it read no row and the id is not new to it.
  lemma RacingSnapshotChainsIff(s: Ledger, snapshot: map<Entity, DiscogsId>, m: Message, first: DiscogsId)
    requires m.entity in s.ids && Chains(EventsOf(s.log, m.entity), first, s.ids[m.entity])
    ensures var s' := UpsertFrom(s, snapshot, m);
            Chains(EventsOf(s'.log, m.entity), first, s'.ids[m.entity]) <==>
            (if m.entity in snapshot then snapshot[m.entity] == s.ids[m.entity] else m.discogsId == s.ids[m.entity])
  {
    var events, stored := EventsOf(s.log, m.entity), s.ids[m.entity];
    if m.entity in snapshot && snapshot[m.entity] != m.discogsId {
      var e := LinkEvent(m.entity, KindOf(snapshot[m.entity], m.discogsId), snapshot[m.entity], m.discogsId, m.sourceRef);
      EventsAppend(s.log, e, m.entity);
      ChainAppend(events, e, first, stored, m.discogsId);
    } else if Chains(events, first, m.discogsId) {
      ChainEnds(events, first, stored, m.discogsId);
    }
  }
}
