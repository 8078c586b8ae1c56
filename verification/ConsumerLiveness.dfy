/** What the consumer registry's operations do bring about, on every reachable registry. */
module ConsumerLiveness {
  import opened Wrappers
  import opened ChildRows
  import opened Consumers
  import opened ConsumerRuns

  function Types(order: seq<DataType>): set<DataType> {
    set d | d in order
  }

  lemma TypesOfPrefix(order: seq<DataType>, n: nat)
    requires 0 < n <= |order|
    ensures Types(order[..n]) == {order[0]} + Types(order[1..][..n - 1])
  {
    assert order[..n] == [order[0]] + order[1..][..n - 1];
  }

  /******* Closing *******/

  // The broker confirmed enough to close what is held: the connection, or failing one the channel.
  predicate Closes(s: Subscriptions, c: Close) {
    if s.connection then c.connectionCloses else s.channel ==> c.channelCloses
  }

  lemma CloseOf(s: Subscriptions, c: Close)
    requires TagsInv(s)
    ensures var (s', closed) := CloseConnection(s, c);
            && (closed <==> Closes(s, c)) && (s'.failed <==> !closed)
            && (s'.connection <==> s.connection && !c.connectionCloses)
            && (s'.channel <==> s.channel && !c.channelCloses && !(s.connection && c.connectionCloses))
            && s'.tags == (if closed || (s.channel && c.channelCloses) then map[] else s.tags)
            && s'.queues == s.queues
  {
    if |s.tags| == 0 {
      assert s.tags == map[];
    }
  }

  // On every reachable registry a close succeeds exactly when the broker confirmed the connection's
  // closing, or the channel's where no connection is held; the channel's alone is enough for the tags.
  lemma CloseSucceedsExactlyWhen(grace: bool, es: seq<Event>, c: Close)
    requires After(Drained(grace), es).Some?
    ensures var s := After(Drained(grace), es).value.subs;
            var (s', closed) := CloseConnection(s, c);
            && (closed <==> if s.connection then c.connectionCloses else (s.channel ==> c.channelCloses))
            && (s'.failed <==> !closed)
            && (s'.connection <==> s.connection && !c.connectionCloses)
            && s'.tags == (if closed || (s.channel && c.channelCloses) then map[] else s.tags)
  {
    RunsKeepInv(grace, es);
    CloseOf(After(Drained(grace), es).value.subs, c);
  }

  /******* Subscribing *******/

  lemma {:induction false} ConsumeAllSucceedsIff(s: Subscriptions, order: seq<DataType>, tags: map<DataType, string>)
    ensures ConsumeAll(s, order, tags).1 <==> forall d :: d in order && d in s.queues && d !in s.tags ==> d in tags
    decreases |order|
  {
    if order != [] {
      var d, rest := order[0], order[1..];
      assert order == [d] + rest;
      if d !in s.queues || d in s.tags {
        ConsumeAllSucceedsIff(s, rest, tags);
      } else if d in tags {
        ConsumeAllSucceedsIff(Register(s, d, tags[d]), rest, tags);
      }
    }
  }

  // From no subscription, the types before the first the broker refused are subscribed, and no other.
  lemma {:induction false} ConsumeStopsAtTheRefusal(s: Subscriptions, order: seq<DataType>, tags: map<DataType, string>, n: nat)
    requires n < |order| && order[n] in s.queues && order[n] !in s.tags && order[n] !in tags
    requires forall i :: 0 <= i < n ==> order[i] in s.queues && order[i] in tags
    ensures ConsumeAll(s, order, tags).0.tags.Keys == s.tags.Keys + Types(order[..n])
    decreases |order|
  {
    if n == 0 {
      assert order[..0] == [];
    } else {
      var d, rest := order[0], order[1..];
      TypesOfPrefix(order, n);
      var s' := if d in s.tags then s else Register(s, d, tags[d]);
      assert forall i :: 0 <= i < n - 1 ==> rest[i] == order[i + 1];
      ConsumeStopsAtTheRefusal(s', rest, tags, n - 1);
    }
  }

  // A start over a drained registry subscribes every type, each with the tag the broker returned, exactly
  // when the broker accepts every consumer.
  lemma StartSubscribesIff(s: Subscriptions, tags: map<DataType, string>)
    requires TagsInv(s) && s.tags == map[]
    ensures var s' := StartUp(s, WithChannel(SetupOk), tags);
            && (s'.tags.Keys == ALL_TYPES <==> ALL_TYPES <= tags.Keys)
            && (forall d :: d in s'.tags ==> d in tags && s'.tags[d] == tags[d])
            && s'.connection && s'.channel && s'.queues == ALL_TYPES
  {
    var ready := s.(connection := true, channel := true, connectionTags := map[], queues := ALL_TYPES);
    EveryTypeListed();
    ConsumeAllKeepsTags(ready, DATA_TYPES, tags);
    ConsumeAllSucceedsIff(ready, DATA_TYPES, tags);
    var s' := StartUp(s, WithChannel(SetupOk), tags);
    if ALL_TYPES <= tags.Keys {
      assert forall d :: d in ALL_TYPES ==> d in s'.tags;
    }
    if s'.tags.Keys == ALL_TYPES {
      forall d | d in ALL_TYPES ensures d in tags.Keys {
        assert d in s'.tags;
      }
    }
  }

  // A start that fails earlier subscribes nothing, and leaves the handles it had for the close: the
  // connection always, the channel once it had one, and the queues it declared.
  lemma FailedStartLeavesItsHandles(s: Subscriptions, startup: Startup, tags: map<DataType, string>)
    requires startup.WithChannel? ==> !startup.setup.SetupOk?
    ensures var s' := StartUp(s, startup, tags);
            && s'.tags == s.tags && s'.gauge == s.gauge && s'.failed == s.failed
            && s'.connection && (s'.channel <==> s.channel || startup.WithChannel?)
            && s'.queues == if startup.WithChannel? && startup.setup.DeclareFails? then startup.setup.declared else s.queues
  {
  }

  /******* Recovery *******/

  lemma SetUpRestartsIff(s: Subscriptions, plan: Plan)
    requires TagsInv(s) && s.tags == map[] && s.connection
    ensures SetUp(s, plan).restarted <==> plan.setup.SetupOk? && ALL_TYPES <= plan.tags.Keys
    ensures SetUp(s, plan).restarted ==> SetUp(s, plan).consumed == ALL_TYPES
  {
    if plan.setup.SetupOk? {
      EveryTypeListed();
      var ready := s.(queues := ALL_TYPES);
      ConsumeAllSucceedsIff(ready, DATA_TYPES, plan.tags);
      ConsumeAllKeepsTags(ready, DATA_TYPES, plan.tags);
      assert ALL_TYPES <= plan.tags.Keys <==> forall d :: d in DATA_TYPES ==> d in plan.tags;
    }
  }

  // The broker connects, shows a backlog, and accepts every declaration and every consumer.
  predicate Reconnects(plan: Plan) {
    && plan.connects && plan.probe.Some? && plan.probe.value != {}
    && plan.setup.SetupOk? && ALL_TYPES <= plan.tags.Keys
  }

  lemma ReconnectRestartsIff(s: Subscriptions, plan: Plan)
    requires TagsInv(s) && s.tags == map[]
    ensures Reconnect(s, plan).restarted <==> Reconnects(plan)
    ensures Reconnect(s, plan).restarted ==> Reconnect(s, plan).consumed == ALL_TYPES
  {
    if plan.connects && plan.probe.Some? && plan.probe.value != {} {
      SetUpRestartsIff(s.(connection := true, channel := true, connectionTags := map[]), plan);
    }
  }

  lemma RecoverySubscribes(s: Subscriptions, plan: Plan)
    requires TagsInv(s)
    ensures var after := RecoverSubscriptions(s, plan);
            (after.restarted <==> Closes(s, plan.first) && Reconnects(plan)) && (after.restarted ==> after.consumed == ALL_TYPES)
  {
    CloseOf(s, plan.first);
    CloseKeepsTags(s, plan.first);
    if s.connection || s.channel || s.failed {
      if Closes(s, plan.first) {
        ReconnectRestartsIff(CloseConnection(s, plan.first).0, plan);
      }
    } else {
      assert |s.tags| == 0;
      assert s.tags == map[];
      ReconnectRestartsIff(s, plan);
    }
  }

  // On every reachable registry a recovery restarts the consumers exactly when what is held closes and
  // the broker then connects, shows a backlog for any type, and accepts every declaration and consumer.
  // Every type with a backlog is then no longer complete, and every other is as it was.
  lemma RecoveryRestartsIff(grace: bool, es: seq<Event>, plan: Plan)
    requires After(Drained(grace), es).Some?
    ensures var r := After(Drained(grace), es).value;
            var restarted := RecoverSubscriptions(r.subs, plan).restarted;
            && (restarted <==>
                  && (if r.subs.connection then plan.first.connectionCloses else (r.subs.channel ==> plan.first.channelCloses))
                  && plan.connects && plan.probe.Some? && plan.probe.value != {}
                  && plan.setup.SetupOk? && forall d: DataType :: d in plan.tags)
            && (restarted ==> Recover(r, plan).completed == r.completed - plan.probe.value)
  {
    RunsKeepInv(grace, es);
    RecoverySubscribes(After(Drained(grace), es).value.subs, plan);
    EveryTypeListed();
  }

  // A recovery that cannot close what is held stops there, with the tags and handles the close left and
  // the flag up; one that cannot connect leaves nothing held. Neither touches completion.
  lemma RecoveryStopsWithoutABroker(grace: bool, es: seq<Event>, plan: Plan)
    requires After(Drained(grace), es).Some?
    requires !Closes(After(Drained(grace), es).value.subs, plan.first) || !plan.connects
    ensures var r := After(Drained(grace), es).value;
            var s := Recover(r, plan).subs;
            && Recover(r, plan).completed == r.completed && s.queues == r.subs.queues
            && (if Closes(r.subs, plan.first) then s.tags == map[] && !s.connection && !s.channel && !s.failed
                else s == CloseConnection(r.subs, plan.first).0 && s.failed && (s.connection || s.channel))
  {
    RunsKeepInv(grace, es);
    var r := After(Drained(grace), es).value;
    CloseOf(r.subs, plan.first);
    if !r.subs.connection && !r.subs.channel && !r.subs.failed {
      assert |r.subs.tags| == 0;
      assert r.subs.tags == map[];
    }
    if plan.probe.Some? {
      assert r.completed - ({} * plan.probe.value) == r.completed;
    }
  }

  // With no backlog anywhere a recovery that closes what is held leaves nothing held, and completion alone.
  lemma IdleRecoveryStaysClosed(grace: bool, es: seq<Event>, plan: Plan)
    requires After(Drained(grace), es).Some?
    requires Closes(After(Drained(grace), es).value.subs, plan.first)
    requires plan.connects && plan.probe == Some({}) && plan.idleCloses
    ensures var r := After(Drained(grace), es).value;
            var s := Recover(r, plan).subs;
            && s.tags == map[] && !s.connection && !s.channel && !s.failed
            && Recover(r, plan).completed == r.completed
  {
    RunsKeepInv(grace, es);
    var s := After(Drained(grace), es).value.subs;
    CloseOf(s, plan.first);
    if !s.connection && !s.channel && !s.failed {
      assert |s.tags| == 0;
      assert s.tags == map[];
    }
  }

  // A recovery that connected and then failed.
  predicate FailsAfterConnecting(plan: Plan) {
    plan.connects && !Reconnects(plan) && (plan.probe == Some({}) ==> !plan.idleCloses)
  }

  lemma AbandonedWhenFailed(s: Subscriptions, plan: Plan)
    requires TagsInv(s) && s.tags == map[] && FailsAfterConnecting(plan)
    ensures var s' := Reconnect(s, plan).subs;
            if plan.last.connectionCloses then s'.tags == map[] && s'.queues == {} && !s'.connection && !s'.channel && !s'.failed
            else s'.connection && s'.failed
  {
    ReconnectRestartsIff(s, plan);
  }

  // A recovery that connected and then failed closes what it opened: with the broker's confirmation
  // nothing is held and no queue is kept, without it a handle and the flag are, for the next recovery.
  lemma FailedRecoveryIsAbandoned(grace: bool, es: seq<Event>, plan: Plan)
    requires After(Drained(grace), es).Some?
    requires Closes(After(Drained(grace), es).value.subs, plan.first) && FailsAfterConnecting(plan)
    ensures var s := Recover(After(Drained(grace), es).value, plan).subs;
            if plan.last.connectionCloses then s.tags == map[] && s.queues == {} && !s.connection && !s.channel && !s.failed
            else s.connection && s.failed
  {
    RunsKeepInv(grace, es);
    var s := After(Drained(grace), es).value.subs;
    CloseOf(s, plan.first);
    CloseKeepsTags(s, plan.first);
    if s.connection || s.channel || s.failed {
      AbandonedWhenFailed(CloseConnection(s, plan.first).0, plan);
    } else {
      assert |s.tags| == 0;
      assert s.tags == map[];
      AbandonedWhenFailed(s, plan);
    }
  }

  /******* Shutdown *******/

  // Shutdown drops exactly the tags before the first consumer whose cancel was not confirmed.
  lemma {:induction false} CancelsUpToTheFirstUnconfirmed(s: Subscriptions, order: seq<DataType>, confirmed: set<DataType>, n: nat)
    requires s.tags.Keys <= s.queues && n <= |order|
    requires forall i :: 0 <= i < n && order[i] in s.tags ==> order[i] in confirmed
    requires n < |order| ==> order[n] in s.tags && order[n] !in confirmed
    ensures var s' := CancelTags(s, order, confirmed);
            && s'.tags == s.tags - Types(order[..n])
            && s'.failed == (s.failed || n < |order|)
    decreases |order|
  {
    if order == [] || n == 0 {
      assert order[..n] == [];
      assert s.tags - {} == s.tags;
    } else {
      var d, rest := order[0], order[1..];
      TypesOfPrefix(order, n);
      assert forall i :: 0 <= i < n - 1 ==> rest[i] == order[i + 1];
      var s1 := CancelTag(s, d, d in confirmed);
      assert s1.tags == s.tags - {d};
      CancelsUpToTheFirstUnconfirmed(s1, rest, confirmed, n - 1);
      assert s.tags - {d} - Types(rest[..n - 1]) == s.tags - ({d} + Types(rest[..n - 1]));
    }
  }

  lemma ConfirmedCancelsDrain(s: Subscriptions, confirmed: set<DataType>)
    requires s.tags.Keys <= s.queues && s.tags.Keys <= confirmed
    ensures CancelTags(s, DATA_TYPES, confirmed).tags == map[] && CancelTags(s, DATA_TYPES, confirmed).failed == s.failed
  {
    EveryTypeListed();
    CancelsUpToTheFirstUnconfirmed(s, DATA_TYPES, confirmed, |DATA_TYPES|);
    assert DATA_TYPES[..|DATA_TYPES|] == DATA_TYPES;
    assert s.tags - Types(DATA_TYPES) == map[];
  }

  lemma UnansweredIs(k: Clock)
    requires TimersInv(k)
    ensures Unanswered(k.timers, k.tasks) <==> exists id :: id in k.tasks && k.tasks[id].cancelling
  {
    if id :| id in k.tasks && k.tasks[id].cancelling {
      assert Current(k, id);
      assert k.timers[k.tasks[id].dataType] == id;
    }
  }

  // So when the broker confirms every held consumer's cancel, a shutdown of any reachable registry leaves
  // no tag and no timer; a cancel request still unanswered asks for a recovery.
  lemma ConfirmedShutdownDrains(grace: bool, es: seq<Event>, confirmed: set<DataType>)
    requires After(Drained(grace), es).Some?
    requires After(Drained(grace), es).value.subs.tags.Keys <= confirmed
    ensures var r' := CancelAll(After(Drained(grace), es).value, confirmed);
            && r'.subs.tags == map[] && r'.subs.gauge == 0 && r'.clock.tasks == map[]
            && (r'.subs.failed <==> var r := After(Drained(grace), es).value;
                  r.subs.failed || exists id :: id in r.clock.tasks && r.clock.tasks[id].cancelling)
  {
    RunsKeepInv(grace, es);
    var r := After(Drained(grace), es).value;
    ShutDownKeepsInv(r, confirmed);
    UnansweredIs(r.clock);
    ConfirmedCancelsDrain(r.subs.(failed := r.subs.failed || Unanswered(r.clock.timers, r.clock.tasks)), confirmed);
  }

  /******* Grace timers *******/

  predicate CompletesBy(r: Registry, r': Registry, d: DataType) {
    r' == OnFileComplete(r, d) || r' == OnExtractionComplete(r, d, true)
  }

  lemma CompletionArms(r: Registry, r': Registry, d: DataType)
    requires Inv(r) && r.grace && d in r.subs.queues && CompletesBy(r, r', d)
    ensures d in r'.completed && r'.subs == r.subs && r'.completed == r.completed + {d}
    ensures var id := r.clock.nextTask;
            && id in r'.clock.tasks && r'.clock.tasks[id] == Timer(d, Lookup(r.subs.tags, d), false)
            && Lookup(r'.clock.timers, d) == Some(id)
  {
    CountKeepsTimers(r.clock, d);
    PopKeepsTimers(Count(r.clock, d), d);
  }

  lemma ActDrops(r: Registry, t: Timer, c: Close)
    requires WouldCancel(r, t)
    ensures Act(r, t, false, c) == r.subs.(failed := true)
    ensures Act(r, t, true, c).tags == r.subs.tags - {t.dataType}
    ensures Act(r, t, true, c).connection
            <==> r.subs.connection && !(c.connectionCloses && |r.subs.tags - {t.dataType}| == 0 && |r.completed| == |ALL_TYPES|)
  {
    var dropped := Unregister(r.subs, t.dataType);
    assert |dropped.tags| == 0 ==> dropped.tags == map[];
  }

  // A waking timer whose captured tag is current asks the broker.
  lemma WakeAsks(r: Registry, id: nat)
    requires id in r.clock.tasks && !r.clock.tasks[id].cancelling && WouldCancel(r, r.clock.tasks[id])
    ensures var woken := Wake(r, id);
            && woken.subs == r.subs && woken.completed == r.completed
            && id in woken.clock.tasks && woken.clock.tasks[id] == r.clock.tasks[id].(cancelling := true)
            && WouldCancel(woken, woken.clock.tasks[id])
  {
  }

  // A completed type is unsubscribed: on any reachable registry with a grace delay, a completion marker
  // of a subscribed type arms a timer; if nothing comes before it wakes, it asks the broker, and on
  // confirmation the type's tag is gone, with every other tag kept. A refusal keeps them all and asks for
  // a recovery.
  lemma CompletedTypeIsUnsubscribed(grace: bool, es: seq<Event>, r': Registry, d: DataType, c: Close)
    requires After(Drained(grace), es).Some?
    requires var r := After(Drained(grace), es).value; r.grace && d in r.subs.tags && CompletesBy(r, r', d)
    ensures var r, id := After(Drained(grace), es).value, After(Drained(grace), es).value.clock.nextTask;
            && id in r'.clock.tasks && !r'.clock.tasks[id].cancelling
            && var woken := Wake(r', id);
               && id in woken.clock.tasks && woken.clock.tasks[id].cancelling
               && Answer(woken, id, false, c).subs == r.subs.(failed := true)
               && Answer(woken, id, true, c).subs.tags == r.subs.tags - {d}
  {
    RunsKeepInv(grace, es);
    var r := After(Drained(grace), es).value;
    CompletionArms(r, r', d);
    var id := r.clock.nextTask;
    WakeAsks(r', id);
    ActDrops(Wake(r', id), Wake(r', id).clock.tasks[id], c);
  }

  // Behind the last consumer, once every type is complete, the connection is closed; otherwise it stays.
  lemma LastConsumerClosesTheConnection(grace: bool, es: seq<Event>, r': Registry, d: DataType, c: Close)
    requires After(Drained(grace), es).Some?
    requires var r := After(Drained(grace), es).value; r.grace && d in r.subs.tags && CompletesBy(r, r', d)
    ensures var r, id := After(Drained(grace), es).value, After(Drained(grace), es).value.clock.nextTask;
            && id in r'.clock.tasks && !r'.clock.tasks[id].cancelling
            && var woken := Wake(r', id);
               && id in woken.clock.tasks && woken.clock.tasks[id].cancelling
               && (Answer(woken, id, true, c).subs.connection <==>
                     r.subs.connection
                     && !(c.connectionCloses && r.subs.tags.Keys == {d} && forall x: DataType :: x in r.completed || x == d))
  {
    RunsKeepInv(grace, es);
    var r := After(Drained(grace), es).value;
    CompletionArms(r, r', d);
    AnsweredConnection(r, r', d, c);
  }

  lemma AnsweredConnection(r: Registry, r': Registry, d: DataType, c: Close)
    requires d in r.subs.tags && r'.subs == r.subs && r'.completed == r.completed + {d}
    requires var id := r.clock.nextTask; id in r'.clock.tasks && r'.clock.tasks[id] == Timer(d, Some(r.subs.tags[d]), false)
    ensures var id := r.clock.nextTask;
            var woken := Wake(r', id);
            && id in woken.clock.tasks && woken.clock.tasks[id].cancelling
            && (Answer(woken, id, true, c).subs.connection <==>
                  r.subs.connection
                  && !(c.connectionCloses && r.subs.tags.Keys == {d} && forall x: DataType :: x in r.completed || x == d))
  {
    var id := r.clock.nextTask;
    WakeAsks(r', id);
    ActDrops(Wake(r', id), Wake(r', id).clock.tasks[id], c);
    LastTag(r.subs.tags, d);
    AllComplete(r'.completed);
    assert forall x: DataType :: x in r'.completed <==> x in r.completed || x == d;
  }

  lemma LastTag(tags: map<DataType, string>, d: DataType)
    requires d in tags
    ensures |tags - {d}| == 0 <==> tags.Keys == {d}
  {
    var rest := tags - {d};
    assert tags.Keys == rest.Keys + {d};
    if |rest| == 0 {
      assert rest == map[];
      assert rest.Keys == {};
    }
    if tags.Keys == {d} {
      assert rest.Keys == {};
      assert |rest.Keys| == |rest|;
    }
  }

  lemma AllComplete(completed: set<DataType>)
    ensures |completed| == |ALL_TYPES| <==> forall x: DataType :: x in completed
  {
    EveryTypeListed();
    assert completed <= ALL_TYPES;
    assert ALL_TYPES == completed + (ALL_TYPES - completed);
    if |completed| == |ALL_TYPES| {
      assert |ALL_TYPES - completed| == 0;
      assert ALL_TYPES - completed == {};
    }
    if forall x: DataType :: x in completed {
      assert completed == ALL_TYPES;
    }
  }

  /******* Completion *******/

  // The last message of the type was a completion marker that was accepted.
  predicate LastSaysComplete(es: seq<Event>, d: DataType) {
    es != [] &&
      match es[|es| - 1]
      case RecordHandled(x) => x != d && LastSaysComplete(es[..|es| - 1], d)
      case FileCompleted(x) => x == d || LastSaysComplete(es[..|es| - 1], d)
      case ExtractionCompleted(x, reconciled) => if x == d then reconciled else LastSaysComplete(es[..|es| - 1], d)
      case _ => LastSaysComplete(es[..|es| - 1], d)
  }

  // A type is complete only if the last message of it said so, and until a recovery finds a backlog for it
  // exactly then.
  lemma {:induction false} CompleteIffLastSaysSo(grace: bool, es: seq<Event>, d: DataType)
    requires After(Drained(grace), es).Some?
    ensures d in After(Drained(grace), es).value.completed ==> LastSaysComplete(es, d)
    ensures (forall e :: e in es && e.RecoveryRun? ==> e.plan.probe.None? || d !in e.plan.probe.value) ==>
              (d in After(Drained(grace), es).value.completed <==> LastSaysComplete(es, d))
  {
    if es != [] {
      var init, e := es[..|es| - 1], es[|es| - 1];
      assert e in es && forall x :: x in init ==> x in es;
      CompleteIffLastSaysSo(grace, init, d);
      CompletionStep(After(Drained(grace), init).value, e, d);
    }
  }

  lemma CompletionStep(r: Registry, e: Event, d: DataType)
    requires Enabled(r, e)
    ensures d in Next(r, e).completed <==>
              match e
              case RecordHandled(x) => x != d && d in r.completed
              case FileCompleted(x) => x == d || d in r.completed
              case ExtractionCompleted(x, reconciled) => if x == d then reconciled else d in r.completed
              case RecoveryRun(plan) =>
                d in r.completed && !(plan.probe.Some? && d in plan.probe.value && d in RecoverSubscriptions(r.subs, plan).consumed)
              case _ => d in r.completed
  {
  }
}
