/** What every run of the consumer registry keeps. */
module ConsumerRuns {
  import opened Wrappers
  import opened ChildRows
  import opened Consumers

  datatype Event =
    | Started(startup: Startup, tags: map<DataType, string>)
    | RecordHandled(dataType: DataType)
    | FileCompleted(dataType: DataType)
    | ExtractionCompleted(dataType: DataType, reconciled: bool)
    | TimerWoke(id: nat)
    | TimerAnswered(id: nat, cancelOk: bool, close: Close)
    | TimerUnwound(id: nat)
    | ShutDown(confirmed: set<DataType>)
    | CloseAsked(close: Close)
    | RecoveryRun(plan: Plan)

  // The broker never reuses a tag a pending timer has captured.
  predicate Fresh(k: Clock, newTags: map<DataType, string>) {
    forall d, id :: d in newTags && id in k.tasks ==> k.tasks[id].tag != Some(newTags[d])
  }

  // A process starts only over a drained registry, and may fail at any point of its start.
  predicate Enabled(r: Registry, e: Event) {
    match e
    case Started(_, tags) =>
      !r.subs.connection && !r.subs.channel && !r.subs.failed && |r.subs.tags| == 0 && |r.subs.connectionTags| == 0
      && Fresh(r.clock, tags)
    case TimerWoke(id) => id in r.clock.tasks && !r.clock.tasks[id].cancelling
    case TimerAnswered(id, _, _) => id in r.clock.tasks && r.clock.tasks[id].cancelling
    case TimerUnwound(id) => id in r.clock.cancelled
    case RecoveryRun(plan) => Fresh(r.clock, plan.tags)
    case _ => true
  }

  function Next(r: Registry, e: Event): Registry
    requires Enabled(r, e)
  {
    match e
    case Started(startup, tags) => r.(subs := StartUp(r.subs, startup, tags))
    case RecordHandled(d) => OnRecord(r, d)
    case FileCompleted(d) => OnFileComplete(r, d)
    case ExtractionCompleted(d, reconciled) => OnExtractionComplete(r, d, reconciled)
    case TimerWoke(id) => Wake(r, id)
    case TimerAnswered(id, cancelOk, c) => Answer(r, id, cancelOk, c)
    case TimerUnwound(id) => Unwind(r, id)
    case ShutDown(confirmed) => CancelAll(r, confirmed)
    case CloseAsked(c) => r.(subs := CloseConnection(r.subs, c).0)
    case RecoveryRun(plan) => Recover(r, plan)
  }

  // The registry after a run, None when some step was not enabled.
  function After(r: Registry, es: seq<Event>): Option<Registry> {
    if es == [] then Some(r)
    else
      var before, e := After(r, es[..|es| - 1]), es[|es| - 1];
      if before.Some? && Enabled(before.value, e) then Some(Next(before.value, e)) else None
  }

  /******* The invariant *******/

  // The gauge counts the held tags, and a held tag has a queue and a broker handle to close it with.
  ghost predicate TagsInv(s: Subscriptions) {
    && s.gauge == |s.tags|
    && s.tags.Keys <= s.queues
    && (|s.tags| > 0 ==> s.connection || s.channel)
  }

  // A timer that may still run is its type's current one, and conversely.
  ghost predicate TimersInv(k: Clock) {
    && (forall id :: id in k.tasks ==> Current(k, id))
    && (forall d :: d in k.timers ==> k.timers[d] in k.tasks && k.tasks[k.timers[d]].dataType == d)
    && (forall id :: id in k.cancelled ==> id < k.nextTask && id !in k.tasks)
  }

  ghost predicate Current(k: Clock, id: nat)
    requires id in k.tasks
  {
    id < k.nextTask && id in k.stamps && Lookup(k.timers, k.tasks[id].dataType) == Some(id)
  }

  // It would cancel a consumer only while its type is complete and nothing was handled since it was armed.
  ghost predicate Quiet(r: Registry, id: nat)
    requires id in r.clock.tasks
  {
    WouldCancel(r, r.clock.tasks[id]) ==>
      r.clock.tasks[id].dataType in r.completed && id in r.clock.stamps
      && r.clock.stamps[id] == Handled(r.clock, r.clock.tasks[id].dataType)
  }

  ghost predicate ArmedInv(r: Registry) {
    forall id :: id in r.clock.tasks ==> Quiet(r, id)
  }

  ghost predicate Inv(r: Registry) {
    TagsInv(r.subs) && TimersInv(r.clock) && ArmedInv(r)
  }

  /******* Subscriptions *******/

  lemma CloseKeepsTags(s: Subscriptions, c: Close)
    requires TagsInv(s)
    ensures TagsInv(CloseConnection(s, c).0)
    ensures CloseConnection(s, c).0.tags == s.tags || CloseConnection(s, c).0.tags == map[]
  {
  }

  lemma UnregisterKeepsTags(s: Subscriptions, d: DataType)
    requires TagsInv(s) && d in s.tags
    ensures TagsInv(Unregister(s, d))
  {
    var s' := Unregister(s, d);
    assert s.tags.Keys == s'.tags.Keys + {d};
    assert |s.tags.Keys| == |s.tags| && |s'.tags.Keys| == |s'.tags|;
  }

  lemma {:induction false} CancelTagsKeepsTags(s: Subscriptions, order: seq<DataType>, confirmed: set<DataType>)
    requires TagsInv(s)
    ensures var s' := CancelTags(s, order, confirmed);
            && TagsInv(s')
            && (forall d :: d in s'.tags ==> d in s.tags && s'.tags[d] == s.tags[d])
            && (forall d :: d in s.tags && d !in confirmed ==> d in s'.tags)
    decreases |order|
  {
    if order != [] {
      var d := order[0];
      var s' := CancelTag(s, d, d in confirmed);
      if d in s.tags && d in confirmed {
        UnregisterKeepsTags(s, d);
      }
      if !Unconfirmed(s, d, d in confirmed) {
        CancelTagsKeepsTags(s', order[1..], confirmed);
      }
    }
  }

  lemma RegisterKeepsTags(s: Subscriptions, d: DataType, tag: string)
    requires TagsInv(s) && d !in s.tags && d in s.queues && s.connection
    ensures TagsInv(Register(s, d, tag))
  {
    var s' := Register(s, d, tag);
    assert s'.tags.Keys == s.tags.Keys + {d};
    assert |s.tags.Keys| == |s.tags| && |s'.tags.Keys| == |s'.tags|;
  }

  // What subscribing leaves: the old tags, and new ones the broker returned; all of them on success.
  lemma {:induction false} ConsumeAllKeepsTags(s: Subscriptions, order: seq<DataType>, tags: map<DataType, string>)
    requires TagsInv(s) && s.connection
    ensures var (s', ok) := ConsumeAll(s, order, tags);
            && TagsInv(s') && s'.connection && s'.channel == s.channel && s'.queues == s.queues
            && (forall d :: d in s.tags ==> Lookup(s'.tags, d) == Some(s.tags[d]))
            && (forall d :: d in s'.tags && d !in s.tags ==> Lookup(tags, d) == Some(s'.tags[d]))
            && (ok ==> forall d :: d in order && d in s.queues ==> d in s'.tags)
    decreases |order|
  {
    if order != [] {
      var d, rest := order[0], order[1..];
      assert order == [d] + rest;
      if d !in s.queues || d in s.tags {
        ConsumeAllKeepsTags(s, rest, tags);
      } else if d in tags {
        RegisterKeepsTags(s, d, tags[d]);
        var s1 := Register(s, d, tags[d]);
        ConsumeAllKeepsTags(s1, rest, tags);
        assert d in s1.tags && d in ConsumeAll(s1, rest, tags).0.tags;
      }
    }
  }

  lemma AbandonKeepsTags(s: Subscriptions, plan: Plan)
    requires TagsInv(s)
    ensures TagsInv(Abandon(s, plan))
    ensures forall d :: d in Abandon(s, plan).tags ==> Lookup(s.tags, d) == Some(Abandon(s, plan).tags[d])
  {
    CloseKeepsTags(s.(connection := true, channel := true), plan.last);
  }

  // Every tag a recovery leaves is a kept one or a new one the broker returned.
  ghost predicate TagsFrom(s: Subscriptions, kept: map<DataType, string>, newTags: map<DataType, string>) {
    forall d :: d in s.tags ==> Lookup(kept, d) == Some(s.tags[d]) || Lookup(newTags, d) == Some(s.tags[d])
  }

  ghost predicate Recovered(s: Subscriptions, plan: Plan, after: Recovery) {
    && TagsInv(after.subs) && TagsFrom(after.subs, s.tags, plan.tags)
    && (after.restarted ==> after.subs.tags.Keys == ALL_TYPES && after.subs.connection && after.subs.channel
                            && TagsFrom(after.subs, map[], plan.tags))
    && (after.consumed != {} ==> |s.tags| == 0)
  }

  lemma SetUpRecovers(s: Subscriptions, plan: Plan)
    requires TagsInv(s) && s.tags == map[] && s.connection && s.channel
    ensures Recovered(s, plan, SetUp(s, plan))
  {
    match plan.setup {
      case QosFails => AbandonKeepsTags(s, plan);
      case DeclareFails(declared) => AbandonKeepsTags(s.(queues := declared), plan);
      case SetupOk =>
        EveryTypeListed();
        var ready := s.(queues := ALL_TYPES);
        ConsumeAllKeepsTags(ready, DATA_TYPES, plan.tags);
        var (consumed, ok) := ConsumeAll(ready, DATA_TYPES, plan.tags);
        AbandonKeepsTags(consumed, plan);
    }
  }

  lemma ReconnectRecovers(s: Subscriptions, plan: Plan)
    requires TagsInv(s) && s.tags == map[]
    ensures Recovered(s, plan, Reconnect(s, plan))
  {
    AbandonKeepsTags(s, plan);
    if plan.probe.Some? {
      SetUpRecovers(s.(connection := true, channel := true, connectionTags := map[]), plan);
    }
  }

  lemma RecoverKeepsTags(s: Subscriptions, plan: Plan)
    requires TagsInv(s)
    ensures var after := RecoverSubscriptions(s, plan);
            && TagsInv(after.subs) && TagsFrom(after.subs, s.tags, plan.tags)
            && (after.restarted ==> after.subs.tags.Keys == ALL_TYPES && after.subs.connection && after.subs.channel
                                    && TagsFrom(after.subs, map[], plan.tags))
            && (after.consumed != {} || after.restarted ==> TagsFrom(after.subs, map[], plan.tags))
  {
    CloseKeepsTags(s, plan.first);
    if s.connection || s.channel || s.failed {
      var (closed, ok) := CloseConnection(s, plan.first);
      if ok {
        ReconnectRecovers(closed, plan);
      }
    } else {
      assert |s.tags| == 0;
      assert s.tags == map[];
      ReconnectRecovers(s, plan);
    }
  }

  /******* Timers *******/

  lemma StopCurrentKeepsTimers(k: Clock, d: DataType)
    requires TimersInv(k)
    ensures var k' := StopCurrent(k, d);
            && (forall id :: id in k'.tasks <==> id in k.tasks && k.tasks[id].dataType != d)
            && (forall id :: id in k'.tasks ==> k'.tasks[id] == k.tasks[id])
            && (forall id :: id in k'.cancelled ==> id < k.nextTask && id !in k'.tasks)
            && k' == k.(tasks := k'.tasks, cancelled := k'.cancelled)
  {
    if d in k.timers {
      assert Current(k, k.timers[d]);
    }
    forall id | id in k.tasks && k.tasks[id].dataType == d ensures d in k.timers && id == k.timers[d] {
      assert Current(k, id);
    }
  }

  lemma PopKeepsTimers(k: Clock, d: DataType)
    requires TimersInv(k)
    ensures var k' := Pop(k, d);
            && TimersInv(k') && k'.handled == k.handled && k'.stamps == k.stamps
            && forall id :: id in k'.tasks ==> id in k.tasks && k'.tasks[id] == k.tasks[id] && k.tasks[id].dataType != d
  {
    StopCurrentKeepsTimers(k, d);
    forall id | id in Pop(k, d).tasks ensures Current(Pop(k, d), id) {
      assert Current(k, id);
    }
  }

  // Every timer but the type's own is still running, as it was.
  ghost predicate OthersStay(k: Clock, k': Clock, d: DataType) {
    forall id :: id in k'.tasks && id != k.nextTask ==>
      id in k.tasks && id in k.stamps && id in k'.stamps && k'.tasks[id] == k.tasks[id]
      && k.tasks[id].dataType != d && k'.stamps[id] == k.stamps[id]
  }

  lemma StartKeepsTimers(k: Clock, d: DataType, tag: Option<string>)
    requires TimersInv(k)
    ensures var k' := Start(StopCurrent(k, d), d, tag);
            && TimersInv(k') && k'.handled == k.handled && OthersStay(k, k', d)
            && k.nextTask in k'.stamps && k'.tasks[k.nextTask] == Timer(d, tag, false) && k'.stamps[k.nextTask] == Handled(k, d)
  {
    StopCurrentKeepsTimers(k, d);
    var stopped := StopCurrent(k, d);
    forall id | id in stopped.tasks ensures id in k.tasks && id != k.nextTask && Current(k, id) {
      assert id in k.tasks && Current(k, id);
    }
    StartTheStopped(k, stopped, d, tag);
  }

  lemma StartTheStopped(k: Clock, stopped: Clock, d: DataType, tag: Option<string>)
    requires stopped == k.(tasks := stopped.tasks, cancelled := stopped.cancelled)
    requires forall id :: id in stopped.tasks ==>
               id in k.tasks && Current(k, id) && stopped.tasks[id] == k.tasks[id] && k.tasks[id].dataType != d
    requires forall x :: x in k.timers && x != d ==> k.timers[x] in stopped.tasks && stopped.tasks[k.timers[x]].dataType == x
    requires forall id :: id in stopped.cancelled ==> id < k.nextTask && id !in stopped.tasks
    ensures var k' := Start(stopped, d, tag); TimersInv(k') && OthersStay(k, k', d)
  {
    var k' := Start(stopped, d, tag);
    forall id | id in k'.tasks ensures Current(k', id) {
      if id != k.nextTask {
        assert id in stopped.tasks && Current(k, id);
      }
    }
    forall id | id in k'.tasks && id != k.nextTask
      ensures id in k.tasks && id in k.stamps && k'.tasks[id] == k.tasks[id] && k.tasks[id].dataType != d && k'.stamps[id] == k.stamps[id]
    {
      assert id in stopped.tasks && Current(k, id);
    }
  }

  lemma CountKeepsTimers(k: Clock, d: DataType)
    requires TimersInv(k)
    ensures TimersInv(Count(k, d))
  {
    forall id | id in k.tasks ensures Current(Count(k, d), id) {
      assert Current(k, id);
    }
  }

  lemma EndKeepsTimers(k: Clock, id: nat)
    requires TimersInv(k) && id in k.tasks
    ensures TimersInv(End(k, id))
  {
    assert Current(k, id);
    var k' := End(k, id);
    forall x | x in k'.tasks ensures Current(k', x) {
      assert Current(k, x);
    }
  }

  lemma UnwindForgetsNothing(k: Clock, id: nat)
    requires TimersInv(k) && id in k.cancelled
    ensures Lookup(k.timers, k.cancelled[id].dataType) != Some(id)
    ensures TimersInv(k.(cancelled := k.cancelled - {id}))
  {
    var k' := k.(cancelled := k.cancelled - {id});
    forall x | x in k'.tasks ensures Current(k', x) {
      assert Current(k, x);
    }
  }

  /******* Steps *******/

  lemma RecordKeepsInv(r: Registry, d: DataType)
    requires Inv(r)
    ensures Inv(OnRecord(r, d))
  {
    CountKeepsTimers(r.clock, d);
    PopKeepsTimers(Count(r.clock, d), d);
    var r' := OnRecord(r, d);
    forall id | id in r'.clock.tasks ensures Quiet(r', id) {
      assert Quiet(r, id);
    }
  }

  // Arming under a message of the type: the new timer is stamped with it, the others are of other types.
  lemma ArmKeepsInv(r: Registry, d: DataType)
    requires TagsInv(r.subs) && TimersInv(r.clock)
    requires forall id :: id in r.clock.tasks && r.clock.tasks[id].dataType != d ==> Quiet(r, id)
    requires d in r.completed
    requires (r.grace && d in r.subs.queues) || (forall id :: id in r.clock.tasks && r.clock.tasks[id].dataType == d ==> !WouldCancel(r, r.clock.tasks[id]))
    ensures Inv(Arm(r, d))
  {
    var r' := Arm(r, d);
    if r.grace && d in r.subs.queues {
      StartKeepsTimers(r.clock, d, Lookup(r.subs.tags, d));
      forall id | id in r'.clock.tasks ensures Quiet(r', id) {
        assert Current(r'.clock, id);
        assert id != r.clock.nextTask ==> Quiet(r, id);
      }
    }
  }

  lemma FileCompleteKeepsInv(r: Registry, d: DataType)
    requires Inv(r) && (r.grace || r.clock.tasks == map[])
    ensures Inv(OnFileComplete(r, d))
  {
    CountKeepsTimers(r.clock, d);
    var counted := r.(clock := Count(r.clock, d), completed := r.completed + {d});
    forall id | id in counted.clock.tasks && counted.clock.tasks[id].dataType != d ensures Quiet(counted, id) {
      assert Quiet(r, id);
    }
    ArmKeepsInv(counted, d);
    assert OnFileComplete(r, d) == Arm(counted, d);
  }

  lemma ExtractionCompleteKeepsInv(r: Registry, d: DataType, reconciled: bool)
    requires Inv(r)
    ensures Inv(OnExtractionComplete(r, d, reconciled))
  {
    CountKeepsTimers(r.clock, d);
    PopKeepsTimers(Count(r.clock, d), d);
    var popped := r.(clock := Pop(Count(r.clock, d), d),
                     completed := if reconciled then r.completed + {d} else r.completed - {d});
    forall id | id in popped.clock.tasks ensures Quiet(popped, id) {
      assert Quiet(r, id);
    }
    if reconciled {
      ArmKeepsInv(popped, d);
    }
  }

  // Fewer tags, and the same clock and completions, leave fewer timers that would cancel.
  lemma FewerTagsStayQuiet(r: Registry, s: Subscriptions)
    requires ArmedInv(r) && forall d :: d in s.tags ==> Lookup(r.subs.tags, d) == Some(s.tags[d])
    ensures ArmedInv(r.(subs := s))
  {
    var r' := r.(subs := s);
    forall id | id in r'.clock.tasks ensures Quiet(r', id) {
      assert Quiet(r, id);
    }
  }

  lemma ActKeepsTags(r: Registry, t: Timer, cancelOk: bool, c: Close)
    requires Inv(r)
    ensures var s := Act(r, t, cancelOk, c);
            TagsInv(s) && forall d :: d in s.tags ==> Lookup(r.subs.tags, d) == Some(s.tags[d])
  {
    if cancelOk {
      var dropped := if WouldCancel(r, t) then Unregister(r.subs, t.dataType) else r.subs;
      if WouldCancel(r, t) {
        UnregisterKeepsTags(r.subs, t.dataType);
      }
      CloseKeepsTags(dropped, c);
    }
  }

  lemma EndKeepsInv(r: Registry, id: nat)
    requires Inv(r) && id in r.clock.tasks
    ensures Inv(r.(clock := End(r.clock, id)))
  {
    EndKeepsTimers(r.clock, id);
    var r' := r.(clock := End(r.clock, id));
    forall x | x in r'.clock.tasks ensures Quiet(r', x) {
      assert Quiet(r, x);
    }
  }

  lemma WakeKeepsInv(r: Registry, id: nat)
    requires Inv(r) && id in r.clock.tasks && !r.clock.tasks[id].cancelling
    ensures Inv(Wake(r, id))
  {
    if WouldCancel(r, r.clock.tasks[id]) {
      AskKeepsTimers(r.clock, id);
      var r' := Wake(r, id);
      forall x | x in r'.clock.tasks ensures Quiet(r', x) {
        assert Quiet(r, x);
      }
    } else {
      EndKeepsInv(r, id);
    }
  }

  lemma AskKeepsTimers(k: Clock, id: nat)
    requires TimersInv(k) && id in k.tasks
    ensures TimersInv(k.(tasks := k.tasks[id := k.tasks[id].(cancelling := true)]))
  {
    var k' := k.(tasks := k.tasks[id := k.tasks[id].(cancelling := true)]);
    forall x | x in k'.tasks ensures Current(k', x) {
      assert Current(k, x);
    }
  }

  lemma AnswerKeepsInv(r: Registry, id: nat, cancelOk: bool, c: Close)
    requires Inv(r) && id in r.clock.tasks && r.clock.tasks[id].cancelling
    ensures Inv(Answer(r, id, cancelOk, c))
  {
    var t := r.clock.tasks[id];
    ActKeepsTags(r, t, cancelOk, c);
    FewerTagsStayQuiet(r, Act(r, t, cancelOk, c));
    EndKeepsInv(r.(subs := Act(r, t, cancelOk, c)), id);
  }

  lemma UnwindKeepsInv(r: Registry, id: nat)
    requires Inv(r) && id in r.clock.cancelled
    ensures Inv(Unwind(r, id)) && Unwind(r, id).clock == r.clock.(cancelled := r.clock.cancelled - {id})
  {
    UnwindForgetsNothing(r.clock, id);
    var r' := Unwind(r, id);
    forall x | x in r'.clock.tasks ensures Quiet(r', x) {
      assert Quiet(r, x);
    }
  }

  lemma ShutDownKeepsInv(r: Registry, confirmed: set<DataType>)
    requires Inv(r)
    ensures Inv(CancelAll(r, confirmed)) && CancelAll(r, confirmed).clock.tasks == map[]
  {
    CancelTagsKeepsTags(r.subs.(failed := r.subs.failed || Unanswered(r.clock.timers, r.clock.tasks)), DATA_TYPES, confirmed);
    forall id | id in r.clock.tasks ensures id in r.clock.timers.Values {
      assert Current(r.clock, id);
    }
  }

  lemma NewTagsStayQuiet(r: Registry, s: Subscriptions, newTags: map<DataType, string>, completed: set<DataType>)
    requires ArmedInv(r) && Fresh(r.clock, newTags) && TagsFrom(s, r.subs.tags, newTags)
    requires completed != r.completed ==> TagsFrom(s, map[], newTags)
    ensures ArmedInv(r.(subs := s, completed := completed))
  {
    var r' := r.(subs := s, completed := completed);
    forall id | id in r'.clock.tasks ensures Quiet(r', id) {
      var t := r.clock.tasks[id];
      assert Quiet(r, id);
      if WouldCancel(r', t) {
        assert Lookup(newTags, t.dataType) != Some(s.tags[t.dataType]);
      }
    }
  }

  lemma RecoverKeepsInv(r: Registry, plan: Plan)
    requires Inv(r) && Fresh(r.clock, plan.tags)
    ensures Inv(Recover(r, plan))
  {
    RecoverKeepsTags(r.subs, plan);
    var after := RecoverSubscriptions(r.subs, plan);
    if plan.probe.Some? && after.consumed == {} {
      assert r.completed - (after.consumed * plan.probe.value) == r.completed;
    }
    NewTagsStayQuiet(r, after.subs, plan.tags, Recover(r, plan).completed);
  }

  lemma StartKeepsInv(r: Registry, startup: Startup, tags: map<DataType, string>)
    requires Inv(r) && Enabled(r, Started(startup, tags))
    ensures Inv(Next(r, Started(startup, tags)))
  {
    assert r.subs.tags == map[];
    if startup.WithChannel? && startup.setup.SetupOk? {
      ConsumeAllKeepsTags(r.subs.(connection := true, channel := true, connectionTags := map[], queues := ALL_TYPES), DATA_TYPES, tags);
    }
    NewTagsStayQuiet(r, StartUp(r.subs, startup, tags), tags, r.completed);
  }

  // With no grace delay no timer is ever created.
  ghost predicate GraceInv(r: Registry) {
    r.grace || |r.clock.tasks| == 0
  }

  lemma NextKeepsInv(r: Registry, e: Event)
    requires Inv(r) && GraceInv(r) && Enabled(r, e)
    ensures Inv(Next(r, e)) && GraceInv(Next(r, e))
  {
    match e {
      case Started(startup, tags) => StartKeepsInv(r, startup, tags);
      case RecordHandled(d) => RecordKeepsInv(r, d);
      case FileCompleted(d) =>
        assert !r.grace ==> r.clock.tasks == map[];
        FileCompleteKeepsInv(r, d);
      case ExtractionCompleted(d, reconciled) => ExtractionCompleteKeepsInv(r, d, reconciled);
      case TimerWoke(id) => WakeKeepsInv(r, id);
      case TimerAnswered(id, cancelOk, c) => AnswerKeepsInv(r, id, cancelOk, c);
      case TimerUnwound(id) => UnwindKeepsInv(r, id);
      case ShutDown(confirmed) => ShutDownKeepsInv(r, confirmed);
      case CloseAsked(c) =>
        CloseKeepsTags(r.subs, c);
        FewerTagsStayQuiet(r, CloseConnection(r.subs, c).0);
      case RecoveryRun(plan) => RecoverKeepsInv(r, plan);
    }
  }

  lemma {:induction false} RunsKeepInv(grace: bool, es: seq<Event>)
    requires After(Drained(grace), es).Some?
    ensures Inv(After(Drained(grace), es).value) && GraceInv(After(Drained(grace), es).value)
  {
    if es != [] {
      RunsKeepInv(grace, es[..|es| - 1]);
      NextKeepsInv(After(Drained(grace), es[..|es| - 1]).value, es[|es| - 1]);
    }
  }

  /******* The registration evidence *******/

  // Every held tag is among those registered on the current connection.
  ghost predicate Registered(s: Subscriptions) {
    forall d :: d in s.tags ==> d in s.connectionTags && s.connectionTags[d] == s.tags[d]
  }

  lemma {:induction false} ConsumeAllRegisters(s: Subscriptions, order: seq<DataType>, tags: map<DataType, string>)
    requires Registered(s)
    ensures Registered(ConsumeAll(s, order, tags).0)
    decreases |order|
  {
    if order != [] {
      var d := order[0];
      if d !in s.queues || d in s.tags {
        ConsumeAllRegisters(s, order[1..], tags);
      } else if d in tags {
        ConsumeAllRegisters(Register(s, d, tags[d]), order[1..], tags);
      }
    }
  }

  lemma {:induction false} CancelTagsKeepsEvidence(s: Subscriptions, order: seq<DataType>, confirmed: set<DataType>)
    requires Registered(s)
    ensures Registered(CancelTags(s, order, confirmed))
    decreases |order|
  {
    if order != [] && !Unconfirmed(s, order[0], order[0] in confirmed) {
      CancelTagsKeepsEvidence(CancelTag(s, order[0], order[0] in confirmed), order[1..], confirmed);
    }
  }

  lemma AbandonRegisters(s: Subscriptions, plan: Plan)
    requires Registered(s)
    ensures Registered(Abandon(s, plan))
  {
  }

  lemma SetUpRegisters(s: Subscriptions, plan: Plan)
    requires Registered(s)
    ensures Registered(SetUp(s, plan).subs)
  {
    match plan.setup {
      case QosFails => AbandonRegisters(s, plan);
      case DeclareFails(declared) => AbandonRegisters(s.(queues := declared), plan);
      case SetupOk =>
        var ready := s.(queues := ALL_TYPES);
        ConsumeAllRegisters(ready, DATA_TYPES, plan.tags);
        AbandonRegisters(ConsumeAll(ready, DATA_TYPES, plan.tags).0, plan);
    }
  }

  lemma ReconnectRegisters(s: Subscriptions, plan: Plan)
    requires s.tags == map[]
    ensures Registered(Reconnect(s, plan).subs)
  {
    AbandonRegisters(s, plan);
    SetUpRegisters(s.(connection := true, channel := true, connectionTags := map[]), plan);
  }

  lemma RecoveryRegisters(s: Subscriptions, plan: Plan)
    requires TagsInv(s) && Registered(s)
    ensures Registered(RecoverSubscriptions(s, plan).subs)
  {
    if s.connection || s.channel || s.failed {
      var (closed, ok) := CloseConnection(s, plan.first);
      if ok {
        ReconnectRegisters(closed, plan);
      }
    } else {
      assert |s.tags| == 0;
      assert s.tags == map[];
      ReconnectRegisters(s, plan);
    }
  }

  lemma ActRegisters(r: Registry, t: Timer, cancelOk: bool, c: Close)
    requires Registered(r.subs)
    ensures Registered(Act(r, t, cancelOk, c))
  {
  }

  lemma StartRegisters(s: Subscriptions, startup: Startup, tags: map<DataType, string>)
    requires s.tags == map[]
    ensures Registered(StartUp(s, startup, tags))
  {
    ConsumeAllRegisters(s.(connection := true, channel := true, connectionTags := map[], queues := ALL_TYPES), DATA_TYPES, tags);
  }

  lemma NextKeepsEvidence(r: Registry, e: Event)
    requires TagsInv(r.subs) && Registered(r.subs) && Enabled(r, e)
    ensures Registered(Next(r, e).subs)
  {
    match e {
      case Started(startup, tags) =>
        assert r.subs.tags == map[];
        StartRegisters(r.subs, startup, tags);
      case TimerAnswered(id, cancelOk, c) => ActRegisters(r, r.clock.tasks[id], cancelOk, c);
      case ShutDown(confirmed) =>
        CancelTagsKeepsEvidence(r.subs.(failed := r.subs.failed || Unanswered(r.clock.timers, r.clock.tasks)), DATA_TYPES, confirmed);
      case RecoveryRun(plan) => RecoveryRegisters(r.subs, plan);
      case _ =>
    }
  }

  // In every run, the evidence a close logs covers every held tag.
  lemma {:induction false} HeldTagsWereRegistered(grace: bool, es: seq<Event>)
    requires After(Drained(grace), es).Some?
    ensures Registered(After(Drained(grace), es).value.subs)
  {
    if es != [] {
      HeldTagsWereRegistered(grace, es[..|es| - 1]);
      RunsKeepInv(grace, es[..|es| - 1]);
      NextKeepsEvidence(After(Drained(grace), es[..|es| - 1]).value, es[|es| - 1]);
    }
  }

  /******* What the invariant is for *******/

  // In every run the gauge is the number of held tags, and a held tag keeps a broker handle.
  lemma GaugeCountsHeldTags(grace: bool, es: seq<Event>)
    requires After(Drained(grace), es).Some?
    ensures var s := After(Drained(grace), es).value.subs;
            s.gauge == |s.tags| && (|s.tags| > 0 ==> s.connection || s.channel)
  {
    RunsKeepInv(grace, es);
  }

  predicate ConfirmsClose(s: Subscriptions, c: Close) {
    (s.channel && c.channelCloses) || (s.connection && c.connectionCloses)
  }

  // The broker confirmed that the type's consumer stopped: its cancel, or the closing of what carried it.
  predicate Confirmed(r: Registry, e: Event, d: DataType) {
    match e
    case TimerAnswered(id, cancelOk, c) => cancelOk && id in r.clock.tasks && r.clock.tasks[id].dataType == d
    case ShutDown(confirmed) => d in confirmed
    case CloseAsked(c) => ConfirmsClose(r.subs, c)
    case RecoveryRun(plan) => ConfirmsClose(r.subs, plan.first)
    case _ => false
  }

  lemma AnswerDropsItsOwn(r: Registry, t: Timer, cancelOk: bool, c: Close, d: DataType)
    requires TagsInv(r.subs) && d in r.subs.tags && (!cancelOk || t.dataType != d)
    ensures Lookup(Act(r, t, cancelOk, c).tags, d) == Some(r.subs.tags[d])
  {
    if cancelOk && WouldCancel(r, t) {
      var dropped := Unregister(r.subs, t.dataType);
      assert d in dropped.tags;
      assert |dropped.tags| > 0;
    } else {
      assert |r.subs.tags| > 0;
    }
  }

  lemma UnconfirmedRecoveryKeepsTags(s: Subscriptions, plan: Plan, d: DataType)
    requires TagsInv(s) && d in s.tags && !ConfirmsClose(s, plan.first)
    ensures Lookup(RecoverSubscriptions(s, plan).subs.tags, d) == Some(s.tags[d])
  {
    assert |s.tags| > 0;
  }

  // On every reachable state a held tag is dropped or replaced only with the broker's confirmation.
  lemma TagsDropOnlyWhenConfirmed(grace: bool, es: seq<Event>, e: Event, d: DataType)
    requires After(Drained(grace), es).Some? && Enabled(After(Drained(grace), es).value, e)
    requires d in After(Drained(grace), es).value.subs.tags
    ensures var r := After(Drained(grace), es).value;
            Lookup(Next(r, e).subs.tags, d) == Some(r.subs.tags[d]) || Confirmed(r, e, d)
  {
    RunsKeepInv(grace, es);
    StepDropsOnlyWhenConfirmed(After(Drained(grace), es).value, e, d);
  }

  lemma StepDropsOnlyWhenConfirmed(r: Registry, e: Event, d: DataType)
    requires TagsInv(r.subs) && Enabled(r, e) && d in r.subs.tags
    ensures Lookup(Next(r, e).subs.tags, d) == Some(r.subs.tags[d]) || Confirmed(r, e, d)
  {
    assert |r.subs.tags| > 0;
    match e {
      case ShutDown(confirmed) =>
        CancelTagsKeepsTags(r.subs.(failed := r.subs.failed || Unanswered(r.clock.timers, r.clock.tasks)), DATA_TYPES, confirmed);
      case TimerAnswered(id, cancelOk, c) =>
        if !Confirmed(r, e, d) {
          AnswerDropsItsOwn(r, r.clock.tasks[id], cancelOk, c, d);
        }
      case RecoveryRun(plan) =>
        if !Confirmed(r, e, d) {
          UnconfirmedRecoveryKeepsTags(r.subs, plan, d);
        }
      case _ =>
    }
  }

  // A close that answers true left no tag and no handle; one that answers false left a handle for the
  // recovery to close, and says so.
  lemma CloseAnswersTruly(grace: bool, es: seq<Event>, c: Close)
    requires After(Drained(grace), es).Some?
    ensures var (s, closed) := CloseConnection(After(Drained(grace), es).value.subs, c);
            && (closed ==> s.tags == map[] && s.connectionTags == map[] && !s.connection && !s.channel && !s.failed && s.gauge == 0)
            && (!closed ==> s.failed && (s.connection || s.channel))
  {
    RunsKeepInv(grace, es);
  }

  // A successful recovery gives every type exactly one tag, the one the broker just returned.
  lemma RecoveryRestartsEveryType(grace: bool, es: seq<Event>, plan: Plan)
    requires After(Drained(grace), es).Some? && Enabled(After(Drained(grace), es).value, RecoveryRun(plan))
    requires RecoverSubscriptions(After(Drained(grace), es).value.subs, plan).restarted
    ensures var s := Next(After(Drained(grace), es).value, RecoveryRun(plan)).subs;
            && s.tags.Keys == ALL_TYPES && s.gauge == |ALL_TYPES| && s.connection && s.channel
            && forall d :: d in s.tags ==> Lookup(plan.tags, d) == Some(s.tags[d])
  {
    RunsKeepInv(grace, es);
    var r := After(Drained(grace), es).value;
    RecoverKeepsTags(r.subs, plan);
    var s := Next(r, RecoveryRun(plan)).subs;
    assert |s.tags.Keys| == |s.tags|;
  }

  // In every run, an answered timer drops its type's tag only if it is the type's current timer, the tag
  // is the one it captured, the type is still complete, and nothing of it was handled since the arming.
  lemma TimerCancelsOnlyWhenQuiet(grace: bool, es: seq<Event>, id: nat, cancelOk: bool, c: Close)
    requires After(Drained(grace), es).Some? && Enabled(After(Drained(grace), es).value, TimerAnswered(id, cancelOk, c))
    ensures var r := After(Drained(grace), es).value;
            var t := r.clock.tasks[id];
            && Lookup(r.clock.timers, t.dataType) == Some(id)
            && (t.dataType in r.subs.tags && t.dataType !in Answer(r, id, cancelOk, c).subs.tags ==>
                  && t.tag == Some(r.subs.tags[t.dataType])
                  && t.dataType in r.completed
                  && id in r.clock.stamps && r.clock.stamps[id] == Handled(r.clock, t.dataType))
  {
    RunsKeepInv(grace, es);
    var r := After(Drained(grace), es).value;
    assert Current(r.clock, id) && Quiet(r, id);
  }

  // In every run, a record that arrives while its type's cancel request is with the broker stops the
  // timer: it never drops the tag, and its cleanup asks for a recovery.
  lemma InterruptedCancelAsksForRecovery(grace: bool, es: seq<Event>, id: nat)
    requires After(Drained(grace), es).Some?
    requires var r := After(Drained(grace), es).value; id in r.clock.tasks && r.clock.tasks[id].cancelling
    ensures var r := After(Drained(grace), es).value;
            var stopped := OnRecord(r, r.clock.tasks[id].dataType);
            && id !in stopped.clock.tasks && id in stopped.clock.cancelled
            && Unwind(stopped, id).subs == r.subs.(failed := true)
            && Unwind(stopped, id).clock.timers == stopped.clock.timers
  {
    RunsKeepInv(grace, es);
    var r := After(Drained(grace), es).value;
    assert Current(r.clock, id);
  }

  // A replaced timer's late cleanup never removes its successor's entry.
  lemma ReplacedTimerLeavesItsSuccessor(grace: bool, es: seq<Event>, id: nat)
    requires After(Drained(grace), es).Some? && id in After(Drained(grace), es).value.clock.cancelled
    ensures var r := After(Drained(grace), es).value;
            Unwind(r, id).clock.timers == r.clock.timers && Unwind(r, id).clock.tasks == r.clock.tasks
  {
    RunsKeepInv(grace, es);
    UnwindKeepsInv(After(Drained(grace), es).value, id);
  }
}
