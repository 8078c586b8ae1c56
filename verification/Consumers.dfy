/**
 The consumer registry: tags, the active-consumer gauge, completion marks, grace timers, the start, the
 bounded close and the recovery. Each message handler, close and recovery is one step, and a timer's body
 two: up to its cancel request and from the answer on. The broker's answers are parameters. The functions
 are the specification, the class below meets them.
 */
module Consumers {
  import opened Wrappers
  import opened ChildRows

  // What is subscribed, through which broker handles, and the gauge that counts it.
  datatype Subscriptions = Subscriptions(
    tags: map<DataType, string>,
    connectionTags: map<DataType, string>,
    gauge: int,
    connection: bool,
    channel: bool,
    failed: bool,
    queues: set<DataType>)

  // A grace timer's captured variables, and whether its cancel request is with the broker.
  datatype Timer = Timer(dataType: DataType, tag: Option<string>, cancelling: bool)

  // `timers` is consumer_cancel_tasks; `tasks` are the timers whose body may still run, `cancelled` those
  // asked to stop whose cleanup has not run yet. The last two fields are history: how many messages of
  // each type have been handled, now and when each timer was armed.
  datatype Clock = Clock(
    timers: map<DataType, nat>,
    tasks: map<nat, Timer>,
    cancelled: map<nat, Timer>,
    nextTask: nat,
    handled: map<DataType, nat>,
    stamps: map<nat, nat>)

  // `grace` is CONSUMER_CANCEL_DELAY > 0.
  datatype Registry = Registry(grace: bool, subs: Subscriptions, completed: set<DataType>, clock: Clock)

  function Lookup<V>(m: map<DataType, V>, d: DataType): Option<V> {
    if d in m then Some(m[d]) else None
  }

  const NO_SUBSCRIPTIONS := Subscriptions(map[], map[], 0, false, false, false, {})
  const NO_TIMERS := Clock(map[], map[], map[], 0, map[], map[])

  function Drained(grace: bool): Registry {
    Registry(grace, NO_SUBSCRIPTIONS, {}, NO_TIMERS)
  }

  /******* Subscriptions *******/

  function Register(s: Subscriptions, d: DataType, tag: string): Subscriptions {
    s.(tags := s.tags[d := tag], connectionTags := s.connectionTags[d := tag], gauge := s.gauge + 1)
  }

  function Unregister(s: Subscriptions, d: DataType): Subscriptions {
    s.(tags := s.tags - {d}, gauge := s.gauge - 1)
  }

  // How the broker answers a close: whether each handle's closing was confirmed in time.
  datatype Close = Close(channelCloses: bool, connectionCloses: bool)

  function CloseConnection(s: Subscriptions, c: Close): (Subscriptions, bool) {
    var channelClosed, connectionClosed := s.channel && c.channelCloses, s.connection && c.connectionCloses;
    var left := s.(channel := s.channel && !channelClosed && !connectionClosed, connection := s.connection && !connectionClosed);
    if !(channelClosed || connectionClosed || (!s.connection && !s.channel && |s.tags| == 0)) then (left.(failed := true), false)
    else
      (left.(gauge := s.gauge - |s.tags|, tags := map[], connectionTags := map[], failed := left.connection), !left.connection)
  }

  // Shutdown cancels tag by tag, stopping at the first unconfirmed one.
  function CancelTag(s: Subscriptions, d: DataType, confirmed: bool): Subscriptions {
    if d !in s.tags then s
    else if d in s.queues && confirmed then Unregister(s, d)
    else s.(failed := true)
  }

  predicate Unconfirmed(s: Subscriptions, d: DataType, confirmed: bool) {
    d in s.tags && d in s.queues && !confirmed
  }

  function CancelTags(s: Subscriptions, order: seq<DataType>, confirmed: set<DataType>): Subscriptions
    decreases |order|
  {
    if order == [] then s
    else
      var d := order[0];
      var s' := CancelTag(s, d, d in confirmed);
      if Unconfirmed(s, d, d in confirmed) then s' else CancelTags(s', order[1..], confirmed)
  }

  // Subscribe every type that has a queue and no tag, in order; `consume` fails for a type absent from `tags`.
  function ConsumeAll(s: Subscriptions, order: seq<DataType>, tags: map<DataType, string>): (Subscriptions, bool)
    decreases |order|
  {
    if order == [] then (s, true)
    else
      var d := order[0];
      if d !in s.queues || d in s.tags then ConsumeAll(s, order[1..], tags)
      else if d !in tags then (s, false)
      else ConsumeAll(Register(s, d, tags[d]), order[1..], tags)
  }

  /******* Start and recovery *******/

  datatype Setup = QosFails | DeclareFails(declared: set<DataType>) | SetupOk

  // How far a start gets; its exceptions leave what was set, for the caller to close.
  datatype Startup = NoChannel | WithChannel(setup: Setup)

  function StartUp(s: Subscriptions, startup: Startup, tags: map<DataType, string>): Subscriptions {
    match startup
    case NoChannel => s.(connection := true)
    case WithChannel(QosFails) => s.(connection := true, channel := true)
    case WithChannel(DeclareFails(declared)) => s.(connection := true, channel := true, queues := declared)
    case WithChannel(SetupOk) =>
      ConsumeAll(s.(connection := true, channel := true, connectionTags := map[], queues := ALL_TYPES), DATA_TYPES, tags).0
  }

  // `first` and `last` answer the close before reconnecting and the close after a failure. `probe` is
  // the types with a backlog, None when a passive declare failed. `tags` are the tags `consume` returned.
  datatype Plan = Plan(first: Close, connects: bool, probe: Option<set<DataType>>, idleCloses: bool,
                       setup: Setup, tags: map<DataType, string>, last: Close)

  // The subscriptions after a recovery, the types it subscribed, and whether it completed.
  datatype Recovery = Recovery(subs: Subscriptions, consumed: set<DataType>, restarted: bool)

  function Abandon(s: Subscriptions, plan: Plan): Subscriptions {
    var (closed, ok) := CloseConnection(s.(connection := true, channel := true), plan.last);
    if ok then closed.(queues := {}) else closed
  }

  function Subscribe(s: Subscriptions, plan: Plan): Recovery {
    var (consumed, ok) := ConsumeAll(s, DATA_TYPES, plan.tags);
    Recovery(if ok then consumed else Abandon(consumed, plan), consumed.tags.Keys - s.tags.Keys, ok)
  }

  function SetUp(s: Subscriptions, plan: Plan): Recovery {
    match plan.setup
    case QosFails => Recovery(Abandon(s, plan), {}, false)
    case DeclareFails(declared) => Recovery(Abandon(s.(queues := declared), plan), {}, false)
    case SetupOk => Subscribe(s.(queues := ALL_TYPES), plan)
  }

  function Reconnect(s: Subscriptions, plan: Plan): Recovery {
    if !plan.connects then Recovery(s, {}, false)
    else if plan.probe.None? then Recovery(Abandon(s, plan), {}, false)
    else if plan.probe.value == {} then Recovery(if plan.idleCloses then s else Abandon(s, plan), {}, false)
    else SetUp(s.(connection := true, channel := true, connectionTags := map[]), plan)
  }

  function RecoverSubscriptions(s: Subscriptions, plan: Plan): Recovery {
    if s.connection || s.channel || s.failed then
      var (closed, ok) := CloseConnection(s, plan.first);
      if ok then Reconnect(closed, plan) else Recovery(closed, {}, false)
    else Reconnect(s, plan)
  }

  // A type subscribed again with a backlog is no longer complete.
  function Recover(r: Registry, plan: Plan): Registry {
    var after := RecoverSubscriptions(r.subs, plan);
    r.(subs := after.subs,
       completed := if plan.probe.Some? then r.completed - (after.consumed * plan.probe.value) else r.completed)
  }

  /******* Grace timers *******/

  function Handled(k: Clock, d: DataType): nat {
    if d in k.handled then k.handled[d] else 0
  }

  function Count(k: Clock, d: DataType): Clock {
    k.(handled := k.handled[d := Handled(k, d) + 1])
  }

  // task.cancel(): the body never resumes; its cleanup runs later.
  function Stop(k: Clock, id: nat): Clock {
    if id in k.tasks then k.(tasks := k.tasks - {id}, cancelled := k.cancelled[id := k.tasks[id]]) else k
  }

  function StopCurrent(k: Clock, d: DataType): Clock {
    if d in k.timers then Stop(k, k.timers[d]) else k
  }

  function Start(k: Clock, d: DataType, tag: Option<string>): Clock {
    k.(timers := k.timers[d := k.nextTask],
       tasks := k.tasks[k.nextTask := Timer(d, tag, false)],
       stamps := k.stamps[k.nextTask := Handled(k, d)],
       nextTask := k.nextTask + 1)
  }

  function Pop(k: Clock, d: DataType): Clock {
    var stopped := StopCurrent(k, d);
    stopped.(timers := stopped.timers - {d})
  }

  function Arm(r: Registry, d: DataType): Registry {
    if r.grace && d in r.subs.queues then r.(clock := Start(StopCurrent(r.clock, d), d, Lookup(r.subs.tags, d))) else r
  }

  // A cleanup removes the entry it finds for its type only if that is its own.
  function Forget(k: Clock, id: nat, d: DataType): Clock {
    if Lookup(k.timers, d) == Some(id) then k.(timers := k.timers - {d}) else k
  }

  function JoinTimers(k: Clock): Clock {
    k.(tasks := k.tasks - k.timers.Values, timers := map[])
  }

  /******* Messages and timer bodies *******/

  // Any parsed message that is not a completion marker, whether or not it is then accepted.
  function OnRecord(r: Registry, d: DataType): Registry {
    r.(completed := r.completed - {d}, clock := Pop(Count(r.clock, d), d))
  }

  function OnFileComplete(r: Registry, d: DataType): Registry {
    var armed := Arm(r.(clock := Count(r.clock, d)), d);
    armed.(completed := armed.completed + {d})
  }

  function OnExtractionComplete(r: Registry, d: DataType, reconciled: bool): Registry {
    var popped := r.(clock := Pop(Count(r.clock, d), d));
    if reconciled then Arm(popped.(completed := r.completed + {d}), d)
    else popped.(completed := r.completed - {d})
  }

  predicate WouldCancel(r: Registry, t: Timer) {
    t.tag.Some? && Lookup(r.subs.tags, t.dataType) == t.tag
  }

  predicate AllIdle(s: Subscriptions, completed: set<DataType>) {
    |s.tags| == 0 && |completed| == |ALL_TYPES|
  }

  function End(k: Clock, id: nat): Clock
    requires id in k.tasks
  {
    Forget(k.(tasks := k.tasks - {id}), id, k.tasks[id].dataType)
  }

  // The timer's body after its sleep: ask the broker to cancel the consumer if the captured tag is still
  // the current one, otherwise end.
  function Wake(r: Registry, id: nat): Registry
    requires id in r.clock.tasks && !r.clock.tasks[id].cancelling
  {
    var t := r.clock.tasks[id];
    if WouldCancel(r, t) then r.(clock := r.clock.(tasks := r.clock.tasks[id := t.(cancelling := true)]))
    else r.(clock := End(r.clock, id))
  }

  // From the broker's answer on: drop the tag if it is still the captured one, and close the connection
  // behind the last consumer.
  function Act(r: Registry, t: Timer, cancelOk: bool, c: Close): Subscriptions {
    if !cancelOk then r.subs.(failed := true)
    else
      var dropped := if WouldCancel(r, t) then Unregister(r.subs, t.dataType) else r.subs;
      if AllIdle(dropped, r.completed) then CloseConnection(dropped, c).0 else dropped
  }

  function Answer(r: Registry, id: nat, cancelOk: bool, c: Close): Registry
    requires id in r.clock.tasks && r.clock.tasks[id].cancelling
  {
    r.(subs := Act(r, r.clock.tasks[id], cancelOk, c), clock := End(r.clock, id))
  }

  // The cleanup of a cancelled timer; one whose request was with the broker leaves it unconfirmed.
  function Unwind(r: Registry, id: nat): Registry
    requires id in r.clock.cancelled
  {
    var t := r.clock.cancelled[id];
    r.(subs := r.subs.(failed := r.subs.failed || t.cancelling),
       clock := Forget(r.clock.(cancelled := r.clock.cancelled - {id}), id, t.dataType))
  }

  // Some current timer's request is with the broker.
  predicate Unanswered(timers: map<DataType, nat>, tasks: map<nat, Timer>) {
    exists d | d in timers :: timers[d] in tasks && tasks[timers[d]].cancelling
  }

  // Shutdown: join every timer, then cancel every tag.
  function CancelAll(r: Registry, confirmed: set<DataType>): Registry {
    var s := r.subs.(failed := r.subs.failed || Unanswered(r.clock.timers, r.clock.tasks));
    r.(clock := JoinTimers(r.clock), subs := CancelTags(s, DATA_TYPES, confirmed))
  }

  /******* The module's state and its functions *******/

  class ConsumerRegistry {
    const grace: bool
    var tags: map<DataType, string>
    var connectionTags: map<DataType, string>
    var gauge: int
    var connection: bool
    var channel: bool
    var failed: bool
    var queues: set<DataType>
    var completed: set<DataType>
    var timers: map<DataType, nat>
    var tasks: map<nat, Timer>
    var cancelled: map<nat, Timer>
    var nextTask: nat
    ghost var handled: map<DataType, nat>
    ghost var stamps: map<nat, nat>

    function Subs(): Subscriptions
      reads `tags, `connectionTags, `gauge, `connection, `channel, `failed, `queues
    {
      Subscriptions(tags, connectionTags, gauge, connection, channel, failed, queues)
    }

    ghost function Timers(): Clock
      reads `timers, `tasks, `cancelled, `nextTask, `handled, `stamps
    {
      Clock(timers, tasks, cancelled, nextTask, handled, stamps)
    }

    ghost function View(): Registry
      reads this
    {
      Registry(grace, Subs(), completed, Timers())
    }

    constructor (grace: bool)
      ensures View() == Drained(grace)
    {
      this.grace := grace;
      tags, connectionTags, gauge, queues := map[], map[], 0, {};
      connection, channel, failed := false, false, false;
      completed := {};
      timers, tasks, cancelled, nextTask, handled, stamps := map[], map[], map[], 0, map[], map[];
    }

    /******* Subscriptions *******/

    method RegisterConsumer(d: DataType, tag: string)
      modifies `tags, `connectionTags, `gauge
      ensures Subs() == Register(old(Subs()), d, tag)
    {
      tags := tags[d := tag];
      connectionTags := connectionTags[d := tag];
      gauge := gauge + 1;
    }

    method DropTag(d: DataType)
      modifies `tags, `gauge
      ensures Subs() == Unregister(old(Subs()), d)
    {
      tags := tags - {d};
      gauge := gauge - 1;
    }

    method CloseRabbitmqConnection(c: Close) returns (closed: bool)
      modifies `tags, `connectionTags, `gauge, `connection, `channel, `failed
      ensures (Subs(), closed) == CloseConnection(old(Subs()), c)
    {
      var confirmed := !connection && !channel && |tags| == 0;
      if channel && c.channelCloses {
        channel := false;
        confirmed := true;
      }
      if connection && c.connectionCloses {
        connection := false;
        channel := false;
        confirmed := true;
      }
      if !confirmed {
        failed := true;
        return false;
      }
      gauge := gauge - |tags|;
      tags := map[];
      connectionTags := map[];
      failed := connection;
      return !failed;
    }

    method CancelOne(d: DataType, confirmed: bool) returns (stop: bool)
      modifies `tags, `gauge, `failed
      ensures Subs() == CancelTag(old(Subs()), d, confirmed) && stop == Unconfirmed(old(Subs()), d, confirmed)
    {
      if d !in tags {
        return false;
      }
      if d !in queues {
        failed := true;
        return false;
      }
      if !confirmed {
        failed := true;
        return true;
      }
      DropTag(d);
      return false;
    }

    method CancelEach(confirmed: set<DataType>)
      modifies `tags, `gauge, `failed
      ensures Subs() == CancelTags(old(Subs()), DATA_TYPES, confirmed)
    {
      for i := 0 to |DATA_TYPES|
        invariant CancelTags(Subs(), DATA_TYPES[i..], confirmed) == CancelTags(old(Subs()), DATA_TYPES, confirmed)
      {
        assert DATA_TYPES[i..] == [DATA_TYPES[i]] + DATA_TYPES[i + 1..];
        var stop := CancelOne(DATA_TYPES[i], DATA_TYPES[i] in confirmed);
        if stop {
          return;
        }
      }
    }

    // Shutdown's deregistration: join the pending timers, then cancel every consumer.
    method CancelAllConsumers(confirmed: set<DataType>)
      modifies `tasks, `timers, `tags, `gauge, `failed
      ensures View() == CancelAll(old(View()), confirmed)
    {
      failed := failed || Unanswered(timers, tasks);
      tasks := tasks - timers.Values;
      timers := map[];
      CancelEach(confirmed);
    }

    /******* Start and recovery *******/

    // Subscribe every type at startup; false when an exception ended it.
    method StartConsumers(startup: Startup, newTags: map<DataType, string>) returns (started: bool)
      modifies `tags, `connectionTags, `gauge, `connection, `channel, `queues
      ensures Subs() == StartUp(old(Subs()), startup, newTags)
    {
      connection := true;
      if startup.NoChannel? {
        return false;
      }
      channel := true;
      if startup.setup.QosFails? {
        return false;
      }
      if startup.setup.DeclareFails? {
        queues := startup.setup.declared;
        return false;
      }
      queues := ALL_TYPES;
      connectionTags := map[];
      started := ConsumeEach(newTags);
    }

    method AbandonRecovery(plan: Plan)
      modifies `tags, `connectionTags, `gauge, `connection, `channel, `failed, `queues
      ensures Subs() == Abandon(old(Subs()), plan)
    {
      connection, channel := true, true;
      var closed := CloseRabbitmqConnection(plan.last);
      if closed {
        queues := {};
      }
    }

    method ConsumeEach(newTags: map<DataType, string>) returns (ok: bool)
      modifies `tags, `connectionTags, `gauge
      ensures (Subs(), ok) == ConsumeAll(old(Subs()), DATA_TYPES, newTags)
    {
      for i := 0 to |DATA_TYPES|
        invariant ConsumeAll(Subs(), DATA_TYPES[i..], newTags) == ConsumeAll(old(Subs()), DATA_TYPES, newTags)
      {
        var d := DATA_TYPES[i];
        assert DATA_TYPES[i..] == [d] + DATA_TYPES[i + 1..];
        if d in queues && d !in tags {
          if d !in newTags {
            return false;
          }
          RegisterConsumer(d, newTags[d]);
        }
      }
      return true;
    }

    method SubscribeAll(plan: Plan) returns (consumed: set<DataType>, restarted: bool)
      modifies `tags, `connectionTags, `gauge, `connection, `channel, `failed, `queues
      ensures Recovery(Subs(), consumed, restarted) == Subscribe(old(Subs()), plan)
    {
      var before := tags.Keys;
      restarted := ConsumeEach(plan.tags);
      consumed := tags.Keys - before;
      if !restarted {
        AbandonRecovery(plan);
      }
    }

    method SetUpConsumers(plan: Plan) returns (consumed: set<DataType>, restarted: bool)
      modifies `tags, `connectionTags, `gauge, `connection, `channel, `failed, `queues
      ensures Recovery(Subs(), consumed, restarted) == SetUp(old(Subs()), plan)
    {
      match plan.setup {
        case QosFails =>
          AbandonRecovery(plan);
          return {}, false;
        case DeclareFails(declared) =>
          queues := declared;
          AbandonRecovery(plan);
          return {}, false;
        case SetupOk =>
          queues := ALL_TYPES;
          consumed, restarted := SubscribeAll(plan);
      }
    }

    method ReconnectConsumers(plan: Plan) returns (consumed: set<DataType>, restarted: bool)
      modifies `tags, `connectionTags, `gauge, `connection, `channel, `failed, `queues
      ensures Recovery(Subs(), consumed, restarted) == Reconnect(old(Subs()), plan)
    {
      if !plan.connects {
        return {}, false;
      }
      if plan.probe.None? {
        AbandonRecovery(plan);
        return {}, false;
      }
      if plan.probe.value == {} {
        if !plan.idleCloses {
          AbandonRecovery(plan);
        }
        return {}, false;
      }
      connection, channel, connectionTags := true, true, map[];
      consumed, restarted := SetUpConsumers(plan);
    }

    method CloseThenReconnect(plan: Plan) returns (consumed: set<DataType>, restarted: bool)
      modifies `tags, `connectionTags, `gauge, `connection, `channel, `failed, `queues
      ensures Recovery(Subs(), consumed, restarted) == RecoverSubscriptions(old(Subs()), plan)
    {
      if connection || channel || failed {
        var closed := CloseRabbitmqConnection(plan.first);
        if !closed {
          return {}, false;
        }
      }
      consumed, restarted := ReconnectConsumers(plan);
    }

    method RecoverConsumers(plan: Plan) returns (restarted: bool)
      modifies `tags, `connectionTags, `gauge, `connection, `channel, `failed, `queues, `completed
      ensures View() == Recover(old(View()), plan)
      ensures restarted == RecoverSubscriptions(old(Subs()), plan).restarted
    {
      var consumed: set<DataType>;
      consumed, restarted := CloseThenReconnect(plan);
      if plan.probe.Some? {
        completed := completed - (consumed * plan.probe.value);
      }
    }

    /******* Grace timers *******/

    ghost method CountMessage(d: DataType)
      modifies `handled
      ensures Timers() == Count(old(Timers()), d)
    {
      handled := handled[d := Handled(Timers(), d) + 1];
    }

    method StopTimer(d: DataType)
      modifies `tasks, `cancelled
      ensures Timers() == StopCurrent(old(Timers()), d)
    {
      if d in timers && timers[d] in tasks {
        cancelled := cancelled[timers[d] := tasks[timers[d]]];
        tasks := tasks - {timers[d]};
      }
    }

    method PopAndCancel(d: DataType)
      modifies `tasks, `cancelled, `timers
      ensures Timers() == Pop(old(Timers()), d)
    {
      StopTimer(d);
      timers := timers - {d};
    }

    method StartTimer(d: DataType, tag: Option<string>)
      modifies `timers, `tasks, `nextTask, `stamps
      ensures Timers() == Start(old(Timers()), d, tag)
    {
      stamps := stamps[nextTask := Handled(Timers(), d)];
      timers := timers[d := nextTask];
      tasks := tasks[nextTask := Timer(d, tag, false)];
      nextTask := nextTask + 1;
    }

    method ScheduleConsumerCancellation(d: DataType)
      modifies `timers, `tasks, `cancelled, `nextTask, `stamps
      ensures Timers() == Start(StopCurrent(old(Timers()), d), d, Lookup(tags, d))
    {
      StopTimer(d);
      StartTimer(d, Lookup(tags, d));
    }

    /******* Messages and timer bodies *******/

    method HandleRecord(d: DataType)
      modifies `completed, `timers, `tasks, `cancelled, `handled
      ensures View() == OnRecord(old(View()), d)
    {
      CountMessage(d);
      completed := completed - {d};
      PopAndCancel(d);
    }

    method HandleFileComplete(d: DataType)
      modifies `completed, `timers, `tasks, `cancelled, `nextTask, `handled, `stamps
      ensures View() == OnFileComplete(old(View()), d)
    {
      CountMessage(d);
      if grace && d in queues {
        ScheduleConsumerCancellation(d);
      }
      completed := completed + {d};
    }

    // `reconciled` is what the reconciliation answered; false raises, and the signal is requeued.
    method HandleExtractionComplete(d: DataType, reconciled: bool) returns (acked: bool)
      modifies `completed, `timers, `tasks, `cancelled, `nextTask, `handled, `stamps
      ensures View() == OnExtractionComplete(old(View()), d, reconciled) && acked == reconciled
    {
      CountMessage(d);
      PopAndCancel(d);
      completed := completed + {d};
      if !reconciled {
        completed := completed - {d};
        assert completed == old(completed) - {d};
        return false;
      }
      if grace && d in queues {
        ScheduleConsumerCancellation(d);
      }
      return true;
    }

    method EndTimer(id: nat)
      requires id in tasks
      modifies `tasks, `timers
      ensures Timers() == End(old(Timers()), id)
    {
      var d := tasks[id].dataType;
      tasks := tasks - {id};
      if Lookup(timers, d) == Some(id) {
        timers := timers - {d};
      }
    }

    method WakeTimer(id: nat)
      requires id in tasks && !tasks[id].cancelling
      modifies `tasks, `timers
      ensures View() == Wake(old(View()), id)
    {
      var t := tasks[id];
      if t.tag.Some? && Lookup(tags, t.dataType) == t.tag {
        tasks := tasks[id := t.(cancelling := true)];
      } else {
        EndTimer(id);
      }
    }

    method DropAfterCancel(t: Timer, cancelOk: bool, c: Close)
      modifies `tags, `connectionTags, `gauge, `connection, `channel, `failed
      ensures Subs() == Act(old(View()), t, cancelOk, c)
    {
      if !cancelOk {
        failed := true;
        return;
      }
      if t.tag.Some? && Lookup(tags, t.dataType) == t.tag {
        DropTag(t.dataType);
      }
      if |tags| == 0 && |completed| == |ALL_TYPES| {
        var _ := CloseRabbitmqConnection(c);
      }
    }

    method AnswerTimer(id: nat, cancelOk: bool, c: Close)
      requires id in tasks && tasks[id].cancelling
      modifies `tags, `connectionTags, `gauge, `connection, `channel, `failed, `tasks, `timers
      ensures View() == Answer(old(View()), id, cancelOk, c)
    {
      DropAfterCancel(tasks[id], cancelOk, c);
      EndTimer(id);
    }

    method UnwindTimer(id: nat)
      requires id in cancelled
      modifies `failed, `cancelled, `timers
      ensures View() == Unwind(old(View()), id)
    {
      var t := cancelled[id];
      failed := failed || t.cancelling;
      cancelled := cancelled - {id};
      if Lookup(timers, t.dataType) == Some(id) {
        timers := timers - {t.dataType};
      }
    }
  }
}
