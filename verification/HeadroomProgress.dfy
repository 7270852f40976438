/** A measure of the work that is left.  Handling any event but a wake-up, and launching
    any job, uses some of it up; wake-ups use none and can only fall on finitely many
    points in time. */
module HeadroomProgress {
  import opened Numbers
  import opened HeadroomModel
  import opened HeadroomCache
  import opened HeadroomInvariant
  import opened HeadroomSteps
  import opened HeadroomJobs
  import opened HeadroomDispatch

  /** Events and jobs that the turns from `i` on can still cause. */
  function Later(c: Config, id: Id, i: nat): nat
    decreases |Turns(c, id)| - i
  {
    if i >= |Turns(c, id)| then 0 else 4 + |Turns(c, id)[i].updates| + Later(c, id, i + 1)
  }

  function Charge(c: Config, a: Action): nat {
    match a
    case Arrival(id) => 1 + Later(c, id, 0)
    case Deadline(_) => 1
    case Ready(id, i) => 3 + Later(c, id, i + 1)
    case Updated(_, _, _) => 1
    case Finished(Demand(id, i, _, _, _)) => 1 + Later(c, id, i + 1)
    case Finished(Preparation(_, _, _, _)) => 1
    case Wake => 0
  }

  ghost function EventCharge(c: Config, events: set<Event>): nat {
    if events == {} then 0
    else var e :| e in events; Charge(c, e.action) + EventCharge(c, events - {e})
  }

  lemma {:induction false} ChargeRemove(c: Config, events: set<Event>, e: Event)
    requires e in events
    ensures EventCharge(c, events) == Charge(c, e.action) + EventCharge(c, events - {e})
    decreases |events|
  {
    var f :| f in events && EventCharge(c, events) == Charge(c, f.action) + EventCharge(c, events - {f});
    if f != e {
      ChargeRemove(c, events - {f}, e);
      ChargeRemove(c, events - {e}, f);
      assert events - {f} - {e} == events - {e} - {f};
    }
  }

  lemma ChargeAdd(c: Config, events: set<Event>, e: Event)
    requires e !in events
    ensures EventCharge(c, events + {e}) == EventCharge(c, events) + Charge(c, e.action)
  {
    ChargeRemove(c, events + {e}, e);
    assert events + {e} - {e} == events;
  }

  function QueueCharge(c: Config, queue: seq<Waiting>): nat {
    if queue == [] then 0 else 2 + Later(c, queue[0].id, queue[0].index + 1) + QueueCharge(c, queue[1..])
  }

  lemma {:induction false} QueueChargeAppend(c: Config, queue: seq<Waiting>, q: Waiting)
    ensures QueueCharge(c, queue + [q]) == QueueCharge(c, queue) + 2 + Later(c, q.id, q.index + 1)
  {
    if queue == [] {
      assert queue + [q] == [q];
    } else {
      QueueChargeAppend(c, queue[1..], q);
      assert (queue + [q])[1..] == queue[1..] + [q];
    }
  }

  ghost function Work(c: Config, st: Sim): nat {
    EventCharge(c, st.events) + QueueCharge(c, st.queue) + 2 * Max(0, c.budget - st.stats.computed)
  }

  /******* Scheduling *******/

  lemma PushCharge(c: Config, st: Sim, at: real, a: Action)
    requires SerialsOk(st.events, st.serial)
    ensures SerialsOk(Push(st, at, a).events, Push(st, at, a).serial)
    ensures Work(c, Push(st, at, a)) == Work(c, st) + Charge(c, a)
  {
    ChargeAdd(c, st.events, Event(at, st.serial + 1, a));
  }

  lemma WakeupCharge(c: Config, st: Sim, intent: Intent)
    requires SerialsOk(st.events, st.serial)
    ensures Work(c, ScheduleWakeup(c, st, intent)) == Work(c, st)
  {
    PushCharge(c, st, WakeTime(c, st, intent), Wake);
  }

  lemma {:induction false} UpdatesCharge(c: Config, st: Sim, id: Id, index: nat, updates: seq<Update>)
    requires SerialsOk(st.events, st.serial)
    ensures Work(c, PushUpdates(st, id, index, updates)) == Work(c, st) + |updates|
    decreases |updates|
  {
    hide Work;
    if updates != [] {
      PushCharge(c, st, st.now + updates[0].at, Updated(id, index, updates[0]));
      UpdatesCharge(c, Push(st, st.now + updates[0].at, Updated(id, index, updates[0])), id, index, updates[1..]);
    }
  }

  lemma StartTurnCharge(c: Config, st: Sim, id: Id, index: nat)
    requires id in st.states && index < |Turns(c, id)| && SerialsOk(st.events, st.serial)
    ensures Work(c, StartTurn(c, st, id, index)) < Work(c, st) + Later(c, id, index)
  {
    hide Work, SerialsOk, ScheduleWakeup, PushUpdates, NewIntent;
    var turn := Turns(c, id)[index];
    var s1 := Push(st, st.now + turn.wait, Ready(id, index));
    PushCharge(c, st, st.now + turn.wait, Ready(id, index));
    var intent := NewIntent(c, st, index, turn);
    var s2 := SetIntent(s1, id, intent);
    SameWork(c, s1, s2);
    if index > 0 {
      UpdatesCharge(c, s2, id, index, turn.updates);
      UpdatesShape(s2, id, index, turn.updates);
      WakeupCharge(c, PushUpdates(s2, id, index, turn.updates), intent);
    }
  }

  /******* Handling an event *******/

  lemma PopCharge(c: Config, st: Sim, e: Event)
    requires e in st.events
    ensures Work(c, st) == Work(c, Pop(st, e)) + Charge(c, e.action)
  {
    ChargeRemove(c, st.events, e);
  }

  lemma SameWork(c: Config, st: Sim, s: Sim)
    requires s.events == st.events && s.queue == st.queue && s.stats.computed == st.stats.computed
    ensures Work(c, s) == Work(c, st)
  {
  }

  lemma OnReadyCharge(c: Config, st: Sim, id: Id, index: nat)
    requires id in st.states
    ensures Work(c, OnReady(st, id, index)) <= Work(c, st) + 2 + Later(c, id, index + 1)
  {
    QueueChargeAppend(c, st.queue, Waiting(id, index, st.now));
  }

  lemma OnUpdateCharge(c: Config, st: Sim, id: Id, index: nat, update: Update)
    requires id in st.states && SerialsOk(st.events, st.serial)
    ensures Work(c, OnUpdate(c, st, id, index, update)) == Work(c, st)
  {
    if Current(st, id, index) && st.states[id].status == Running && update.Revise? {
      var intent := Revised(st.intents[id], update);
      var s2 := Log(st.(intents := st.intents[id := intent]), RevisionSeen(id, intent.revision));
      SameWork(c, st, s2);
      WakeupCharge(c, s2, intent);
    }
  }

  lemma OnDemandCharge(c: Config, st: Sim, job: Job)
    requires job.Demand? && job.id in st.states && job.index < |Turns(c, job.id)|
    requires forall k :: k in job.keys ==> k in st.tags
    requires SerialsOk(st.events, st.serial)
    ensures Work(c, OnDemand(c, st, job)) <= Work(c, st) + Later(c, job.id, job.index + 1)
  {
    hide Work, SerialsOk;
    var s1 := Record(st, job);
    SameWork(c, st, s1);
    if s1.states[job.id].status == Running {
      if job.index + 1 == |Turns(c, job.id)| {
        SameWork(c, s1, OnDemand(c, st, job));
      } else {
        StartTurnCharge(c, s1, job.id, job.index + 1);
      }
    }
  }

  /** Every event but a wake-up uses up work; a wake-up only leaves the queue. */
  lemma FireCharge(c: Config, st: Sim, e: Event)
    requires Handled(c, st, e.action) && e in st.events && SerialsOk(st.events, st.serial)
    ensures Work(c, Fire(c, st, e)) < Work(c, st) || (e.action == Wake && Fire(c, st, e) == Pop(st, e))
    ensures Work(c, Fire(c, st, e)) <= Work(c, st)
  {
    hide Work, SerialsOk;
    var s0 := Pop(st, e);
    PopCharge(c, st, e);
    PopSerials(st, e);
    match e.action {
      case Arrival(id) => StartTurnCharge(c, s0, id, 0);
      case Deadline(_) => SameWork(c, s0, Fire(c, st, e));
      case Ready(id, i) => OnReadyCharge(c, s0, id, i);
      case Updated(id, i, u) => OnUpdateCharge(c, s0, id, i, u);
      case Finished(job) =>
        if job.Preparation? { SameWork(c, s0, Fire(c, st, e)); } else { OnDemandCharge(c, s0, job); }
      case Wake =>
    }
  }

  /******* Dispatch *******/

  /** Where a wake-up can fall: an intent's eligible time, or its ready time minus whole blocks. */
  ghost function Points(c: Config, intents: map<Id, Intent>): set<real> {
    (set id | id in intents :: intents[id].eligibleAt)
    + (set id, m | id in intents && 0 <= m <= c.cacheBlocks :: intents[id].readyAt - PrefillMs(c, m))
  }

  /** Only wake-ups were scheduled, each at one of those points. */
  ghost predicate OnlyPoints(c: Config, st: Sim, s: Sim) {
    OnlyWakes(st, s) && forall e :: e in s.events && e !in st.events ==> e.at in Points(c, st.intents)
  }

  lemma WakeupPoint(c: Config, st: Sim, id: Id)
    requires id in st.intents && |st.intents[id].keys| <= c.cacheBlocks
    ensures OnlyPoints(c, st, ScheduleWakeup(c, st, st.intents[id]))
  {
    var intent := st.intents[id];
    var m := |intent.keys| - CachedPrefix(st.tags, intent.keys);
    assert Begin(c, st, intent) == intent.readyAt - PrefillMs(c, m);
    hide PrefillMs;
    WakeupShape(c, st, intent);
    assert intent.readyAt - PrefillMs(c, m) in Points(c, st.intents);
    assert intent.eligibleAt in Points(c, st.intents);
  }

  lemma LaunchPreparationCharge(c: Config, st: Sim, id: Id, intent: Intent)
    requires |intent.keys| <= c.cacheBlocks && 0 < PreparationCount(c, st, intent)
    requires SerialsOk(st.events, st.serial)
    ensures Work(c, LaunchPreparation(c, st, id, intent)) < Work(c, st)
  {
    hide PrefillMs, ReservedOrder, Retag, Excess, CachedPrefix, EventCharge, QueueCharge, BlockKeys;
    var e := PreparationEvent(c, st, id, intent);
    ChargeAdd(c, st.events, e);
  }

  lemma LaunchDemandCharge(c: Config, st: Sim, q: Waiting)
    requires Dispatchable(c, st, q) && c.prefill > 0.0 && SerialsOk(st.events, st.serial)
    ensures Work(c, LaunchDemand(c, st, q)) == Work(c, st) + 1 + Later(c, q.id, q.index + 1)
  {
    var turn := Turns(c, q.id)[q.index];
    DemandShape(c, st, q);
    HitsCount(st, BlockKeys(turn.prompt)[..PromptHits(st, turn)]);
    ChargeAdd(c, st.events, DemandEvent(c, st, q));
  }

  lemma {:induction false} DispatchPreparationCharge(c: Config, st: Sim, i: nat)
    requires SerialsOk(st.events, st.serial)
    requires i <= |st.intentOrder| && IntentsFit(c, st) && c.chunk >= 1 && st.stats.computed < c.budget
    ensures var s := DispatchPreparation(c, st, i);
            Work(c, s) < Work(c, st) || (Work(c, s) == Work(c, st) && OnlyPoints(c, st, s))
    decreases |st.intentOrder| - i
  {
    hide Work, OnlyPoints;
    if i == |st.intentOrder| {
      PointsReflexive(c, st);
    } else {
      var id := st.intentOrder[i];
      if Idle(c, st, id) {
        DispatchPreparationCharge(c, st, i + 1);
      } else if TooEarly(c, st, st.intents[id]) {
        var s1 := ScheduleWakeup(c, st, st.intents[id]);
        WakeupPoint(c, st, id);
        WakeupShape(c, st, st.intents[id]);
        WakeupCharge(c, st, st.intents[id]);
        DispatchPreparationCharge(c, s1, i + 1);
        PointsTransitive(c, st, s1, DispatchPreparation(c, s1, i + 1));
      } else {
        LaunchPreparationCharge(c, st, id, st.intents[id]);
      }
    }
  }

  lemma PointsReflexive(c: Config, st: Sim)
    ensures OnlyPoints(c, st, st)
  {
  }

  lemma PointsTransitive(c: Config, st: Sim, s1: Sim, s2: Sim)
    requires OnlyPoints(c, st, s1)
    ensures OnlyPoints(c, s1, s2) ==> OnlyPoints(c, st, s2)
  {
  }

  lemma InvSerials(c: Config, st: Sim)
    requires Inv(c, st)
    ensures SerialsOk(st.events, st.serial)
  {
  }

  lemma PrefillPositive(c: Config)
    requires Validated(c)
    ensures c.prefill > 0.0 && c.chunk >= 1
  {
  }

  lemma {:induction false} DispatchQueueCharge(c: Config, st: Sim)
    requires Validated(c) && Inv(c, st) && DispatchReady(c, st)
    ensures var s := DispatchQueue(c, st);
            Work(c, s) < Work(c, st) || (Work(c, s) == Work(c, st) && OnlyPoints(c, st, s))
    decreases |st.queue|
  {
    hide Inv, OnlyPoints, SerialsOk, Validated, Dispatchable;
    InvSerials(c, st);
    if st.queue == [] {
      if c.policy != Off && st.stats.computed < c.budget {
        DispatchPreparationCharge(c, st, 0);
      } else {
        PointsReflexive(c, st);
      }
    } else {
      var q, s1 := st.queue[0], st.(queue := st.queue[1..]);
      assert Work(c, st) == Work(c, s1) + 2 + Later(c, q.id, q.index + 1);
      QueueDispatchable(c, st, s1);
      if st.states[q.id].status != Running {
        InvDispatchReady(c, s1);
        DispatchQueueCharge(c, s1);
      } else {
        PrefillPositive(c);
        LaunchDemandCharge(c, s1, q);
      }
    }
  }
}
