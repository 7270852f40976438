/** Nothing is lost and nobody is overtaken: a running workflow always has its next step pending,
    waiting requests stand in the order in which they became ready, and intents are looked at
    in the order in which workflows first had one. */
module HeadroomLiveness {
  import opened HeadroomModel
  import opened HeadroomCache
  import opened HeadroomInvariant
  import opened HeadroomSteps
  import opened HeadroomJobs
  import opened HeadroomDispatch
  import opened HeadroomProgress
  import opened HeadroomRun
  import opened HeadroomResults

  /******* The next step is pending *******/

  ghost predicate Pends(st: Sim, id: Id) {
    (exists e :: e in st.events && TokenOf(e.action, id)) || (exists q :: q in st.queue && q.id == id)
  }

  ghost predicate Live(st: Sim) { forall id :: id in st.states && st.states[id].status == Running ==> Pends(st, id) }

  /** All but `id` keep what is pending, and `id` has something pending if it runs. */
  lemma LiveExcept(st: Sim, s: Sim, id: Id)
    requires Live(st) && s.states.Keys == st.states.Keys
    requires forall x :: x in s.states && x != id && s.states[x].status == Running ==> st.states[x].status == Running
    requires forall e, x :: e in st.events && x != id && TokenOf(e.action, x) ==> e in s.events
    requires forall q :: q in st.queue && q.id != id ==> q in s.queue
    requires id in s.states && s.states[id].status == Running ==> Pends(s, id)
    ensures Live(s)
  {
    forall x | x in s.states && s.states[x].status == Running ensures Pends(s, x) {
      if x != id {
        if e :| e in st.events && TokenOf(e.action, x) {
          assert e in s.events;
        } else {
          var q :| q in st.queue && q.id == x;
          assert q in s.queue;
        }
      }
    }
  }

  /** Nothing pending was taken away. */
  lemma LiveStays(st: Sim, s: Sim)
    requires Live(st) && s.states.Keys == st.states.Keys
    requires forall x :: x in s.states && s.states[x].status == Running ==> st.states[x].status == Running
    requires forall e, x :: e in st.events && TokenOf(e.action, x) ==> e in s.events
    requires forall q :: q in st.queue ==> q in s.queue
    ensures Live(s)
  {
    forall x | x in s.states && s.states[x].status == Running ensures Pends(s, x) {
      if e :| e in st.events && TokenOf(e.action, x) {
        assert e in s.events;
      } else {
        var q :| q in st.queue && q.id == x;
        assert q in s.queue;
      }
    }
  }

  lemma StartPends(c: Config, st: Sim, id: Id, index: nat)
    requires id in st.states && index < |Turns(c, id)| && SerialsOk(st.events, st.serial)
    ensures var s := StartTurn(c, st, id, index);
            && st.events <= s.events && s.queue == st.queue && s.states == st.states
            && (st.states[id].status == Running ==> Pends(s, id))
  {
    if st.states[id].status == Running {
      StartTurnShape(c, st, id, index);
      var e := ReadyEvent(c, st, id, index);
      assert e in StartTurn(c, st, id, index).events && TokenOf(e.action, id);
    }
  }

  lemma ArrivalLive(c: Config, st: Sim, e: Event, id: Id)
    requires Live(st) && SerialsOk(st.events, st.serial) && e.action == Arrival(id) && id in st.states && 0 < |Turns(c, id)|
    ensures Live(StartTurn(c, Pop(st, e), id, 0))
  {
    hide SerialsOk, StartTurn, Live, Pends;
    PopSerials(st, e);
    StartPends(c, Pop(st, e), id, 0);
    LiveExcept(st, StartTurn(c, Pop(st, e), id, 0), id);
  }

  lemma ReadyLive(st: Sim, e: Event, id: Id, index: nat)
    requires Live(st) && e.action == Ready(id, index) && id in st.states
    ensures Live(OnReady(Pop(st, e), id, index))
  {
    hide Live;
    var s := OnReady(Pop(st, e), id, index);
    if st.states[id].status == Running { assert s.queue[|st.queue|].id == id; }
    LiveExcept(st, s, id);
  }

  lemma DeadlineLive(st: Sim, e: Event, id: Id)
    requires Live(st) && e.action == Deadline(id) && id in st.states
    ensures Live(OnDeadline(Pop(st, e), id))
  {
    hide Live;
    LiveStays(st, OnDeadline(Pop(st, e), id));
  }

  lemma UpdateLive(c: Config, st: Sim, e: Event, id: Id, index: nat, u: Update)
    requires Live(st) && e.action == Updated(id, index, u) && id in st.states
    ensures Live(OnUpdate(c, Pop(st, e), id, index, u))
  {
    hide Live, BlockKeys, Begin;
    LiveStays(st, OnUpdate(c, Pop(st, e), id, index, u));
  }

  lemma PreparationLive(st: Sim, e: Event, job: Job)
    requires Live(st) && e.action == Finished(job) && job.Preparation? && job.id in st.states && job.id in st.intents
    requires forall k :: k in job.computed ==> k in st.tags
    ensures Live(OnPreparation(Pop(st, e), job))
  {
    hide Live, SetTags, Obsolete;
    LiveStays(st, OnPreparation(Pop(st, e), job));
  }

  lemma DemandLive(c: Config, st: Sim, e: Event, job: Job)
    requires Live(st) && SerialsOk(st.events, st.serial) && e.action == Finished(job) && job.Demand? && Handled(c, st, e.action)
    ensures Live(OnDemand(c, Pop(st, e), job))
  {
    hide Live, SerialsOk, StartTurn, SetTags, Flow, Pends;
    var s1 := Record(Pop(st, e), job);
    PopSerials(st, e);
    if s1.states[job.id].status == Running && job.index + 1 < |Turns(c, job.id)| { StartPends(c, s1, job.id, job.index + 1); }
    LiveExcept(st, OnDemand(c, Pop(st, e), job), job.id);
  }

  lemma FireLive(c: Config, st: Sim, e: Event)
    requires Live(st) && SerialsOk(st.events, st.serial) && Handled(c, st, e.action)
    ensures Live(Fire(c, st, e))
  {
    hide Live, SerialsOk, StartTurn, OnDeadline, OnUpdate, OnReady, OnPreparation, OnDemand;
    match e.action {
      case Arrival(id) => ArrivalLive(c, st, e, id);
      case Deadline(id) => DeadlineLive(st, e, id);
      case Ready(id, index) => ReadyLive(st, e, id, index);
      case Updated(id, index, u) => UpdateLive(c, st, e, id, index, u);
      case Finished(job) => if job.Preparation? { PreparationLive(st, e, job); } else { DemandLive(c, st, e, job); }
      case Wake => LiveStays(st, Fire(c, st, e));
    }
  }

  lemma {:induction false} DispatchPreparationLive(c: Config, st: Sim, i: nat)
    requires Validated(c) && Inv(c, st) && Live(st)
    requires i <= |st.intentOrder| && IntentsFit(c, st) && st.stats.computed < c.budget
    ensures Live(DispatchPreparation(c, st, i)) && DispatchPreparation(c, st, i).queue == st.queue
    ensures DispatchPreparation(c, st, i).intentOrder == st.intentOrder
    decreases |st.intentOrder| - i
  {
    hide Inv, Live, LaunchPreparation, TooEarly, Preparable;
    if i < |st.intentOrder| {
      var id := st.intentOrder[i];
      if Idle(c, st, id) {
        DispatchPreparationLive(c, st, i + 1);
      } else if TooEarly(c, st, st.intents[id]) {
        var s1 := ScheduleWakeup(c, st, st.intents[id]);
        WakeupShape(c, st, st.intents[id]);
        WakesKeep(c, st, s1);
        LiveStays(st, s1);
        DispatchPreparationLive(c, s1, i + 1);
      } else {
        ChosenPreparable(c, st, id);
        PreparationShape(c, st, id);
        LiveStays(st, LaunchPreparation(c, st, id, st.intents[id]));
      }
    }
  }

  lemma LaunchLive(st: Sim, s: Sim, t: Sim, q: Waiting, e: Event)
    requires Live(st) && st.queue != [] && q == st.queue[0] && s == st.(queue := st.queue[1..])
    requires Launched(s, t, e) && TokenOf(e.action, q.id)
    ensures Live(t)
  {
    hide Live;
    assert e in t.events && TokenOf(e.action, q.id);
    TailKeeps(st.queue);
    LiveExcept(st, t, q.id);
  }

  lemma TailKeeps(queue: seq<Waiting>)
    requires queue != []
    ensures forall q :: q in queue && q.id != queue[0].id ==> q in queue[1..]
  {
  }

  lemma DropLive(st: Sim, s: Sim)
    requires Live(st) && st.queue != [] && s == st.(queue := st.queue[1..])
    requires st.queue[0].id in st.states && st.states[st.queue[0].id].status != Running
    ensures Live(s)
  {
    hide Live;
    TailKeeps(st.queue);
    LiveExcept(st, s, st.queue[0].id);
  }

  /** `s` holds the last part of the queue. */
  ghost predicate Suffix(queue: seq<Waiting>, rest: seq<Waiting>) { |rest| <= |queue| && rest == queue[|queue| - |rest|..] }

  lemma SuffixSelf(queue: seq<Waiting>)
    ensures Suffix(queue, queue)
  {
  }

  lemma SuffixTail(queue: seq<Waiting>, rest: seq<Waiting>)
    requires queue != []
    ensures Suffix(queue[1..], rest) ==> Suffix(queue, rest)
    ensures Suffix(queue, queue[1..])
  {
  }

  lemma {:induction false} DispatchQueueLive(c: Config, st: Sim)
    requires Validated(c) && Inv(c, st) && DispatchReady(c, st) && Live(st)
    ensures var s := DispatchQueue(c, st); Live(s) && Suffix(st.queue, s.queue) && s.intentOrder == st.intentOrder
    decreases |st.queue|
  {
    hide Inv, Live, LaunchDemand, Suffix, Dispatchable;
    if st.queue == [] {
      SuffixSelf(st.queue);
      if c.policy != Off && st.stats.computed < c.budget { DispatchPreparationLive(c, st, 0); }
    } else {
      var q, s1 := st.queue[0], st.(queue := st.queue[1..]);
      QueueDispatchable(c, st, s1);
      InvDispatchReady(c, s1);
      SuffixTail(st.queue, DispatchQueue(c, st).queue);
      if st.states[q.id].status != Running {
        DropLive(st, s1);
        DispatchQueueLive(c, s1);
      } else {
        DemandShape(c, s1, q);
        LaunchLive(st, s1, LaunchDemand(c, s1, q), q, DemandEvent(c, s1, q));
      }
    }
  }

  lemma StartLive(c: Config)
    requires Validated(c)
    ensures Live(Start(c))
  {
    hide Validated, Admit;
    AdmitStates(c, |c.workflows|);
    forall id | id in Start(c).states ensures Pends(Start(c), id) {
      var f :| f in c.workflows[..|c.workflows|] && f.id == id;
      var i :| 0 <= i < |c.workflows| && c.workflows[i] == f;
      AdmitArrival(c, |c.workflows|, i);
    }
  }

  lemma {:induction false} AdmitArrival(c: Config, n: nat, i: nat)
    requires i < n <= |c.workflows|
    ensures exists e :: e in AdmitAll(c, n).events && TokenOf(e.action, c.workflows[i].id)
  {
    hide Admit;
    var st, f := AdmitAll(c, n - 1), c.workflows[n - 1];
    AdmitPair(c, st, f);
    if i < n - 1 {
      AdmitArrival(c, n - 1, i);
    } else {
      var e := Event(f.arrival, st.serial + 1, Arrival(f.id));
      assert e in AdmitAll(c, n).events && TokenOf(e.action, f.id);
    }
  }

  /******* First come, first served *******/

  /** Waiting requests stand in the order in which they became ready, all by now. */
  ghost predicate Fair(st: Sim) {
    && (forall q :: q in st.queue ==> q.ready <= st.now)
    && (forall i, j :: 0 <= i < j < |st.queue| ==> st.queue[i].ready <= st.queue[j].ready)
  }

  lemma FairMore(st: Sim, s: Sim, q: Waiting)
    requires Fair(st) && s.now == st.now && s.queue == st.queue + [q] && q.ready == st.now
    ensures Fair(s)
  {
  }

  lemma FairSuffix(st: Sim, s: Sim)
    requires Fair(st) && st.now <= s.now && Suffix(st.queue, s.queue)
    ensures Fair(s)
  {
    var n := |st.queue| - |s.queue|;
    forall i | 0 <= i < |s.queue| ensures s.queue[i] == st.queue[n + i] && s.queue[i] in st.queue { }
  }

  /** The only events that touch the queue or the order of the intents. */
  ghost predicate Queues(st: Sim, s: Sim) {
    && s.now == st.now
    && (s.queue == st.queue || exists id, index :: s.queue == st.queue + [Waiting(id, index, st.now)])
    && (s.intentOrder == st.intentOrder || exists id :: id !in st.intents && s.intentOrder == st.intentOrder + [id])
  }

  lemma StartQueues(c: Config, st: Sim, id: Id, index: nat)
    requires id in st.states && index < |Turns(c, id)| && SerialsOk(st.events, st.serial)
    ensures Queues(st, StartTurn(c, st, id, index))
  {
    if st.states[id].status == Running { StartTurnShape(c, st, id, index); }
  }

  lemma ReadyQueues(st: Sim, id: Id, index: nat)
    requires id in st.states
    ensures Queues(st, OnReady(st, id, index))
  {
    var s := OnReady(st, id, index);
    if s.queue != st.queue { assert s.queue == st.queue + [Waiting(id, index, st.now)]; }
  }

  lemma UpdateQueues(c: Config, st: Sim, id: Id, index: nat, u: Update)
    requires id in st.states
    ensures Queues(st, OnUpdate(c, st, id, index, u))
  {
    hide BlockKeys, Begin;
  }

  lemma DemandQueues(c: Config, st: Sim, job: Job)
    requires SerialsOk(st.events, st.serial) && job.Demand? && Handled(c, st, Finished(job))
    ensures Queues(st, OnDemand(c, st, job))
  {
    hide SerialsOk, StartTurn, SetTags, Flow;
    var s1 := Record(st, job);
    if s1.states[job.id].status == Running && job.index + 1 < |Turns(c, job.id)| {
      StartQueues(c, s1, job.id, job.index + 1);
    }
  }

  lemma FireQueues(c: Config, st: Sim, e: Event)
    requires SerialsOk(st.events, st.serial) && Handled(c, st, e.action)
    ensures Queues(st, Fire(c, st, e))
  {
    hide SerialsOk, StartTurn, OnUpdate, OnReady, OnDemand, SetTags, Obsolete;
    PopSerials(st, e);
    match e.action {
      case Arrival(id) => StartQueues(c, Pop(st, e), id, 0);
      case Deadline(id) =>
      case Ready(id, index) => ReadyQueues(Pop(st, e), id, index);
      case Updated(id, index, u) => UpdateQueues(c, Pop(st, e), id, index, u);
      case Finished(job) => if job.Demand? { DemandQueues(c, Pop(st, e), job); }
      case Wake =>
    }
  }

  /******* Every behaviour *******/

  ghost predicate Orderly(st: Sim) { Live(st) && Fair(st) && Distinct(st.intentOrder) }

  lemma OrderMore(st: Sim, s: Sim)
    requires Queues(st, s) && Distinct(st.intentOrder) && forall id :: id in st.intentOrder ==> id in st.intents
    ensures Distinct(s.intentOrder) && st.intentOrder <= s.intentOrder
  {
    if s.intentOrder != st.intentOrder {
      var id :| id !in st.intents && s.intentOrder == st.intentOrder + [id];
      assert id !in st.intentOrder;
    }
  }

  lemma FairFire(st: Sim, s: Sim)
    requires Queues(st, s) && Fair(st)
    ensures Fair(s)
  {
    if s.queue != st.queue {
      var id, index :| s.queue == st.queue + [Waiting(id, index, st.now)];
      FairMore(st, s, Waiting(id, index, st.now));
    }
  }

  lemma IntentsListed(c: Config, st: Sim)
    requires Inv(c, st)
    ensures forall id :: id in st.intentOrder ==> id in st.intents
  {
  }

  lemma FireOrderly(c: Config, st: Sim, e: Event)
    requires Inv(c, st) && Orderly(st) && Handled(c, st, e.action)
    ensures var s := Fire(c, st, e); Orderly(s) && st.intentOrder <= s.intentOrder
  {
    hide Inv, Live, Fair, Distinct, SerialsOk, Fire, Queues;
    InvSerials(c, st);
    IntentsListed(c, st);
    FireLive(c, st, e);
    FireQueues(c, st, e);
    FairFire(st, Fire(c, st, e));
    OrderMore(st, Fire(c, st, e));
  }

  lemma DispatchOrderly(c: Config, st: Sim)
    requires Validated(c) && Inv(c, st) && DispatchReady(c, st) && Orderly(st)
    ensures var s := Dispatch(c, st); Orderly(s) && st.intentOrder <= s.intentOrder
  {
    hide Inv, Live, Fair, Distinct, Validated, DispatchQueue, Suffix;
    if !st.busy {
      DispatchQueueLive(c, st);
      var s := Dispatch(c, st);
      DispatchClock(c, st);
      FairSuffix(st, s);
    }
  }

  lemma DispatchClock(c: Config, st: Sim)
    requires Validated(c) && Inv(c, st) && DispatchReady(c, st)
    ensures Dispatch(c, st).now == st.now
  {
    hide Inv, Validated, DispatchQueue;
    if !st.busy { DispatchQueueClock(c, st); }
  }

  lemma {:induction false} DispatchQueueClock(c: Config, st: Sim)
    requires Validated(c) && Inv(c, st) && DispatchReady(c, st)
    ensures DispatchQueue(c, st).now == st.now
    decreases |st.queue|
  {
    hide Inv, LaunchDemand;
    if st.queue == [] {
      if c.policy != Off && st.stats.computed < c.budget { DispatchPreparationClock(c, st, 0); }
    } else {
      var q, s1 := st.queue[0], st.(queue := st.queue[1..]);
      QueueDispatchable(c, st, s1);
      InvDispatchReady(c, s1);
      if st.states[q.id].status != Running { DispatchQueueClock(c, s1); } else { DemandShape(c, s1, q); }
    }
  }

  lemma {:induction false} DispatchPreparationClock(c: Config, st: Sim, i: nat)
    requires i <= |st.intentOrder| && IntentsFit(c, st) && st.stats.computed < c.budget && c.chunk >= 1
    ensures DispatchPreparation(c, st, i).now == st.now
    decreases |st.intentOrder| - i
  {
    hide PrefillMs;
    if i < |st.intentOrder| {
      var id := st.intentOrder[i];
      if Idle(c, st, id) {
        DispatchPreparationClock(c, st, i + 1);
      } else if TooEarly(c, st, st.intents[id]) {
        WakeupShape(c, st, st.intents[id]);
        DispatchPreparationClock(c, ScheduleWakeup(c, st, st.intents[id]), i + 1);
      }
    }
  }

  lemma AdvanceOrderly(c: Config, st: Sim, at: real)
    requires Orderly(st) && st.now <= at
    ensures Orderly(Advance(st, at))
  {
    hide Live, Distinct;
    LiveStays(st, Advance(st, at));
  }

  lemma StepOrderly(c: Config, st: Sim, s: Sim)
    requires Validated(c) && Inv(c, st) && Orderly(st) && Step(c, st, s)
    ensures Orderly(s) && st.intentOrder <= s.intentOrder
  {
    hide Inv, Orderly, Validated, Fire, Dispatch;
    if Quiet(st) && DispatchReady(c, st) && s == Dispatch(c, st) {
      DispatchOrderly(c, st);
    } else if s == Advance(st, First(st.events).at) {
      InvNow(c, st);
      AdvanceOrderly(c, st, First(st.events).at);
    } else {
      FireOrderly(c, st, First(st.events));
    }
  }

  lemma StartOrderly(c: Config)
    requires Validated(c)
    ensures Orderly(Start(c))
  {
    hide Start, Live, Validated;
    StartLive(c);
    StartShape(c);
  }

  lemma {:induction false} AlwaysOrderly(c: Config, path: seq<Sim>, i: nat, j: nat)
    requires Validated(c) && Behaviour(c, path) && i <= j < |path|
    ensures Orderly(path[j]) && path[i].intentOrder <= path[j].intentOrder
  {
    hide Inv, Booked, Orderly, Validated, Step, Evolves;
    if j == 0 {
      StartOrderly(c);
    } else if i == j {
      AlwaysOrderly(c, path, j - 1, j - 1);
      Reachable(c, path, j - 1, j - 1);
      StepOrderly(c, path[j - 1], path[j]);
    } else {
      AlwaysOrderly(c, path, i, j - 1);
      Reachable(c, path, j - 1, j - 1);
      StepOrderly(c, path[j - 1], path[j]);
    }
  }

  /** In every state of every behaviour a running workflow has exactly one thing pending: its arrival, its ready
      event, a place in the queue or a request in flight. */
  lemma NeverStuck(c: Config, path: seq<Sim>, i: nat, id: Id)
    requires Validated(c) && Behaviour(c, path) && i < |path| && id in path[i].states && path[i].states[id].status == Running
    ensures var st := path[i];
            && ((exists e :: e in st.events && TokenOf(e.action, id)) <==> !exists q :: q in st.queue && q.id == id)
            && (forall e, f :: e in st.events && f in st.events && TokenOf(e.action, id) && TokenOf(f.action, id) ==> e == f)
            && (forall a, b :: 0 <= a < b < |st.queue| && st.queue[a].id == id ==> st.queue[b].id != id)
  {
    hide Behaviour, Booked, Evolves, Validated, Linked, Gpu, Clocked, OwnIntent, Foreseen, SerialsOk, Fair, Turns;
    AlwaysOrderly(c, path, i, i);
    Reachable(c, path, i, i);
    assert Pends(path[i], id);
  }

  /** In every behaviour waiting requests stand in the order in which they became ready, and the order in which
      intents are looked at only grows at its end, with each workflow once. */
  lemma ServedInOrder(c: Config, path: seq<Sim>, i: nat, j: nat)
    requires Validated(c) && Behaviour(c, path) && i <= j < |path|
    ensures forall a, b :: 0 <= a < b < |path[j].queue| ==> path[j].queue[a].ready <= path[j].queue[b].ready
    ensures path[i].intentOrder <= path[j].intentOrder && Distinct(path[j].intentOrder)
  {
    hide Behaviour, Validated, Live, Distinct;
    AlwaysOrderly(c, path, i, j);
  }
}
