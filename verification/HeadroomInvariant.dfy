/** The invariant of every reachable simulator state, and the proof that each event
    handler and each dispatch keeps it. */
module HeadroomInvariant {
  import opened HeadroomModel
  import opened HeadroomCache

  /******* The invariant *******/

  function JobKeys(job: Job): seq<Key> { if job.Demand? then job.keys else job.computed }

  /** Every dictionary look-up of the program finds its key. */
  ghost predicate Linked(c: Config, st: Sim) {
    && st.states.Keys == Ids(c)
    && (forall e :: e in st.events ==> Handled(c, st, e.action))
    && QueueFits(c, st.queue) && (forall q :: q in st.queue ==> q.id in st.states)
    && (forall id :: id in st.intents <==> id in st.intentOrder)
    && (forall id :: id in st.intents ==>
          id in st.states && 0 < st.intents[id].index < |Turns(c, id)| && |st.intents[id].keys| <= c.cacheBlocks
          && Distinct(st.intents[id].keys))
  }

  /** One job at a time, and its completion event is in the queue exactly while the GPU is busy. */
  ghost predicate OneJob(st: Sim) {
    && (forall e, f :: e in st.events && f in st.events && e.action.Finished? && f.action.Finished? ==> e == f)
    && (st.busy <==> exists e :: e in st.events && e.action.Finished?)
  }

  /** The cache is within capacity; a pending entry belongs to the job in flight, whose
      keys are all present. */
  ghost predicate CacheOk(c: Config, st: Sim) {
    && CacheShape(c, st)
    && (forall k :: k in st.tags && st.tags[k] == Pending ==>
          exists e :: e in st.events && e.action.Finished? && k in JobKeys(e.action.job))
    && |st.lru| <= st.stats.peak <= c.cacheBlocks
  }

  /** Speculation accounting, including the blocks a preparation in flight will tag. */
  ghost predicate Accounted(c: Config, st: Sim) {
    && 0 <= st.stats.useful && 0 <= st.stats.ordinary
    && st.stats.useful + |Fresh(st.tags)| <= st.stats.computed <= c.budget
    && (forall e :: e in st.events && e.action.Finished? && e.action.job.Preparation? ==>
          st.stats.useful + |Fresh(st.tags)| + |e.action.job.computed| <= st.stats.computed)
  }

  predicate TokenOf(a: Action, id: Id) {
    || a == Arrival(id)
    || (a.Ready? && a.id == id)
    || (a.Finished? && a.job.Demand? && a.job.id == id)
  }

  function TokenTurn(a: Action): nat {
    match a
    case Ready(_, i) => i
    case Finished(Demand(_, i, _, _, _)) => i
    case _ => 0
  }

  /** A workflow holds at most one of: pending arrival, pending ready event, queue entry,
      request in flight; whichever it holds is for its first unrecorded turn. */
  ghost predicate OneToken(c: Config, st: Sim) {
    && (forall e, f, id :: e in st.events && f in st.events && TokenOf(e.action, id) && TokenOf(f.action, id) ==> e == f)
    && (forall i, j :: 0 <= i < j < |st.queue| ==> st.queue[i].id != st.queue[j].id)
    && (forall e, q :: e in st.events && q in st.queue ==> !TokenOf(e.action, q.id))
    && (forall e, id :: e in st.events && TokenOf(e.action, id) && id in st.states ==>
          TokenTurn(e.action) == |st.states[id].rows|)
    && (forall q :: q in st.queue && q.id in st.states ==> q.index == |st.states[q.id].rows|)
    && (forall id, j :: id in st.states && 0 <= j < |st.states[id].rows| ==> st.states[id].rows[j].turn == j)
    && (forall id :: id in st.states ==> |st.states[id].rows| <= |Turns(c, id)|)
  }

  /** Nothing is scheduled in the past, and a running workflow's deadline is still to come. */
  ghost predicate Clocked(c: Config, st: Sim) {
    && (forall e :: e in st.events ==> st.now <= e.at)
    && (forall e :: e in st.events && e.action.Deadline? ==> e.at == Due(c, e.action.id))
    && (forall id :: id in st.states && st.states[id].status == Running ==>
          exists e :: e in st.events && e.action == Deadline(id))
    && (forall id :: id in st.states ==>
          && (st.states[id].status == Completed <==> st.states[id].completion.Some?)
          && (st.states[id].completion.Some? ==> st.states[id].completion.value <= c.horizon))
  }

  /** The intent found for a preparation in flight is the one that launched it. */
  ghost predicate OwnIntent(st: Sim) {
    && (forall e :: e in st.events && e.action.Updated? && e.action.id in st.states ==>
          e.action.index <= |st.states[e.action.id].rows|)
    && (forall e :: e in st.events && e.action.Finished? && e.action.job.Preparation? ==>
          var job := e.action.job;
          && job.id in st.intents && st.intents[job.id].index == job.index
          && job.id in st.states && st.states[job.id].status != Completed)
    && (forall id :: id in st.intents && id in st.states ==> st.intents[id].index <= |st.states[id].rows|)
  }

  /** Under the future-timing policy an update that can still change an intent comes no later
      than its eligible time, and none is left once a preparation is in flight. */
  ghost predicate Foreseen(c: Config, st: Sim) {
    c.policy == FutureTiming ==>
      && (forall e :: e in st.events && e.action.Updated? && Current(st, e.action.id, e.action.index) ==>
            && e.at <= st.intents[e.action.id].eligibleAt
            && (e.action.update.Cancel? ==> st.intents[e.action.id].willCancel))
      && (forall e :: e in st.events && e.action.Finished? && e.action.job.Preparation? ==>
            Settled(st, e.action.job))
  }

  predicate Current(st: Sim, id: Id, index: nat) { id in st.intents && st.intents[id].index == index }

  ghost predicate Settled(st: Sim, job: Job)
    requires job.Preparation?
  {
    && job.id in st.states && st.states[job.id].status in {Running, TimedOut}
    && job.id in st.intents && st.intents[job.id].revision == job.revision
    && forall e :: e in st.events && e.action.Updated? && e.action.id == job.id ==>
         e.action.index != st.intents[job.id].index
  }

  ghost predicate Gpu(c: Config, st: Sim) { OneJob(st) && CacheOk(c, st) && Accounted(c, st) }

  ghost predicate Inv(c: Config, st: Sim) {
    && Linked(c, st) && SerialsOk(st.events, st.serial) && Gpu(c, st)
    && OneToken(c, st) && Clocked(c, st) && OwnIntent(st) && Foreseen(c, st)
  }

  /******* Scheduling wake-ups *******/

  /** Only wake-ups later than now were scheduled. */
  ghost predicate OnlyWakes(st: Sim, s: Sim) {
    && s == st.(events := s.events, serial := s.serial)
    && st.events <= s.events && st.serial <= s.serial
    && (forall e :: e in s.events && e !in st.events ==> e.action == Wake && st.now < e.at && st.serial < e.serial)
    && (SerialsOk(st.events, st.serial) ==> SerialsOk(s.events, s.serial))
  }

  lemma WakeupShape(c: Config, st: Sim, intent: Intent)
    ensures OnlyWakes(st, ScheduleWakeup(c, st, intent))
  {
  }

  /** Neither the cache, the counters nor the jobs in flight changed. */
  ghost predicate SameGpu(st: Sim, s: Sim) {
    && s.tags == st.tags && s.lru == st.lru && s.stats == st.stats && s.busy == st.busy
    && forall e: Event :: e.action.Finished? ==> (e in s.events <==> e in st.events)
  }

  lemma GpuFrame(c: Config, st: Sim, s: Sim)
    requires Gpu(c, st) && SameGpu(st, s)
    ensures Gpu(c, s)
  {
    if s.busy {
      var e :| e in st.events && e.action.Finished?;
      assert e in s.events;
    }
    assert OneJob(s);
    forall k | k in s.tags && s.tags[k] == Pending
      ensures exists e :: e in s.events && e.action.Finished? && k in JobKeys(e.action.job)
    {
      var e :| e in st.events && e.action.Finished? && k in JobKeys(e.action.job);
      assert e in s.events;
    }
  }

  lemma WakesKeepLinks(c: Config, st: Sim, s: Sim)
    requires Linked(c, st) && OwnIntent(st) && OnlyWakes(st, s)
    ensures Linked(c, s) && OwnIntent(s)
  {
  }

  lemma WakesKeepTokens(c: Config, st: Sim, s: Sim)
    requires OneToken(c, st) && OnlyWakes(st, s)
    ensures OneToken(c, s)
  {
  }

  lemma WakesKeepClock(c: Config, st: Sim, s: Sim)
    requires Clocked(c, st) && Foreseen(c, st) && OnlyWakes(st, s)
    ensures Clocked(c, s) && Foreseen(c, s)
  {
  }

  lemma WakesKeep(c: Config, st: Sim, s: Sim)
    requires Inv(c, st) && OnlyWakes(st, s)
    ensures Inv(c, s)
  {
    GpuFrame(c, st, s);
    WakesKeepLinks(c, st, s);
    WakesKeepTokens(c, st, s);
    WakesKeepClock(c, st, s);
  }

  /******* Starting a turn *******/

  lemma {:induction false} UpdatesShape(st: Sim, id: Id, index: nat, updates: seq<Update>)
    requires SerialsOk(st.events, st.serial)
    ensures var s := PushUpdates(st, id, index, updates);
            && s == st.(events := s.events, serial := s.serial)
            && st.events <= s.events && st.serial <= s.serial
            && SerialsOk(s.events, s.serial)
            && forall e :: e in s.events && e !in st.events ==>
                 && st.serial < e.serial
                 && e.action.Updated? && e.action.id == id && e.action.index == index
                 && e.action.update in updates && e.at == st.now + e.action.update.at
    decreases |updates|
  {
    if updates != [] {
      UpdatesShape(Push(st, st.now + updates[0].at, Updated(id, index, updates[0])), id, index, updates[1..]);
    }
  }

  function ReadyEvent(c: Config, st: Sim, id: Id, index: nat): Event
    requires index < |Turns(c, id)|
  {
    Event(st.now + Turns(c, id)[index].wait, st.serial + 1, Ready(id, index))
  }

  predicate UpdateEvent(c: Config, st: Sim, id: Id, index: nat, e: Event)
    requires index < |Turns(c, id)|
  {
    && e.action.Updated? && e.action.id == id && e.action.index == index
    && e.action.update in Turns(c, id)[index].updates && e.at == st.now + e.action.update.at
  }

  /** A turn that starts schedules one ready event, its updates and perhaps a wake-up, and
      replaces the workflow's intent. */
  ghost predicate Opened(c: Config, st: Sim, s: Sim, id: Id, index: nat)
    requires index < |Turns(c, id)|
  {
    && s == st.(events := s.events, serial := s.serial, intents := s.intents, intentOrder := s.intentOrder)
    && st.events <= s.events && ReadyEvent(c, st, id, index) in s.events
    && (forall e :: e in s.events && e !in st.events ==>
          || e == ReadyEvent(c, st, id, index)
          || (e.action == Wake && st.now < e.at)
          || (index > 0 && UpdateEvent(c, st, id, index, e)))
    && (if index == 0 then s.intents == st.intents && s.intentOrder == st.intentOrder
        else && s.intents == st.intents[id := NewIntent(c, st, index, Turns(c, id)[index])]
             && s.intentOrder == if id in st.intents then st.intentOrder else st.intentOrder + [id])
  }

  /** The events of a started turn, one call of `event` after another. */
  lemma StartTurnEvents(c: Config, st: Sim, s1: Sim, s2: Sim, s: Sim, id: Id, index: nat)
    requires index < |Turns(c, id)| && SerialsOk(st.events, st.serial)
    requires s1 == Push(st, st.now + Turns(c, id)[index].wait, Ready(id, index))
    requires s2 == PushUpdates(s1, id, index, Turns(c, id)[index].updates)
    requires OnlyWakes(s2, s)
    ensures SerialsOk(s.events, s.serial)
    ensures s == st.(events := s.events, serial := s.serial)
    ensures st.events <= s.events && ReadyEvent(c, st, id, index) in s.events
    ensures forall e :: e in s.events && e !in st.events ==>
              || e == ReadyEvent(c, st, id, index) || (e.action == Wake && st.now < e.at)
              || UpdateEvent(c, st, id, index, e)
  {
    assert SerialsOk(s1.events, s1.serial);
    UpdatesShape(s1, id, index, Turns(c, id)[index].updates);
  }

  lemma {:induction false} UpdatesIntent(st: Sim, id: Id, index: nat, updates: seq<Update>, x: Id, intent: Intent)
    ensures PushUpdates(SetIntent(st, x, intent), id, index, updates)
         == SetIntent(PushUpdates(st, id, index, updates), x, intent)
    ensures var s := PushUpdates(st, id, index, updates); s == st.(events := s.events, serial := s.serial)
    decreases |updates|
  {
    if updates != [] {
      UpdatesIntent(Push(st, st.now + updates[0].at, Updated(id, index, updates[0])), id, index, updates[1..], x, intent);
      assert Push(SetIntent(st, x, intent), st.now + updates[0].at, Updated(id, index, updates[0]))
          == SetIntent(Push(st, st.now + updates[0].at, Updated(id, index, updates[0])), x, intent);
    }
  }

  lemma StartTurnShape(c: Config, st: Sim, id: Id, index: nat)
    requires id in st.states && index < |Turns(c, id)| && st.states[id].status == Running
    requires SerialsOk(st.events, st.serial)
    ensures var s := StartTurn(c, st, id, index);
            Opened(c, st, s, id, index) && SerialsOk(s.events, s.serial)
  {
    hide PushUpdates, ScheduleWakeup, NewIntent, Turns;
    var s := StartTurn(c, st, id, index);
    var turn := Turns(c, id)[index];
    var s1 := Push(st, st.now + turn.wait, Ready(id, index));
    if index > 0 {
      var intent := NewIntent(c, st, index, turn);
      var s2 := PushUpdates(s1, id, index, turn.updates);
      UpdatesIntent(s1, id, index, turn.updates, id, intent);
      WakeupShape(c, SetIntent(s2, id, intent), intent);
      StartTurnEvents(c, st, s1, s2, s2.(events := s.events, serial := s.serial), id, index);
    }
  }

  lemma {:induction false} FlowValid(c: Config, flows: seq<Workflow>, id: Id)
    requires forall f :: f in flows ==> ValidWorkflow(c, f)
    requires id in set f | f in flows :: f.id
    ensures Flow(flows, id) in flows && Flow(flows, id).id == id
  {
    if flows[0].id != id {
      assert forall f :: f in flows ==> f == flows[0] || f in flows[1..];
      FlowValid(c, flows[1..], id);
    }
  }

  lemma TurnValid(c: Config, id: Id, index: nat)
    requires Validated(c) && id in Ids(c) && index < |Turns(c, id)|
    ensures ValidTurn(c, Turns(c, id)[index], index == 0)
  {
    FlowValid(c, c.workflows, id);
  }

  /** Before a turn starts its workflow holds no token and none of its updates is pending. */
  ghost predicate Startable(c: Config, st: Sim, id: Id, index: nat) {
    && id in st.states && index < |Turns(c, id)|
    && st.states[id].status == Running && index == |st.states[id].rows|
    && (forall e :: e in st.events ==> !TokenOf(e.action, id))
    && (forall q :: q in st.queue ==> q.id != id)
    && (index > 0 ==>
          && (forall e :: e in st.events && e.action.Updated? && e.action.id == id ==> e.action.index < index)
          && (forall e :: e in st.events ==> !e.action.Finished?))
  }

  lemma StartKeepsLinks(c: Config, st: Sim, s: Sim, id: Id, index: nat)
    requires Validated(c) && Linked(c, st) && Startable(c, st, id, index) && Opened(c, st, s, id, index)
    ensures Linked(c, s)
  {
    hide Validated;
    TurnValid(c, id, index);
    KeysDistinct(Turns(c, id)[index].intent);
    hide Turns;
    forall e | e in s.events ensures Handled(c, s, e.action) {
      if e in st.events { assert Handled(c, st, e.action); }
    }
  }

  lemma StartKeepsTokens(c: Config, st: Sim, s: Sim, id: Id, index: nat)
    requires OneToken(c, st) && Startable(c, st, id, index) && Opened(c, st, s, id, index)
    ensures OneToken(c, s)
  {
    assert TokenOf(ReadyEvent(c, st, id, index).action, id);
    forall e, x | e in s.events && e !in st.events && TokenOf(e.action, x)
      ensures e == ReadyEvent(c, st, id, index) && x == id
    {
    }
  }

  lemma StartKeepsIntents(c: Config, st: Sim, s: Sim, id: Id, index: nat)
    requires OwnIntent(st) && Startable(c, st, id, index) && Opened(c, st, s, id, index)
    ensures OwnIntent(s)
  {
  }

  lemma StartKeepsClock(c: Config, st: Sim, s: Sim, id: Id, index: nat)
    requires Validated(c) && Linked(c, st) && Startable(c, st, id, index) && Opened(c, st, s, id, index)
    requires Clocked(c, st)
    ensures Clocked(c, s)
  {
    TurnValid(c, id, index);
    forall x | x in s.states && s.states[x].status == Running
      ensures exists e :: e in s.events && e.action == Deadline(x)
    {
      var e :| e in st.events && e.action == Deadline(x);
      assert e in s.events;
    }
  }

  lemma StartKeepsForesight(c: Config, st: Sim, s: Sim, id: Id, index: nat)
    requires Startable(c, st, id, index) && Opened(c, st, s, id, index) && Foreseen(c, st)
    ensures Foreseen(c, s)
  {
  }

  lemma StartTurnKeeps(c: Config, st: Sim, id: Id, index: nat)
    requires Validated(c) && Inv(c, st) && Startable(c, st, id, index)
    ensures Inv(c, StartTurn(c, st, id, index))
  {
    hide Linked, Gpu, OneToken, Clocked, OwnIntent, Foreseen, StartTurn, Validated;
    var s := StartTurn(c, st, id, index);
    StartTurnShape(c, st, id, index);
    GpuFrame(c, st, s);
    StartKeepsLinks(c, st, s, id, index);
    StartKeepsTokens(c, st, s, id, index);
    StartKeepsIntents(c, st, s, id, index);
    StartKeepsClock(c, st, s, id, index);
    StartKeepsForesight(c, st, s, id, index);
  }
}
