/** Every event handler and every dispatch keeps the simulator's invariant. */
module HeadroomSteps {
  import opened HeadroomModel
  import opened HeadroomCache
  import opened HeadroomInvariant

  /** Take one event off the queue and handle it. */
  function Fire(c: Config, st: Sim, e: Event): Sim
    requires Handled(c, st, e.action)
  {
    Handle(c, Pop(st, e), e.action)
  }

  /******* Taking an event off the queue *******/

  lemma PopLinks(c: Config, st: Sim, e: Event)
    requires Linked(c, st)
    ensures Linked(c, Pop(st, e))
  {
  }

  lemma PopTokens(c: Config, st: Sim, e: Event)
    requires OneToken(c, st)
    ensures OneToken(c, Pop(st, e))
  {
  }

  lemma PopIntents(c: Config, st: Sim, e: Event)
    requires OwnIntent(st) && Foreseen(c, st)
    ensures OwnIntent(Pop(st, e)) && Foreseen(c, Pop(st, e))
  {
  }

  lemma PopClock(c: Config, st: Sim, e: Event)
    requires Clocked(c, st) && !e.action.Deadline?
    ensures Clocked(c, Pop(st, e))
  {
    var s := Pop(st, e);
    forall x | x in s.states && s.states[x].status == Running
      ensures exists f :: f in s.events && f.action == Deadline(x)
    {
      var f :| f in st.events && f.action == Deadline(x);
      assert f in s.events;
    }
  }

  /** All of the invariant but the clock survives when an event that is no completion is popped. */
  lemma PopMost(c: Config, st: Sim, e: Event)
    requires Linked(c, st) && Gpu(c, st) && OneToken(c, st) && OwnIntent(st) && Foreseen(c, st)
    requires SerialsOk(st.events, st.serial) && !e.action.Finished?
    ensures var s := Pop(st, e);
            && Linked(c, s) && Gpu(c, s) && OneToken(c, s) && OwnIntent(s) && Foreseen(c, s)
            && SerialsOk(s.events, s.serial)
  {
    hide Linked, Gpu, OneToken, Clocked, OwnIntent, Foreseen;
    PopLinks(c, st, e);
    PopTokens(c, st, e);
    PopIntents(c, st, e);
    GpuFrame(c, st, Pop(st, e));
  }

  lemma EventHandled(c: Config, st: Sim, e: Event)
    requires Inv(c, st) && e in st.events
    ensures Handled(c, st, e.action) && st.states.Keys == Ids(c) && SerialsOk(st.events, st.serial)
  {
  }

  lemma PopKeeps(c: Config, st: Sim, e: Event)
    requires Inv(c, st) && !e.action.Deadline? && !e.action.Finished?
    ensures Inv(c, Pop(st, e))
  {
    hide Linked, Gpu, OneToken, Clocked, OwnIntent, Foreseen;
    PopMost(c, st, e);
    PopClock(c, st, e);
  }

  /** Once its token is off the queue the workflow holds none. */
  lemma TokenGone(c: Config, st: Sim, e: Event, id: Id)
    requires Linked(c, st) && OneToken(c, st) && e in st.events && TokenOf(e.action, id)
    ensures id in st.states && TokenTurn(e.action) == |st.states[id].rows| < |Turns(c, id)|
    ensures forall f :: f in Pop(st, e).events ==> !TokenOf(f.action, id)
    ensures forall q :: q in st.queue ==> q.id != id
  {
    assert Handled(c, st, e.action);
  }

  lemma TokenFreed(c: Config, st: Sim, e: Event, id: Id)
    requires Inv(c, st) && e in st.events && TokenOf(e.action, id)
    ensures Handled(c, st, e.action)
    ensures id in Ids(c) && id in st.states && TokenTurn(e.action) == |st.states[id].rows| < |Turns(c, id)|
    ensures forall f :: f in Pop(st, e).events ==> !TokenOf(f.action, id)
    ensures forall q :: q in st.queue ==> q.id != id
  {
    TokenGone(c, st, e, id);
  }

  lemma ArrivalKeeps(c: Config, st: Sim, e: Event)
    requires Validated(c) && Inv(c, st) && e in st.events && e.action.Arrival?
    ensures Inv(c, Fire(c, st, e))
  {
    hide Inv;
    var id := e.action.id;
    TokenFreed(c, st, e, id);
    PopKeeps(c, st, e);
    if st.states[id].status == Running {
      assert Startable(c, Pop(st, e), id, 0);
      StartTurnKeeps(c, Pop(st, e), id, 0);
    }
  }

  /******* Deadlines *******/

  /** A workflow's status and its intent's activity are all that changed. */
  ghost predicate Relabelled(st: Sim, s: Sim, id: Id) {
    && id in st.states && st.states[id].status == Running && id in s.states
    && s.states == st.states[id := st.states[id].(status := s.states[id].status)]
    && s.states[id].status in {Running, TimedOut, Cancelled}
    && s.events == st.events && s.now == st.now && s.queue == st.queue && s.intentOrder == st.intentOrder
    && s.intents.Keys == st.intents.Keys
    && (forall x :: x in st.intents && x != id ==> s.intents[x] == st.intents[x])
    && (id in st.intents ==> s.intents[id] == st.intents[id].(active := s.intents[id].active))
  }

  lemma RelabelLinks(c: Config, st: Sim, s: Sim, id: Id)
    requires Linked(c, st) && Relabelled(st, s, id) && s.tags == st.tags
    ensures Linked(c, s)
  {
    forall e | e in s.events ensures Handled(c, s, e.action) {
      assert Handled(c, st, e.action);
    }
  }

  lemma RelabelOneToken(c: Config, st: Sim, s: Sim, id: Id)
    requires OneToken(c, st) && Relabelled(st, s, id)
    ensures OneToken(c, s)
  {
    hide Turns;
    assert forall x :: x in st.states ==> s.states[x].rows == st.states[x].rows;
  }

  lemma RelabelOwnIntent(st: Sim, s: Sim, id: Id)
    requires OwnIntent(st) && Relabelled(st, s, id)
    ensures OwnIntent(s)
  {
    assert forall x :: x in st.states ==> s.states[x].rows == st.states[x].rows;
  }

  lemma RelabelTokens(c: Config, st: Sim, s: Sim, id: Id)
    requires OneToken(c, st) && OwnIntent(st) && Relabelled(st, s, id)
    ensures OneToken(c, s) && OwnIntent(s)
  {
    hide OneToken, OwnIntent;
    RelabelOneToken(c, st, s, id);
    RelabelOwnIntent(st, s, id);
  }

  lemma RelabelForesight(c: Config, st: Sim, s: Sim, id: Id)
    requires Foreseen(c, st) && Relabelled(st, s, id) && s.states[id].status != Cancelled
    ensures Foreseen(c, s)
  {
    forall x, i: nat ensures Current(s, x, i) <==> Current(st, x, i) { }
  }

  lemma DeactivateShape(st: Sim, s: Sim, id: Id, status: Status)
    requires id in st.states && st.states[id].status == Running && status in {Running, TimedOut}
    requires s == Deactivate(SetStatus(st, id, status), id)
    ensures Relabelled(st, s, id) && SameGpu(st, s)
  {
  }

  lemma Relabel(c: Config, st: Sim, s: Sim, id: Id)
    requires Linked(c, st) && Gpu(c, st) && OneToken(c, st) && OwnIntent(st) && Foreseen(c, st)
    requires Relabelled(st, s, id) && SameGpu(st, s) && s.states[id].status != Cancelled
    ensures Linked(c, s) && Gpu(c, s) && OneToken(c, s) && OwnIntent(s) && Foreseen(c, s)
  {
    hide Linked, Gpu, OneToken, Clocked, OwnIntent, Foreseen;
    GpuFrame(c, st, s);
    RelabelLinks(c, st, s, id);
    RelabelTokens(c, st, s, id);
    RelabelForesight(c, st, s, id);
  }

  lemma LogLinks(c: Config, st: Sim, s: Sim)
    requires Linked(c, st) && OwnIntent(st) && Foreseen(c, st) && s == st.(trace := s.trace)
    ensures Linked(c, s) && OwnIntent(s) && Foreseen(c, s)
  {
    WakesKeepLinks(c, st, st);
    forall e | e in s.events ensures Handled(c, s, e.action) {
      assert Handled(c, st, e.action);
    }
  }

  lemma LogTokens(c: Config, st: Sim, s: Sim)
    requires OneToken(c, st) && s == st.(trace := s.trace)
    ensures OneToken(c, s)
  {
  }

  lemma LogFrame(c: Config, st: Sim, s: Sim)
    requires Linked(c, st) && Gpu(c, st) && OneToken(c, st) && OwnIntent(st) && Foreseen(c, st)
    requires s == st.(trace := s.trace)
    ensures Linked(c, s) && Gpu(c, s) && OneToken(c, s) && OwnIntent(s) && Foreseen(c, s)
  {
    hide Linked, Gpu, OneToken, Clocked, OwnIntent, Foreseen;
    GpuFrame(c, st, s);
    LogLinks(c, st, s);
    LogTokens(c, st, s);
  }

  lemma DeadlineClock(c: Config, st: Sim, e: Event)
    requires Handled(c, st, e.action) && Clocked(c, st) && e in st.events && e.action.Deadline?
    ensures Clocked(c, Fire(c, st, e))
  {
    var s := Fire(c, st, e);
    forall x | x in s.states && s.states[x].status == Running
      ensures exists f :: f in s.events && f.action == Deadline(x)
    {
      var f :| f in st.events && f.action == Deadline(x);
      assert f in s.events;
    }
  }

  lemma OnDeadlineKeeps(c: Config, st: Sim, id: Id)
    requires Linked(c, st) && Gpu(c, st) && OneToken(c, st) && OwnIntent(st) && Foreseen(c, st)
    requires id in st.states && st.states[id].status == Running
    ensures var s := OnDeadline(st, id);
            Linked(c, s) && Gpu(c, s) && OneToken(c, s) && OwnIntent(s) && Foreseen(c, s)
  {
    hide Linked, Gpu, OneToken, OwnIntent, Foreseen;
    var s1 := Deactivate(SetStatus(st, id, TimedOut), id);
    DeactivateShape(st, s1, id, TimedOut);
    Relabel(c, st, s1, id);
    LogFrame(c, s1, OnDeadline(st, id));
  }

  lemma DeadlineKeeps(c: Config, st: Sim, e: Event)
    requires Inv(c, st) && e in st.events && e.action.Deadline?
    ensures Inv(c, Fire(c, st, e))
  {
    hide Linked, Gpu, OneToken, Clocked, OwnIntent, Foreseen, SerialsOk;
    EventHandled(c, st, e);
    PopMost(c, st, e);
    DeadlineClock(c, st, e);
    if st.states[e.action.id].status == Running {
      OnDeadlineKeeps(c, Pop(st, e), e.action.id);
    }
  }

  /******* Ready requests *******/

  lemma Enqueue(c: Config, st: Sim, s: Sim, q: Waiting)
    requires Linked(c, st) && OneToken(c, st)
    requires s == st.(queue := st.queue + [q], trace := s.trace)
    requires q.id in st.states && q.index < |Turns(c, q.id)| && q.index == |st.states[q.id].rows|
    requires |Turns(c, q.id)[q.index].prompt| + |Turns(c, q.id)[q.index].generated| <= c.cacheBlocks
    requires forall e :: e in st.events ==> !TokenOf(e.action, q.id)
    requires forall p :: p in st.queue ==> p.id != q.id
    ensures Linked(c, s) && OneToken(c, s)
  {
    assert forall p :: p in s.queue ==> p in st.queue || p == q;
    assert Linked(c, s);
    forall i, j | 0 <= i < j < |s.queue| ensures s.queue[i].id != s.queue[j].id {
      if j == |st.queue| { assert s.queue[i] in st.queue; }
    }
  }

  lemma ReadyClock(c: Config, st: Sim, s: Sim)
    requires Clocked(c, st) && s.events == st.events && s.states == st.states && s.now == st.now
    ensures Clocked(c, s)
    ensures OwnIntent(st) && s.intents == st.intents ==> OwnIntent(s)
    ensures Foreseen(c, st) && s.intents == st.intents ==> Foreseen(c, s)
  {
  }

  lemma OnReadyKeeps(c: Config, st: Sim, id: Id, index: nat)
    requires Validated(c) && Inv(c, st) && id in Ids(c) && id in st.states && st.states[id].status == Running
    requires index == |st.states[id].rows| < |Turns(c, id)|
    requires forall e :: e in st.events ==> !TokenOf(e.action, id)
    requires forall q :: q in st.queue ==> q.id != id
    ensures Inv(c, OnReady(st, id, index))
  {
    hide Linked, Gpu, OneToken, Clocked, OwnIntent, Foreseen;
    var s1, s := Deactivate(st, id), OnReady(st, id, index);
    DeactivateShape(st, s1, id, Running);
    Relabel(c, st, s1, id);
    TurnValid(c, id, index);
    Enqueue(c, s1, s, Waiting(id, index, s1.now));
    GpuFrame(c, s1, s);
    ReadyClock(c, st, s1);
    ReadyClock(c, s1, s);
  }

  lemma ReadyKeeps(c: Config, st: Sim, e: Event)
    requires Validated(c) && Inv(c, st) && e in st.events && e.action.Ready?
    ensures Inv(c, Fire(c, st, e))
  {
    hide Inv;
    TokenFreed(c, st, e, e.action.id);
    PopKeeps(c, st, e);
    if st.states[e.action.id].status == Running {
      OnReadyKeeps(c, Pop(st, e), e.action.id, e.action.index);
    }
  }

  /******* Updates of an intent *******/

  lemma UpdateLinks(c: Config, st: Sim, s: Sim, id: Id, update: Update)
    requires Linked(c, st) && id in st.intents
    requires update.Revise? ==> |update.prefix| <= c.cacheBlocks
    requires s == st.(intents := st.intents[id := Revised(st.intents[id], update)], trace := s.trace)
    ensures Linked(c, s)
  {
    if update.Revise? { KeysDistinct(update.prefix); }
    forall e | e in s.events ensures Handled(c, s, e.action) {
      assert Handled(c, st, e.action);
    }
  }

  lemma UpdateTokens(c: Config, st: Sim, s: Sim)
    requires OneToken(c, st) && Clocked(c, st) && s == st.(intents := s.intents, trace := s.trace)
    ensures OneToken(c, s) && Clocked(c, s)
  {
  }

  lemma UpdateIntents(c: Config, st: Sim, s: Sim, id: Id, update: Update)
    requires OwnIntent(st) && Foreseen(c, st) && id in st.intents
    requires c.policy == FutureTiming ==>
               forall e :: e in st.events && e.action.Finished? && e.action.job.Preparation? ==> e.action.job.id != id
    requires s == st.(intents := st.intents[id := Revised(st.intents[id], update)], trace := s.trace)
    ensures OwnIntent(s) && Foreseen(c, s)
  {
    forall x, i: nat ensures Current(s, x, i) <==> Current(st, x, i) { }
    if c.policy == FutureTiming {
      forall e | e in s.events && e.action.Finished? && e.action.job.Preparation?
        ensures Settled(s, e.action.job)
      {
        assert Settled(st, e.action.job);
      }
    }
  }

  lemma CancelForesight(c: Config, st: Sim, s: Sim, id: Id)
    requires Clocked(c, st) && Foreseen(c, st) && id in st.states && st.states[id].status == Running
    requires c.policy == FutureTiming ==>
               forall e :: e in st.events && e.action.Finished? && e.action.job.Preparation? ==> e.action.job.id != id
    requires s == SetStatus(st, id, Cancelled).(trace := s.trace)
    ensures Clocked(c, s) && Foreseen(c, s)
  {
    forall x, i: nat ensures Current(s, x, i) <==> Current(st, x, i) { }
  }

  lemma CancelKeeps(c: Config, st: Sim, s: Sim, id: Id)
    requires Inv(c, st) && id in st.states && st.states[id].status == Running
    requires c.policy == FutureTiming ==>
               forall e :: e in st.events && e.action.Finished? && e.action.job.Preparation? ==> e.action.job.id != id
    requires s == SetStatus(st, id, Cancelled).(trace := s.trace)
    ensures Inv(c, s)
  {
    hide Linked, Gpu, OneToken, Clocked, OwnIntent, Foreseen, SerialsOk;
    CancelForesight(c, st, s, id);
    assert Relabelled(st, s, id);
    RelabelLinks(c, st, s, id);
    RelabelTokens(c, st, s, id);
    GpuFrame(c, st, s);
  }

  /** Under future timing no preparation can be in flight for an intent with an update to come. */
  lemma NoPreparationUnderUpdate(c: Config, st: Sim, e: Event, f: Event)
    requires Foreseen(c, st) && c.policy == FutureTiming && e in st.events && f in st.events
    requires e.action.Updated? && Current(st, e.action.id, e.action.index)
    requires f.action.Finished? && f.action.job.Preparation?
    ensures f.action.job.id != e.action.id
  {
    assert Settled(st, f.action.job);
  }

  lemma UpdateKeeps(c: Config, st: Sim, e: Event)
    requires Validated(c) && Inv(c, st) && e in st.events && e.action.Updated?
    ensures Inv(c, Fire(c, st, e))
  {
    hide Linked, Gpu, OneToken, Clocked, OwnIntent, Foreseen, SerialsOk;
    EventHandled(c, st, e);
    var id, index, update := e.action.id, e.action.index, e.action.update;
    var s0, s := Pop(st, e), Fire(c, st, e);
    PopKeeps(c, st, e);
    if Current(st, id, index) && st.states[id].status == Running {
      var intent := Revised(st.intents[id], update);
      var s1 := s0.(intents := s0.intents[id := intent]);
      if c.policy == FutureTiming {
        forall f | f in st.events && f.action.Finished? && f.action.job.Preparation? ensures f.action.job.id != id {
          NoPreparationUnderUpdate(c, st, e, f);
        }
      }
      TurnValid(c, id, index);
      UpdateLinks(c, s0, s1, id, update);
      UpdateIntents(c, s0, s1, id, update);
      UpdateTokens(c, s0, s1);
      GpuFrame(c, s0, s1);
      assert Inv(c, s1);
      if update.Cancel? {
        CancelKeeps(c, s1, s, id);
      } else {
        var s2 := Log(s1, RevisionSeen(id, intent.revision));
        LogKeeps(c, s1, s2);
        WakeupShape(c, s2, intent);
        WakesKeep(c, s2, s);
      }
    }
  }

  lemma LogKeeps(c: Config, st: Sim, s: Sim)
    requires Inv(c, st) && s == st.(trace := s.trace)
    ensures Inv(c, s)
  {
    hide Linked, Gpu, OneToken, Clocked, OwnIntent, Foreseen;
    LogFrame(c, st, s);
    ReadyClock(c, st, s);
  }
}
