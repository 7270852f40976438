/** Finishing and launching GPU work keeps the simulator's invariant. */
module HeadroomJobs {
  import opened Wrappers
  import opened HeadroomModel
  import opened HeadroomCache
  import opened HeadroomInvariant
  import opened HeadroomSteps

  /******* A job finishes *******/

  /** The completion event left the queue and the job's keys got their final tag. */
  ghost predicate Completes(st: Sim, s: Sim, e: Event) {
    && e in st.events && e.action.Finished?
    && s.events == st.events - {e} && !s.busy && s.lru == st.lru
    && (forall k :: k in JobKeys(e.action.job) ==> k in st.tags)
    && s.tags == SetTags(st.tags, JobKeys(e.action.job), if e.action.job.Preparation? then Speculative else Ordinary)
    && s.stats == st.stats.(obsolete := s.stats.obsolete, late := s.stats.late)
    && s.now == st.now && s.queue == st.queue && s.intents == st.intents && s.intentOrder == st.intentOrder
  }

  lemma FinishGpu(c: Config, st: Sim, s: Sim, e: Event)
    requires Gpu(c, st) && Completes(st, s, e)
    ensures Gpu(c, s)
    ensures forall f :: f in s.events ==> !f.action.Finished?
  {
    forall k | k in s.tags ensures s.tags[k] != Pending {
      if st.tags[k] == Pending {
        var f :| f in st.events && f.action.Finished? && k in JobKeys(f.action.job);
        assert f == e;
      }
    }
    SetTagsFresh(st.tags, JobKeys(e.action.job), if e.action.job.Preparation? then Speculative else Ordinary);
  }

  lemma FinishLinks(c: Config, st: Sim, s: Sim, e: Event)
    requires Linked(c, st) && Completes(st, s, e) && s.states.Keys == st.states.Keys
    ensures Linked(c, s)
  {
    forall f | f in s.events ensures Handled(c, s, f.action) {
      assert Handled(c, st, f.action);
    }
  }

  lemma PopSerials(st: Sim, e: Event)
    requires SerialsOk(st.events, st.serial)
    ensures SerialsOk(Pop(st, e).events, Pop(st, e).serial)
  {
  }

  lemma PreparationCompletes(c: Config, st: Sim, e: Event)
    requires e in st.events && e.action.Finished? && e.action.job.Preparation? && Handled(c, st, e.action)
    ensures Completes(st, Fire(c, st, e), e)
  {
  }

  lemma PreparationKeeps(c: Config, st: Sim, e: Event)
    requires Inv(c, st) && e in st.events && e.action.Finished? && e.action.job.Preparation?
    ensures Inv(c, Fire(c, st, e))
  {
    hide Linked, Gpu, OneToken, Clocked, OwnIntent, Foreseen, SerialsOk, Completes;
    EventHandled(c, st, e);
    var s0, s := Pop(st, e), Fire(c, st, e);
    PreparationCompletes(c, st, e);
    PopSerials(st, e);
    FinishGpu(c, st, s, e);
    FinishLinks(c, st, s, e);
    PopTokens(c, st, e);
    PopIntents(c, st, e);
    PopClock(c, st, e);
    ReadyClock(c, s0, s);
    TokensFrame(c, s0, s);
  }

  lemma TokensFrame(c: Config, st: Sim, s: Sim)
    requires OneToken(c, st) && s.events == st.events && s.queue == st.queue && s.states == st.states
    ensures OneToken(c, s)
  {
  }

  /** A finished request is recorded as its workflow's next turn. */
  ghost predicate Recorded(st: Sim, s: Sim, e: Event) {
    && Completes(st, s, e) && e.action.job.Demand? && e.action.job.id in st.states
    && s.states == st.states[e.action.job.id :=
         st.states[e.action.job.id].(rows := st.states[e.action.job.id].rows
           + [TurnRow(e.action.job.index, e.action.job.ready, st.now, e.action.job.cached)])]
  }

  lemma RecordShape(st: Sim, e: Event)
    requires e in st.events && e.action.Finished? && e.action.job.Demand? && e.action.job.id in st.states
    requires forall k :: k in e.action.job.keys ==> k in st.tags
    ensures Recorded(st, Record(Pop(st, e), e.action.job), e)
    ensures Record(Pop(st, e), e.action.job).states[e.action.job.id].status == st.states[e.action.job.id].status
  {
  }

  lemma RecordTokens(c: Config, st: Sim, s: Sim, e: Event)
    requires Linked(c, st) && OneToken(c, st) && Recorded(st, s, e)
    ensures OneToken(c, s)
  {
    var id := e.action.job.id;
    TokenGone(c, st, e, id);
    assert forall x :: x in st.states && x != id ==> s.states[x] == st.states[x];
    forall f, x | f in s.events && TokenOf(f.action, x) ensures f in st.events && x != id { }
  }

  lemma RecordIntents(c: Config, st: Sim, s: Sim, e: Event)
    requires OwnIntent(st) && Foreseen(c, st) && Recorded(st, s, e)
    requires forall f :: f in s.events ==> !f.action.Finished?
    ensures OwnIntent(s) && Foreseen(c, s)
  {
    forall x, i: nat ensures Current(s, x, i) <==> Current(st, x, i) { }
  }

  lemma RecordClock(c: Config, st: Sim, s: Sim, e: Event)
    requires Clocked(c, st) && Recorded(st, s, e)
    ensures Clocked(c, s)
  {
    forall x | x in s.states && s.states[x].status == Running
      ensures exists f :: f in s.events && f.action == Deadline(x)
    {
      var f :| f in st.events && f.action == Deadline(x);
      assert f in s.events;
    }
  }

  lemma RecordKeeps(c: Config, st: Sim, s: Sim, e: Event)
    requires Inv(c, st) && Recorded(st, s, e) && s.serial == st.serial
    ensures Inv(c, s)
    ensures forall f :: f in s.events ==> !f.action.Finished?
  {
    hide Linked, Gpu, OneToken, Clocked, OwnIntent, Foreseen;
    FinishGpu(c, st, s, e);
    FinishLinks(c, st, s, e);
    RecordTokens(c, st, s, e);
    RecordIntents(c, st, s, e);
    RecordClock(c, st, s, e);
  }

  /** The last turn ends a running workflow by its deadline: the deadline is still queued. */
  lemma CompletionInTime(c: Config, st: Sim, s: Sim, id: Id)
    requires Clocked(c, st) && id in st.states && st.states[id].status == Running
    requires s == st.(states := st.states[id := st.states[id].(status := Completed,
                        completion := Some(st.now - Flow(c.workflows, id).arrival))])
    ensures Clocked(c, s)
  {
    var d :| d in st.events && d.action == Deadline(id);
    assert st.now <= d.at == Due(c, id);
  }

  lemma CompletionKeeps(c: Config, st: Sim, s: Sim, id: Id)
    requires Inv(c, st) && id in st.states && st.states[id].status == Running
    requires forall f :: f in st.events ==> !f.action.Finished?
    requires s == st.(states := st.states[id := st.states[id].(status := Completed,
                        completion := Some(st.now - Flow(c.workflows, id).arrival))])
    ensures Inv(c, s)
  {
    hide Linked, Gpu, OneToken, Clocked, OwnIntent, Foreseen, SerialsOk;
    CompletionInTime(c, st, s, id);
    CompletionTokens(c, st, s);
    GpuFrame(c, st, s);
  }

  lemma CompletionTokens(c: Config, st: Sim, s: Sim)
    requires Linked(c, st) && OneToken(c, st) && OwnIntent(st) && Foreseen(c, st)
    requires s == st.(states := s.states) && s.states.Keys == st.states.Keys
    requires forall x :: x in st.states ==> s.states[x].rows == st.states[x].rows
    requires forall f :: f in st.events ==> !f.action.Finished?
    ensures Linked(c, s) && OneToken(c, s) && OwnIntent(s) && Foreseen(c, s)
  {
    hide Linked;
    CompletionLinks(c, st, s);
    RowsFrame(c, st, s);
  }

  lemma RowsFrame(c: Config, st: Sim, s: Sim)
    requires OneToken(c, st) && s == st.(states := s.states) && s.states.Keys == st.states.Keys
    requires forall x :: x in st.states ==> s.states[x].rows == st.states[x].rows
    ensures OneToken(c, s)
  {
  }

  lemma CompletionLinks(c: Config, st: Sim, s: Sim)
    requires Linked(c, st) && s == st.(states := s.states) && s.states.Keys == st.states.Keys
    ensures Linked(c, s)
  {
    forall e | e in s.events ensures Handled(c, s, e.action) {
      assert Handled(c, st, e.action);
    }
  }

  lemma DemandStartable(c: Config, st: Sim, s: Sim, e: Event)
    requires Inv(c, st) && Recorded(st, s, e)
    requires forall f :: f in s.events ==> !f.action.Finished?
    ensures var job := e.action.job;
            && job.index == |st.states[job.id].rows|
            && (st.states[job.id].status == Running && job.index + 1 < |Turns(c, job.id)| ==>
                  Startable(c, s, job.id, job.index + 1))
  {
    TokenGone(c, st, e, e.action.job.id);
  }

  lemma OnDemandKeeps(c: Config, st: Sim, s1: Sim, job: Job)
    requires Validated(c) && job.Demand? && job.id in st.states && job.index < |Turns(c, job.id)|
    requires forall k :: k in job.keys ==> k in st.tags
    requires s1 == Record(st, job) && Inv(c, s1)
    requires forall f :: f in s1.events ==> !f.action.Finished?
    requires s1.states[job.id].status == Running && job.index + 1 < |Turns(c, job.id)| ==>
               Startable(c, s1, job.id, job.index + 1)
    ensures Inv(c, OnDemand(c, st, job))
  {
    hide Inv, Startable;
    if s1.states[job.id].status == Running {
      if job.index + 1 == |Turns(c, job.id)| {
        CompletionKeeps(c, s1, OnDemand(c, st, job), job.id);
      } else {
        StartTurnKeeps(c, s1, job.id, job.index + 1);
      }
    }
  }

  lemma DemandKeeps(c: Config, st: Sim, e: Event)
    requires Validated(c) && Inv(c, st) && e in st.events && e.action.Finished? && e.action.job.Demand?
    requires Handled(c, st, e.action)
    ensures Inv(c, Fire(c, st, e))
  {
    hide Inv, Recorded, Startable;
    var s1 := Record(Pop(st, e), e.action.job);
    RecordShape(st, e);
    RecordKeeps(c, st, s1, e);
    DemandStartable(c, st, s1, e);
    OnDemandKeeps(c, Pop(st, e), s1, e.action.job);
  }

  /** Every event keeps the invariant. */
  lemma FireKeeps(c: Config, st: Sim, e: Event)
    requires Validated(c) && Inv(c, st) && e in st.events
    ensures Handled(c, st, e.action) && Inv(c, Fire(c, st, e))
  {
    hide Inv, SerialsOk;
    EventHandled(c, st, e);
    match e.action {
      case Arrival(_) => ArrivalKeeps(c, st, e);
      case Deadline(_) => DeadlineKeeps(c, st, e);
      case Ready(_, _) => ReadyKeeps(c, st, e);
      case Updated(_, _, _) => UpdateKeeps(c, st, e);
      case Finished(job) => if job.Preparation? { PreparationKeeps(c, st, e); } else { DemandKeeps(c, st, e); }
      case Wake => PopKeeps(c, st, e);
    }
  }
}
