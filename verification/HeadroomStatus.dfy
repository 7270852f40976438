/** Why a workflow is no longer running: the log shows its deadline hit, at its due time, exactly
    when it timed out, and a cancellation exactly when it was cancelled. */
module HeadroomStatus {
  import opened HeadroomModel
  import opened HeadroomInvariant
  import opened HeadroomSteps
  import opened HeadroomJobs
  import opened HeadroomDispatch
  import opened HeadroomProgress
  import opened HeadroomHistory

  predicate CancelledAt(log: Journal, id: Id, t: real) { (t, CancelSeen(id)) in log }

  ghost predicate Cancels(log: Journal, id: Id) { exists t :: CancelledAt(log, id, t) }

  ghost predicate TimesOut(c: Config, log: Journal, id: Id) { (Due(c, id), DeadlineHit(id)) in log }

  ghost predicate StatusTold(c: Config, st: Sim) {
    forall id :: id in st.states ==>
      && (st.states[id].status == TimedOut <==> TimesOut(c, st.trace, id))
      && (st.states[id].status == Cancelled <==> Cancels(st.trace, id))
  }

  predicate Ending(x: Entry) { x.DeadlineHit? || x.CancelSeen? }

  /** Nobody timed out or was cancelled, and the log says so. */
  ghost predicate NoneStops(st: Sim, s: Sim) {
    && (s.trace == st.trace || exists x :: s.trace == st.trace + [(st.now, x)] && !Ending(x))
    && s.states.Keys == st.states.Keys
    && forall id :: id in st.states ==>
         && (s.states[id].status == TimedOut <==> st.states[id].status == TimedOut)
         && (s.states[id].status == Cancelled <==> st.states[id].status == Cancelled)
  }

  lemma MoreTimesOut(c: Config, log: Journal, x: (real, Entry), id: Id)
    ensures TimesOut(c, log + [x], id) <==> TimesOut(c, log, id) || x == (Due(c, id), DeadlineHit(id))
  {
    hide Due;
    var d := (Due(c, id), DeadlineHit(id));
    assert d in log + [x] <==> d in log || d == x;
  }

  lemma MoreCancels(log: Journal, x: (real, Entry), id: Id)
    ensures Cancels(log + [x], id) <==> Cancels(log, id) || x.1 == CancelSeen(id)
  {
    var more := log + [x];
    if Cancels(more, id) {
      var t :| CancelledAt(more, id, t);
      if !CancelledAt(log, id, t) { assert x == (t, CancelSeen(id)); }
    }
    if Cancels(log, id) {
      var t :| CancelledAt(log, id, t);
      assert CancelledAt(more, id, t);
    }
    if x.1 == CancelSeen(id) {
      assert more[|log|] == (x.0, CancelSeen(id));
      assert CancelledAt(more, id, x.0);
    }
  }

  lemma MoreLog(c: Config, log: Journal, x: (real, Entry), id: Id)
    ensures TimesOut(c, log + [x], id) <==> TimesOut(c, log, id) || x == (Due(c, id), DeadlineHit(id))
    ensures Cancels(log + [x], id) <==> Cancels(log, id) || x.1 == CancelSeen(id)
  {
    MoreTimesOut(c, log, x, id);
    MoreCancels(log, x, id);
  }

  lemma NoneStopsTold(c: Config, st: Sim, s: Sim)
    requires StatusTold(c, st) && NoneStops(st, s)
    ensures StatusTold(c, s)
  {
    hide Cancels, TimesOut;
    if s.trace != st.trace {
      var x :| s.trace == st.trace + [(st.now, x)] && !Ending(x);
      forall id ensures (TimesOut(c, s.trace, id) <==> TimesOut(c, st.trace, id)) && (Cancels(s.trace, id) <==> Cancels(st.trace, id)) {
        MoreLog(c, st.trace, (st.now, x), id);
      }
    }
  }

  lemma DeadlineStops(c: Config, st: Sim, e: Event, id: Id)
    requires StatusTold(c, st) && id in st.states && e.action == Deadline(id) && st.now == Due(c, id)
    ensures StatusTold(c, OnDeadline(Pop(st, e), id))
  {
    hide Cancels, TimesOut, Due;
    var s := OnDeadline(Pop(st, e), id);
    if st.states[id].status == Running {
      assert s.trace == st.trace + [(st.now, DeadlineHit(id))];
      forall x | x in s.states
        ensures (s.states[x].status == TimedOut <==> TimesOut(c, s.trace, x)) && (s.states[x].status == Cancelled <==> Cancels(s.trace, x))
      {
        MoreLog(c, st.trace, (st.now, DeadlineHit(id)), x);
      }
    }
  }

  lemma CancelStops(c: Config, st: Sim, e: Event, id: Id, index: nat, u: Update)
    requires StatusTold(c, st) && id in st.states && e.action == Updated(id, index, u) && u.Cancel?
    ensures StatusTold(c, OnUpdate(c, Pop(st, e), id, index, u))
  {
    hide Cancels, TimesOut, Due;
    var s := OnUpdate(c, Pop(st, e), id, index, u);
    if s.trace != st.trace {
      assert s.trace == st.trace + [(st.now, CancelSeen(id))];
      forall x | x in s.states
        ensures (s.states[x].status == TimedOut <==> TimesOut(c, s.trace, x)) && (s.states[x].status == Cancelled <==> Cancels(s.trace, x))
      {
        MoreLog(c, st.trace, (st.now, CancelSeen(id)), x);
      }
    }
  }

  lemma ReviseNone(c: Config, st: Sim, e: Event, id: Id, index: nat, u: Update)
    requires id in st.states && u.Revise?
    ensures NoneStops(st, OnUpdate(c, Pop(st, e), id, index, u))
  {
    hide BlockKeys, Begin;
    var s := OnUpdate(c, Pop(st, e), id, index, u);
    if s.trace != st.trace { assert s.trace == st.trace + [(st.now, RevisionSeen(id, s.intents[id].revision))]; }
  }

  lemma ReadyNone(st: Sim, e: Event, id: Id, index: nat)
    requires id in st.states
    ensures NoneStops(st, OnReady(Pop(st, e), id, index))
  {
    var s := OnReady(Pop(st, e), id, index);
    if s.trace != st.trace { assert s.trace == st.trace + [(st.now, RequestReady(id, index))]; }
  }

  lemma PreparationNone(st: Sim, e: Event, job: Job)
    requires job.Preparation? && job.id in st.states && job.id in st.intents && forall k :: k in job.computed ==> k in st.tags
    ensures NoneStops(st, OnPreparation(Pop(st, e), job))
  {
    hide SetTags, Obsolete;
    var s := OnPreparation(Pop(st, e), job);
    assert s.trace == st.trace + [(st.now, PreparationFinished(job.id, |job.computed|, Obsolete(Pop(st, e), job)))];
  }

  lemma StartTurnNone(c: Config, st: Sim, id: Id, index: nat)
    requires id in st.states && index < |Turns(c, id)| && SerialsOk(st.events, st.serial)
    ensures var s := StartTurn(c, st, id, index); s.trace == st.trace && s.states == st.states && s.now == st.now
  {
    if st.states[id].status == Running { StartTurnShape(c, st, id, index); }
  }

  lemma DemandNone(c: Config, st: Sim, e: Event)
    requires SerialsOk(st.events, st.serial) && e.action.Finished? && e.action.job.Demand? && Handled(c, st, e.action)
    ensures NoneStops(st, Fire(c, st, e))
  {
    hide SerialsOk, StartTurn, SetTags, Flow;
    var s1, job := Record(Pop(st, e), e.action.job), e.action.job;
    PopSerials(st, e);
    if s1.states[job.id].status == Running && job.index + 1 < |Turns(c, job.id)| { StartTurnNone(c, s1, job.id, job.index + 1); }
    assert Fire(c, st, e).trace == st.trace + [(st.now, RequestFinished(job.id, job.index))];
  }

  lemma DeadlineDue(c: Config, st: Sim, e: Event)
    requires Inv(c, st) && e in st.events && e.action.Deadline?
    ensures e.at == Due(c, e.action.id)
  {
  }

  lemma FireStatus(c: Config, st: Sim, e: Event)
    requires Inv(c, st) && StatusTold(c, st) && e in st.events && e.at == st.now && Handled(c, st, e.action)
    ensures StatusTold(c, Fire(c, st, e))
  {
    hide Inv, StatusTold, NoneStops, SerialsOk, StartTurn, OnDeadline, OnUpdate, OnReady, OnPreparation, OnDemand;
    InvSerials(c, st);
    PopSerials(st, e);
    match e.action {
      case Arrival(id) =>
        StartTurnNone(c, Pop(st, e), id, 0);
        SameStops(st, Fire(c, st, e));
        NoneStopsTold(c, st, Fire(c, st, e));
      case Deadline(id) =>
        DeadlineDue(c, st, e);
        DeadlineStops(c, st, e, id);
      case Ready(id, index) =>
        ReadyNone(st, e, id, index);
        NoneStopsTold(c, st, Fire(c, st, e));
      case Updated(id, index, u) =>
        if u.Cancel? {
          CancelStops(c, st, e, id, index, u);
        } else {
          ReviseNone(c, st, e, id, index, u);
          NoneStopsTold(c, st, Fire(c, st, e));
        }
      case Finished(job) =>
        if job.Demand? { DemandNone(c, st, e); } else { PreparationNone(st, e, job); }
        NoneStopsTold(c, st, Fire(c, st, e));
      case Wake =>
        SameStops(st, Fire(c, st, e));
        NoneStopsTold(c, st, Fire(c, st, e));
    }
  }

  lemma SameStops(st: Sim, s: Sim)
    requires s.trace == st.trace && s.states == st.states
    ensures NoneStops(st, s)
  {
  }

  lemma {:induction false} DispatchPreparationStatus(c: Config, st: Sim, i: nat)
    requires StatusTold(c, st)
    requires i <= |st.intentOrder| && IntentsFit(c, st) && st.stats.computed < c.budget && c.chunk >= 1
    ensures StatusTold(c, DispatchPreparation(c, st, i))
    decreases |st.intentOrder| - i
  {
    hide StatusTold, LaunchPreparation, TooEarly, PrefillMs;
    if i < |st.intentOrder| {
      var id := st.intentOrder[i];
      if Idle(c, st, id) {
        DispatchPreparationStatus(c, st, i + 1);
      } else if TooEarly(c, st, st.intents[id]) {
        var s1 := ScheduleWakeup(c, st, st.intents[id]);
        WakeupShape(c, st, st.intents[id]);
        NoneStopsTold(c, st, s1);
        DispatchPreparationStatus(c, s1, i + 1);
      } else {
        PreparationLog(c, st, id, st.intents[id]);
        NoneStopsTold(c, st, LaunchPreparation(c, st, id, st.intents[id]));
      }
    }
  }

  lemma {:induction false} DispatchQueueStatus(c: Config, st: Sim)
    requires Validated(c) && Inv(c, st) && Free(st) && DispatchReady(c, st) && StatusTold(c, st)
    ensures StatusTold(c, DispatchQueue(c, st))
    decreases |st.queue|
  {
    hide Inv, StatusTold, LaunchDemand, InFlight;
    if st.queue == [] {
      if c.policy != Off && st.stats.computed < c.budget { DispatchPreparationStatus(c, st, 0); }
    } else {
      var q, s1 := st.queue[0], st.(queue := st.queue[1..]);
      QueueDispatchable(c, st, s1);
      NoneStopsTold(c, st, s1);
      InvDispatchReady(c, s1);
      if st.states[q.id].status != Running {
        DispatchQueueStatus(c, s1);
      } else {
        DemandLog(c, s1, q);
        NoneStopsTold(c, s1, LaunchDemand(c, s1, q));
      }
    }
  }

  lemma DispatchStatus(c: Config, st: Sim)
    requires Validated(c) && Inv(c, st) && DispatchReady(c, st) && StatusTold(c, st)
    ensures StatusTold(c, Dispatch(c, st))
  {
    hide Inv, StatusTold, Validated;
    FreeUnlessBusy(c, st);
    if !st.busy { DispatchQueueStatus(c, st); }
  }
}
