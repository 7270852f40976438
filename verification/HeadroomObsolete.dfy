/** When a preparation is obsolete, under any policy: its workflow has been cancelled or has timed
    out, or an update of its turn came after it was launched. */
module HeadroomObsolete {
  import opened HeadroomModel
  import opened HeadroomCache
  import opened HeadroomInvariant
  import opened HeadroomSteps
  import opened HeadroomJobs
  import opened HeadroomDispatch
  import opened HeadroomProgress
  import opened HeadroomRun
  import opened HeadroomHistory
  import opened HeadroomTallies
  import opened HeadroomResults
  import opened HeadroomTimes
  import opened HeadroomRevisions
  import opened HeadroomStatus
  import opened HeadroomReach

  /** The first `n` updates, and no others, had come by time `t`. */
  ghost predicate DueBy(start: real, updates: seq<Update>, n: nat, t: real) {
    n <= |updates| && forall j :: 0 <= j < |updates| ==> (j < n <==> start + updates[j].at <= t)
  }

  /** The job was launched at time `t`, for its workflow's next turn, when its revision was current. */
  ghost predicate LaunchedAt(c: Config, st: Sim, e: Event, t: real)
    requires Preparing(e)
  {
    var job := e.action.job;
    && job.id in st.states && job.index <= |st.states[job.id].rows| && job.index < |Turns(c, job.id)|
    && PreparedAt(st.trace, job.id, job.revision, |job.computed|, t) && e.at == t + PrefillMs(c, |job.computed|) && t < e.at
    && DueBy(TurnStart(c, st.states[job.id].rows, job.id, job.index), Turns(c, job.id)[job.index].updates, job.revision, t)
  }

  ghost predicate Dated(c: Config, st: Sim) {
    forall e :: e in st.events && Preparing(e) ==> exists t :: LaunchedAt(c, st, e, t)
  }

  lemma LaunchStays(c: Config, st: Sim, s: Sim, e: Event, t: real)
    requires Preparing(e) && LaunchedAt(c, st, e, t) && Grown(st, s)
    ensures LaunchedAt(c, s, e, t)
  {
    hide DueBy, TurnStart, Turns, PrefillMs;
    StartStays(c, st.states[e.action.job.id].rows, s.states[e.action.job.id].rows, e.action.job.id, e.action.job.index);
  }

  lemma DatedStays(c: Config, st: Sim, s: Sim)
    requires Dated(c, st) && Grown(st, s) && forall e :: e in s.events && Preparing(e) ==> e in st.events
    ensures Dated(c, s)
  {
    hide LaunchedAt, Grown;
    forall e | e in s.events && Preparing(e) ensures exists t :: LaunchedAt(c, s, e, t) {
      var t :| LaunchedAt(c, st, e, t);
      LaunchStays(c, st, s, e, t);
    }
  }

  /** In a quiet state the intent's revision counts the updates that have come. */
  lemma QuietDue(c: Config, st: Sim, id: Id)
    requires Revising(c, st) && Quiet(st) && id in st.intents && id in st.states && st.states[id].status == Running
    ensures var intent := st.intents[id];
            && intent.index <= |st.states[id].rows| && intent.index < |Turns(c, id)|
            && DueBy(TurnStart(c, st.states[id].rows, id, intent.index), Turns(c, id)[intent.index].updates, intent.revision, st.now)
  {
    hide TurnStart, PrefixAfter, BlockKeys;
    assert IntentRevised(c, st, id);
    var intent := st.intents[id];
    var start, us := TurnStart(c, st.states[id].rows, id, intent.index), Turns(c, id)[intent.index].updates;
    var b :| Scheduled(st.events, st.now, start, b, id, intent.index, us, intent.revision);
    forall j | 0 <= j < |us| ensures j < intent.revision <==> start + us[j].at <= st.now {
      if j >= intent.revision { assert UpdateAt(start, b, id, intent.index, us, j) in st.events; }
    }
  }

  lemma LaunchDated(c: Config, st: Sim, id: Id)
    requires c.prefill > 0.0 && Revising(c, st) && Quiet(st) && Preparable(c, st, id) && Dated(c, st)
    ensures Dated(c, LaunchPreparation(c, st, id, st.intents[id]))
  {
    hide Revising, Quiet, LaunchPreparation, PrefillMs, TurnStart, Turns, DueBy, Distinct, PreparationCount;
    var intent, s := st.intents[id], LaunchPreparation(c, st, id, st.intents[id]);
    PreparationLog(c, st, id, intent);
    PreparationShape(c, st, id);
    QuietDue(c, st, id);
    var e := PreparationEvent(c, st, id, intent);
    NewLaunch(c, st, s, id, e);
    forall f | f in s.events && Preparing(f) ensures exists t :: LaunchedAt(c, s, f, t) {
      if f != e {
        assert f in st.events;
        var t :| LaunchedAt(c, st, f, t);
        LaunchStays(c, st, s, f, t);
      }
    }
  }

  lemma NewLaunch(c: Config, st: Sim, s: Sim, id: Id, e: Event)
    requires id in st.intents && id in st.states && 0 < PreparationCount(c, st, st.intents[id]) && s.states == st.states
    requires e == PreparationEvent(c, st, id, st.intents[id]) && st.now < e.at
    requires s.trace == st.trace + [(st.now, PreparationStarted(id, st.intents[id].revision, PreparationCount(c, st, st.intents[id])))]
    requires st.intents[id].index <= |st.states[id].rows| && st.intents[id].index < |Turns(c, id)|
    requires DueBy(TurnStart(c, st.states[id].rows, id, st.intents[id].index), Turns(c, id)[st.intents[id].index].updates,
                   st.intents[id].revision, st.now)
    ensures Preparing(e) && LaunchedAt(c, s, e, st.now)
  {
    hide PrefillMs, TurnStart, DueBy;
    assert PreparedAt(s.trace, id, st.intents[id].revision, PreparationCount(c, st, st.intents[id]), st.now);
  }

  lemma {:induction false} DispatchPreparationDated(c: Config, st: Sim, i: nat)
    requires Validated(c) && Inv(c, st) && Revising(c, st) && Quiet(st) && Dated(c, st)
    requires i <= |st.intentOrder| && IntentsFit(c, st) && st.stats.computed < c.budget
    ensures Dated(c, DispatchPreparation(c, st, i))
    decreases |st.intentOrder| - i
  {
    hide Inv, Revising, Dated, LaunchPreparation, TooEarly, Preparable;
    if i < |st.intentOrder| {
      var id := st.intentOrder[i];
      if Idle(c, st, id) {
        DispatchPreparationDated(c, st, i + 1);
      } else if TooEarly(c, st, st.intents[id]) {
        var s1 := ScheduleWakeup(c, st, st.intents[id]);
        WakeupShape(c, st, st.intents[id]);
        WakesKeep(c, st, s1);
        DatedStays(c, st, s1);
        WakesRevising(c, st, s1);
        DispatchPreparationDated(c, s1, i + 1);
      } else {
        ChosenPreparable(c, st, id);
        LaunchDated(c, st, id);
      }
    }
  }

  lemma WakesRevising(c: Config, st: Sim, s: Sim)
    requires Revising(c, st) && OnlyWakes(st, s)
    ensures Revising(c, s)
  {
    hide Revising;
    SameRevising(c, st, s);
  }

  lemma {:induction false} DispatchQueueDated(c: Config, st: Sim)
    requires Validated(c) && Inv(c, st) && DispatchReady(c, st) && Revising(c, st) && Quiet(st) && Dated(c, st)
    ensures Dated(c, DispatchQueue(c, st))
    decreases |st.queue|
  {
    hide Inv, Revising, Dated, LaunchDemand, SameUpdates;
    if st.queue == [] {
      if c.policy != Off && st.stats.computed < c.budget { DispatchPreparationDated(c, st, 0); }
    } else {
      var q, s1 := st.queue[0], st.(queue := st.queue[1..]);
      QueueDispatchable(c, st, s1);
      InvDispatchReady(c, s1);
      DatedStays(c, st, s1);
      if st.states[q.id].status != Running {
        UnaffectedSame(st, s1);
        SameRevising(c, st, s1);
        DispatchQueueDated(c, s1);
      } else {
        DemandDated(c, s1, q);
      }
    }
  }

  lemma DemandDated(c: Config, st: Sim, q: Waiting)
    requires c.prefill > 0.0 && Dated(c, st) && Dispatchable(c, st, q)
    ensures Dated(c, LaunchDemand(c, st, q))
  {
    hide Dated, LaunchDemand;
    DemandShape(c, st, q);
    DemandTrace(c, st, q);
    DatedStays(c, st, LaunchDemand(c, st, q));
  }

  lemma DemandTrace(c: Config, st: Sim, q: Waiting)
    requires Dispatchable(c, st, q)
    ensures st.trace <= LaunchDemand(c, st, q).trace
  {
    hide PrefillMs, Reserve, CachedPrefix, Hits, BlockKeys, Turns;
    var turn := Turns(c, q.id)[q.index];
    HitsCount(st, BlockKeys(turn.prompt)[..PromptHits(st, turn)]);
    ReserveStats(c, Hits(st, BlockKeys(turn.prompt)[..PromptHits(st, turn)]), DemandKeys(turn));
  }

  /** No event starts a job, and rows and log only grow. */
  lemma FireDated(c: Config, st: Sim, e: Event)
    requires Validated(c) && Inv(c, st) && Booked(c, st) && Dated(c, st) && e in st.events && Handled(c, st, e.action)
    ensures Dated(c, Fire(c, st, e))
  {
    hide Inv, Booked, Dated, Validated, Fire, SerialsOk;
    FireBooked(c, st, e);
    InvSerials(c, st);
    FireStartsNothing(c, st, e);
    EvolvesGrown(st, Fire(c, st, e));
    DatedStays(c, st, Fire(c, st, e));
  }

  lemma EvolvesGrown(st: Sim, s: Sim)
    requires Evolves(st, s)
    ensures Grown(st, s)
  {
  }

  lemma FireStartsNothing(c: Config, st: Sim, e: Event)
    requires SerialsOk(st.events, st.serial) && Handled(c, st, e.action)
    ensures forall f :: f in Fire(c, st, e).events && Preparing(f) ==> f in st.events
  {
    hide SerialsOk, StartTurn, OnUpdate, SetTags, Obsolete;
    PopSerials(st, e);
    match e.action {
      case Arrival(id) => StartStartsNothing(c, Pop(st, e), id, 0);
      case Updated(id, index, u) => UpdateUndisturbed(c, Pop(st, e), id, index, u);
      case Finished(job) =>
        if job.Demand? {
          var s1 := Record(Pop(st, e), job);
          if s1.states[job.id].status == Running && job.index + 1 < |Turns(c, job.id)| {
            StartStartsNothing(c, s1, job.id, job.index + 1);
          }
        }
      case _ =>
    }
  }

  lemma StartStartsNothing(c: Config, st: Sim, id: Id, index: nat)
    requires id in st.states && index < |Turns(c, id)| && SerialsOk(st.events, st.serial)
    ensures forall f :: f in StartTurn(c, st, id, index).events && Preparing(f) ==> f in st.events
  {
    if st.states[id].status == Running { StartTurnShape(c, st, id, index); }
  }

  lemma AdvanceGrown(st: Sim, at: real)
    requires st.now <= at
    ensures Grown(st, Advance(st, at))
  {
  }

  lemma StepDated(c: Config, st: Sim, s: Sim)
    requires Validated(c) && Inv(c, st) && Booked(c, st) && Told(c, st) && Dated(c, st) && Step(c, st, s)
    ensures Dated(c, s)
  {
    hide Inv, Booked, Dated, Validated, Timely, LateTold, Revising, StatusTold, Fire, DispatchQueue, Grown;
    if Quiet(st) && DispatchReady(c, st) && s == Dispatch(c, st) {
      if !st.busy { DispatchQueueDated(c, st); }
    } else if s == Advance(st, First(st.events).at) {
      InvNow(c, st);
      AdvanceGrown(st, First(st.events).at);
      DatedStays(c, st, s);
    } else {
      FireDated(c, st, First(st.events));
    }
  }

  lemma {:induction false} AlwaysDated(c: Config, path: seq<Sim>, i: nat)
    requires Validated(c) && Behaviour(c, path) && i < |path|
    ensures Dated(c, path[i])
  {
    hide Inv, Booked, Dated, Told, Validated, Step, Evolves;
    if i == 0 {
      StartDated(c);
    } else {
      AlwaysDated(c, path, i - 1);
      AlwaysTold(c, path, i - 1);
      Reachable(c, path, i - 1, i - 1);
      StepDated(c, path[i - 1], path[i]);
    }
  }

  lemma StartDated(c: Config)
    requires Validated(c)
    ensures Dated(c, Start(c))
  {
    hide Start, Admission, Validated;
    StartShape(c);
    forall e | e in Start(c).events ensures !Preparing(e) { AdmissionKind(c, e); }
  }

  /******* At its finish *******/

  /** An update of the turn came after `t` and has been applied. */
  ghost predicate Overtaken(c: Config, st: Sim, job: Job, t: real)
    requires job.Preparation? && job.id in st.intents
  {
    && job.id in st.states && job.index <= |st.states[job.id].rows| && job.index < |Turns(c, job.id)|
    && exists j :: 0 <= j < |Turns(c, job.id)[job.index].updates| && j < st.intents[job.id].revision
         && t < TurnStart(c, st.states[job.id].rows, job.id, job.index) + Turns(c, job.id)[job.index].updates[j].at
  }

  lemma RevisionChanged(c: Config, st: Sim, e: Event, t: real)
    requires Inv(c, st) && Revising(c, st) && e in st.events && Preparing(e) && e.at == st.now && LaunchedAt(c, st, e, t)
    requires e.action.job.id in st.intents && e.action.job.id in st.states && st.states[e.action.job.id].status == Running
    ensures st.intents[e.action.job.id].revision != e.action.job.revision <==> Overtaken(c, st, e.action.job, t)
  {
    hide TurnStart, PrefixAfter, BlockKeys, Linked, Gpu, OneToken, Foreseen, SerialsOk, PrefillMs, Turns;
    var job := e.action.job;
    assert IntentRevised(c, st, job.id);
    var intent := st.intents[job.id];
    var start, us := TurnStart(c, st.states[job.id].rows, job.id, job.index), Turns(c, job.id)[job.index].updates;
    var b :| Scheduled(st.events, st.now, start, b, job.id, intent.index, us, intent.revision);
    if intent.revision < |us| { PendingLater(st.events, st.now, start, b, job.id, intent.index, us, intent.revision, intent.revision); }
    hide Scheduled;
    assert job.revision <= intent.revision;
    if job.revision < intent.revision { assert t < start + us[job.revision].at; }
  }

  lemma PendingLater(events: set<Event>, now: real, start: real, b: nat, id: Id, index: nat, updates: seq<Update>, n: nat, j: nat)
    requires Scheduled(events, now, start, b, id, index, updates, n) && j < |updates| && forall e :: e in events ==> now <= e.at
    ensures n <= j ==> now <= start + updates[j].at
  {
    if n <= j { assert UpdateAt(start, b, id, index, updates, j) in events; }
  }

  lemma ObsoleteMeans(c: Config, st: Sim, e: Event, t: real)
    requires Inv(c, st) && Told(c, st) && e in st.events && Preparing(e) && e.at == st.now && LaunchedAt(c, st, e, t)
    ensures var job := e.action.job;
            && job.id in st.intents && job.id in st.states
            && (Obsolete(st, job) <==> st.states[job.id].status != Running || Overtaken(c, st, job, t))
  {
    hide Inv, Timely, LateTold, Revising, LaunchedAt, Overtaken;
    var job := e.action.job;
    IntentFound(c, st, e);
    NotCompleted(c, st, e);
    if st.states[job.id].status == Running { RevisionChanged(c, st, e, t); }
  }

  lemma NotCompleted(c: Config, st: Sim, e: Event)
    requires Inv(c, st) && e in st.events && Preparing(e)
    ensures e.action.job.id in st.states && st.states[e.action.job.id].status != Completed
  {
  }

  /** In every behaviour a preparation that finishes is logged with its blocks, and as obsolete exactly when its
      workflow no longer runs or an update of its turn came after the time at which the log shows it launched. */
  lemma ObsoleteExactly(c: Config, path: seq<Sim>, i: nat, e: Event) returns (t: real)
    requires Validated(c) && Behaviour(c, path) && i + 1 < |path| && e in path[i].events && Preparing(e) && e.at == path[i].now
    requires Handled(c, path[i], e.action) && path[i + 1] == Fire(c, path[i], e)
    ensures LaunchedAt(c, path[i], e, t) && e.action.job.id in path[i].intents && e.action.job.id in path[i].states
    ensures var st, job := path[i], e.action.job;
            var obsolete := st.states[job.id].status != Running || Overtaken(c, st, job, t);
            && path[i + 1].trace == st.trace + [(st.now, PreparationFinished(job.id, |job.computed|, obsolete))]
            && path[i + 1].stats.obsolete == st.stats.obsolete + if obsolete then |job.computed| else 0
  {
    hide Inv, Booked, Told, Validated, Behaviour, Evolves, LaunchedAt, Overtaken, SetTags;
    AlwaysDated(c, path, i);
    AlwaysTold(c, path, i);
    Reachable(c, path, i, i);
    t :| LaunchedAt(c, path[i], e, t);
    ObsoleteMeans(c, path[i], e, t);
    assert Obsolete(path[i], e.action.job) == Obsolete(Pop(path[i], e), e.action.job);
  }
}
