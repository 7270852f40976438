/** The results of a whole run, for every validated workload and every policy. */
module HeadroomResults {
  import opened HeadroomModel
  import opened HeadroomCache
  import opened HeadroomInvariant
  import opened HeadroomSteps
  import opened HeadroomJobs
  import opened HeadroomDispatch
  import opened HeadroomProgress
  import opened HeadroomRun
  import opened HeadroomHistory
  import opened HeadroomTallies

  /******* Obsolete preparations *******/

  ghost predicate Expired(log: Journal, id: Id) { exists i :: 0 <= i < |log| && log[i].1 == DeadlineHit(id) }

  predicate ObsoleteEntry(x: Entry) { x.PreparationFinished? && x.obsolete }

  function ObsoleteBlocks(log: Journal): nat {
    if log == [] then 0
    else ObsoleteBlocks(log[..|log| - 1]) + if ObsoleteEntry(log[|log| - 1].1) then log[|log| - 1].1.blocks else 0
  }

  /** The obsolete counter sums the log, timeouts are logged, and under future timing an obsolete
      preparation comes after one. */
  ghost predicate Blamed(c: Config, st: Sim) {
    && st.stats.obsolete == ObsoleteBlocks(st.trace)
    && (forall id :: id in st.states && st.states[id].status == TimedOut ==> Expired(st.trace, id))
    && (c.policy == FutureTiming ==>
          forall i :: 0 <= i < |st.trace| && ObsoleteEntry(st.trace[i].1) ==> Expired(st.trace[..i], st.trace[i].1.id))
  }

  /** The intent found for a preparation in flight, and what can have made its work obsolete. */
  ghost predicate IntentKnown(c: Config, st: Sim, job: Job)
    requires job.Preparation?
  {
    && job.id in st.intents && job.id in st.states && st.intents[job.id].index == job.index
    && (c.policy == FutureTiming ==>
          && st.intents[job.id].revision == job.revision
          && (Obsolete(st, job) <==> st.states[job.id].status == TimedOut))
  }

  lemma IntentFound(c: Config, st: Sim, e: Event)
    requires Inv(c, st) && e in st.events && Preparing(e)
    ensures IntentKnown(c, st, e.action.job)
  {
    if c.policy == FutureTiming { assert Settled(st, e.action.job); }
  }

  ghost predicate JustifiedEntry(c: Config, st: Sim, s: Sim, x: Entry) {
    && s.trace == st.trace + [(st.now, x)]
    && s.stats.obsolete == st.stats.obsolete + (if ObsoleteEntry(x) then x.blocks else 0)
    && (c.policy == FutureTiming && ObsoleteEntry(x) ==> Expired(st.trace, x.id))
  }

  /** The log grew by at most one entry; a new timeout or obsolete preparation is justified. */
  ghost predicate JustifiedStep(c: Config, st: Sim, s: Sim) {
    && ((s.trace == st.trace && s.stats.obsolete == st.stats.obsolete) || exists x :: JustifiedEntry(c, st, s, x))
    && (forall id :: id in s.states && s.states[id].status == TimedOut ==>
          (id in st.states && st.states[id].status == TimedOut) || Expired(s.trace, id))
  }

  lemma ExpiredStays(log: Journal, x: (real, Entry), id: Id)
    requires Expired(log, id)
    ensures Expired(log + [x], id)
  {
    var i :| 0 <= i < |log| && log[i].1 == DeadlineHit(id);
    assert (log + [x])[i].1 == DeadlineHit(id);
  }

  lemma ObsoleteSnoc(log: Journal, x: (real, Entry))
    ensures ObsoleteBlocks(log + [x]) == ObsoleteBlocks(log) + if ObsoleteEntry(x.1) then x.1.blocks else 0
  {
    Init(log, x);
  }

  lemma PrefixStays(log: Journal, x: (real, Entry), i: nat)
    requires i <= |log|
    ensures (log + [x])[..i] == log[..i] && (i < |log| ==> (log + [x])[i] == log[i]) && log[..|log|] == log
  {
  }

  lemma JustifiedKeeps(c: Config, st: Sim, s: Sim)
    requires Blamed(c, st) && JustifiedStep(c, st, s)
    ensures Blamed(c, s)
  {
    hide ObsoleteBlocks, Expired;
    if s.trace != st.trace {
      var x :| JustifiedEntry(c, st, s, x);
      ObsoleteSnoc(st.trace, (st.now, x));
      forall id | Expired(st.trace, id) ensures Expired(s.trace, id) { ExpiredStays(st.trace, (st.now, x), id); }
      if c.policy == FutureTiming { EntryKeeps(c, st, s, x); }
    }
  }

  lemma EntryKeeps(c: Config, st: Sim, s: Sim, x: Entry)
    requires Blamed(c, st) && JustifiedEntry(c, st, s, x) && c.policy == FutureTiming
    ensures forall i :: 0 <= i < |s.trace| && ObsoleteEntry(s.trace[i].1) ==> Expired(s.trace[..i], s.trace[i].1.id)
  {
    hide ObsoleteBlocks, Expired;
    forall i | 0 <= i < |s.trace| && ObsoleteEntry(s.trace[i].1) ensures Expired(s.trace[..i], s.trace[i].1.id) {
      PrefixStays(st.trace, (st.now, x), i);
    }
  }

  lemma StartTurnStates(c: Config, st: Sim, id: Id, index: nat)
    requires id in st.states && index < |Turns(c, id)| && SerialsOk(st.events, st.serial)
    ensures var s := StartTurn(c, st, id, index);
            s.trace == st.trace && s.states == st.states && s.now == st.now && s.stats == st.stats
  {
    if st.states[id].status == Running { StartTurnShape(c, st, id, index); }
  }

  lemma PreparationJustified(c: Config, st: Sim, e: Event)
    requires Inv(c, st) && Blamed(c, st) && e in st.events && e.action.Finished? && e.action.job.Preparation?
    requires Handled(c, st, e.action)
    ensures JustifiedStep(c, st, Fire(c, st, e))
  {
    hide Inv;
    IntentFound(c, st, e);
    var job := e.action.job;
    assert Obsolete(st, job) == Obsolete(Pop(st, e), job);
    assert JustifiedEntry(c, st, Fire(c, st, e), PreparationFinished(job.id, |job.computed|, Obsolete(st, job)));
  }

  lemma DemandJustified(c: Config, st: Sim, e: Event)
    requires SerialsOk(st.events, st.serial) && e.action.Finished? && e.action.job.Demand?
    requires Handled(c, st, e.action)
    ensures JustifiedStep(c, st, Fire(c, st, e))
  {
    hide SerialsOk, StartTurn;
    var s1, job := Record(Pop(st, e), e.action.job), e.action.job;
    PopSerials(st, e);
    if s1.states[job.id].status == Running && job.index + 1 < |Turns(c, job.id)| {
      StartTurnStates(c, s1, job.id, job.index + 1);
    }
    assert JustifiedEntry(c, st, Fire(c, st, e), RequestFinished(job.id, job.index));
  }

  lemma DeadlineJustified(c: Config, st: Sim, id: Id)
    requires id in st.states
    ensures JustifiedStep(c, st, OnDeadline(st, id))
  {
    if st.states[id].status == Running {
      var s := OnDeadline(st, id);
      assert s.trace[|st.trace|].1 == DeadlineHit(id);
      assert JustifiedEntry(c, st, s, DeadlineHit(id));
    }
  }

  lemma ReadyJustified(c: Config, st: Sim, id: Id, index: nat)
    requires id in st.states
    ensures JustifiedStep(c, st, OnReady(st, id, index))
  {
    if st.states[id].status == Running {
      assert JustifiedEntry(c, st, OnReady(st, id, index), RequestReady(id, index));
    }
  }

  lemma UpdateJustified(c: Config, st: Sim, id: Id, index: nat, u: Update)
    requires id in st.states
    ensures JustifiedStep(c, st, OnUpdate(c, st, id, index, u))
  {
    hide BlockKeys, Begin;
    var s := OnUpdate(c, st, id, index, u);
    if s.trace != st.trace {
      assert JustifiedEntry(c, st, s, if u.Cancel? then CancelSeen(id) else RevisionSeen(id, s.intents[id].revision));
    }
  }

  lemma OtherJustified(c: Config, st: Sim, a: Action)
    requires SerialsOk(st.events, st.serial) && !a.Finished? && Handled(c, st, a)
    ensures JustifiedStep(c, st, Handle(c, st, a))
  {
    hide SerialsOk, StartTurn, OnDeadline, OnReady, OnUpdate, Expired, ObsoleteEntry;
    match a {
      case Arrival(id) => StartTurnStates(c, st, id, 0);
      case Deadline(id) => DeadlineJustified(c, st, id);
      case Ready(id, index) => ReadyJustified(c, st, id, index);
      case Updated(id, index, u) => UpdateJustified(c, st, id, index, u);
      case Wake =>
    }
  }

  lemma PopJustified(c: Config, st: Sim, e: Event, s: Sim)
    requires JustifiedStep(c, Pop(st, e), s)
    ensures JustifiedStep(c, st, s)
  {
    hide Expired, ObsoleteEntry;
    if s.trace != st.trace {
      var x :| JustifiedEntry(c, Pop(st, e), s, x);
      assert JustifiedEntry(c, st, s, x);
    }
  }

  lemma FireJustified(c: Config, st: Sim, e: Event)
    requires Inv(c, st) && Blamed(c, st) && e in st.events && Handled(c, st, e.action)
    ensures JustifiedStep(c, st, Fire(c, st, e))
  {
    hide Inv, Blamed, SerialsOk, Handle, JustifiedStep;
    InvSerials(c, st);
    if !e.action.Finished? {
      PopSerials(st, e);
      OtherJustified(c, Pop(st, e), e.action);
      PopJustified(c, st, e, Fire(c, st, e));
    }
    else if e.action.job.Demand? { DemandJustified(c, st, e); }
    else { PreparationJustified(c, st, e); }
  }

  /******* Nothing recorded is taken back *******/

  /** Time moves forward, the log and the turn records only grow, and a workflow that has
      ended keeps its status and completion time. */
  ghost predicate Evolves(st: Sim, s: Sim) {
    && st.now <= s.now && st.trace <= s.trace && st.stats.computed <= s.stats.computed
    && s.states.Keys == st.states.Keys
    && forall id :: id in st.states ==>
         && st.states[id].rows <= s.states[id].rows
         && (st.states[id].status != Running ==>
               s.states[id].status == st.states[id].status && s.states[id].completion == st.states[id].completion)
  }

  lemma EvolvesReflexive(st: Sim)
    ensures Evolves(st, st)
  {
  }

  lemma EvolvesTransitive(a: Sim, b: Sim, d: Sim)
    requires Evolves(a, b) && Evolves(b, d)
    ensures Evolves(a, d)
  {
  }

  ghost predicate SameInstant(st: Sim, s: Sim) {
    Evolves(st, s) && s.now == st.now && s.stats.cacheBlockMs == st.stats.cacheBlockMs
  }

  lemma SameInstantReflexive(st: Sim)
    ensures SameInstant(st, st)
  {
  }

  lemma SameInstantTransitive(a: Sim, b: Sim, d: Sim)
    requires SameInstant(a, b) && SameInstant(b, d)
    ensures SameInstant(a, d)
  {
  }

  lemma DemandEvolves(c: Config, st: Sim, e: Event)
    requires SerialsOk(st.events, st.serial) && e.action.Finished? && e.action.job.Demand?
    requires Handled(c, st, e.action)
    ensures SameInstant(st, Fire(c, st, e))
  {
    hide SerialsOk, StartTurn, SetTags, Flow, Evolves;
    var s1, s, job := Record(Pop(st, e), e.action.job), Fire(c, st, e), e.action.job;
    PopSerials(st, e);
    StartTurnNeutralIf(c, s1, job);
    RowsEvolve(st, s1, job.id);
    StatusEvolves(s1, s, job.id);
    EvolvesTransitive(st, s1, s);
  }

  lemma RowsEvolve(st: Sim, s: Sim, id: Id)
    requires st.now == s.now && st.trace <= s.trace && st.stats.computed == s.stats.computed && id in st.states
    requires id in s.states && st.states[id].rows <= s.states[id].rows
    requires s.states == st.states[id := st.states[id].(rows := s.states[id].rows)]
    ensures Evolves(st, s)
  {
  }

  lemma StartTurnNeutralIf(c: Config, st: Sim, job: Job)
    requires SerialsOk(st.events, st.serial) && job.Demand? && job.id in st.states
    ensures job.index + 1 < |Turns(c, job.id)| ==>
              var s := StartTurn(c, st, job.id, job.index + 1);
              s.trace == st.trace && s.stats == st.stats && s.states == st.states && s.now == st.now
  {
    if job.index + 1 < |Turns(c, job.id)| {
      StartTurnNeutral(c, st, job.id, job.index + 1);
      StartTurnStates(c, st, job.id, job.index + 1);
    }
  }

  lemma DeadlineEvolves(st: Sim, id: Id)
    requires id in st.states
    ensures SameInstant(st, OnDeadline(st, id))
  {
    hide Evolves;
    StatusEvolves(st, OnDeadline(st, id), id);
  }

  lemma ReadyEvolves(st: Sim, id: Id, index: nat)
    requires id in st.states
    ensures SameInstant(st, OnReady(st, id, index))
  {
    hide Evolves;
    StatusEvolves(st, OnReady(st, id, index), id);
  }

  lemma UpdateEvolves(c: Config, st: Sim, id: Id, index: nat, u: Update)
    requires id in st.states
    ensures SameInstant(st, OnUpdate(c, st, id, index, u))
  {
    hide Evolves, BlockKeys, Begin;
    StatusEvolves(st, OnUpdate(c, st, id, index, u), id);
  }

  lemma PreparationEvolves(st: Sim, job: Job)
    requires job.Preparation? && job.id in st.states && job.id in st.intents
    requires forall k :: k in job.computed ==> k in st.tags
    ensures SameInstant(st, OnPreparation(st, job))
  {
    hide Evolves, SetTags, Obsolete;
    StatusEvolves(st, OnPreparation(st, job), job.id);
  }

  lemma OtherEvolves(c: Config, st: Sim, a: Action)
    requires !a.Arrival? && !(a.Finished? && a.job.Demand?) && Handled(c, st, a)
    ensures SameInstant(st, Handle(c, st, a))
  {
    hide SameInstant, OnDeadline, OnReady, OnUpdate, OnPreparation;
    match a {
      case Deadline(id) => DeadlineEvolves(st, id);
      case Updated(id, index, u) => UpdateEvolves(c, st, id, index, u);
      case Ready(id, index) => ReadyEvolves(st, id, index);
      case Finished(job) => PreparationEvolves(st, job);
      case Wake => SameInstantReflexive(st);
    }
  }

  /** At most one running workflow's status changed. */
  lemma StatusEvolves(st: Sim, s: Sim, id: Id)
    requires st.now == s.now && st.trace <= s.trace && st.stats.computed == s.stats.computed
    requires s.states == st.states
          || (id in st.states && st.states[id].status == Running && s.states.Keys == st.states.Keys
              && (forall x :: x in st.states && x != id ==> s.states[x] == st.states[x])
              && s.states[id].rows == st.states[id].rows)
    ensures Evolves(st, s)
  {
  }

  lemma FireEvolves(c: Config, st: Sim, e: Event)
    requires SerialsOk(st.events, st.serial) && Handled(c, st, e.action)
    ensures SameInstant(st, Fire(c, st, e))
  {
    hide SerialsOk, StartTurn;
    if e.action.Finished? && e.action.job.Demand? {
      DemandEvolves(c, st, e);
    } else if e.action.Arrival? {
      PopSerials(st, e);
      StartTurnNeutral(c, Pop(st, e), e.action.id, 0);
      StartTurnStates(c, Pop(st, e), e.action.id, 0);
    } else {
      OtherEvolves(c, Pop(st, e), e.action);
    }
  }

  /******* The log's readings hold through a whole run *******/

  ghost predicate Booked(c: Config, st: Sim) {
    Balanced(c, st) && InOrder(c, st) && Blamed(c, st) && Tallied(st) && Occupied(c, st)
  }

  lemma FireBooked(c: Config, st: Sim, e: Event)
    requires Validated(c) && Inv(c, st) && Booked(c, st) && e in st.events && Handled(c, st, e.action)
    ensures Booked(c, Fire(c, st, e)) && SameInstant(st, Fire(c, st, e))
  {
    hide Inv, Balanced, InOrder, Blamed, Tallied, SerialsOk, Fire, JustifiedStep, NeutralStep, QuietStep, Evolves, Validated;
    InvSerials(c, st);
    var s := Fire(c, st, e);
    FireNeutral(c, st, e);
    NeutralBalance(c, st, s);
    FireJustified(c, st, e);
    JustifiedKeeps(c, st, s);
    FireTallies(c, st, e);
    FireEvolves(c, st, e);
    if e.action.Finished? && e.action.job.Demand? {
      DemandOrder(c, st, s, e);
    } else {
      FireQuiet(c, st, e);
      QuietOrder(c, st, s);
    }
  }

  /** Steps of `dispatch` that log nothing. */
  lemma SilentBooked(c: Config, st: Sim, s: Sim)
    requires Validated(c) && Booked(c, st)
    requires s.trace == st.trace && s.stats == st.stats && s.states == st.states && s.now == st.now
    requires forall e: Event :: e.action.Finished? ==> (e in s.events <==> e in st.events)
    ensures Booked(c, s) && SameInstant(st, s)
  {
    hide Balanced, InOrder, Blamed, Tallied;
    NeutralBalance(c, st, s);
    QuietOrder(c, st, s);
    JustifiedKeeps(c, st, s);
    UndisturbedTallies(st, s);
  }

  lemma DemandComputed(c: Config, st: Sim, q: Waiting)
    requires Validated(c) && Dispatchable(c, st, q)
    ensures c.prefill > 0.0
    ensures var s := LaunchDemand(c, st, q); s.stats.computed == st.stats.computed && s.now == st.now && s.stats.cacheBlockMs == st.stats.cacheBlockMs
  {
    var turn := Turns(c, q.id)[q.index];
    HitsCount(st, BlockKeys(turn.prompt)[..PromptHits(st, turn)]);
  }

  lemma LaunchDemandBooked(c: Config, st: Sim, q: Waiting)
    requires Validated(c) && Booked(c, st) && Free(st) && Dispatchable(c, st, q) && st.states.Keys == Ids(c)
    ensures Booked(c, LaunchDemand(c, st, q)) && SameInstant(st, LaunchDemand(c, st, q))
  {
    hide Balanced, InOrder, Blamed, Tallied, InFlight, LaunchDemand, Validated, Free, DemandCost, PromptHits;
    var turn, s := Turns(c, q.id)[q.index], LaunchDemand(c, st, q);
    var n := PromptHits(st, turn);
    DemandComputed(c, st, q);
    DemandLog(c, st, q);
    LaunchDemandBalance(c, st, q);
    LaunchDemandTallies(c, st, q);
    LaunchDemandOrder(c, st, s, q, DemandCost(c, turn, n), n);
    assert JustifiedEntry(c, st, s, RequestStarted(q.id, q.index, DemandCost(c, turn, n), n));
    JustifiedKeeps(c, st, s);
  }

  lemma LaunchPreparationBooked(c: Config, st: Sim, id: Id, intent: Intent)
    requires Validated(c) && Booked(c, st) && c.policy != Off && Free(st)
    requires |intent.keys| <= c.cacheBlocks && 0 < PreparationCount(c, st, intent)
    ensures var s := LaunchPreparation(c, st, id, intent); Booked(c, s) && SameInstant(st, s)
  {
    hide Balanced, InOrder, Blamed, Tallied, Free, LaunchPreparation, Validated;
    var s, n := LaunchPreparation(c, st, id, intent), PreparationCount(c, st, intent);
    PreparationLog(c, st, id, intent);
    LaunchPreparationBalance(c, st, s, id, intent, n);
    LaunchPreparationTallies(c, st, id, intent);
    LaunchPreparationOrder(c, st, s, id, intent, n);
    assert JustifiedEntry(c, st, s, PreparationStarted(id, intent.revision, n));
    JustifiedKeeps(c, st, s);
  }

  lemma {:induction false} DispatchPreparationBooked(c: Config, st: Sim, i: nat)
    requires Validated(c) && Booked(c, st) && Free(st)
    requires i <= |st.intentOrder| && IntentsFit(c, st) && st.stats.computed < c.budget && c.policy != Off
    ensures var s := DispatchPreparation(c, st, i); Booked(c, s) && SameInstant(st, s)
    decreases |st.intentOrder| - i
  {
    hide Booked, SameInstant;
    if i == |st.intentOrder| {
      SilentBooked(c, st, st);
    } else {
      var id := st.intentOrder[i];
      if Idle(c, st, id) {
        DispatchPreparationBooked(c, st, i + 1);
      } else if TooEarly(c, st, st.intents[id]) {
        var s1 := ScheduleWakeup(c, st, st.intents[id]);
        SilentBooked(c, st, s1);
        DispatchPreparationBooked(c, s1, i + 1);
        SameInstantTransitive(st, s1, DispatchPreparation(c, s1, i + 1));
      } else {
        LaunchPreparationBooked(c, st, id, st.intents[id]);
      }
    }
  }

  lemma InvIds(c: Config, st: Sim)
    requires Inv(c, st)
    ensures st.states.Keys == Ids(c)
  {
  }

  lemma {:induction false} DispatchQueueBooked(c: Config, st: Sim)
    requires Validated(c) && Inv(c, st) && Free(st) && DispatchReady(c, st) && Booked(c, st)
    ensures var s := DispatchQueue(c, st); Booked(c, s) && SameInstant(st, s)
    decreases |st.queue|
  {
    hide Inv, Booked, SameInstant, Validated;
    if st.queue == [] {
      if c.policy != Off && st.stats.computed < c.budget {
        DispatchPreparationBooked(c, st, 0);
      } else {
        SilentBooked(c, st, st);
      }
    } else {
      var q, s1 := st.queue[0], st.(queue := st.queue[1..]);
      QueueDispatchable(c, st, s1);
      SilentBooked(c, st, s1);
      if st.states[q.id].status != Running {
        InvDispatchReady(c, s1);
        DispatchQueueBooked(c, s1);
        SameInstantTransitive(st, s1, DispatchQueue(c, s1));
      } else {
        InvIds(c, s1);
        LaunchDemandBooked(c, s1, q);
        SameInstantTransitive(st, s1, LaunchDemand(c, s1, q));
      }
    }
  }

  lemma DispatchBooked(c: Config, st: Sim)
    requires Validated(c) && Inv(c, st) && DispatchReady(c, st) && Booked(c, st)
    ensures Booked(c, Dispatch(c, st)) && SameInstant(st, Dispatch(c, st))
  {
    hide Inv, Booked, Validated, Evolves;
    FreeUnlessBusy(c, st);
    if st.busy { SilentBooked(c, st, st); } else { DispatchQueueBooked(c, st); }
  }

  lemma {:induction false} DrainBooked(c: Config, st: Sim)
    requires Validated(c) && Inv(c, st) && Booked(c, st)
    ensures Booked(c, Drain(c, st)) && SameInstant(st, Drain(c, st))
    decreases Work(c, st), |st.events|
  {
    hide Inv, Booked, SameInstant, Work, Validated;
    if Quiet(st) {
      SilentBooked(c, st, st);
    } else {
      var e := First(st.events);
      FireKeeps(c, st, e);
      InvSerials(c, st);
      FireCharge(c, st, e);
      PopSmaller(st.events, e);
      FireBooked(c, st, e);
      DrainBooked(c, Fire(c, st, e));
      SameInstantTransitive(st, Fire(c, st, e), Drain(c, Fire(c, st, e)));
    }
  }

  lemma AdvanceBooked(c: Config, st: Sim, at: real)
    requires Inv(c, st) && Booked(c, st) && st.now <= at
    ensures Booked(c, Advance(st, at)) && Evolves(st, Advance(st, at))
  {
    hide Balanced, InOrder, Blamed, Tallied, Occupied, Linked, SerialsOk, Accounted, OneToken, Clocked, OwnIntent, Foreseen;
    AdvanceOccupied(c, st, at);
    AdvanceReadings(c, st, at);
  }

  lemma AdvanceReadings(c: Config, st: Sim, at: real)
    requires Balanced(c, st) && InOrder(c, st) && Blamed(c, st) && Tallied(st)
    ensures var s := Advance(st, at); Balanced(c, s) && InOrder(c, s) && Blamed(c, s) && Tallied(s)
  {
    hide Settlements, Started, Ended, Upto, ObsoleteBlocks, Expired, Reused, Prompted, Prepared, Decoded, PrefillMs, JobsStarted, SumStarted;
    assert forall id :: InFlight(Advance(st, at), id) <==> InFlight(st, id);
  }

  lemma InstantBooked(c: Config, st: Sim)
    requires Validated(c) && Inv(c, st) && st.events != {} && Booked(c, st)
    ensures Booked(c, Instant(c, st)) && Evolves(st, Instant(c, st))
    ensures Instant(c, st).now == First(st.events).at
  {
    hide Inv, Booked, Evolves, Quiet, Validated;
    var at := First(st.events).at;
    var s1 := Advance(st, at);
    FirstSoonest(st.events);
    InvNow(c, st);
    AdvanceKeeps(c, st, at);
    AdvanceBooked(c, st, at);
    DrainKeeps(c, s1);
    DrainBooked(c, s1);
    var s2 := Drain(c, s1);
    DispatchKeeps(c, s2);
    DispatchBooked(c, s2);
    EvolvesTransitive(st, s1, s2);
    EvolvesTransitive(st, s2, Instant(c, st));
  }

  /******* Every reachable state *******/

  /** One micro-step of the event loop: handle the first event of this instant, choose work
      once the instant is quiet, or move the clock to the next event. */
  ghost predicate Step(c: Config, st: Sim, s: Sim) {
    || (st.events != {} && First(st.events).at == st.now && Handled(c, st, First(st.events).action)
        && s == Fire(c, st, First(st.events)))
    || (Quiet(st) && DispatchReady(c, st) && s == Dispatch(c, st))
    || (st.events != {} && s == Advance(st, First(st.events).at))
  }

  ghost predicate Behaviour(c: Config, path: seq<Sim>) {
    && path != [] && path[0] == Start(c)
    && forall i :: 0 <= i < |path| - 1 ==> Step(c, path[i], path[i + 1])
  }

  lemma StepKeeps(c: Config, st: Sim, s: Sim)
    requires Validated(c) && Inv(c, st) && Booked(c, st) && Step(c, st, s)
    ensures Inv(c, s) && Booked(c, s) && Evolves(st, s)
  {
    hide Inv, Booked, Evolves, Validated;
    if Quiet(st) && DispatchReady(c, st) && s == Dispatch(c, st) {
      DispatchKeeps(c, st);
      DispatchBooked(c, st);
    } else if s == Advance(st, First(st.events).at) {
      FirstSoonest(st.events);
      InvNow(c, st);
      AdvanceKeeps(c, st, First(st.events).at);
      AdvanceBooked(c, st, First(st.events).at);
    } else {
      FireKeeps(c, st, First(st.events));
      FireBooked(c, st, First(st.events));
    }
  }

  lemma {:induction false} EmptyReadings(c: Config, n: nat)
    requires n <= |c.workflows|
    ensures SumStarted(c, [], n) == 0
  {
    if n > 0 { EmptyReadings(c, n - 1); }
  }

  lemma StartBooked(c: Config)
    requires Validated(c)
    ensures Booked(c, Start(c))
  {
    hide Start, Admission, Validated, Flow;
    StartShape(c);
    EmptyReadings(c, |c.workflows|);
    var st := Start(c);
    assert st.trace == [];
    forall e | e in st.events ensures !Preparing(e) { AdmissionKind(c, e); }
    forall id ensures !InFlight(st, id) {
      if InFlight(st, id) {
        var e :| e in st.events && e.action.Finished? && e.action.job.Demand? && e.action.job.id == id;
        AdmissionKind(c, e);
      }
    }
  }

  /** In every reachable state of every validated workload under every policy the invariant
      and the log's readings hold, and later states never take back what earlier ones record. */
  lemma {:induction false} Reachable(c: Config, path: seq<Sim>, i: nat, j: nat)
    requires Validated(c) && Behaviour(c, path) && i <= j < |path|
    ensures Inv(c, path[j]) && Booked(c, path[j]) && Evolves(path[i], path[j])
  {
    hide Inv, Booked, Validated, Step;
    if j == 0 {
      StartInv(c);
      StartBooked(c);
      EvolvesReflexive(path[0]);
    } else if i == j {
      Reachable(c, path, j - 1, j - 1);
      StepKeeps(c, path[j - 1], path[j]);
      EvolvesReflexive(path[j]);
    } else {
      Reachable(c, path, i, j - 1);
      StepKeeps(c, path[j - 1], path[j]);
      EvolvesTransitive(path[i], path[j - 1], path[j]);
    }
  }

  /** When a preparation finishes, the intent found for its workflow is the one that launched
      it; under future timing its revision is the launched one too, so only a deadline can
      have made the work obsolete. */
  lemma FinishedPreparation(c: Config, path: seq<Sim>, i: nat, e: Event)
    requires Validated(c) && Behaviour(c, path) && i < |path| && e in path[i].events && Preparing(e)
    ensures IntentKnown(c, path[i], e.action.job)
  {
    hide Inv, Booked, Evolves, Step, Validated, IntentKnown;
    Reachable(c, path, i, i);
    IntentFound(c, path[i], e);
  }

  /******* The result of a run *******/

  lemma {:induction false} RunEnds(c: Config, st: Sim)
    requires Validated(c) && Inv(c, st) && Booked(c, st) && st.now <= ObservationEnd(c)
    ensures var s := RunFrom(c, st);
            && Inv(c, s) && Booked(c, s) && Evolves(st, s) && s.now == ObservationEnd(c)
            && forall e :: e in s.events ==> s.now < e.at
    decreases Work(c, st), |WakePoints(c, st)|
  {
    hide Inv, Booked, Evolves, Work, WakePoints, ObservationEnd;
    var end := ObservationEnd(c);
    if st.events != {} { FirstSoonest(st.events); }
    if st.events == {} || end < First(st.events).at {
      AdvanceKeeps(c, st, end);
      AdvanceBooked(c, st, end);
    } else {
      InstantKeeps(c, st);
      InstantProgress(c, st);
      InstantBooked(c, st);
      RunEnds(c, Instant(c, st));
      EvolvesTransitive(st, Instant(c, st), RunFrom(c, st));
    }
  }

  /** No workflow is left running: each deadline falls inside the observed time. */
  lemma {:induction false} LatestBounds(flows: seq<Workflow>, f: Workflow)
    requires f in flows
    ensures f.arrival <= LatestArrival(flows)
  {
    if |flows| > 1 && f != flows[|flows| - 1] {
      var i :| 0 <= i < |flows| && flows[i] == f;
      assert f == flows[..|flows| - 1][i];
      LatestBounds(flows[..|flows| - 1], f);
    }
  }

  function TotalTurns(flows: seq<Workflow>): nat {
    if flows == [] then 0 else TotalTurns(flows[..|flows| - 1]) + |flows[|flows| - 1].turns|
  }

  lemma StartedBound(c: Config, st: Sim, id: Id)
    requires Inv(c, st) && InOrder(c, st) && id in st.states
    ensures |Started(st.trace, id)| <= |Turns(c, id)|
  {
    if InFlight(st, id) {
      var e :| e in st.events && e.action.Finished? && e.action.job.Demand? && e.action.job.id == id;
      TokenGone(c, st, e, id);
    }
  }

  lemma {:induction false} SumBound(c: Config, st: Sim, n: nat)
    requires Validated(c) && Inv(c, st) && InOrder(c, st) && n <= |c.workflows|
    ensures SumStarted(c, st.trace, n) <= TotalTurns(c.workflows[..n])
  {
    hide Inv, InOrder, Validated;
    if n > 0 {
      SumBound(c, st, n - 1);
      assert c.workflows[..n][..n - 1] == c.workflows[..n - 1];
      WorkflowStarts(c, st, n - 1);
    }
  }

  lemma WorkflowStarts(c: Config, st: Sim, i: nat)
    requires Validated(c) && Inv(c, st) && InOrder(c, st) && i < |c.workflows|
    ensures |Started(st.trace, c.workflows[i].id)| <= |c.workflows[i].turns|
  {
    FlowAt(c.workflows, i);
    InvIds(c, st);
    StartedBound(c, st, c.workflows[i].id);
  }

  lemma StartsBounded(c: Config, st: Sim)
    requires Validated(c) && Inv(c, st) && Booked(c, st)
    ensures JobsStarted(st.trace) <= TotalTurns(c.workflows) + c.budget
  {
    hide Validated, Linked, SerialsOk, OneJob, CacheOk, OneToken, Clocked, OwnIntent, Foreseen, Blamed, Tallied, Occupied,
         JobsStarted, SumStarted, Prepared, TotalTurns, Started, Ended, Fresh;
    SumBound(c, st, |c.workflows|);
    assert c.workflows[..|c.workflows|] == c.workflows;
    assert st.stats.computed <= c.budget;
  }

  lemma NoneRunning(c: Config, s: Sim, id: Id)
    requires Validated(c) && Inv(c, s) && s.now == ObservationEnd(c) && id in s.states
    requires forall e :: e in s.events ==> s.now < e.at
    ensures s.states[id].status != Running
  {
    if s.states[id].status == Running {
      var e :| e in s.events && e.action == Deadline(id);
      FlowValid(c, c.workflows, id);
      LatestBounds(c.workflows, Flow(c.workflows, id));
    }
  }

  ghost predicate Counters(c: Config, s: Sim) {
    && |s.lru| <= s.stats.peak <= c.cacheBlocks
    && 0 <= s.stats.useful <= s.stats.computed <= c.budget
    && s.stats.demandMs == Decoded(c, s.trace)
         + PrefillMs(c, Prompted(c, s.trace) - s.stats.useful - s.stats.ordinary)
    && s.stats.useful + s.stats.ordinary == Reused(s.trace) && s.stats.computed == Prepared(s.trace)
    && s.stats.speculativeMs == PrefillMs(c, s.stats.computed) && (c.policy == Off ==> s.stats.computed == 0)
    && s.stats.obsolete == ObsoleteBlocks(s.trace) <= s.stats.computed
    && Tallied(s) && s.stats.late <= s.stats.computed
    && Occupied(c, s)
    && JobsStarted(s.trace) <= TotalTurns(c.workflows) + c.budget
  }

  ghost predicate Outcome(c: Config, s: Sim, id: Id)
    requires id in s.states
  {
    var p := s.states[id];
    && p.status != Running
    && (p.status == Completed <==> p.completion.Some?)
    && (p.completion.Some? ==> p.completion.value <= c.horizon)
    && Ended(s.trace, id) == Upto(|p.rows|) && |p.rows| <= |Turns(c, id)|
    && forall j :: 0 <= j < |p.rows| ==> p.rows[j].turn == j
  }

  lemma {:induction false} ObsoleteSettled(log: Journal)
    ensures ObsoleteBlocks(log) <= Settlements(log)
  {
    if log != [] { ObsoleteSettled(log[..|log| - 1]); }
  }

  lemma CountersHold(c: Config, s: Sim)
    requires Validated(c) && Inv(c, s) && Booked(c, s)
    ensures Counters(c, s)
  {
    hide Validated, Linked, SerialsOk, OneJob, OneToken, Clocked, OwnIntent, Foreseen, InOrder, Tallied, Occupied,
         CacheShape, Fresh, PrefillMs, Settlements, ObsoleteBlocks, JobsStarted, TotalTurns, Prompted, Decoded, Prepared, Reused;
    StartsBounded(c, s);
    SettlementsBounded(s);
    ObsoleteSettled(s.trace);
    LateSettled(s);
  }

  lemma LateSettled(s: Sim)
    requires Tallied(s)
    ensures s.stats.late <= Settlements(s.trace)
  {
  }

  /** The counters of every reachable state: capacity, budget, charged time, the balance of
      started, running and finished preparations, resident time and the number of jobs. */
  lemma AlwaysCounted(c: Config, path: seq<Sim>, i: nat)
    requires Validated(c) && Behaviour(c, path) && i < |path|
    ensures Counters(c, path[i])
  {
    hide Inv, Booked, Evolves, Step, Validated, Counters;
    Reachable(c, path, i, i);
    CountersHold(c, path[i]);
  }

  /** At most one job per turn and one per budgeted block ever starts. */
  lemma JobsBounded(c: Config, path: seq<Sim>, i: nat)
    requires Validated(c) && Behaviour(c, path) && i < |path|
    ensures JobsStarted(path[i].trace) <= TotalTurns(c.workflows) + c.budget
  {
    hide Inv, Booked, Evolves, Step, Validated, JobsStarted;
    Reachable(c, path, i, i);
    StartsBounded(c, path[i]);
  }

  lemma OutcomeHolds(c: Config, s: Sim, id: Id)
    requires Validated(c) && Inv(c, s) && Booked(c, s) && s.now == ObservationEnd(c) && id in s.states
    requires forall e :: e in s.events ==> s.now < e.at
    ensures Outcome(c, s, id)
  {
    NoneRunning(c, s, id);
  }

  /** The report of a run, for every validated workload and policy: the counters balance, every
      workflow has ended in time, and under future timing obsolete work follows a deadline. */
  lemma RunReport(c: Config)
    requires Validated(c)
    ensures Inv(c, Start(c))
    ensures var s := RunFrom(c, Start(c));
            && s.now == ObservationEnd(c) && Counters(c, s) && s.states.Keys == Ids(c)
            && (forall id :: id in s.states ==> Outcome(c, s, id))
            && (c.policy == FutureTiming ==>
                  forall i :: 0 <= i < |s.trace| && ObsoleteEntry(s.trace[i].1) ==> Expired(s.trace[..i], s.trace[i].1.id))
  {
    hide RunFrom, Start, Inv, Counters, Outcome, Balanced, InOrder, ObservationEnd;
    StartInv(c);
    StartBooked(c);
    StartNow(c);
    RunEnds(c, Start(c));
    var s := RunFrom(c, Start(c));
    InvIds(c, s);
    CountersHold(c, s);
    forall id | id in s.states ensures Outcome(c, s, id) { OutcomeHolds(c, s, id); }
  }

  lemma StartNow(c: Config)
    requires Validated(c)
    ensures Start(c).now <= ObservationEnd(c)
  {
    StartShape(c);
    LatestBounds(c.workflows, c.workflows[0]);
    assert ValidWorkflow(c, c.workflows[0]);
  }
}
