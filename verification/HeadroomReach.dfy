/** What every behaviour shows from its first state to its last: when turns start, become ready and
    end, which updates have been applied, how many blocks came late, how long entries were
    resident and how full the cache ever was. */
module HeadroomReach {
  import opened Numbers
  import opened HeadroomModel
  import opened HeadroomCache
  import opened HeadroomInvariant
  import opened HeadroomSteps
  import opened HeadroomJobs
  import opened HeadroomDispatch
  import opened HeadroomProgress
  import opened HeadroomRun
  import opened HeadroomHistory
  import opened HeadroomResults
  import opened HeadroomChoice
  import opened HeadroomStatus
  import opened HeadroomTimes
  import opened HeadroomRevisions

  ghost predicate Told(c: Config, st: Sim) { Timely(c, st) && LateTold(c, st) && Revising(c, st) && StatusTold(c, st) }

  lemma StartTold(c: Config)
    requires Validated(c)
    ensures Told(c, Start(c))
  {
    hide Start, Admission, Validated, Flow, Turns;
    StartShape(c);
    var st := Start(c);
    assert st.trace == [] && st.intents == map[] && st.queue == [];
    forall e | e in st.events ensures EventTimely(c, st, e) { AdmittedTimely(c, st, e); }
    forall id | id in st.states ensures ProgressTimely(c, st.trace, st.states[id], id) { }
  }

  lemma AdmittedTimely(c: Config, st: Sim, e: Event)
    requires Validated(c) && Admission(c, |c.workflows|, e)
    ensures EventTimely(c, st, e)
  {
    FlowAt(c.workflows, Slot(e));
  }

  lemma BookedOrder(c: Config, st: Sim)
    requires Booked(c, st)
    ensures InOrder(c, st)
  {
  }

  lemma StepTold(c: Config, st: Sim, s: Sim)
    requires Validated(c) && Inv(c, st) && Booked(c, st) && Told(c, st) && Step(c, st, s)
    ensures Told(c, s)
  {
    hide Inv, Booked, Timely, LateTold, Revising, StatusTold, Validated, InOrder;
    if Quiet(st) && DispatchReady(c, st) && s == Dispatch(c, st) {
      DispatchTimely(c, st);
      DispatchLate(c, st);
      DispatchRevising(c, st);
      DispatchStatus(c, st);
    } else if s == Advance(st, First(st.events).at) {
      InvNow(c, st);
      AdvanceTold(c, st, First(st.events).at);
    } else {
      var e := First(st.events);
      BookedOrder(c, st);
      FireTimely(c, st, e);
      FireLate(c, st, e);
      FireRevising(c, st, e);
      FireStatus(c, st, e);
    }
  }

  lemma AdvanceTold(c: Config, st: Sim, at: real)
    requires Told(c, st) && st.now <= at
    ensures Told(c, Advance(st, at))
  {
    hide Timely, Revising, LateBlocks, StatusTold;
    AdvanceTimely(c, st, at);
    AdvanceRevising(c, st, at);
    NoneStopsTold(c, st, Advance(st, at));
  }

  lemma {:induction false} AlwaysTold(c: Config, path: seq<Sim>, i: nat)
    requires Validated(c) && Behaviour(c, path) && i < |path|
    ensures Told(c, path[i])
  {
    hide Inv, Booked, Told, Validated, Step, Evolves;
    if i == 0 {
      StartTold(c);
    } else {
      AlwaysTold(c, path, i - 1);
      Reachable(c, path, i - 1, i - 1);
      StepTold(c, path[i - 1], path[i]);
    }
  }

  /******* What the rows say *******/

  /** In every state of every behaviour a recorded turn became ready its wait after the turn before it was
      completed, or after the arrival; the log shows its request started no earlier and completed after
      exactly the cost of the blocks it did not find cached and its decoding. */
  lemma TurnsOnTime(c: Config, path: seq<Sim>, i: nat, id: Id, j: nat)
    requires Validated(c) && Behaviour(c, path) && i < |path| && id in path[i].states && j < |path[i].states[id].rows|
    ensures var rows := path[i].states[id].rows;
            && j < |Turns(c, id)| && rows[j].turn == j
            && rows[j].ready == (if j == 0 then Flow(c.workflows, id).arrival else rows[j - 1].completed) + Turns(c, id)[j].wait
            && Served(c, path[i].trace, id, j, rows[j].ready, rows[j].cached, rows[j].completed)
  {
    hide EventTimely, WaitingTimely, IntentTimely, LateTold, Revising, StatusTold, Served, Behaviour, Validated;
    AlwaysTold(c, path, i);
    assert ProgressTimely(c, path[i].trace, path[i].states[id], id);
    assert RowTimely(c, path[i].trace, path[i].states[id].rows, id, j);
  }

  /** A completed workflow has all its turns, and its completion time runs from its arrival to the end of the last. */
  lemma CompletedOnTime(c: Config, path: seq<Sim>, i: nat, id: Id)
    requires Validated(c) && Behaviour(c, path) && i < |path| && id in path[i].states && path[i].states[id].completion.Some?
    ensures var p := path[i].states[id];
            && |p.rows| == |Turns(c, id)| > 0
            && p.completion.value == p.rows[|p.rows| - 1].completed - Flow(c.workflows, id).arrival
  {
    hide EventTimely, WaitingTimely, IntentTimely, LateTold, Revising, StatusTold, RowTimely, Behaviour, Validated;
    AlwaysTold(c, path, i);
    assert ProgressTimely(c, path[i].trace, path[i].states[id], id);
  }

  /** Whenever an instant is over, exactly the updates whose time has come have been applied to a running
      workflow's intent: they are its revision number, and the latest of them says which blocks it asks for. */
  lemma RevisionsApplied(c: Config, path: seq<Sim>, i: nat, id: Id)
    requires Validated(c) && Behaviour(c, path) && i < |path| && Quiet(path[i])
    requires id in path[i].intents && id in path[i].states && path[i].states[id].status == Running
    ensures var st, intent := path[i], path[i].intents[id];
            && intent.index <= |st.states[id].rows| && intent.index < |Turns(c, id)|
            && var start, turn := TurnStart(c, st.states[id].rows, id, intent.index), Turns(c, id)[intent.index];
               && intent.revision <= |turn.updates|
               && (forall j :: 0 <= j < |turn.updates| ==> (j < intent.revision <==> start + turn.updates[j].at <= st.now))
               && intent.keys == BlockKeys(PrefixAfter(turn, intent.revision))
               && intent.readyAt == start + turn.wait
  {
    hide Timely, LateTold, StatusTold, Behaviour, Validated, TurnStart, Turns, PrefixAfter, BlockKeys;
    AlwaysTold(c, path, i);
    var st, intent := path[i], path[i].intents[id];
    assert IntentRevised(c, st, id);
    IntentReady(c, st, id);
    var start, turn := TurnStart(c, st.states[id].rows, id, intent.index), Turns(c, id)[intent.index];
    var b :| Scheduled(st.events, st.now, start, b, id, intent.index, turn.updates, intent.revision);
    forall j | 0 <= j < |turn.updates| ensures j < intent.revision <==> start + turn.updates[j].at <= st.now {
      if j >= intent.revision { assert UpdateAt(start, b, id, intent.index, turn.updates, j) in st.events; }
    }
  }

  lemma IntentReady(c: Config, st: Sim, id: Id)
    requires Timely(c, st) && id in st.intents
    ensures var intent := st.intents[id];
            && id in st.states && intent.index <= |st.states[id].rows| && intent.index < |Turns(c, id)|
            && intent.readyAt == TurnStart(c, st.states[id].rows, id, intent.index) + Turns(c, id)[intent.index].wait
  {
    hide EventTimely, WaitingTimely, ProgressTimely, TurnStart, LastAt, AnyCancel;
    assert IntentTimely(c, st, id);
  }

  /** A workflow has timed out exactly when the log shows its deadline hit, at its due time, and is cancelled
      exactly when the log shows that. */
  lemma StatusExplained(c: Config, path: seq<Sim>, i: nat, id: Id)
    requires Validated(c) && Behaviour(c, path) && i < |path| && id in path[i].states
    ensures var st := path[i];
            && (st.states[id].status == TimedOut <==> (Flow(c.workflows, id).arrival + c.horizon, DeadlineHit(id)) in st.trace)
            && (st.states[id].status == Cancelled <==> exists t :: CancelledAt(st.trace, id, t))
  {
    hide Timely, LateTold, Revising, Behaviour, Validated;
    AlwaysTold(c, path, i);
  }

  /******* The GPU is never idle without reason *******/

  /** The step of choosing work. */
  ghost predicate Chooses(c: Config, st: Sim, s: Sim) { Quiet(st) && DispatchReady(c, st) && s == Dispatch(c, st) }

  lemma ChosenWork(c: Config, st: Sim, s: Sim)
    requires Validated(c) && Inv(c, st) && Chooses(c, st, s) && !s.busy
    ensures !st.busy && NoneWaiting(st) && Known(st, 0, |st.intentOrder|)
    ensures c.policy != Off && st.stats.computed < c.budget ==> forall j :: 0 <= j < |st.intentOrder| ==> !Wanted(c, st, st.intentOrder[j])
  {
    hide Inv, Wanted, StartedPreparing, StartedServing, Validated, FinishOf, WakeFor, Postponed, Dispatch, PreparedHits;
    AllKnown(c, st);
    if st.busy { BusyWaits(c, st); }
    if !NoneWaiting(st) {
      var i := FirstRunning(st);
      RequestStarts(c, st, i);
      ServingBusy(c, st, s, st.queue[i]);
    }
    if c.policy != Off && st.stats.computed < c.budget && exists j :: 0 <= j < |st.intentOrder| && Wanted(c, st, st.intentOrder[j]) {
      var k := FirstWanted(c, st);
      PreparationStarts(c, st, k);
      PreparingBusy(c, st, s, st.intentOrder[k]);
    }
  }

  lemma ServingBusy(c: Config, st: Sim, s: Sim, q: Waiting)
    requires StartedServing(c, st, s, q)
    ensures s.busy
  {
  }

  lemma PreparingBusy(c: Config, st: Sim, s: Sim, id: Id)
    requires StartedPreparing(c, st, s, id)
    ensures s.busy
  {
  }

  lemma FirstRunning(st: Sim) returns (i: nat)
    requires !NoneWaiting(st) && forall q :: q in st.queue ==> q.id in st.states
    ensures i < |st.queue| && st.states[st.queue[i].id].status == Running
    ensures forall k :: 0 <= k < i ==> st.states[st.queue[k].id].status != Running
  {
    i := 0;
    while st.states[st.queue[i].id].status != Running
      invariant i < |st.queue| && forall k :: 0 <= k < i ==> st.states[st.queue[k].id].status != Running
      decreases |st.queue| - i
    {
      if i + 1 == |st.queue| {
        forall q | q in st.queue ensures st.states[q.id].status != Running {
          var k :| 0 <= k < |st.queue| && st.queue[k] == q;
        }
      }
      i := i + 1;
    }
  }

  lemma FirstWanted(c: Config, st: Sim) returns (k: nat)
    requires Known(st, 0, |st.intentOrder|) && exists j :: 0 <= j < |st.intentOrder| && Wanted(c, st, st.intentOrder[j])
    ensures k < |st.intentOrder| && Wanted(c, st, st.intentOrder[k]) && forall j :: 0 <= j < k ==> !Wanted(c, st, st.intentOrder[j])
  {
    hide Wanted;
    k := 0;
    while !Wanted(c, st, st.intentOrder[k])
      invariant k < |st.intentOrder| && forall j :: 0 <= j < k ==> !Wanted(c, st, st.intentOrder[j])
      decreases |st.intentOrder| - k
    {
      k := k + 1;
    }
  }

  /** In every behaviour, when work has been chosen and the GPU is idle, no request of a running workflow waits and,
      unless the policy is off or the budget is used up, no intent is wanted. */
  lemma WorkConserving(c: Config, path: seq<Sim>, i: nat, j: nat)
    requires Validated(c) && Behaviour(c, path) && i + 1 < |path| && Chooses(c, path[i], path[i + 1]) && !path[i + 1].busy
    ensures path[i + 1].queue == [] && NoneWaiting(path[i])
    ensures c.policy != Off && path[i].stats.computed < c.budget && j < |path[i].intentOrder| ==>
              && path[i].intentOrder[j] in path[i].intents && path[i].intentOrder[j] in path[i].states
              && !Wanted(c, path[i], path[i].intentOrder[j])
  {
    hide Inv, Booked, Evolves, Behaviour, Validated, Wanted, Dispatch, Postponed, WakeFor;
    Reachable(c, path, i, i);
    ChosenWork(c, path[i], path[i + 1]);
    NothingStarts(c, path[i]);
  }

  lemma OrderedIntent(c: Config, st: Sim, id: Id) returns (j: nat)
    requires Inv(c, st) && id in st.intents
    ensures j < |st.intentOrder| && st.intentOrder[j] == id
  {
    assert id in st.intentOrder;
    j :| 0 <= j < |st.intentOrder| && st.intentOrder[j] == id;
  }

  /** An update that comes when the intent becomes eligible is still scheduled. */
  lemma EligibleEvent(c: Config, st: Sim, id: Id) returns (e: Event)
    requires Timely(c, st) && Revising(c, st) && c.policy == FutureTiming && id in st.intents && id in st.states
    requires st.states[id].status == Running && st.now < st.intents[id].eligibleAt
    ensures e in st.events && e.at == st.intents[id].eligibleAt
  {
    hide EventTimely, WaitingTimely, ProgressTimely, TurnStart, PrefixAfter, BlockKeys, AnyCancel;
    assert IntentTimely(c, st, id) && IntentRevised(c, st, id);
    var intent := st.intents[id];
    var start, us := TurnStart(c, st.states[id].rows, id, intent.index), Turns(c, id)[intent.index].updates;
    var b :| Scheduled(st.events, st.now, start, b, id, intent.index, us, intent.revision);
    var u :| u in us && u.at == LastAt(us);
    var j :| 0 <= j < |us| && us[j] == u;
    assert j >= intent.revision;
    e := UpdateAt(start, b, id, intent.index, us, j);
  }

  /** When the intent is to be looked at again: once it is eligible, and then at its latest start. */
  function NextLook(c: Config, st: Sim, intent: Intent): real {
    if st.now < intent.eligibleAt then intent.eligibleAt else LatestStart(c, st, intent)
  }

  /** The intent may still be prepared under future timing, and some of its blocks are not resident. */
  ghost predicate Awaited(st: Sim, id: Id)
    requires id in st.intents && id in st.states
  {
    var intent := st.intents[id];
    && intent.active && st.states[id].status == Running && !intent.willCancel
    && exists j :: 0 <= j < |intent.keys| && !Resident(st.tags, intent.keys[j])
  }

  lemma AwaitedPostponed(c: Config, st: Sim, id: Id)
    requires c.policy == FutureTiming && id in st.intents && id in st.states && Awaited(st, id) && st.intents[id].eligibleAt <= st.now
    ensures Wanted(c, st, id) || Postponed(c, st, id)
  {
  }

  lemma PostponedWake(c: Config, st: Sim, s: Sim, id: Id, j: nat) returns (e: Event)
    requires Validated(c) && Inv(c, st) && Chooses(c, st, s) && !st.busy && NoneWaiting(st) && Known(st, 0, |st.intentOrder|)
    requires c.policy == FutureTiming && st.stats.computed < c.budget
    requires forall k :: 0 <= k < |st.intentOrder| ==> !Wanted(c, st, st.intentOrder[k])
    requires j < |st.intentOrder| && st.intentOrder[j] == id && Postponed(c, st, id)
    ensures e in s.events && WakeFor(c, st, id, e)
  {
    hide Inv, Validated, Wanted, Postponed, WakeFor, Dispatch;
    NothingStarts(c, st);
    e :| e in s.events && WakeFor(c, st, st.intentOrder[j], e);
  }

  lemma NothingDropped(c: Config, st: Sim, s: Sim)
    requires Validated(c) && Inv(c, st) && Chooses(c, st, s) && !st.busy && NoneWaiting(st) && Known(st, 0, |st.intentOrder|)
    requires forall k :: 0 <= k < |st.intentOrder| ==> !Wanted(c, st, st.intentOrder[k])
    ensures st.events <= s.events
  {
    hide Inv, Validated, Wanted, Postponed, WakeFor, Dispatch;
    NothingStarts(c, st);
  }

  /** In every behaviour under future timing with budget left: when work has been chosen and the GPU is idle, an
      event is scheduled for the next time at which any intent that may still be prepared has to be looked at, so
      none misses its start. */
  lemma StartsNotMissed(c: Config, path: seq<Sim>, i: nat, id: Id) returns (e: Event)
    requires Validated(c) && Behaviour(c, path) && i + 1 < |path| && Chooses(c, path[i], path[i + 1]) && !path[i + 1].busy
    requires c.policy == FutureTiming && path[i].stats.computed < c.budget
    requires id in path[i].intents && id in path[i].states && Awaited(path[i], id)
    ensures e in path[i + 1].events && e.at == NextLook(c, path[i], path[i].intents[id])
  {
    hide Inv, Booked, Evolves, Behaviour, Validated, Wanted, Dispatch, Postponed, Timely, Revising, LateTold, StatusTold, LatestStart;
    var st, s := path[i], path[i + 1];
    Reachable(c, path, i, i);
    AlwaysTold(c, path, i);
    ChosenWork(c, st, s);
    if st.now < st.intents[id].eligibleAt {
      e := EligibleEvent(c, st, id);
      NothingDropped(c, st, s);
    } else {
      var j := OrderedIntent(c, st, id);
      AwaitedPostponed(c, st, id);
      e := PostponedWake(c, st, s, id, j);
    }
  }

  /******* The meters *******/

  lemma FireMeters(c: Config, st: Sim, e: Event)
    requires Handled(c, st, e.action) && SerialsOk(st.events, st.serial)
    ensures Fire(c, st, e).lru == st.lru && Fire(c, st, e).stats.peak == st.stats.peak
  {
    hide SetTags, BlockKeys, StartTurn, SerialsOk, OnUpdate, OnDeadline, OnReady, Obsolete, Flow;
    var s0 := Pop(st, e);
    PopSerials(st, e);
    match e.action {
      case Arrival(id) => StartTurnMeters(c, s0, id, 0);
      case Deadline(id) => DeadlineMeters(s0, id);
      case Ready(id, index) => ReadyMeters(s0, id, index);
      case Updated(id, index, u) => UpdateMeters(c, s0, id, index, u);
      case Finished(job) =>
        if job.Demand? {
          var s1 := Record(s0, job);
          if s1.states[job.id].status == Running && job.index + 1 < |Turns(c, job.id)| {
            StartTurnMeters(c, s1, job.id, job.index + 1);
          }
        }
      case Wake =>
    }
  }

  lemma StartTurnMeters(c: Config, st: Sim, id: Id, index: nat)
    requires id in st.states && index < |Turns(c, id)| && SerialsOk(st.events, st.serial)
    ensures StartTurn(c, st, id, index).lru == st.lru && StartTurn(c, st, id, index).stats == st.stats
  {
    if st.states[id].status == Running { StartTurnShape(c, st, id, index); }
  }

  lemma DeadlineMeters(st: Sim, id: Id)
    requires id in st.states
    ensures OnDeadline(st, id).lru == st.lru && OnDeadline(st, id).stats == st.stats
  {
  }

  lemma ReadyMeters(st: Sim, id: Id, index: nat)
    requires id in st.states
    ensures OnReady(st, id, index).lru == st.lru && OnReady(st, id, index).stats == st.stats
  {
  }

  lemma UpdateMeters(c: Config, st: Sim, id: Id, index: nat, u: Update)
    requires id in st.states
    ensures OnUpdate(c, st, id, index, u).lru == st.lru && OnUpdate(c, st, id, index, u).stats == st.stats
  {
    hide BlockKeys, Begin;
  }

  /** The peak is the larger of the old one and what the cache holds now. */
  ghost predicate Peaks(st: Sim, s: Sim) { s.stats.peak == Max(st.stats.peak, |s.lru|) }

  lemma LaunchDemandPeaks(c: Config, st: Sim, q: Waiting)
    requires Dispatchable(c, st, q)
    ensures Peaks(st, LaunchDemand(c, st, q))
  {
    hide PrefillMs, CachedPrefix, Hits, BlockKeys, Turns, ReservedOrder;
    var turn := Turns(c, q.id)[q.index];
    HitsCount(st, BlockKeys(turn.prompt)[..PromptHits(st, turn)]);
  }

  lemma LaunchPreparationPeaks(c: Config, st: Sim, id: Id, intent: Intent)
    requires |intent.keys| <= c.cacheBlocks && 0 < PreparationCount(c, st, intent)
    ensures Peaks(st, LaunchPreparation(c, st, id, intent))
  {
    hide PrefillMs, ReservedOrder;
  }

  lemma {:induction false} DispatchPreparationPeaks(c: Config, st: Sim, i: nat)
    requires i <= |st.intentOrder| && IntentsFit(c, st) && st.stats.computed < c.budget && c.chunk >= 1
    requires |st.lru| <= st.stats.peak
    ensures Peaks(st, DispatchPreparation(c, st, i))
    decreases |st.intentOrder| - i
  {
    hide LaunchPreparation, TooEarly;
    if i < |st.intentOrder| {
      var id := st.intentOrder[i];
      if Idle(c, st, id) {
        DispatchPreparationPeaks(c, st, i + 1);
      } else if TooEarly(c, st, st.intents[id]) {
        WakeupShape(c, st, st.intents[id]);
        DispatchPreparationPeaks(c, ScheduleWakeup(c, st, st.intents[id]), i + 1);
      } else {
        LaunchPreparationPeaks(c, st, id, st.intents[id]);
      }
    }
  }

  lemma {:induction false} DispatchQueuePeaks(c: Config, st: Sim)
    requires Validated(c) && Inv(c, st) && DispatchReady(c, st) && |st.lru| <= st.stats.peak
    ensures Peaks(st, DispatchQueue(c, st))
    decreases |st.queue|
  {
    hide Inv, LaunchDemand;
    if st.queue == [] {
      if c.policy != Off && st.stats.computed < c.budget { DispatchPreparationPeaks(c, st, 0); }
    } else {
      var q, s1 := st.queue[0], st.(queue := st.queue[1..]);
      QueueDispatchable(c, st, s1);
      InvDispatchReady(c, s1);
      if st.states[q.id].status != Running { DispatchQueuePeaks(c, s1); } else { LaunchDemandPeaks(c, s1, q); }
    }
  }

  lemma InvPeak(c: Config, st: Sim)
    requires Inv(c, st)
    ensures |st.lru| <= st.stats.peak
  {
  }

  /** The entries held times the time that passes. */
  function HeldFor(st: Sim, s: Sim): real { (s.now - st.now) * |st.lru| as real }

  /** Resident time grows by that, and the peak is kept up to date. */
  ghost predicate Metered(st: Sim, s: Sim) {
    s.stats.cacheBlockMs == st.stats.cacheBlockMs + HeldFor(st, s) && Peaks(st, s)
  }

  lemma DispatchMetered(c: Config, st: Sim)
    requires Validated(c) && Inv(c, st) && Booked(c, st) && DispatchReady(c, st)
    ensures Metered(st, Dispatch(c, st))
  {
    hide Inv, Booked, Validated, Evolves, Dispatch, Peaks, HeldFor;
    InvPeak(c, st);
    DispatchBooked(c, st);
    DispatchPeaks(c, st);
    StandsStill(st, Dispatch(c, st));
  }

  lemma FireMetered(c: Config, st: Sim, e: Event)
    requires Validated(c) && Inv(c, st) && Booked(c, st) && e in st.events && Handled(c, st, e.action)
    ensures Metered(st, Fire(c, st, e))
  {
    hide Inv, Booked, Validated, Evolves, Fire, SerialsOk, HeldFor;
    InvPeak(c, st);
    FireBooked(c, st, e);
    InvSerials(c, st);
    FireMeters(c, st, e);
    StandsStill(st, Fire(c, st, e));
  }

  lemma AdvanceMetered(c: Config, st: Sim, at: real)
    requires Inv(c, st)
    ensures Metered(st, Advance(st, at))
  {
    hide Inv;
    InvPeak(c, st);
  }

  lemma StepMetered(c: Config, st: Sim, s: Sim)
    requires Validated(c) && Inv(c, st) && Booked(c, st) && Step(c, st, s)
    ensures Metered(st, s)
  {
    hide Inv, Booked, Validated, Metered, Fire, Dispatch;
    if Quiet(st) && DispatchReady(c, st) && s == Dispatch(c, st) {
      DispatchMetered(c, st);
    } else if s == Advance(st, First(st.events).at) {
      AdvanceMetered(c, st, First(st.events).at);
    } else {
      FireMetered(c, st, First(st.events));
    }
  }

  lemma DispatchPeaks(c: Config, st: Sim)
    requires Validated(c) && Inv(c, st) && DispatchReady(c, st) && |st.lru| <= st.stats.peak
    ensures Peaks(st, Dispatch(c, st))
  {
    hide Inv, Validated, DispatchQueue;
    if !st.busy { DispatchQueuePeaks(c, st); }
  }

  lemma StandsStill(st: Sim, s: Sim)
    requires s.now == st.now
    ensures HeldFor(st, s) == 0.0
  {
  }

  /** The entries held in each state times the time until the next one, up to state `i`. */
  ghost function ResidentMs(path: seq<Sim>, i: nat): real
    requires i < |path|
  {
    if i == 0 then 0.0 else ResidentMs(path, i - 1) + HeldFor(path[i - 1], path[i])
  }

  ghost function MostHeld(path: seq<Sim>, i: nat): int
    requires i < |path|
  {
    if i == 0 then |path[0].lru| else Max(MostHeld(path, i - 1), |path[i].lru|)
  }

  /** In every behaviour the resident-time counter is exactly the entries held, summed over time, and the peak
      counter is exactly the most entries ever held. */
  lemma {:induction false} MetersExact(c: Config, path: seq<Sim>, i: nat)
    requires Validated(c) && Behaviour(c, path) && i < |path|
    ensures path[i].stats.cacheBlockMs == ResidentMs(path, i) && path[i].stats.peak == MostHeld(path, i)
  {
    hide Inv, Booked, Validated, Step, Evolves, HeldFor;
    if i == 0 {
      StartShape(c);
    } else {
      MetersExact(c, path, i - 1);
      Reachable(c, path, i - 1, i - 1);
      StepMetered(c, path[i - 1], path[i]);
    }
  }

  /******* The run is a behaviour *******/

  lemma Extend(c: Config, path: seq<Sim>, s: Sim)
    requires Behaviour(c, path) && Step(c, path[|path| - 1], s)
    ensures Behaviour(c, path + [s])
  {
    hide Step;
    var more := path + [s];
    forall i | 0 <= i < |more| - 1 ensures Step(c, more[i], more[i + 1]) {
      if i < |path| - 1 { assert Step(c, path[i], path[i + 1]); }
    }
  }

  lemma {:induction false} DrainReaches(c: Config, path: seq<Sim>) returns (more: seq<Sim>)
    requires Validated(c) && Behaviour(c, path) && Inv(c, path[|path| - 1]) && NothingPast(path[|path| - 1])
    ensures Behaviour(c, more) && more[|more| - 1] == Drain(c, path[|path| - 1])
    decreases Work(c, path[|path| - 1]), |path[|path| - 1].events|
  {
    hide Inv, Validated, Behaviour, Work, SerialsOk, Handled, Fire;
    BehaviourStarts(c, path);
    var st := path[|path| - 1];
    if Quiet(st) {
      more := path;
    } else {
      var e := First(st.events);
      FirstSoonest(st.events);
      FireKeeps(c, st, e);
      InvSerials(c, st);
      FireCharge(c, st, e);
      PopSmaller(st.events, e);
      EventHandled(c, st, e);
      assert Step(c, st, Fire(c, st, e));
      Extend(c, path, Fire(c, st, e));
      FireNow(c, st, e);
      more := DrainReaches(c, path + [Fire(c, st, e)]);
    }
  }

  lemma BehaviourStarts(c: Config, path: seq<Sim>)
    requires Behaviour(c, path)
    ensures path != []
  {
  }

  /** No event is behind the clock. */
  ghost predicate NothingPast(st: Sim) { forall e :: e in st.events ==> st.now <= e.at }

  lemma FireNow(c: Config, st: Sim, e: Event)
    requires Validated(c) && Inv(c, st) && e in st.events && Handled(c, st, e.action)
    ensures NothingPast(Fire(c, st, e))
  {
    hide Inv, Handle, Validated;
    FireKeeps(c, st, e);
    InvPast(c, Fire(c, st, e));
  }

  lemma InvPast(c: Config, st: Sim)
    requires Inv(c, st)
    ensures NothingPast(st)
  {
  }

  /** The event loop passes through the states of a behaviour up to its closing clock move. */
  lemma {:induction false} RunReaches(c: Config, path: seq<Sim>) returns (more: seq<Sim>)
    requires Validated(c) && Behaviour(c, path) && Inv(c, path[|path| - 1]) && path[|path| - 1].now <= ObservationEnd(c)
    ensures Behaviour(c, more) && Inv(c, more[|more| - 1]) && more[|more| - 1].now <= ObservationEnd(c)
    ensures var s := more[|more| - 1];
            && RunFrom(c, path[|path| - 1]) == Advance(s, ObservationEnd(c))
            && (s.events == {} || ObservationEnd(c) < First(s.events).at)
    decreases Work(c, path[|path| - 1]), |WakePoints(c, path[|path| - 1])|
  {
    hide Inv, Validated, Behaviour, Work, WakePoints, Drain, Dispatch, Quiet, ObservationEnd, NothingPast, Booked, Evolves;
    BehaviourStarts(c, path);
    NonemptyWorkload(c);
    var st := path[|path| - 1];
    if st.events == {} || ObservationEnd(c) < First(st.events).at {
      more := path;
    } else {
      var at := First(st.events).at;
      InstantKeeps(c, st);
      InstantProgress(c, st);
      FirstSoonest(st.events);
      AdvanceKeeps(c, st, at);
      var s1 := Advance(st, at);
      StepOfAdvance(c, path, s1);
      InvPast(c, s1);
      var drained := DrainReaches(c, path + [s1]);
      BehaviourStarts(c, drained);
      DrainKeeps(c, s1);
      var s2 := Drain(c, s1);
      DispatchKeeps(c, s2);
      StepOfDispatch(c, drained, Dispatch(c, s2));
      InstantIs(c, st, s1, s2);
      Reachable(c, path, |path| - 1, |path| - 1);
      InstantBooked(c, st);
      more := RunReaches(c, drained + [Dispatch(c, s2)]);
    }
  }

  lemma NonemptyWorkload(c: Config)
    requires Validated(c)
    ensures c.workflows != []
  {
  }

  lemma InstantIs(c: Config, st: Sim, s1: Sim, s2: Sim)
    requires Validated(c) && Inv(c, st) && st.events != {} && s1 == Advance(st, First(st.events).at) && Inv(c, s1) && s2 == Drain(c, s1)
    requires DispatchReady(c, s2)
    ensures Instant(c, st) == Dispatch(c, s2)
  {
    hide Inv, Validated, Drain, Dispatch;
  }

  lemma StepOfAdvance(c: Config, path: seq<Sim>, s: Sim)
    requires Behaviour(c, path) && path[|path| - 1].events != {} && s == Advance(path[|path| - 1], First(path[|path| - 1].events).at)
    ensures Behaviour(c, path + [s])
  {
    Extend(c, path, s);
  }

  lemma StepOfDispatch(c: Config, path: seq<Sim>, s: Sim)
    requires Behaviour(c, path) && Quiet(path[|path| - 1]) && DispatchReady(c, path[|path| - 1]) && s == Dispatch(c, path[|path| - 1])
    ensures Behaviour(c, path + [s])
  {
    hide Dispatch;
    Extend(c, path, s);
  }

  lemma StartBehaves(c: Config)
    ensures Behaviour(c, [Start(c)])
  {
    hide Start;
  }

  lemma ResidentPrefix(path: seq<Sim>, s: Sim, i: nat)
    requires i < |path|
    ensures ResidentMs(path + [s], i) == ResidentMs(path, i) && MostHeld(path + [s], i) == MostHeld(path, i)
  {
    hide HeldFor;
    if i > 0 { ResidentPrefix(path, s, i - 1); }
  }

  lemma MetersOn(path: seq<Sim>, s: Sim)
    requires path != [] && Metered(path[|path| - 1], s)
    requires path[|path| - 1].stats.cacheBlockMs == ResidentMs(path, |path| - 1) && path[|path| - 1].stats.peak == MostHeld(path, |path| - 1)
    ensures s.stats.cacheBlockMs == ResidentMs(path + [s], |path|) && s.stats.peak == MostHeld(path + [s], |path|)
  {
    hide HeldFor;
    ResidentPrefix(path, s, |path| - 1);
  }

  /** The final state of a run ends a behaviour, and so everything above holds of it: the times of its rows, its
      late blocks, and its meters, read off the states passed through. */
  lemma RunTold(c: Config) returns (path: seq<Sim>)
    requires Validated(c)
    ensures Behaviour(c, path) && Inv(c, Start(c))
    ensures var s := RunFrom(c, Start(c));
            && Told(c, s)
            && s.stats.cacheBlockMs == ResidentMs(path + [s], |path|) && s.stats.peak == MostHeld(path + [s], |path|)
  {
    hide Inv, Validated, Start, RunFrom, Told, ObservationEnd, Metered, ResidentMs, MostHeld, Step;
    StartInv(c);
    StartBehaves(c);
    StartNow(c);
    NonemptyWorkload(c);
    path := RunReaches(c, [Start(c)]);
    var st, end, n := path[|path| - 1], ObservationEnd(c), |path| - 1;
    var s := RunFrom(c, Start(c));
    AlwaysTold(c, path, n);
    AdvanceTold(c, st, end);
    MetersExact(c, path, n);
    AdvanceMetered(c, st, end);
    MetersOn(path, s);
  }
}
