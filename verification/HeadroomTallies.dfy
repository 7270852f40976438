/** What the finished preparations and the resident entries of a run add up to: every computed
    block belongs to a finished preparation or to the one in flight, so late and obsolete blocks
    never exceed the computed ones, and resident time never exceeds a full cache's. */
module HeadroomTallies {
  import opened HeadroomModel
  import opened HeadroomCache
  import opened HeadroomInvariant
  import opened HeadroomSteps
  import opened HeadroomJobs
  import opened HeadroomDispatch
  import opened HeadroomProgress
  import opened HeadroomHistory

  function SettledBy(x: Entry): nat { if x.PreparationFinished? then x.blocks else 0 }

  /** The blocks of the preparations that the log shows as finished. */
  function Settlements(log: Journal): nat {
    if log == [] then 0 else Settlements(log[..|log| - 1]) + SettledBy(log[|log| - 1].1)
  }

  lemma SettlementsSnoc(log: Journal, x: (real, Entry))
    ensures Settlements(log + [x]) == Settlements(log) + SettledBy(x.1)
  {
    Init(log, x);
  }

  predicate Preparing(e: Event) { e.action.Finished? && e.action.job.Preparation? }

  /** Computed blocks are those of finished preparations and of the one in flight. */
  ghost predicate Tallied(st: Sim) {
    && (forall e :: e in st.events && Preparing(e) ==>
          st.stats.computed == Settlements(st.trace) + |e.action.job.computed|)
    && ((forall e :: e in st.events ==> !Preparing(e)) ==> st.stats.computed == Settlements(st.trace))
    && 0 <= st.stats.late <= Settlements(st.trace)
  }

  lemma SettlementsBounded(st: Sim)
    requires Tallied(st)
    ensures Settlements(st.trace) <= st.stats.computed
  {
  }

  /******* Steps that neither start nor finish a preparation *******/

  ghost predicate Undisturbed(st: Sim, s: Sim) {
    && s.stats.computed == st.stats.computed && s.stats.late == st.stats.late
    && Settlements(s.trace) == Settlements(st.trace)
    && (forall e :: Preparing(e) ==> (e in s.events <==> e in st.events))
  }

  lemma UndisturbedTallies(st: Sim, s: Sim)
    requires Tallied(st) && Undisturbed(st, s)
    ensures Tallied(s)
  {
    hide Settlements, Preparing;
  }

  lemma ArrivalUndisturbed(c: Config, st: Sim, id: Id)
    requires id in st.states && 0 < |Turns(c, id)| && SerialsOk(st.events, st.serial)
    ensures Undisturbed(st, StartTurn(c, st, id, 0))
  {
    hide Settlements, SerialsOk;
    if st.states[id].status == Running { StartTurnShape(c, st, id, 0); }
  }

  lemma UpdateUndisturbed(c: Config, st: Sim, id: Id, index: nat, u: Update)
    requires id in st.states
    ensures Undisturbed(st, OnUpdate(c, st, id, index, u))
  {
    hide ScheduleWakeup, Settlements, BlockKeys;
    if Current(st, id, index) && st.states[id].status == Running {
      var intent := Revised(st.intents[id], u);
      SettlementsSnoc(st.trace, (st.now, if u.Cancel? then CancelSeen(id) else RevisionSeen(id, intent.revision)));
      if u.Revise? {
        WakeupShape(c, Log(st.(intents := st.intents[id := intent]), RevisionSeen(id, intent.revision)), intent);
      }
    }
  }

  lemma OtherUndisturbed(c: Config, st: Sim, a: Action)
    requires !a.Finished? && Handled(c, st, a) && SerialsOk(st.events, st.serial)
    ensures Undisturbed(st, Handle(c, st, a))
  {
    hide Settlements, SerialsOk, StartTurn, OnUpdate;
    match a {
      case Arrival(id) => ArrivalUndisturbed(c, st, id);
      case Deadline(id) => SettlementsSnoc(st.trace, (st.now, DeadlineHit(id)));
      case Ready(id, index) => SettlementsSnoc(st.trace, (st.now, RequestReady(id, index)));
      case Updated(id, index, u) => UpdateUndisturbed(c, st, id, index, u);
      case Wake =>
    }
  }

  /******* Jobs finish *******/

  lemma DemandStats(c: Config, st: Sim, e: Event)
    requires SerialsOk(st.events, st.serial) && e.action.Finished? && e.action.job.Demand?
    requires Handled(c, st, e.action)
    ensures Fire(c, st, e).stats == st.stats
  {
    hide SerialsOk, StartTurn, SetTags, Flow;
    var s1, job := Record(Pop(st, e), e.action.job), e.action.job;
    PopSerials(st, e);
    if s1.states[job.id].status == Running && job.index + 1 < |Turns(c, job.id)| {
      StartTurnNeutral(c, s1, job.id, job.index + 1);
    }
  }

  lemma DemandTallies(c: Config, st: Sim, e: Event)
    requires Inv(c, st) && Tallied(st) && e in st.events && e.action.Finished? && e.action.job.Demand?
    requires Handled(c, st, e.action)
    ensures Tallied(Fire(c, st, e))
  {
    hide Inv, SerialsOk, Fire, Settlements;
    var s, job := Fire(c, st, e), e.action.job;
    InvSerials(c, st);
    DemandStats(c, st, e);
    DemandOutcome(c, st, s, e);
    OneJobAtATime(c, st, e);
    SettlementsSnoc(st.trace, (st.now, RequestFinished(job.id, job.index)));
    UndisturbedTallies(st, s);
  }

  lemma PreparationTallies(c: Config, st: Sim, e: Event)
    requires Inv(c, st) && Tallied(st) && e in st.events && Preparing(e) && Handled(c, st, e.action)
    ensures Tallied(Fire(c, st, e))
  {
    hide Inv, Settlements, SetTags, Obsolete;
    var job := e.action.job;
    OneJobAtATime(c, st, e);
    SettlementsSnoc(st.trace, (st.now, PreparationFinished(job.id, |job.computed|, Obsolete(Pop(st, e), job))));
  }

  lemma FireTallies(c: Config, st: Sim, e: Event)
    requires Inv(c, st) && Tallied(st) && e in st.events && Handled(c, st, e.action)
    ensures Tallied(Fire(c, st, e))
  {
    hide Inv, Tallied, SerialsOk, Handle, Settlements;
    if !e.action.Finished? {
      InvSerials(c, st);
      PopSerials(st, e);
      OtherUndisturbed(c, Pop(st, e), e.action);
      UndisturbedTallies(st, Fire(c, st, e));
    } else if e.action.job.Demand? {
      DemandTallies(c, st, e);
    } else {
      PreparationTallies(c, st, e);
    }
  }

  /******* Jobs start *******/

  lemma LaunchDemandTallies(c: Config, st: Sim, q: Waiting)
    requires c.prefill > 0.0 && Tallied(st) && Free(st) && Dispatchable(c, st, q)
    ensures Tallied(LaunchDemand(c, st, q))
  {
    hide PrefillMs, Reserve, CachedPrefix, Hits, BlockKeys, Turns, Settlements, Tallied;
    var turn, s := Turns(c, q.id)[q.index], LaunchDemand(c, st, q);
    var n := PromptHits(st, turn);
    DemandShape(c, st, q);
    HitsCount(st, BlockKeys(turn.prompt)[..n]);
    ReserveStats(c, Hits(st, BlockKeys(turn.prompt)[..n]), DemandKeys(turn));
    SettlementsSnoc(st.trace, (st.now, RequestStarted(q.id, q.index, DemandCost(c, turn, n), n)));
    UndisturbedTallies(st, s);
  }

  lemma LaunchPreparationTallies(c: Config, st: Sim, id: Id, intent: Intent)
    requires Tallied(st) && Free(st) && |intent.keys| <= c.cacheBlocks && 0 < PreparationCount(c, st, intent)
    ensures Tallied(LaunchPreparation(c, st, id, intent))
  {
    hide PrefillMs, Reserve, CachedPrefix, Settlements;
    var cached, n := CachedPrefix(st.tags, intent.keys), PreparationCount(c, st, intent);
    var s, e := LaunchPreparation(c, st, id, intent), PreparationEvent(c, st, id, intent);
    ReserveStats(c, st, intent.keys[..cached + n]);
    SettlementsSnoc(st.trace, (st.now, PreparationStarted(id, intent.revision, n)));
    assert e in s.events && Preparing(e) && |e.action.job.computed| == n;
  }

  /******* Resident time *******/

  /** What a cache that is full from time zero on would have accumulated. */
  function FullCacheMs(c: Config, at: real): real { c.cacheBlocks as real * at }

  ghost predicate Occupied(c: Config, st: Sim) { 0.0 <= st.stats.cacheBlockMs <= FullCacheMs(c, st.now) }

  lemma AdvanceOccupied(c: Config, st: Sim, at: real)
    requires Occupied(c, st) && st.now <= at && |st.lru| <= c.cacheBlocks
    ensures Occupied(c, Advance(st, at))
  {
    var d, n, m := at - st.now, |st.lru| as real, c.cacheBlocks as real;
    RectangleMonotone(d, n, m);
    calc {
      FullCacheMs(c, at);
      m * (st.now + d);
      m * st.now + d * m;
      FullCacheMs(c, st.now) + d * m;
    }
  }

  lemma RectangleMonotone(d: real, n: real, m: real)
    requires 0.0 <= d && 0.0 <= n <= m
    ensures 0.0 <= d * n <= d * m
  {
    assert d * m == d * n + d * (m - n);
  }
}
