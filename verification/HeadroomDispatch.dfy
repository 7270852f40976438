/** Choosing the next GPU work keeps the simulator's invariant, for every policy. */
module HeadroomDispatch {
  import opened HeadroomModel
  import opened HeadroomCache
  import opened HeadroomInvariant
  import opened HeadroomSteps

  /** All events of the current instant have been handled. */
  ghost predicate Quiet(st: Sim) { forall e :: e in st.events ==> st.now < e.at }

  lemma DropHeadTokens(c: Config, st: Sim, s: Sim)
    requires Linked(c, st) && OneToken(c, st) && st.queue != [] && s == st.(queue := st.queue[1..])
    ensures Linked(c, s) && OneToken(c, s)
    ensures forall q :: q in s.queue ==> q.id != st.queue[0].id
  {
    assert forall q :: q in s.queue ==> q in st.queue;
    forall e | e in s.events ensures Handled(c, s, e.action) { assert Handled(c, st, e.action); }
    forall q | q in s.queue ensures q.id != st.queue[0].id {
      var i :| 0 <= i < |s.queue| && s.queue[i] == q;
      assert q == st.queue[i + 1];
    }
  }

  lemma DropHeadKeeps(c: Config, st: Sim, s: Sim)
    requires Inv(c, st) && st.queue != [] && s == st.(queue := st.queue[1..])
    ensures Inv(c, s)
    ensures forall q :: q in s.queue ==> q.id != st.queue[0].id
  {
    hide Linked, Gpu, OneToken, Clocked, OwnIntent, Foreseen;
    DropHeadTokens(c, st, s);
    GpuFrame(c, st, s);
    ReadyClock(c, st, s);
  }

  /******* Launching a job *******/

  /** A completion event for later was scheduled; no other scheduling state changed. */
  ghost predicate Launched(st: Sim, s: Sim, e: Event) {
    && s.events == st.events + {e} && e.serial == s.serial == st.serial + 1
    && e.action.Finished? && st.now < e.at && s.busy
    && s.states == st.states && s.intents == st.intents && s.intentOrder == st.intentOrder
    && s.queue == st.queue && s.now == st.now
  }

  ghost predicate Free(st: Sim) { forall e :: e in st.events ==> !e.action.Finished? }

  lemma LaunchLinks(c: Config, st: Sim, s: Sim, e: Event)
    requires Linked(c, st) && Launched(st, s, e) && Free(st) && Handled(c, s, e.action)
    ensures Linked(c, s)
  {
    forall f | f in s.events && f != e ensures Handled(c, s, f.action) {
      assert Handled(c, st, f.action);
    }
  }

  lemma LaunchClock(c: Config, st: Sim, s: Sim, e: Event)
    requires Clocked(c, st) && SerialsOk(st.events, st.serial) && Launched(st, s, e)
    ensures Clocked(c, s) && SerialsOk(s.events, s.serial)
  {
    forall x | x in s.states && s.states[x].status == Running
      ensures exists f :: f in s.events && f.action == Deadline(x)
    {
      var f :| f in st.events && f.action == Deadline(x);
      assert f in s.events;
    }
  }

  /** The reservation that launches a job tags at most the job's keys as pending. */
  lemma LaunchGpu(c: Config, st: Sim, s: Sim, keys: seq<Key>, e: Event, n: nat)
    requires Gpu(c, st) && Free(st) && Launched(st, s, e)
    requires Distinct(keys) && |keys| <= c.cacheBlocks
    requires s.lru == Reserve(c, st, keys).lru && s.tags == Reserve(c, st, keys).tags
    requires forall k :: k in keys && !Resident(st.tags, k) ==> k in JobKeys(e.action.job)
    requires s.stats.peak == Reserve(c, st, keys).stats.peak
    requires s.stats.useful == st.stats.useful && s.stats.ordinary == st.stats.ordinary
    requires s.stats.computed == st.stats.computed + n <= c.budget
    requires e.action.job.Preparation? ==> |e.action.job.computed| == n
    ensures Gpu(c, s)
  {
    ReserveShape(c, st, keys);
    ReserveFresh(c, st, keys);
    forall k | k in s.tags && s.tags[k] == Pending ensures k in JobKeys(e.action.job) {
      assert k !in st.tags;
    }
    assert e in s.events;
  }

  lemma HitsGpu(c: Config, st: Sim, keys: seq<Key>)
    requires Gpu(c, st) && (forall k :: k in keys ==> k in st.tags)
    ensures Gpu(c, Hits(st, keys))
  {
    HitsCount(st, keys);
  }

  /** Prefilling `n` blocks takes time, unless there are none. */
  lemma PrefillTakesTime(c: Config, n: nat)
    requires c.prefill > 0.0
    ensures PrefillMs(c, n) >= 0.0
    ensures n > 0 ==> PrefillMs(c, n) > 0.0
  {
    if n > 0 { assert n as real >= 1.0; }
  }

  lemma CostPositive(c: Config, turn: Turn, cached: nat)
    requires c.prefill > 0.0 && turn.decode > 0.0 && cached <= |turn.prompt|
    ensures DemandCost(c, turn, cached) > 0.0
  {
    PrefillTakesTime(c, |turn.prompt| - cached);
  }

  /** The completion event of a dispatched request. */
  function DemandEvent(c: Config, st: Sim, q: Waiting): Event
    requires q.index < |Turns(c, q.id)|
  {
    var turn := Turns(c, q.id)[q.index];
    Event(st.now + DemandCost(c, turn, PromptHits(st, turn)), st.serial + 1,
          Finished(Demand(q.id, q.index, DemandKeys(turn), q.ready, PromptHits(st, turn))))
  }

  ghost predicate Dispatchable(c: Config, st: Sim, q: Waiting) {
    && q.id in st.states && q.index == |st.states[q.id].rows| && q.index < |Turns(c, q.id)|
    && ValidTurn(c, Turns(c, q.id)[q.index], q.index == 0)
    && (forall e :: e in st.events ==> !TokenOf(e.action, q.id))
    && (forall p :: p in st.queue ==> p.id != q.id)
  }

  lemma DemandShape(c: Config, st: Sim, q: Waiting)
    requires c.prefill > 0.0 && Dispatchable(c, st, q)
    ensures Launched(st, LaunchDemand(c, st, q), DemandEvent(c, st, q))
  {
    var turn := Turns(c, q.id)[q.index];
    HitsCount(st, BlockKeys(turn.prompt)[..PromptHits(st, turn)]);
    CostPositive(c, turn, PromptHits(st, turn));
  }

  lemma LaunchTokens(c: Config, st: Sim, s: Sim, q: Waiting, e: Event)
    requires OneToken(c, st) && Dispatchable(c, st, q) && Launched(st, s, e) && e == DemandEvent(c, st, q)
    ensures OneToken(c, s)
  {
    assert TokenOf(e.action, q.id);
    forall f, x | f in s.events && f !in st.events && TokenOf(f.action, x) ensures f == e && x == q.id { }
  }

  lemma DemandIntents(c: Config, st: Sim, s: Sim, e: Event)
    requires OwnIntent(st) && Foreseen(c, st) && Launched(st, s, e) && e.action.job.Demand?
    ensures OwnIntent(s) && Foreseen(c, s)
  {
    forall x, i: nat ensures Current(s, x, i) <==> Current(st, x, i) { }
    if c.policy == FutureTiming {
      forall f | f in s.events && f.action.Finished? && f.action.job.Preparation? ensures Settled(s, f.action.job) {
        assert Settled(st, f.action.job);
      }
    }
  }

  lemma DemandGpu(c: Config, st: Sim, q: Waiting)
    requires Gpu(c, st) && Free(st) && Dispatchable(c, st, q) && c.prefill > 0.0
    ensures var s := LaunchDemand(c, st, q);
            Gpu(c, s) && forall k :: k in DemandKeys(Turns(c, q.id)[q.index]) ==> k in s.tags
  {
    var turn := Turns(c, q.id)[q.index];
    var hits := BlockKeys(turn.prompt)[..PromptHits(st, turn)];
    assert forall k :: k in hits ==> k in st.tags;
    DemandShape(c, st, q);
    HitsCount(st, hits);
    HitsGpu(c, st, hits);
    KeysDistinct(turn.prompt + turn.generated);
    var s1 := Hits(st, hits);
    ReserveShape(c, s1, DemandKeys(turn));
    LaunchGpu(c, s1, LaunchDemand(c, st, q), DemandKeys(turn), DemandEvent(c, st, q), 0);
  }

  lemma LaunchDemandKeeps(c: Config, st: Sim, q: Waiting)
    requires Validated(c) && Inv(c, st) && Free(st) && Dispatchable(c, st, q)
    ensures Inv(c, LaunchDemand(c, st, q))
  {
    hide Linked, Gpu, OneToken, Clocked, OwnIntent, Foreseen, SerialsOk, Launched, LaunchDemand, Free, PrefillMs;
    var s, e := LaunchDemand(c, st, q), DemandEvent(c, st, q);
    DemandShape(c, st, q);
    DemandGpu(c, st, q);
    LaunchLinks(c, st, s, e);
    LaunchClock(c, st, s, e);
    LaunchTokens(c, st, s, q, e);
    DemandIntents(c, st, s, e);
  }

  /******* Preparation *******/

  function PreparationEvent(c: Config, st: Sim, id: Id, intent: Intent): Event
    requires 0 < PreparationCount(c, st, intent)
  {
    var cached, n := CachedPrefix(st.tags, intent.keys), PreparationCount(c, st, intent);
    Event(st.now + PrefillMs(c, n), st.serial + 1,
          Finished(Preparation(id, intent.index, intent.revision, intent.keys[cached..cached + n])))
  }

  /** What the loop over intents has checked when it launches a preparation. */
  ghost predicate Preparable(c: Config, st: Sim, id: Id) {
    && id in st.states && st.states[id].status == Running && id in st.intents
    && |st.intents[id].keys| <= c.cacheBlocks && Distinct(st.intents[id].keys)
    && 0 < PreparationCount(c, st, st.intents[id])
    && (c.policy == FutureTiming ==> st.intents[id].eligibleAt <= st.now && !st.intents[id].willCancel)
  }

  lemma PreparationShape(c: Config, st: Sim, id: Id)
    requires c.prefill > 0.0 && Preparable(c, st, id)
    ensures Launched(st, LaunchPreparation(c, st, id, st.intents[id]), PreparationEvent(c, st, id, st.intents[id]))
  {
    PrefillTakesTime(c, PreparationCount(c, st, st.intents[id]));
    hide PrefillMs;
  }

  lemma PreparationGpu(c: Config, st: Sim, id: Id)
    requires Gpu(c, st) && Free(st) && Preparable(c, st, id) && c.prefill > 0.0
    ensures var s, e := LaunchPreparation(c, st, id, st.intents[id]), PreparationEvent(c, st, id, st.intents[id]);
            Gpu(c, s) && Handled(c, s, e.action)
  {
    hide PrefillMs, Gpu, Free, Distinct, LaunchPreparation, Reserve, CachedPrefix, Resident;
    var intent := st.intents[id];
    var cached, n := CachedPrefix(st.tags, intent.keys), PreparationCount(c, st, intent);
    var target := intent.keys[..cached + n];
    PreparationShape(c, st, id);
    TargetReserved(c, st, intent.keys, cached, n, target);
    TargetCovered(st, intent.keys, cached, n, target, intent.keys[cached..cached + n]);
    var s, e := LaunchPreparation(c, st, id, intent), PreparationEvent(c, st, id, intent);
    PreparationStats(c, st, id);
    LaunchGpu(c, st, s, target, e, n);
  }

  lemma TargetReserved(c: Config, st: Sim, keys: seq<Key>, cached: nat, n: nat, target: seq<Key>)
    requires Gpu(c, st) && Distinct(keys) && |keys| <= c.cacheBlocks
    requires cached + n <= |keys| && target == keys[..cached + n]
    ensures Distinct(target) && forall k :: k in target ==> k in Reserve(c, st, target).tags
  {
    hide OneJob, Accounted;
    ReserveShape(c, st, target);
  }

  /** The part of a preparation's target that is not cached is exactly what it computes. */
  lemma TargetCovered(st: Sim, keys: seq<Key>, cached: nat, n: nat, target: seq<Key>, computed: seq<Key>)
    requires cached == CachedPrefix(st.tags, keys) && cached + n <= |keys|
    requires target == keys[..cached + n] && computed == keys[cached..cached + n]
    ensures forall k :: k in target && !Resident(st.tags, k) ==> k in computed
    ensures forall k :: k in computed ==> k in target
  {
    forall k | k in target && !Resident(st.tags, k) ensures k in computed {
      var j :| 0 <= j < |target| && target[j] == k;
      assert computed[j - cached] == k;
    }
    forall k | k in computed ensures k in target {
      var j :| 0 <= j < |computed| && computed[j] == k;
      assert target[cached + j] == k;
    }
  }

  lemma PreparationStats(c: Config, st: Sim, id: Id)
    requires Preparable(c, st, id)
    ensures var intent := st.intents[id];
            var cached, n := CachedPrefix(st.tags, intent.keys), PreparationCount(c, st, intent);
            var s, r := LaunchPreparation(c, st, id, intent), Reserve(c, st, intent.keys[..cached + n]);
            && s.lru == r.lru && s.tags == r.tags && s.stats.peak == r.stats.peak
            && s.stats.useful == st.stats.useful && s.stats.ordinary == st.stats.ordinary
            && s.stats.computed == st.stats.computed + n <= c.budget
  {
    hide PrefillMs;
  }

  lemma PreparationTokens(c: Config, st: Sim, s: Sim, e: Event)
    requires OneToken(c, st) && Launched(st, s, e) && e.action.job.Preparation?
    ensures OneToken(c, s)
  {
    forall x ensures !TokenOf(e.action, x) { }
  }

  /** Under future timing every update of the intent is behind the eligible time, so none is left. */
  lemma PreparationIntents(c: Config, st: Sim, s: Sim, id: Id, e: Event)
    requires OwnIntent(st) && Foreseen(c, st) && Quiet(st) && Preparable(c, st, id) && Free(st)
    requires Launched(st, s, e) && e == PreparationEvent(c, st, id, st.intents[id])
    ensures OwnIntent(s) && Foreseen(c, s)
  {
    forall x, i: nat ensures Current(s, x, i) <==> Current(st, x, i) { }
    if c.policy == FutureTiming {
      forall f | f in s.events && f.action.Updated? && f.action.id == id
        ensures f.action.index != st.intents[id].index
      {
        assert f in st.events && st.now < f.at;
        assert !Current(st, id, f.action.index);
      }
      assert Settled(s, e.action.job);
    }
  }

  lemma LaunchPreparationKeeps(c: Config, st: Sim, id: Id)
    requires Validated(c) && Inv(c, st) && Free(st) && Quiet(st) && Preparable(c, st, id)
    ensures Inv(c, LaunchPreparation(c, st, id, st.intents[id]))
  {
    hide Linked, Gpu, OneToken, Clocked, OwnIntent, Foreseen, SerialsOk, Launched, LaunchPreparation, Free, Quiet, PrefillMs;
    var s, e := LaunchPreparation(c, st, id, st.intents[id]), PreparationEvent(c, st, id, st.intents[id]);
    PreparationShape(c, st, id);
    PreparationGpu(c, st, id);
    LaunchLinks(c, st, s, e);
    LaunchClock(c, st, s, e);
    PreparationTokens(c, st, s, e);
    PreparationIntents(c, st, s, id, e);
  }

  /******* Dispatch *******/

  lemma LaunchQuiet(st: Sim, s: Sim, e: Event)
    requires Quiet(st) && Launched(st, s, e)
    ensures Quiet(s)
  {
  }

  lemma WakesQuiet(c: Config, st: Sim, s: Sim)
    requires Quiet(st) && Free(st) && IntentsFit(c, st) && OnlyWakes(st, s)
    ensures Quiet(s) && Free(s) && IntentsFit(c, s)
  {
  }

  lemma PreparationQuiet(c: Config, st: Sim, id: Id)
    requires Quiet(st) && Preparable(c, st, id) && c.prefill > 0.0
    ensures Quiet(LaunchPreparation(c, st, id, st.intents[id]))
  {
    PreparationShape(c, st, id);
    LaunchQuiet(st, LaunchPreparation(c, st, id, st.intents[id]), PreparationEvent(c, st, id, st.intents[id]));
  }

  lemma ChosenPreparable(c: Config, st: Sim, id: Id)
    requires Inv(c, st) && id in st.intents && id in st.states && c.chunk >= 1 && st.stats.computed < c.budget
    requires !Idle(c, st, id)
    ensures Preparable(c, st, id)
  {
  }

  lemma {:induction false} DispatchPreparationKeeps(c: Config, st: Sim, i: nat)
    requires Validated(c) && Inv(c, st) && Free(st) && Quiet(st)
    requires i <= |st.intentOrder| && IntentsFit(c, st) && st.stats.computed < c.budget
    ensures Inv(c, DispatchPreparation(c, st, i)) && Quiet(DispatchPreparation(c, st, i))
    decreases |st.intentOrder| - i
  {
    hide Inv, Free, Quiet, Preparable, Launched, OnlyWakes;
    if i < |st.intentOrder| {
      var id := st.intentOrder[i];
      if Idle(c, st, id) {
        DispatchPreparationKeeps(c, st, i + 1);
      } else if TooEarly(c, st, st.intents[id]) {
        var s1 := ScheduleWakeup(c, st, st.intents[id]);
        WakeupShape(c, st, st.intents[id]);
        WakesKeep(c, st, s1);
        WakesQuiet(c, st, s1);
        DispatchPreparationKeeps(c, s1, i + 1);
      } else {
        ChosenPreparable(c, st, id);
        PreparationQuiet(c, st, id);
        LaunchPreparationKeeps(c, st, id);
      }
    }
  }

  lemma QueueDispatchable(c: Config, st: Sim, s: Sim)
    requires Validated(c) && Inv(c, st) && st.queue != [] && s == st.(queue := st.queue[1..])
    ensures Inv(c, s) && Dispatchable(c, s, st.queue[0])
  {
    var q := st.queue[0];
    assert q in st.queue && q.id in Ids(c);
    DropHeadKeeps(c, st, s);
    TurnValid(c, q.id, q.index);
  }

  lemma DemandQuiet(c: Config, st: Sim, q: Waiting)
    requires Validated(c) && Quiet(st) && Dispatchable(c, st, q)
    ensures Quiet(LaunchDemand(c, st, q))
  {
    DemandShape(c, st, q);
    LaunchQuiet(st, LaunchDemand(c, st, q), DemandEvent(c, st, q));
  }

  lemma DropHeadQuiet(st: Sim, s: Sim)
    requires Free(st) && Quiet(st) && s.events == st.events && s.now == st.now
    ensures Free(s) && Quiet(s)
  {
  }

  lemma {:induction false} DispatchQueueKeeps(c: Config, st: Sim)
    requires Validated(c) && Inv(c, st) && Free(st) && Quiet(st)
    ensures DispatchReady(c, st) && Inv(c, DispatchQueue(c, st)) && Quiet(DispatchQueue(c, st))
    decreases |st.queue|
  {
    hide Inv, Free, Quiet, Launched, LaunchDemand;
    InvDispatchReady(c, st);
    if st.queue == [] {
      if c.policy != Off && st.stats.computed < c.budget {
        DispatchPreparationKeeps(c, st, 0);
      }
    } else {
      var q, s1 := st.queue[0], st.(queue := st.queue[1..]);
      QueueDispatchable(c, st, s1);
      DropHeadQuiet(st, s1);
      if st.states[q.id].status != Running {
        DispatchQueueKeeps(c, s1);
      } else {
        LaunchDemandKeeps(c, s1, q);
        DemandQuiet(c, s1, q);
      }
    }
  }

  ghost predicate DispatchReady(c: Config, st: Sim) {
    && QueueFits(c, st.queue) && (forall q :: q in st.queue ==> q.id in st.states)
    && IntentsFit(c, st) && c.chunk >= 1
  }

  lemma InvDispatchReady(c: Config, st: Sim)
    requires Validated(c) && Inv(c, st)
    ensures DispatchReady(c, st)
    ensures forall id :: id in st.intents ==> id in st.states
  {
  }

  lemma FreeUnlessBusy(c: Config, st: Sim)
    requires Inv(c, st)
    ensures st.busy || Free(st)
  {
  }

  /** Once an instant is quiet, dispatch keeps the invariant and starts nothing at that instant. */
  lemma DispatchKeeps(c: Config, st: Sim)
    requires Validated(c) && Inv(c, st) && Quiet(st)
    ensures DispatchReady(c, st) && Inv(c, Dispatch(c, st)) && Quiet(Dispatch(c, st))
  {
    hide Inv, Quiet, Free, Validated;
    InvDispatchReady(c, st);
    FreeUnlessBusy(c, st);
    if !st.busy { DispatchQueueKeeps(c, st); }
  }

  /******* Who is served *******/

  /** Waiting requests come before preparations and are served in order: the first whose workflow still
      runs is started, the ones before it are dropped, and the ones behind it stay. */
  lemma {:induction false} DemandFirst(c: Config, st: Sim, i: nat)
    requires DispatchReady(c, st) && !st.busy && i < |st.queue| && st.states[st.queue[i].id].status == Running
    requires forall k :: 0 <= k < i ==> st.states[st.queue[k].id].status != Running
    ensures Dispatch(c, st) == LaunchDemand(c, st.(queue := st.queue[i + 1..]), st.queue[i])
    decreases i
  {
    hide LaunchDemand;
    if i > 0 {
      var s1 := st.(queue := st.queue[1..]);
      assert forall q :: q in s1.queue ==> q in st.queue;
      assert s1.queue[i - 1] == st.queue[i] && s1.queue[i..] == st.queue[i + 1..];
      assert s1.(queue := s1.queue[i..]) == st.(queue := st.queue[i + 1..]);
      DemandFirst(c, s1, i - 1);
    }
  }

  /** Preparation is considered only when no waiting request can be started. */
  lemma {:induction false} PreparationLast(c: Config, st: Sim)
    requires DispatchReady(c, st) && !st.busy
    requires forall q :: q in st.queue ==> st.states[q.id].status != Running
    ensures Dispatch(c, st) == DispatchIdle(c, st.(queue := []))
    decreases |st.queue|
  {
    hide DispatchPreparation;
    if st.queue == [] {
      assert st.(queue := []) == st;
    } else {
      var s1 := st.(queue := st.queue[1..]);
      assert forall q :: q in s1.queue ==> q in st.queue;
      assert s1.(queue := []) == st.(queue := []);
      PreparationLast(c, s1);
    }
  }
}
