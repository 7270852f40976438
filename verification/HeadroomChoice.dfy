/** What `dispatch` decides, told by what can be seen of the state before and after: which
    waiting request starts, which intent is prepared and how far, which wake-ups are set, and
    when nothing starts at all. */
module HeadroomChoice {
  import opened Numbers
  import opened HeadroomModel
  import opened HeadroomCache
  import opened HeadroomInvariant
  import opened HeadroomSteps
  import opened HeadroomJobs
  import opened HeadroomDispatch
  import opened HeadroomProgress
  import opened HeadroomHistory

  /******* Which intents are considered *******/

  /** The blocks of an intent from the first one that is not resident. */
  function Missing(st: Sim, intent: Intent): nat { |intent.keys| - CachedPrefix(st.tags, intent.keys) }

  /** Preparing the missing blocks from this time on ends when the request is ready. */
  function LatestStart(c: Config, st: Sim, intent: Intent): real {
    intent.readyAt - Missing(st, intent) as real * c.prefill
  }

  ghost predicate Considered(c: Config, st: Sim, id: Id)
    requires id in st.intents && id in st.states
  {
    var intent := st.intents[id];
    && intent.active && st.states[id].status == Running
    && (exists j :: 0 <= j < |intent.keys| && !Resident(st.tags, intent.keys[j]))
    && (c.policy == FutureTiming ==> !intent.willCancel && intent.eligibleAt <= st.now)
  }

  ghost predicate Wanted(c: Config, st: Sim, id: Id)
    requires id in st.intents && id in st.states
  {
    Considered(c, st, id) && (c.policy == FutureTiming ==> LatestStart(c, st, st.intents[id]) <= st.now)
  }

  ghost predicate Postponed(c: Config, st: Sim, id: Id)
    requires id in st.intents && id in st.states
  {
    Considered(c, st, id) && c.policy == FutureTiming && st.now < LatestStart(c, st, st.intents[id])
  }

  lemma ConsideredMeans(c: Config, st: Sim, id: Id)
    requires id in st.intents && id in st.states
    ensures Considered(c, st, id) <==> !Idle(c, st, id)
    ensures Considered(c, st, id) ==> Missing(st, st.intents[id]) > 0
    ensures TooEarly(c, st, st.intents[id]) <==> c.policy == FutureTiming && st.now < LatestStart(c, st, st.intents[id])
  {
    var intent := st.intents[id];
    var n := CachedPrefix(st.tags, intent.keys);
    if n < |intent.keys| { assert !Resident(st.tags, intent.keys[n]); }
  }

  /******* Passing over intents *******/

  ghost predicate WakeFor(c: Config, st: Sim, id: Id, e: Event)
    requires id in st.intents && id in st.states
  {
    Postponed(c, st, id) && e.action == Wake && e.at == LatestStart(c, st, st.intents[id])
  }

  ghost predicate Known(st: Sim, i: nat, k: nat) {
    i <= k <= |st.intentOrder| && forall j :: i <= j < k ==> st.intentOrder[j] in st.intents && st.intentOrder[j] in st.states
  }

  /** Of the intents `i..k` exactly the postponed ones got a wake-up, at their latest start. */
  ghost predicate Passed(c: Config, st: Sim, s: Sim, i: nat, k: nat)
    requires Known(st, i, k)
  {
    && OnlyWakes(st, s)
    && (forall j :: i <= j < k && Postponed(c, st, st.intentOrder[j]) ==>
          exists e :: e in s.events && WakeFor(c, st, st.intentOrder[j], e))
    && (forall e :: e in s.events && e !in st.events ==>
          exists j :: i <= j < k && WakeFor(c, st, st.intentOrder[j], e))
  }

  lemma PostponedWakes(c: Config, st: Sim, id: Id)
    requires c.prefill > 0.0 && id in st.intents && id in st.states && Postponed(c, st, id)
    ensures var at := LatestStart(c, st, st.intents[id]); ScheduleWakeup(c, st, st.intents[id]) == Push(st, at, Wake)
  {
    var intent := st.intents[id];
    ConsideredMeans(c, st, id);
    PrefillTakesTime(c, Missing(st, intent));
    assert Begin(c, st, intent) == LatestStart(c, st, intent) < intent.readyAt;
  }

  /** Wake-ups do not change which intents are considered. */
  lemma WakesKeepChoice(c: Config, st: Sim, s: Sim, id: Id)
    requires OnlyWakes(st, s) && id in st.intents && id in st.states
    ensures Wanted(c, s, id) <==> Wanted(c, st, id)
    ensures Postponed(c, s, id) <==> Postponed(c, st, id)
    ensures LatestStart(c, s, st.intents[id]) == LatestStart(c, st, st.intents[id])
  {
  }

  lemma PassOne(c: Config, st: Sim, s: Sim, i: nat)
    requires c.prefill > 0.0 && Known(st, i, i + 1)
    requires s == if Postponed(c, st, st.intentOrder[i]) then ScheduleWakeup(c, st, st.intents[st.intentOrder[i]]) else st
    ensures Passed(c, st, s, i, i + 1)
  {
    hide LatestStart, Considered;
    var id := st.intentOrder[i];
    if Postponed(c, st, id) {
      var at := LatestStart(c, st, st.intents[id]);
      PostponedWakes(c, st, id);
      WakeupShape(c, st, st.intents[id]);
      var e := Event(at, st.serial + 1, Wake);
      assert e in s.events && WakeFor(c, st, id, e);
    }
  }

  lemma WakesOnward(a: Sim, b: Sim, d: Sim)
    requires OnlyWakes(a, b) && OnlyWakes(b, d)
    ensures OnlyWakes(a, d)
  {
  }

  lemma WakeForStays(c: Config, st: Sim, s: Sim, id: Id, e: Event)
    requires OnlyWakes(st, s) && id in st.intents && id in st.states
    ensures WakeFor(c, s, id, e) <==> WakeFor(c, st, id, e)
  {
    hide LatestStart, OnlyWakes, Considered;
    WakesKeepChoice(c, st, s, id);
    WakesIntents(st, s);
  }

  lemma WakesIntents(st: Sim, s: Sim)
    requires OnlyWakes(st, s)
    ensures s.intents == st.intents && s.states == st.states && s.intentOrder == st.intentOrder && st.events <= s.events
  {
  }

  lemma PassMore(c: Config, st: Sim, s: Sim, t: Sim, i: nat, k: nat)
    requires i < k && Known(st, i, k) && Passed(c, st, s, i, i + 1)
    requires Known(s, i + 1, k) && Passed(c, s, t, i + 1, k)
    ensures Passed(c, st, t, i, k)
  {
    hide WakeFor, Postponed, OnlyWakes;
    WakesIntents(st, s);
    WakesIntents(s, t);
    WakesOnward(st, s, t);
    forall j, e | i < j < k ensures WakeFor(c, s, st.intentOrder[j], e) <==> WakeFor(c, st, st.intentOrder[j], e) {
      WakeForStays(c, st, s, st.intentOrder[j], e);
    }
    forall j | i <= j < k && Postponed(c, st, st.intentOrder[j])
      ensures exists e :: e in t.events && WakeFor(c, st, st.intentOrder[j], e)
    {
      if j == i {
        var e :| e in s.events && WakeFor(c, st, st.intentOrder[i], e);
      } else {
        WakesKeepChoice(c, st, s, st.intentOrder[j]);
        var e :| e in t.events && WakeFor(c, s, st.intentOrder[j], e);
      }
    }
    forall e | e in t.events && e !in st.events ensures exists j :: i <= j < k && WakeFor(c, st, st.intentOrder[j], e) {
      if e in s.events {
        var j :| i <= j < i + 1 && WakeFor(c, st, st.intentOrder[j], e);
      } else {
        var j :| i + 1 <= j < k && WakeFor(c, s, s.intentOrder[j], e);
      }
    }
  }

  lemma PassNone(c: Config, st: Sim, i: nat)
    requires Known(st, i, i)
    ensures Passed(c, st, st, i, i)
  {
  }

  /** The loop passes over the intents that are not wanted and reaches `k`. */
  lemma {:induction false} PassOver(c: Config, st: Sim, i: nat, k: nat) returns (s: Sim)
    requires c.prefill > 0.0 && c.chunk >= 1 && IntentsFit(c, st) && st.stats.computed < c.budget
    requires Known(st, i, k) && forall j :: i <= j < k ==> !Wanted(c, st, st.intentOrder[j])
    ensures Passed(c, st, s, i, k) && s.intentOrder == st.intentOrder && s.stats == st.stats && IntentsFit(c, s)
    ensures DispatchPreparation(c, st, i) == DispatchPreparation(c, s, k)
    decreases k - i
  {
    hide Passed, LatestStart, Idle, TooEarly, Considered;
    if i == k {
      s := st;
      PassNone(c, st, i);
    } else {
      var id := st.intentOrder[i];
      ConsideredMeans(c, st, id);
      var t := if Postponed(c, st, id) then ScheduleWakeup(c, st, st.intents[id]) else st;
      PassOne(c, st, t, i);
      WakeupShape(c, st, st.intents[id]);
      forall j | i < j < k ensures !Wanted(c, t, t.intentOrder[j]) { KeepUnwanted(c, st, t, st.intentOrder[j], id); }
      s := PassOver(c, t, i + 1, k);
      PassMore(c, st, t, s, i, k);
    }
  }

  lemma KeepUnwanted(c: Config, st: Sim, t: Sim, x: Id, id: Id)
    requires x in st.intents && x in st.states && id in st.intents && !Wanted(c, st, x)
    requires t == st || t == ScheduleWakeup(c, st, st.intents[id])
    ensures x in t.intents && x in t.states && !Wanted(c, t, x)
  {
    WakeupShape(c, st, st.intents[id]);
    if t != st { WakesKeepChoice(c, st, t, x); }
  }

  /******* A preparation starts *******/

  /** How many blocks a preparation of the intent takes. */
  function Portion(c: Config, st: Sim, intent: Intent): int {
    Min(Min(Missing(st, intent), c.budget - st.stats.computed), c.chunk)
  }

  /** The job that prepares the next blocks of the intent, due when they are prefilled. */
  ghost predicate FinishOf(c: Config, st: Sim, id: Id, e: Event)
    requires id in st.intents && 0 < Portion(c, st, st.intents[id])
  {
    var intent := st.intents[id];
    var cached, n := CachedPrefix(st.tags, intent.keys), Portion(c, st, intent);
    && e.at == st.now + PrefillMs(c, n)
    && e.action == Finished(Preparation(id, intent.index, intent.revision, intent.keys[cached..cached + n]))
  }

  /** The log and the counters of a started preparation; nothing else about the run changes. */
  ghost predicate Charged(c: Config, st: Sim, s: Sim, id: Id, intent: Intent, n: nat) {
    && s.trace == st.trace + [(st.now, PreparationStarted(id, intent.revision, n))]
    && s.busy && s.now == st.now && s.states == st.states && s.intents == st.intents && s.intentOrder == st.intentOrder
    && s.queue == []
    && s.stats == st.stats.(computed := st.stats.computed + n,
                            speculativeMs := st.stats.speculativeMs + PrefillMs(c, n), peak := s.stats.peak)
  }

  /** The cache holds the target's blocks as a reservation leaves them. */
  ghost predicate Holds(c: Config, st: Sim, s: Sim, target: seq<Key>) {
    |target| <= c.cacheBlocks && s.lru == Reserve(c, st, target).lru && s.tags == Reserve(c, st, target).tags
  }

  /** What is seen after a preparation of `id` was started in `st`. */
  ghost predicate StartedPreparing(c: Config, st: Sim, s: Sim, id: Id) {
    && id in st.intents && 0 < Portion(c, st, st.intents[id])
    && var intent := st.intents[id];
       var cached, n := CachedPrefix(st.tags, intent.keys), Portion(c, st, intent);
       && Charged(c, st, s, id, intent, n)
       && Holds(c, st, s, intent.keys[..cached + n])
       && (exists e :: e in s.events && e !in st.events && FinishOf(c, st, id, e))
  }

  lemma LaunchCharges(c: Config, st: Sim, s: Sim, id: Id, n: nat)
    requires id in st.intents && |st.intents[id].keys| <= c.cacheBlocks
    requires OnlyWakes(st, s) && st.queue == [] && 0 < n == PreparationCount(c, s, s.intents[id])
    ensures Charged(c, st, LaunchPreparation(c, s, id, s.intents[id]), id, st.intents[id], n)
  {
    hide PrefillMs, Reserve, CachedPrefix;
    var intent := st.intents[id];
    ReserveStats(c, s, intent.keys[..CachedPrefix(s.tags, intent.keys) + n]);
  }

  lemma LaunchHolds(c: Config, st: Sim, s: Sim, id: Id, n: nat)
    requires id in st.intents && |st.intents[id].keys| <= c.cacheBlocks
    requires OnlyWakes(st, s) && 0 < n == PreparationCount(c, s, s.intents[id])
    ensures Holds(c, st, LaunchPreparation(c, s, id, s.intents[id]), st.intents[id].keys[..CachedPrefix(st.tags, st.intents[id].keys) + n])
  {
    hide PrefillMs, Reserve, CachedPrefix;
    var intent := st.intents[id];
    ReserveSame(c, st, s, intent.keys[..CachedPrefix(s.tags, intent.keys) + n]);
  }

  lemma LaunchDue(c: Config, st: Sim, s: Sim, id: Id)
    requires id in st.intents && |st.intents[id].keys| <= c.cacheBlocks && 0 < Portion(c, st, st.intents[id])
    requires OnlyWakes(st, s) && SerialsOk(st.events, st.serial) && 0 < PreparationCount(c, s, s.intents[id])
    ensures var t := LaunchPreparation(c, s, id, s.intents[id]);
            && (exists e :: e in t.events && e !in st.events && FinishOf(c, st, id, e))
            && forall e :: e in t.events && e !in s.events ==> FinishOf(c, st, id, e)
  {
    hide PrefillMs, Reserve, CachedPrefix;
    var t, e := LaunchPreparation(c, s, id, s.intents[id]), PreparationEvent(c, s, id, s.intents[id]);
    var intent := s.intents[id];
    ReserveStats(c, s, intent.keys[..CachedPrefix(s.tags, intent.keys) + PreparationCount(c, s, intent)]);
    assert t.events == s.events + {e} && FinishOf(c, st, id, e);
    assert e !in st.events && e in t.events;
  }

  lemma LaunchSeen(c: Config, st: Sim, s: Sim, id: Id)
    requires id in st.intents && |st.intents[id].keys| <= c.cacheBlocks && 0 < Portion(c, st, st.intents[id])
    requires OnlyWakes(st, s) && SerialsOk(st.events, st.serial) && st.queue == []
    ensures 0 < PreparationCount(c, s, s.intents[id])
    ensures var t := LaunchPreparation(c, s, id, s.intents[id]);
            && StartedPreparing(c, st, t, id)
            && forall e :: e in t.events && e !in s.events ==> FinishOf(c, st, id, e)
  {
    hide PrefillMs, Charged, Holds, FinishOf, CachedPrefix, LaunchPreparation;
    var n := Portion(c, st, st.intents[id]);
    LaunchCharges(c, st, s, id, n);
    LaunchHolds(c, st, s, id, n);
    LaunchDue(c, st, s, id);
  }

  lemma ReserveSame(c: Config, st: Sim, s: Sim, keys: seq<Key>)
    requires |keys| <= c.cacheBlocks && s.lru == st.lru && s.tags == st.tags
    ensures Reserve(c, s, keys).lru == Reserve(c, st, keys).lru && Reserve(c, s, keys).tags == Reserve(c, st, keys).tags
  {
  }

  /** No waiting request can be started. */
  ghost predicate NoneWaiting(st: Sim) {
    forall q :: q in st.queue ==> q.id in st.states && st.states[q.id].status != Running
  }

  lemma AllKnown(c: Config, st: Sim)
    requires Validated(c) && Inv(c, st)
    ensures Known(st, 0, |st.intentOrder|) && c.prefill > 0.0 && DispatchReady(c, st)
    ensures forall id :: id in st.intentOrder ==> id in st.intents && id in st.states && |st.intents[id].keys| <= c.cacheBlocks
  {
  }

  /** The queue plays no part in the choice of an intent. */
  lemma QueueApart(c: Config, st: Sim, bare: Sim, id: Id, e: Event)
    requires bare == st.(queue := []) && id in st.intents && id in st.states
    ensures Wanted(c, bare, id) <==> Wanted(c, st, id)
    ensures Postponed(c, bare, id) <==> Postponed(c, st, id)
    ensures WakeFor(c, bare, id, e) <==> WakeFor(c, st, id, e)
  {
  }

  lemma StartedApart(c: Config, st: Sim, bare: Sim, s: Sim, id: Id)
    requires bare == st.(queue := []) && StartedPreparing(c, bare, s, id)
    ensures StartedPreparing(c, st, s, id)
    ensures forall e :: FinishOf(c, bare, id, e) <==> FinishOf(c, st, id, e)
  {
    hide CachedPrefix, PrefillMs, Charged, Holds, FinishOf;
    var intent := st.intents[id];
    var cached, n := CachedPrefix(st.tags, intent.keys), Portion(c, st, intent);
    ChargedApart(c, st, bare, s, id, intent, n);
    HoldsApart(c, st, bare, s, intent.keys[..cached + n]);
    forall e ensures FinishOf(c, bare, id, e) <==> FinishOf(c, st, id, e) { FinishApart(c, st, bare, id, e); }
  }

  lemma ChargedApart(c: Config, st: Sim, bare: Sim, s: Sim, id: Id, intent: Intent, n: nat)
    requires bare == st.(queue := [])
    ensures Charged(c, bare, s, id, intent, n) <==> Charged(c, st, s, id, intent, n)
  {
    hide PrefillMs;
  }

  lemma HoldsApart(c: Config, st: Sim, bare: Sim, s: Sim, target: seq<Key>)
    requires bare == st.(queue := [])
    ensures Holds(c, bare, s, target) <==> Holds(c, st, s, target)
  {
    hide Reserve;
    if |target| <= c.cacheBlocks { ReserveSame(c, st, bare, target); }
  }

  lemma FinishApart(c: Config, st: Sim, bare: Sim, id: Id, e: Event)
    requires bare == st.(queue := []) && id in st.intents && 0 < Portion(c, st, st.intents[id])
    ensures 0 < Portion(c, bare, bare.intents[id])
    ensures FinishOf(c, bare, id, e) <==> FinishOf(c, st, id, e)
  {
    hide CachedPrefix, PrefillMs;
  }

  lemma PassedApart(c: Config, st: Sim, bare: Sim, s: Sim, k: nat)
    requires bare == st.(queue := []) && Known(st, 0, k) && Known(bare, 0, k) && Passed(c, bare, s, 0, k)
    ensures forall j :: 0 <= j < k && Postponed(c, st, st.intentOrder[j]) ==>
              exists e :: e in s.events && WakeFor(c, st, st.intentOrder[j], e)
    ensures forall e :: e in s.events && e !in st.events ==>
              exists j :: 0 <= j < k && WakeFor(c, st, st.intentOrder[j], e)
  {
    hide WakeFor, Postponed, OnlyWakes;
    forall j, e | 0 <= j < k
      ensures WakeFor(c, bare, st.intentOrder[j], e) <==> WakeFor(c, st, st.intentOrder[j], e)
    {
      QueueApart(c, st, bare, st.intentOrder[j], e);
    }
    forall j | 0 <= j < k && Postponed(c, st, st.intentOrder[j])
      ensures exists e :: e in s.events && WakeFor(c, st, st.intentOrder[j], e)
    {
      QueueApart(c, st, bare, st.intentOrder[j], Event(0.0, 0, Wake));
    }
    forall e | e in s.events && e !in st.events ensures exists j :: 0 <= j < k && WakeFor(c, st, st.intentOrder[j], e) {
      var j :| 0 <= j < k && WakeFor(c, bare, bare.intentOrder[j], e);
    }
  }

  /** The loop stops at a wanted intent and launches its preparation. */
  lemma StopAt(c: Config, st: Sim, s: Sim, k: nat)
    requires c.prefill > 0.0 && c.chunk >= 1 && IntentsFit(c, s) && st.stats.computed < c.budget
    requires OnlyWakes(st, s) && SerialsOk(st.events, st.serial) && st.queue == []
    requires k < |st.intentOrder| && st.intentOrder[k] in st.intents && st.intentOrder[k] in st.states
    requires |st.intents[st.intentOrder[k]].keys| <= c.cacheBlocks && Wanted(c, st, st.intentOrder[k])
    ensures var t, id := DispatchPreparation(c, s, k), st.intentOrder[k];
            && StartedPreparing(c, st, t, id) && s.events <= t.events
            && forall e :: e in t.events && e !in s.events ==> FinishOf(c, st, id, e)
  {
    hide Idle, TooEarly, LaunchPreparation, StartedPreparing, FinishOf, Considered, LatestStart;
    var id := st.intentOrder[k];
    WakesKeepChoice(c, st, s, id);
    ConsideredMeans(c, s, id);
    ConsideredMeans(c, st, id);
    LaunchSeen(c, st, s, id);
    LaunchAdds(c, s, id);
  }

  lemma LaunchAdds(c: Config, st: Sim, id: Id)
    requires id in st.intents && |st.intents[id].keys| <= c.cacheBlocks && 0 < PreparationCount(c, st, st.intents[id])
    ensures st.events <= LaunchPreparation(c, st, id, st.intents[id]).events
  {
  }

  /** When nothing else is to do, the first intent that is wanted is prepared: as many of its missing
      blocks as budget and chunk allow, and the job is due when they are prefilled.  Of the intents
      before it exactly the postponed ones get a wake-up, at their latest start. */
  lemma PreparationStarts(c: Config, st: Sim, k: nat)
    requires Validated(c) && Inv(c, st) && !st.busy && NoneWaiting(st)
    requires c.policy != Off && st.stats.computed < c.budget
    requires k < |st.intentOrder| && Known(st, 0, |st.intentOrder|)
    requires Wanted(c, st, st.intentOrder[k]) && forall j :: 0 <= j < k ==> !Wanted(c, st, st.intentOrder[j])
    ensures DispatchReady(c, st)
    ensures var s, id := Dispatch(c, st), st.intentOrder[k];
            && StartedPreparing(c, st, s, id)
            && (forall j :: 0 <= j < k && Postponed(c, st, st.intentOrder[j]) ==>
                  exists e :: e in s.events && WakeFor(c, st, st.intentOrder[j], e))
            && (forall e :: e in s.events && e !in st.events ==>
                  FinishOf(c, st, id, e) || exists j :: 0 <= j < k && WakeFor(c, st, st.intentOrder[j], e))
  {
    hide Inv, Validated, Wanted, WakeFor, StartedPreparing, FinishOf, Portion, Postponed, Dispatch, DispatchPreparation, OnlyWakes;
    AllKnown(c, st);
    InvSerials(c, st);
    PreparationLast(c, st);
    var bare, id := st.(queue := []), st.intentOrder[k];
    forall x | x in st.intentOrder ensures Wanted(c, bare, x) <==> Wanted(c, st, x) {
      QueueApart(c, st, bare, x, Event(0.0, 0, Wake));
    }
    var s := PassOver(c, bare, 0, k);
    StopAt(c, bare, s, k);
    StartedApart(c, st, bare, Dispatch(c, st), id);
    PassedApart(c, st, bare, s, k);
  }

  /** When no intent is wanted, the policy is off or the budget is used up, nothing starts: at most
      wake-ups are set, exactly for the postponed intents and only while budget is left. */
  lemma NothingStarts(c: Config, st: Sim)
    requires Validated(c) && Inv(c, st) && !st.busy && NoneWaiting(st) && Known(st, 0, |st.intentOrder|)
    requires c.policy == Off || c.budget <= st.stats.computed
          || forall j :: 0 <= j < |st.intentOrder| ==> !Wanted(c, st, st.intentOrder[j])
    ensures DispatchReady(c, st)
    ensures var s := Dispatch(c, st);
            && s == st.(queue := [], events := s.events, serial := s.serial) && st.events <= s.events
            && (c.policy == Off || c.budget <= st.stats.computed ==> s.events == st.events)
            && (c.policy != Off && st.stats.computed < c.budget ==>
                  forall j :: 0 <= j < |st.intentOrder| && Postponed(c, st, st.intentOrder[j]) ==>
                    exists e :: e in s.events && WakeFor(c, st, st.intentOrder[j], e))
            && (forall e :: e in s.events && e !in st.events ==>
                  exists j :: 0 <= j < |st.intentOrder| && WakeFor(c, st, st.intentOrder[j], e))
  {
    hide Inv, Validated, Wanted, WakeFor, Postponed, DispatchPreparation;
    AllKnown(c, st);
    PreparationLast(c, st);
    if c.policy != Off && st.stats.computed < c.budget {
      var bare, k := st.(queue := []), |st.intentOrder|;
      forall x | x in st.intentOrder ensures Wanted(c, bare, x) <==> Wanted(c, st, x) {
        QueueApart(c, st, bare, x, Event(0.0, 0, Wake));
      }
      var s := PassOver(c, bare, 0, k);
      LoopEnds(c, s);
      PassedApart(c, st, bare, s, k);
    }
  }

  lemma LoopEnds(c: Config, st: Sim)
    requires c.chunk >= 1 && IntentsFit(c, st) && st.stats.computed < c.budget
    ensures DispatchPreparation(c, st, |st.intentOrder|) == st
  {
  }

  /** While a job is in flight nothing else is chosen. */
  lemma BusyWaits(c: Config, st: Sim)
    requires DispatchReady(c, st) && st.busy
    ensures Dispatch(c, st) == st
  {
  }

  /******* A request starts *******/

  /** The hits of a prompt that a preparation computed and nothing has used since. */
  ghost function PreparedHits(st: Sim, hits: seq<Key>): set<Key> { set k | k in hits && k in st.tags && st.tags[k] == Speculative }

  lemma HitsExact(st: Sim, hits: seq<Key>)
    requires forall k :: k in hits ==> k in st.tags
    ensures Hits(st, hits).stats.useful == st.stats.useful + |PreparedHits(st, hits)|
  {
    hide Hits;
    HitsCount(st, hits);
    var r, used := Hits(st, hits), PreparedHits(st, hits);
    assert Fresh(st.tags) == Fresh(r.tags) + used;
    assert Fresh(r.tags) !! used;
  }

  /** What is seen after the request `q` was started in `st`. */
  ghost predicate StartedServing(c: Config, st: Sim, s: Sim, q: Waiting) {
    && q.index < |Turns(c, q.id)|
    && var turn := Turns(c, q.id)[q.index];
       var keys, cached := BlockKeys(turn.prompt + turn.generated), CachedPrefix(st.tags, BlockKeys(turn.prompt));
       var hits, cost := BlockKeys(turn.prompt)[..cached], PrefillMs(c, |turn.prompt| - cached) + turn.decode;
       && s.trace == st.trace + [(st.now, RequestStarted(q.id, q.index, cost, cached))]
       && s.busy && s.now == st.now && s.states == st.states && s.intents == st.intents && s.intentOrder == st.intentOrder
       && s.events == st.events + {Event(st.now + cost, st.serial + 1, Finished(Demand(q.id, q.index, keys, q.ready, cached)))}
       && s.stats == st.stats.(demandMs := st.stats.demandMs + cost, useful := st.stats.useful + |PreparedHits(st, hits)|,
                               ordinary := st.stats.ordinary + cached - |PreparedHits(st, hits)|, peak := s.stats.peak)
       && |keys| <= c.cacheBlocks && s.lru == Reserve(c, st, keys).lru && s.tags.Keys == Reserve(c, st, keys).tags.Keys
       && (forall k :: k in s.tags ==> s.tags[k] == if k in hits then Ordinary else Reserve(c, st, keys).tags[k])
  }

  lemma ServingStats(c: Config, st: Sim, q: Waiting)
    requires Dispatchable(c, st, q)
    ensures var turn, s := Turns(c, q.id)[q.index], LaunchDemand(c, st, q);
            var cached := CachedPrefix(st.tags, BlockKeys(turn.prompt));
            var hits, cost := BlockKeys(turn.prompt)[..cached], PrefillMs(c, |turn.prompt| - cached) + turn.decode;
            s.stats == st.stats.(demandMs := st.stats.demandMs + cost, useful := st.stats.useful + |PreparedHits(st, hits)|,
                                 ordinary := st.stats.ordinary + cached - |PreparedHits(st, hits)|, peak := s.stats.peak)
  {
    hide PrefillMs, Reserve, Hits, BlockKeys, Turns, PreparedHits;
    var turn := Turns(c, q.id)[q.index];
    var hits := BlockKeys(turn.prompt)[..PromptHits(st, turn)];
    HitsCount(st, hits);
    HitsExact(st, hits);
    ReserveStats(c, Hits(st, hits), DemandKeys(turn));
  }

  lemma ServingCache(c: Config, st: Sim, q: Waiting)
    requires Dispatchable(c, st, q)
    ensures var turn, s := Turns(c, q.id)[q.index], LaunchDemand(c, st, q);
            var keys, hits := BlockKeys(turn.prompt + turn.generated), BlockKeys(turn.prompt)[..CachedPrefix(st.tags, BlockKeys(turn.prompt))];
            && s.lru == Reserve(c, st, keys).lru && s.tags.Keys == Reserve(c, st, keys).tags.Keys
            && forall k :: k in s.tags ==> s.tags[k] == if k in hits then Ordinary else Reserve(c, st, keys).tags[k]
  {
    hide PrefillMs, Hits, BlockKeys, Turns, ReservedOrder;
    var turn := Turns(c, q.id)[q.index];
    HitsCount(st, BlockKeys(turn.prompt)[..PromptHits(st, turn)]);
  }

  lemma ServingLog(c: Config, st: Sim, q: Waiting)
    requires c.prefill > 0.0 && Dispatchable(c, st, q)
    ensures var turn, s := Turns(c, q.id)[q.index], LaunchDemand(c, st, q);
            var keys, cached := BlockKeys(turn.prompt + turn.generated), CachedPrefix(st.tags, BlockKeys(turn.prompt));
            var cost := PrefillMs(c, |turn.prompt| - cached) + turn.decode;
            && s.trace == st.trace + [(st.now, RequestStarted(q.id, q.index, cost, cached))] && s.queue == st.queue
            && s.busy && s.now == st.now && s.states == st.states && s.intents == st.intents && s.intentOrder == st.intentOrder
            && s.events == st.events + {Event(st.now + cost, st.serial + 1, Finished(Demand(q.id, q.index, keys, q.ready, cached)))}
  {
    hide PrefillMs, Reserve, Hits, BlockKeys, Turns;
    var turn := Turns(c, q.id)[q.index];
    HitsCount(st, BlockKeys(turn.prompt)[..PromptHits(st, turn)]);
    ReserveStats(c, Hits(st, BlockKeys(turn.prompt)[..PromptHits(st, turn)]), DemandKeys(turn));
  }

  lemma Serves(c: Config, st: Sim, q: Waiting)
    requires c.prefill > 0.0 && Dispatchable(c, st, q)
    ensures StartedServing(c, st, LaunchDemand(c, st, q), q)
  {
    hide PrefillMs, Reserve, BlockKeys, Turns, LaunchDemand, PreparedHits;
    ServingStats(c, st, q);
    ServingCache(c, st, q);
    ServingLog(c, st, q);
  }

  lemma FirstDispatchable(c: Config, st: Sim, s: Sim, i: nat)
    requires Validated(c) && Inv(c, st) && i < |st.queue| && s == st.(queue := st.queue[i + 1..])
    ensures Dispatchable(c, s, st.queue[i])
  {
    var q := st.queue[i];
    assert q in st.queue && q.id in Ids(c);
    TurnValid(c, q.id, q.index);
    forall p | p in s.queue ensures p.id != q.id {
      var j :| 0 <= j < |s.queue| && s.queue[j] == p;
      assert st.queue[i + 1 + j] == p;
    }
  }

  /** The first waiting request whose workflow still runs is started: it is charged for the blocks that are not
      cached and for decoding, its hits are counted by where they came from, and it is due after its cost. */
  lemma RequestStarts(c: Config, st: Sim, i: nat)
    requires Validated(c) && Inv(c, st) && !st.busy && i < |st.queue|
    requires forall q :: q in st.queue ==> q.id in st.states
    requires st.states[st.queue[i].id].status == Running && forall k :: 0 <= k < i ==> st.states[st.queue[k].id].status != Running
    ensures DispatchReady(c, st)
    ensures var s := Dispatch(c, st); StartedServing(c, st, s, st.queue[i]) && s.queue == st.queue[i + 1..]
  {
    hide Inv, LaunchDemand, StartedServing, Validated, Dispatchable;
    AllKnown(c, st);
    DemandFirst(c, st, i);
    var bare := st.(queue := st.queue[i + 1..]);
    FirstDispatchable(c, st, bare, i);
    Serves(c, bare, st.queue[i]);
    ServingLog(c, bare, st.queue[i]);
    ServingApart(c, st, bare, Dispatch(c, st), st.queue[i]);
  }

  lemma ServingApart(c: Config, st: Sim, bare: Sim, s: Sim, q: Waiting)
    requires bare == st.(queue := bare.queue) && StartedServing(c, bare, s, q)
    ensures StartedServing(c, st, s, q)
  {
    hide PrefillMs, Reserve, BlockKeys, Turns, CachedPrefix;
    var turn := Turns(c, q.id)[q.index];
    var keys, hits := BlockKeys(turn.prompt + turn.generated), BlockKeys(turn.prompt)[..CachedPrefix(st.tags, BlockKeys(turn.prompt))];
    ReserveSame(c, st, bare, keys);
    assert PreparedHits(st, hits) == PreparedHits(bare, hits);
  }

  /******* Jobs end *******/

  /** A finished preparation leaves its blocks as speculative entries, a finished request its blocks as ordinary
      ones; no other entry changes, and the GPU is free. */
  lemma FinishTags(c: Config, st: Sim, e: Event)
    requires e.action.Finished? && Handled(c, st, e.action) && SerialsOk(st.events, st.serial)
    ensures var s, job := Fire(c, st, e), e.action.job;
            && s.lru == st.lru && !s.busy && s.tags.Keys == st.tags.Keys
            && forall k :: k in s.tags ==>
                 s.tags[k] == if job.Preparation? && k in job.computed then Speculative
                              else if job.Demand? && k in job.keys then Ordinary else st.tags[k]
  {
    hide SerialsOk, StartTurn, Obsolete, Flow;
    PopSerials(st, e);
    var job := e.action.job;
    if job.Demand? {
      var s1 := Record(Pop(st, e), job);
      if s1.states[job.id].status == Running && job.index + 1 < |Turns(c, job.id)| {
        StartTurnKeepsCache(c, s1, job.id, job.index + 1);
      }
    }
  }

  lemma StartTurnKeepsCache(c: Config, st: Sim, id: Id, index: nat)
    requires id in st.states && index < |Turns(c, id)| && SerialsOk(st.events, st.serial)
    ensures var s := StartTurn(c, st, id, index); s.tags == st.tags && s.lru == st.lru && s.busy == st.busy
  {
    if st.states[id].status == Running { StartTurnShape(c, st, id, index); }
  }
}
