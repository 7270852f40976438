/** Which preparations are late, and what an intent asks for at any time: the updates whose time
    has come, and no others, have been applied to it, in order. */
module HeadroomRevisions {
  import opened HeadroomModel
  import opened HeadroomInvariant
  import opened HeadroomSteps
  import opened HeadroomJobs
  import opened HeadroomDispatch
  import opened HeadroomProgress
  import opened HeadroomHistory
  import opened HeadroomTimes

  /******* Late preparations *******/

  /** The blocks of a preparation that finished after the workflow's next turn was ready, that is, later
      than its last finished request by more than the wait. */
  function LateBy(c: Config, log: Journal, x: (real, Entry)): nat {
    if x.1.PreparationFinished? && |Ended(log, x.1.id)| < |Turns(c, x.1.id)|
       && x.0 > LastEnd(log, x.1.id) + Turns(c, x.1.id)[|Ended(log, x.1.id)|].wait
    then x.1.blocks else 0
  }

  function LateBlocks(c: Config, log: Journal): nat {
    if log == [] then 0 else LateBlocks(c, log[..|log| - 1]) + LateBy(c, log[..|log| - 1], log[|log| - 1])
  }

  lemma LateSnoc(c: Config, log: Journal, x: (real, Entry))
    ensures LateBlocks(c, log + [x]) == LateBlocks(c, log) + LateBy(c, log, x)
  {
    Init(log, x);
  }

  ghost predicate LateTold(c: Config, st: Sim) { st.stats.late == LateBlocks(c, st.trace) }

  /** No preparation finished. */
  ghost predicate NoneEnds(st: Sim, s: Sim) {
    && s.stats.late == st.stats.late
    && (s.trace == st.trace || exists x :: s.trace == st.trace + [(st.now, x)] && !x.PreparationFinished?)
  }

  lemma NoneEndsLate(c: Config, st: Sim, s: Sim)
    requires LateTold(c, st) && NoneEnds(st, s)
    ensures LateTold(c, s)
  {
    hide LateBlocks, Turns;
    if s.trace != st.trace {
      var x :| s.trace == st.trace + [(st.now, x)] && !x.PreparationFinished?;
      LateSnoc(c, st.trace, (st.now, x));
    }
  }

  lemma DeadlineEnds(st: Sim, id: Id)
    requires id in st.states
    ensures NoneEnds(st, OnDeadline(st, id))
  {
    var s := OnDeadline(st, id);
    if s.trace != st.trace { assert s.trace == st.trace + [(st.now, DeadlineHit(id))]; }
  }

  lemma ReadyEnds(st: Sim, id: Id, index: nat)
    requires id in st.states
    ensures NoneEnds(st, OnReady(st, id, index))
  {
    var s := OnReady(st, id, index);
    if s.trace != st.trace { assert s.trace == st.trace + [(st.now, RequestReady(id, index))]; }
  }

  lemma UpdateEnds(c: Config, st: Sim, id: Id, index: nat, u: Update)
    requires id in st.states
    ensures NoneEnds(st, OnUpdate(c, st, id, index, u))
  {
    hide BlockKeys, Begin;
    var s := OnUpdate(c, st, id, index, u);
    if s.trace != st.trace {
      var x := if u.Cancel? then CancelSeen(id) else RevisionSeen(id, s.intents[id].revision);
      assert s.trace == st.trace + [(st.now, x)];
    }
  }

  lemma OtherEnds(c: Config, st: Sim, a: Action)
    requires SerialsOk(st.events, st.serial) && !a.Finished? && Handled(c, st, a)
    ensures NoneEnds(st, Handle(c, st, a))
  {
    hide SerialsOk, StartTurn, OnDeadline, OnReady, OnUpdate;
    match a {
      case Arrival(id) => StartTurnNeutral(c, st, id, 0);
      case Deadline(id) => DeadlineEnds(st, id);
      case Ready(id, index) => ReadyEnds(st, id, index);
      case Updated(id, index, u) => UpdateEnds(c, st, id, index, u);
      case Wake =>
    }
  }

  lemma DemandEnds(c: Config, st: Sim, e: Event)
    requires SerialsOk(st.events, st.serial) && e.action.Finished? && e.action.job.Demand? && Handled(c, st, e.action)
    ensures NoneEnds(st, Fire(c, st, e))
  {
    hide SerialsOk, StartTurn, SetTags, Flow;
    var s1, job := Record(Pop(st, e), e.action.job), e.action.job;
    PopSerials(st, e);
    if s1.states[job.id].status == Running && job.index + 1 < |Turns(c, job.id)| {
      StartTurnNeutral(c, s1, job.id, job.index + 1);
    }
    assert Fire(c, st, e).trace == st.trace + [(st.now, RequestFinished(job.id, job.index))];
  }

  /** What the log says of the turn that a finished preparation was for. */
  lemma FinishedFor(c: Config, st: Sim, e: Event)
    requires Inv(c, st) && Timely(c, st) && InOrder(c, st) && e in st.events && e.action.Finished? && e.action.job.Preparation?
    ensures var job := e.action.job; var n := |Ended(st.trace, job.id)|;
            && job.id in st.intents && n < |Turns(c, job.id)|
            && st.intents[job.id].readyAt == LastEnd(st.trace, job.id) + Turns(c, job.id)[n].wait
  {
    hide Gpu, OneToken, Clocked, Foreseen, SerialsOk, WaitingTimely, Turns, Ended, Started, SumStarted, JobsStarted, Prepared, RowTimely, LastEnd;
    var job := e.action.job;
    assert EventTimely(c, st, e);
    assert IntentTimely(c, st, job.id);
    assert ProgressTimely(c, st.trace, st.states[job.id], job.id);
  }

  lemma PreparationLate(c: Config, st: Sim, e: Event)
    requires Inv(c, st) && Timely(c, st) && InOrder(c, st) && LateTold(c, st)
    requires e in st.events && e.action.Finished? && e.action.job.Preparation? && Handled(c, st, e.action)
    ensures LateTold(c, Fire(c, st, e))
  {
    hide Inv, Timely, InOrder, LateBlocks, SetTags, Obsolete, Ended, LastEnd, Turns;
    var job := e.action.job;
    FinishedFor(c, st, e);
    LateSnoc(c, st.trace, (st.now, PreparationFinished(job.id, |job.computed|, Obsolete(Pop(st, e), job))));
  }

  lemma FireLate(c: Config, st: Sim, e: Event)
    requires Inv(c, st) && Timely(c, st) && InOrder(c, st) && LateTold(c, st) && e in st.events && Handled(c, st, e.action)
    ensures LateTold(c, Fire(c, st, e))
  {
    hide Inv, Timely, InOrder, LateTold, SerialsOk, Handle;
    InvSerials(c, st);
    if !e.action.Finished? {
      PopSerials(st, e);
      OtherEnds(c, Pop(st, e), e.action);
      NoneEndsLate(c, st, Fire(c, st, e));
    } else if e.action.job.Demand? {
      DemandEnds(c, st, e);
      NoneEndsLate(c, st, Fire(c, st, e));
    } else {
      PreparationLate(c, st, e);
    }
  }

  lemma LaunchDemandLate(c: Config, st: Sim, q: Waiting)
    requires c.prefill > 0.0 && LateTold(c, st) && Dispatchable(c, st, q) && Free(st)
    ensures LateTold(c, LaunchDemand(c, st, q))
  {
    hide LateTold, LaunchDemand, Free, InFlight;
    DemandLog(c, st, q);
    NoneEndsLate(c, st, LaunchDemand(c, st, q));
  }

  lemma LaunchPreparationLate(c: Config, st: Sim, id: Id, intent: Intent)
    requires LateTold(c, st) && |intent.keys| <= c.cacheBlocks && 0 < PreparationCount(c, st, intent)
    ensures LateTold(c, LaunchPreparation(c, st, id, intent))
  {
    hide LateTold, LaunchPreparation, PrefillMs, PreparationCount;
    PreparationLog(c, st, id, intent);
    NoneEndsLate(c, st, LaunchPreparation(c, st, id, intent));
  }

  lemma {:induction false} DispatchPreparationLate(c: Config, st: Sim, i: nat)
    requires Validated(c) && Inv(c, st) && LateTold(c, st)
    requires i <= |st.intentOrder| && IntentsFit(c, st) && st.stats.computed < c.budget
    ensures LateTold(c, DispatchPreparation(c, st, i))
    decreases |st.intentOrder| - i
  {
    hide Inv, LateTold, LaunchPreparation, TooEarly;
    if i < |st.intentOrder| {
      var id := st.intentOrder[i];
      if Idle(c, st, id) {
        DispatchPreparationLate(c, st, i + 1);
      } else if TooEarly(c, st, st.intents[id]) {
        var s1 := ScheduleWakeup(c, st, st.intents[id]);
        WakeupShape(c, st, st.intents[id]);
        WakesKeep(c, st, s1);
        NoneEndsLate(c, st, s1);
        DispatchPreparationLate(c, s1, i + 1);
      } else {
        LaunchPreparationLate(c, st, id, st.intents[id]);
      }
    }
  }

  lemma {:induction false} DispatchQueueLate(c: Config, st: Sim)
    requires Validated(c) && Inv(c, st) && Free(st) && DispatchReady(c, st) && LateTold(c, st)
    ensures LateTold(c, DispatchQueue(c, st))
    decreases |st.queue|
  {
    hide Inv, LateTold, LaunchDemand;
    if st.queue == [] {
      if c.policy != Off && st.stats.computed < c.budget { DispatchPreparationLate(c, st, 0); }
    } else {
      var q, s1 := st.queue[0], st.(queue := st.queue[1..]);
      QueueDispatchable(c, st, s1);
      NoneEndsLate(c, st, s1);
      InvDispatchReady(c, s1);
      if st.states[q.id].status != Running { DispatchQueueLate(c, s1); } else { LaunchDemandLate(c, s1, q); }
    }
  }

  lemma DispatchLate(c: Config, st: Sim)
    requires Validated(c) && Inv(c, st) && DispatchReady(c, st) && LateTold(c, st)
    ensures LateTold(c, Dispatch(c, st))
  {
    hide Inv, LateTold, Validated;
    FreeUnlessBusy(c, st);
    if !st.busy { DispatchQueueLate(c, st); }
  }

  /******* Updates in order *******/

  /** What the intent of a turn asks for after its first `n` updates. */
  function PrefixAfter(turn: Turn, n: nat): seq<Block>
    requires n <= |turn.updates|
  {
    if n == 0 then turn.intent
    else if turn.updates[n - 1].Revise? then turn.updates[n - 1].prefix
    else PrefixAfter(turn, n - 1)
  }

  function UpdateAt(start: real, b: nat, id: Id, index: nat, updates: seq<Update>, j: nat): Event
    requires j < |updates|
  {
    Event(start + updates[j].at, b + j, Updated(id, index, updates[j]))
  }

  predicate UpdateOf(e: Event, id: Id, index: nat) { e.action.Updated? && e.action.id == id && e.action.index == index }

  /** The first `n` updates have come, the others are scheduled one after the other, with serial numbers from `b` on. */
  ghost predicate Scheduled(events: set<Event>, now: real, start: real, b: nat, id: Id, index: nat, updates: seq<Update>, n: nat) {
    && n <= |updates|
    && (forall j :: n <= j < |updates| ==> UpdateAt(start, b, id, index, updates, j) in events)
    && (forall e :: e in events && UpdateOf(e, id, index) ==>
          b + n <= e.serial < b + |updates| && e == UpdateAt(start, b, id, index, updates, e.serial - b))
    && (forall j :: 0 <= j < n ==> start + updates[j].at <= now && updates[j].Revise?)
  }

  ghost predicate IntentRevised(c: Config, st: Sim, id: Id)
    requires id in st.intents
  {
    var intent := st.intents[id];
    && id in st.states && intent.index <= |st.states[id].rows| && intent.index < |Turns(c, id)|
    && var start, turn := TurnStart(c, st.states[id].rows, id, intent.index), Turns(c, id)[intent.index];
       && (exists b :: Scheduled(st.events, st.now, start, b, id, intent.index, turn.updates, intent.revision))
       && intent.keys == BlockKeys(PrefixAfter(turn, intent.revision))
  }

  /** Each running workflow's intent is what its due updates have made of it. */
  ghost predicate Revising(c: Config, st: Sim) {
    forall id :: id in st.intents && id in st.states && st.states[id].status == Running ==> IntentRevised(c, st, id)
  }

  /** For running workflows the intent and its update events are as before. */
  ghost predicate SameUpdates(st: Sim, s: Sim) {
    && st.now <= s.now && s.states.Keys == st.states.Keys
    && forall id :: id in s.intents && id in s.states && s.states[id].status == Running ==>
         && id in st.intents && st.states[id].status == Running && st.states[id].rows <= s.states[id].rows
         && s.intents[id].index == st.intents[id].index && s.intents[id].revision == st.intents[id].revision
         && s.intents[id].keys == st.intents[id].keys
         && forall e :: UpdateOf(e, id, st.intents[id].index) ==> (e in s.events <==> e in st.events)
  }

  lemma ScheduledStays(events: set<Event>, more: set<Event>, now: real, later: real, start: real, b: nat, id: Id, index: nat,
                       updates: seq<Update>, n: nat)
    requires Scheduled(events, now, start, b, id, index, updates, n) && now <= later
    requires forall e :: UpdateOf(e, id, index) ==> (e in more <==> e in events)
    ensures Scheduled(more, later, start, b, id, index, updates, n)
  {
    forall j | n <= j < |updates| ensures UpdateAt(start, b, id, index, updates, j) in more {
      assert UpdateAt(start, b, id, index, updates, j) in events;
      assert UpdateOf(UpdateAt(start, b, id, index, updates, j), id, index);
    }
  }

  lemma SameRevising(c: Config, st: Sim, s: Sim)
    requires Revising(c, st) && SameUpdates(st, s)
    ensures Revising(c, s)
  {
    hide Scheduled, TurnStart, UpdateOf, PrefixAfter, BlockKeys, Turns;
    forall id | id in s.intents && id in s.states && s.states[id].status == Running ensures IntentRevised(c, s, id) {
      assert IntentRevised(c, st, id);
      var intent := st.intents[id];
      var start, turn := TurnStart(c, st.states[id].rows, id, intent.index), Turns(c, id)[intent.index];
      var b :| Scheduled(st.events, st.now, start, b, id, intent.index, turn.updates, intent.revision);
      ScheduledStays(st.events, s.events, st.now, s.now, start, b, id, intent.index, turn.updates, intent.revision);
      StartStays(c, st.states[id].rows, s.states[id].rows, id, intent.index);
    }
  }

  /******* A turn starts *******/

  /** The events added are the updates in order, with serial numbers from `b` on. */
  ghost predicate Pushed(events: set<Event>, more: set<Event>, start: real, b: nat, id: Id, index: nat, updates: seq<Update>) {
    && events <= more
    && (forall j :: 0 <= j < |updates| ==> UpdateAt(start, b, id, index, updates, j) in more)
    && (forall e :: e in more && e !in events ==>
          b <= e.serial < b + |updates| && e == UpdateAt(start, b, id, index, updates, e.serial - b))
  }

  lemma PushedMore(events: set<Event>, one: set<Event>, more: set<Event>, start: real, b: nat, id: Id, index: nat, updates: seq<Update>)
    requires updates != [] && one == events + {UpdateAt(start, b, id, index, updates, 0)}
    requires Pushed(one, more, start, b + 1, id, index, updates[1..])
    ensures Pushed(events, more, start, b, id, index, updates)
  {
    var tail := updates[1..];
    forall j | 0 <= j < |updates| ensures UpdateAt(start, b, id, index, updates, j) in more {
      if j > 0 { assert UpdateAt(start, b + 1, id, index, tail, j - 1) in more; }
    }
    forall e | e in more && e !in events
      ensures b <= e.serial < b + |updates| && e == UpdateAt(start, b, id, index, updates, e.serial - b)
    {
      if e !in one { assert e == UpdateAt(start, b + 1, id, index, tail, e.serial - (b + 1)); }
    }
  }

  lemma {:induction false} UpdatesExact(st: Sim, b: nat, id: Id, index: nat, updates: seq<Update>)
    requires b == st.serial + 1
    ensures Pushed(st.events, PushUpdates(st, id, index, updates).events, st.now, b, id, index, updates)
    decreases |updates|
  {
    hide Pushed;
    if updates == [] {
      NonePushed(st, b, id, index);
    } else {
      var st1 := Push(st, st.now + updates[0].at, Updated(id, index, updates[0]));
      UpdatesExact(st1, b + 1, id, index, updates[1..]);
      PushedMore(st.events, st1.events, PushUpdates(st, id, index, updates).events, st.now, b, id, index, updates);
    }
  }

  lemma NonePushed(st: Sim, b: nat, id: Id, index: nat)
    ensures Pushed(st.events, PushUpdates(st, id, index, []).events, st.now, b, id, index, [])
  {
  }

  lemma StartTurnUpdates(c: Config, st: Sim, id: Id, index: nat)
    requires id in st.states && 0 < index < |Turns(c, id)| && st.states[id].status == Running
    requires forall e :: e in st.events ==> !UpdateOf(e, id, index)
    ensures var s, us := StartTurn(c, st, id, index), Turns(c, id)[index].updates;
            Scheduled(s.events, st.now, st.now, st.serial + 2, id, index, us, 0)
  {
    hide PushUpdates, ScheduleWakeup, NewIntent, Turns;
    var turn := Turns(c, id)[index];
    var s1 := SetIntent(Push(st, st.now + turn.wait, Ready(id, index)), id, NewIntent(c, st, index, turn));
    var s2 := PushUpdates(s1, id, index, turn.updates);
    UpdatesExact(s1, st.serial + 2, id, index, turn.updates);
    WakeupShape(c, s2, NewIntent(c, st, index, turn));
    var s := StartTurn(c, st, id, index);
    forall e | e in s.events && UpdateOf(e, id, index)
      ensures st.serial + 2 <= e.serial < st.serial + 2 + |turn.updates|
              && e == UpdateAt(st.now, st.serial + 2, id, index, turn.updates, e.serial - (st.serial + 2))
    {
      assert e in s2.events && e !in s1.events;
    }
  }

  lemma StartRevising(c: Config, st: Sim, id: Id, index: nat)
    requires Revising(c, st) && id in st.states && index == |st.states[id].rows| && index < |Turns(c, id)|
    requires st.now == TurnStart(c, st.states[id].rows, id, index) && SerialsOk(st.events, st.serial)
    requires index > 0 ==> forall e :: e in st.events ==> !UpdateOf(e, id, index)
    ensures Revising(c, StartTurn(c, st, id, index))
  {
    hide Scheduled, TurnStart, PrefixAfter, BlockKeys, Turns, SerialsOk, StartTurn;
    var s := StartTurn(c, st, id, index);
    if st.states[id].status == Running {
      StartTurnShape(c, st, id, index);
      forall x | x in s.intents && x in s.states && s.states[x].status == Running ensures IntentRevised(c, s, x) {
        if index > 0 && x == id {
          StartTurnUpdates(c, st, id, index);
          FreshIntent(c, st, s, id, index);
        } else {
          OtherRevised(c, st, s, id, index, x);
        }
      }
    } else {
      StartIdle(c, st, id, index);
    }
  }

  lemma StartIdle(c: Config, st: Sim, id: Id, index: nat)
    requires id in st.states && index < |Turns(c, id)| && st.states[id].status != Running
    ensures StartTurn(c, st, id, index) == st
  {
  }

  lemma FreshIntent(c: Config, st: Sim, s: Sim, id: Id, index: nat)
    requires id in st.states && index == |st.states[id].rows| && 0 < index < |Turns(c, id)|
    requires st.now == TurnStart(c, st.states[id].rows, id, index) && Opened(c, st, s, id, index)
    requires Scheduled(s.events, st.now, st.now, st.serial + 2, id, index, Turns(c, id)[index].updates, 0)
    ensures IntentRevised(c, s, id)
  {
    hide Scheduled, TurnStart, LastAt, AnyCancel, Turns, UpdateEvent, ReadyEvent;
  }

  lemma OtherRevised(c: Config, st: Sim, s: Sim, id: Id, index: nat, x: Id)
    requires index < |Turns(c, id)| && Opened(c, st, s, id, index) && (index == 0 || x != id)
    requires x in st.intents && IntentRevised(c, st, x)
    ensures IntentRevised(c, s, x)
  {
    hide TurnStart, LastAt, AnyCancel, Turns, Scheduled, PrefixAfter, BlockKeys, NewIntent;
    var intent := st.intents[x];
    var start, turn := TurnStart(c, st.states[x].rows, x, intent.index), Turns(c, x)[intent.index];
    var b :| Scheduled(st.events, st.now, start, b, x, intent.index, turn.updates, intent.revision);
    ScheduledStays(st.events, s.events, st.now, s.now, start, b, x, intent.index, turn.updates, intent.revision);
  }

  /******* Events *******/

  /** Only `id`'s status and its intent's activity may have changed, and no update was taken. */
  lemma OthersSame(st: Sim, s: Sim, id: Id)
    requires s.now == st.now && s.states.Keys == st.states.Keys && s.intents.Keys == st.intents.Keys
    requires forall x :: x in st.states && x != id ==> s.states[x] == st.states[x]
    requires forall x :: x in st.intents && x != id ==> s.intents[x] == st.intents[x]
    requires id in st.states ==> st.states[id].rows <= s.states[id].rows && (s.states[id].status == Running ==> st.states[id].status == Running)
    requires id in st.intents ==> s.intents[id] == st.intents[id].(active := s.intents[id].active)
    requires forall e: Event :: e.action.Updated? ==> (e in s.events <==> e in st.events)
    ensures SameUpdates(st, s)
  {
  }

  lemma DeadlineSame(st: Sim, e: Event, id: Id)
    requires id in st.states && e.action == Deadline(id)
    ensures SameUpdates(st, OnDeadline(Pop(st, e), id))
  {
    hide SameUpdates;
    OthersSame(st, OnDeadline(Pop(st, e), id), id);
  }

  lemma ReadySame(st: Sim, e: Event, id: Id, index: nat)
    requires id in st.states && e.action == Ready(id, index)
    ensures SameUpdates(st, OnReady(Pop(st, e), id, index))
  {
    hide SameUpdates;
    OthersSame(st, OnReady(Pop(st, e), id, index), id);
  }

  lemma PreparationSame(st: Sim, e: Event, job: Job)
    requires e.action == Finished(job) && job.Preparation? && job.id in st.states && job.id in st.intents
    requires forall k :: k in job.computed ==> k in st.tags
    ensures SameUpdates(st, OnPreparation(Pop(st, e), job))
  {
    hide SameUpdates, SetTags, Obsolete;
    OthersSame(st, OnPreparation(Pop(st, e), job), job.id);
  }

  lemma PopSame(st: Sim, e: Event)
    requires !e.action.Updated?
    ensures SameUpdates(st, Pop(st, e))
  {
  }

  lemma ArrivalRevising(c: Config, st: Sim, e: Event)
    requires Inv(c, st) && Timely(c, st) && Revising(c, st) && e in st.events && e.at == st.now && e.action.Arrival?
    requires Handled(c, st, e.action)
    ensures Revising(c, Fire(c, st, e))
  {
    hide Inv, Revising, StartTurn, SerialsOk, WaitingTimely, IntentTimely, ProgressTimely;
    assert EventTimely(c, st, e);
    TokenFreed(c, st, e, e.action.id);
    PopSame(st, e);
    SameRevising(c, st, Pop(st, e));
    InvSerials(c, st);
    PopSerials(st, e);
    StartRevising(c, Pop(st, e), e.action.id, 0);
  }

  lemma RecordSame(st: Sim, s: Sim, e: Event)
    requires Recorded(st, s, e)
    ensures SameUpdates(st, s)
  {
    hide SameUpdates, SetTags;
    OthersSame(st, s, e.action.job.id);
  }

  lemma NoUpdatesYet(c: Config, st: Sim, id: Id, index: nat)
    requires Startable(c, st, id, index) && index > 0
    ensures forall e :: e in st.events ==> !UpdateOf(e, id, index)
  {
  }

  lemma DemandRevising(c: Config, st: Sim, e: Event)
    requires Inv(c, st) && Revising(c, st) && e in st.events && e.action.Finished? && e.action.job.Demand?
    requires Handled(c, st, e.action)
    ensures Revising(c, Fire(c, st, e))
  {
    hide Inv, Revising, StartTurn, SerialsOk, Recorded, TurnStart, Turns, Startable, SameUpdates;
    var job, s1 := e.action.job, Record(Pop(st, e), e.action.job);
    TokenFreed(c, st, e, job.id);
    RecordShape(st, e);
    RecordKeeps(c, st, s1, e);
    RecordSame(st, s1, e);
    SameRevising(c, st, s1);
    RecordEnds(c, st, s1, e);
    DemandStartable(c, st, s1, e);
    InvSerials(c, s1);
    if s1.states[job.id].status == Running {
      if job.index + 1 == |Turns(c, job.id)| {
        OthersSame(s1, Fire(c, st, e), job.id);
        SameRevising(c, s1, Fire(c, st, e));
      } else {
        NoUpdatesYet(c, s1, job.id, job.index + 1);
        StartRevising(c, s1, job.id, job.index + 1);
      }
    }
  }

  /******* An update comes *******/

  /** The first event, if it is an update of the intent, is the next one in order. */
  lemma NextUpdate(events: set<Event>, now: real, start: real, b: nat, id: Id, index: nat, updates: seq<Update>, n: nat, e: Event)
    requires Scheduled(events, now, start, b, id, index, updates, n) && IsFirst(e, events) && UpdateOf(e, id, index)
    requires forall i, j :: 0 <= i < j < |updates| ==> updates[i].at <= updates[j].at
    ensures n < |updates| && e == UpdateAt(start, b, id, index, updates, n)
  {
    var j := e.serial - b;
    assert e == UpdateAt(start, b, id, index, updates, j);
    var f := UpdateAt(start, b, id, index, updates, n);
    assert f in events;
    InOrderOfTime(updates, n, j);
  }

  lemma InOrderOfTime(updates: seq<Update>, n: nat, j: nat)
    requires n <= j < |updates| && forall i, k :: 0 <= i < k < |updates| ==> updates[i].at <= updates[k].at
    ensures updates[n].at <= updates[j].at
  {
  }

  lemma ScheduledNext(events: set<Event>, more: set<Event>, now: real, start: real, b: nat, id: Id, index: nat,
                      updates: seq<Update>, n: nat, e: Event)
    requires Scheduled(events, now, start, b, id, index, updates, n) && n < |updates| && updates[n].Revise?
    requires e == UpdateAt(start, b, id, index, updates, n) && e.at == now
    requires forall f :: UpdateOf(f, id, index) ==> (f in more <==> f in events && f != e)
    ensures Scheduled(more, now, start, b, id, index, updates, n + 1)
  {
    forall j | n + 1 <= j < |updates| ensures UpdateAt(start, b, id, index, updates, j) in more {
      var f := UpdateAt(start, b, id, index, updates, j);
      assert UpdateOf(f, id, index) && f in events;
    }
  }

  lemma ReviseIntent(c: Config, st: Sim, s: Sim, id: Id, e: Event)
    requires Validated(c) && id in Ids(c) && id in st.intents && id in st.states && id in s.intents && IntentRevised(c, st, id)
    requires IsFirst(e, st.events) && e.at == st.now && UpdateOf(e, id, st.intents[id].index) && e.action.update.Revise?
    requires s.states == st.states && s.now == st.now && s.intents[id] == Revised(st.intents[id], e.action.update)
    requires forall f: Event :: f.action.Updated? ==> (f in s.events <==> f in st.events && f != e)
    ensures IntentRevised(c, s, id)
  {
    hide Scheduled, TurnStart, BlockKeys, Turns, Validated, IsFirst;
    var intent := st.intents[id];
    var start, turn := TurnStart(c, st.states[id].rows, id, intent.index), Turns(c, id)[intent.index];
    var b :| Scheduled(st.events, st.now, start, b, id, intent.index, turn.updates, intent.revision);
    TurnValid(c, id, intent.index);
    NextUpdate(st.events, st.now, start, b, id, intent.index, turn.updates, intent.revision, e);
    ScheduledNext(st.events, s.events, st.now, start, b, id, intent.index, turn.updates, intent.revision, e);
  }

  /** Taking an update of a workflow that does not run, or of an earlier turn, changes no running intent. */
  lemma StaleSame(st: Sim, e: Event)
    requires e.action.Updated?
    requires !Current(st, e.action.id, e.action.index) || (e.action.id in st.states && st.states[e.action.id].status != Running)
    ensures SameUpdates(st, Pop(st, e))
  {
  }

  lemma CancelRevising(c: Config, st: Sim, s: Sim, id: Id, e: Event)
    requires Revising(c, st) && s.now == st.now && s.states.Keys == st.states.Keys && s.intents.Keys == st.intents.Keys
    requires forall x :: x in st.states && x != id ==> s.states[x] == st.states[x]
    requires forall x :: x in st.intents && x != id ==> s.intents[x] == st.intents[x]
    requires id in s.states && s.states[id].status != Running && e.action.Updated? && e.action.id == id
    requires forall f: Event :: f.action.Updated? ==> (f in s.events <==> f in st.events && f != e)
    ensures Revising(c, s)
  {
    hide Revising, IntentRevised;
    SameRevising(c, st, s);
  }

  lemma OtherIntents(c: Config, st: Sim, s: Sim, id: Id, e: Event, x: Id)
    requires x != id && x in st.intents && x in s.intents && IntentRevised(c, st, x) && s.intents[x] == st.intents[x]
    requires s.states == st.states && s.now == st.now && e.action.Updated? && e.action.id == id
    requires forall f: Event :: f.action.Updated? ==> (f in s.events <==> f in st.events && f != e)
    ensures IntentRevised(c, s, x)
  {
    hide Scheduled, TurnStart, BlockKeys, Turns, PrefixAfter;
    var intent := st.intents[x];
    var start, turn := TurnStart(c, st.states[x].rows, x, intent.index), Turns(c, x)[intent.index];
    var b :| Scheduled(st.events, st.now, start, b, x, intent.index, turn.updates, intent.revision);
    ScheduledStays(st.events, s.events, st.now, s.now, start, b, x, intent.index, turn.updates, intent.revision);
  }

  lemma ReviseRevising(c: Config, st: Sim, s: Sim, id: Id, e: Event)
    requires Validated(c) && id in Ids(c) && Revising(c, st) && id in st.intents && id in st.states && st.states[id].status == Running
    requires IsFirst(e, st.events) && e.at == st.now && UpdateOf(e, id, st.intents[id].index) && e.action.update.Revise?
    requires s.states == st.states && s.now == st.now && s.intents == st.intents[id := Revised(st.intents[id], e.action.update)]
    requires forall f: Event :: f.action.Updated? ==> (f in s.events <==> f in st.events && f != e)
    ensures Revising(c, s)
  {
    hide IntentRevised, Validated, IsFirst, Revised;
    forall x | x in s.intents && x in s.states && s.states[x].status == Running ensures IntentRevised(c, s, x) {
      if x == id { ReviseIntent(c, st, s, id, e); } else { OtherIntents(c, st, s, id, e, x); }
    }
  }

  lemma UpdateRevising(c: Config, st: Sim, e: Event, id: Id, index: nat, u: Update)
    requires Validated(c) && Revising(c, st) && IsFirst(e, st.events) && e.at == st.now && e.action == Updated(id, index, u)
    requires id in st.states && id in Ids(c)
    ensures Revising(c, OnUpdate(c, Pop(st, e), id, index, u))
  {
    hide Revising, ScheduleWakeup, BlockKeys, SameUpdates, Validated;
    var s0 := Pop(st, e);
    var s := OnUpdate(c, s0, id, index, u);
    if !Current(st, id, index) || st.states[id].status != Running {
      StaleSame(st, e);
      SameRevising(c, st, s);
    } else if u.Cancel? {
      CancelRevising(c, st, s, id, e);
    } else {
      var intent := Revised(s0.intents[id], u);
      WakeupShape(c, Log(s0.(intents := s0.intents[id := intent]), RevisionSeen(id, intent.revision)), intent);
      ReviseRevising(c, st, s, id, e);
    }
  }

  lemma OtherRevising(c: Config, st: Sim, e: Event)
    requires Revising(c, st) && Handled(c, st, e.action) && !e.action.Arrival? && !e.action.Updated?
    requires !(e.action.Finished? && e.action.job.Demand?)
    ensures Revising(c, Fire(c, st, e))
  {
    hide Revising, SameUpdates, OnDeadline, OnReady, OnPreparation;
    match e.action {
      case Deadline(id) => DeadlineSame(st, e, id);
      case Ready(id, index) => ReadySame(st, e, id, index);
      case Finished(job) => PreparationSame(st, e, job);
      case Wake => PopSame(st, e);
    }
    SameRevising(c, st, Fire(c, st, e));
  }

  lemma FireRevising(c: Config, st: Sim, e: Event)
    requires Validated(c) && Inv(c, st) && Timely(c, st) && Revising(c, st) && IsFirst(e, st.events) && e.at == st.now
    requires Handled(c, st, e.action)
    ensures Revising(c, Fire(c, st, e))
  {
    hide Inv, Timely, Revising, Handle, Validated;
    if e.action.Arrival? {
      ArrivalRevising(c, st, e);
    } else if e.action.Finished? && e.action.job.Demand? {
      DemandRevising(c, st, e);
    } else if e.action.Updated? {
      EventHandled(c, st, e);
      UpdateRevising(c, st, e, e.action.id, e.action.index, e.action.update);
      UpdateHandled(c, Pop(st, e), e.action);
    } else {
      OtherRevising(c, st, e);
    }
  }

  lemma UpdateHandled(c: Config, st: Sim, a: Action)
    requires a.Updated? && Handled(c, st, a)
    ensures Handle(c, st, a) == OnUpdate(c, st, a.id, a.index, a.update)
  {
  }

  /******* Dispatch *******/

  /** The workflows, their intents and their updates are as before. */
  ghost predicate Unaffected(st: Sim, s: Sim) {
    && s.states == st.states && s.intents == st.intents && s.now == st.now
    && forall e: Event :: e.action.Updated? ==> (e in s.events <==> e in st.events)
  }

  lemma UnaffectedSame(st: Sim, s: Sim)
    requires Unaffected(st, s)
    ensures SameUpdates(st, s)
  {
  }

  lemma LaunchUnaffected(st: Sim, s: Sim, e: Event)
    requires Launched(st, s, e)
    ensures Unaffected(st, s)
  {
  }

  lemma {:induction false} DispatchPreparationUnaffected(c: Config, st: Sim, i: nat)
    requires Validated(c) && Inv(c, st)
    requires i <= |st.intentOrder| && IntentsFit(c, st) && st.stats.computed < c.budget
    ensures Unaffected(st, DispatchPreparation(c, st, i))
    decreases |st.intentOrder| - i
  {
    hide Inv, LaunchPreparation, TooEarly, Preparable, Launched;
    if i < |st.intentOrder| {
      var id := st.intentOrder[i];
      if Idle(c, st, id) {
        DispatchPreparationUnaffected(c, st, i + 1);
      } else if TooEarly(c, st, st.intents[id]) {
        var s1 := ScheduleWakeup(c, st, st.intents[id]);
        WakeupShape(c, st, st.intents[id]);
        WakesKeep(c, st, s1);
        DispatchPreparationUnaffected(c, s1, i + 1);
      } else {
        ChosenPreparable(c, st, id);
        PreparationShape(c, st, id);
        LaunchUnaffected(st, LaunchPreparation(c, st, id, st.intents[id]), PreparationEvent(c, st, id, st.intents[id]));
      }
    }
  }

  lemma {:induction false} DispatchQueueUnaffected(c: Config, st: Sim)
    requires Validated(c) && Inv(c, st) && DispatchReady(c, st)
    ensures Unaffected(st, DispatchQueue(c, st))
    decreases |st.queue|
  {
    hide Inv, LaunchDemand, Launched;
    if st.queue == [] {
      if c.policy != Off && st.stats.computed < c.budget { DispatchPreparationUnaffected(c, st, 0); }
    } else {
      var q, s1 := st.queue[0], st.(queue := st.queue[1..]);
      QueueDispatchable(c, st, s1);
      InvDispatchReady(c, s1);
      if st.states[q.id].status != Running {
        DispatchQueueUnaffected(c, s1);
      } else {
        DemandShape(c, s1, q);
        LaunchUnaffected(s1, LaunchDemand(c, s1, q), DemandEvent(c, s1, q));
      }
    }
  }

  lemma DispatchRevising(c: Config, st: Sim)
    requires Validated(c) && Inv(c, st) && DispatchReady(c, st) && Revising(c, st)
    ensures Revising(c, Dispatch(c, st))
  {
    hide Inv, Revising, Validated, DispatchQueue, SameUpdates;
    if !st.busy {
      DispatchQueueUnaffected(c, st);
      UnaffectedSame(st, Dispatch(c, st));
      SameRevising(c, st, Dispatch(c, st));
    }
  }

  lemma AdvanceRevising(c: Config, st: Sim, at: real)
    requires Revising(c, st) && st.now <= at
    ensures Revising(c, Advance(st, at))
  {
    hide Revising;
    SameRevising(c, st, Advance(st, at));
  }
}
