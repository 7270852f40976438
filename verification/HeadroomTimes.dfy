/** When things happen: every turn starts at the arrival or when the turn before it was completed,
    becomes ready after its wait, and is served for exactly its cost; a late preparation is one
    that the log shows finished after its turn was ready. */
module HeadroomTimes {
  import opened Wrappers
  import opened HeadroomModel
  import opened HeadroomCache
  import opened HeadroomInvariant
  import opened HeadroomSteps
  import opened HeadroomJobs
  import opened HeadroomDispatch
  import opened HeadroomProgress
  import opened HeadroomHistory

  /******* The times of a turn *******/

  function TurnStart(c: Config, rows: seq<TurnRow>, id: Id, i: nat): real
    requires i <= |rows|
  {
    if i == 0 then Flow(c.workflows, id).arrival else rows[i - 1].completed
  }

  function ReadyTime(c: Config, rows: seq<TurnRow>, id: Id, i: nat): real
    requires i <= |rows| && i < |Turns(c, id)|
  {
    TurnStart(c, rows, id, i) + Turns(c, id)[i].wait
  }

  /** The log shows the request started no earlier than `ready` and due at `end`, after exactly its cost. */
  ghost predicate Served(c: Config, log: Journal, id: Id, i: nat, ready: real, cached: nat, end: real) {
    && i < |Turns(c, id)| && cached <= |Turns(c, id)[i].prompt|
    && exists t :: StartedAt(c, log, id, i, cached, t) && ready <= t && end == t + DemandCost(c, Turns(c, id)[i], cached)
  }

  ghost predicate StartedAt(c: Config, log: Journal, id: Id, i: nat, cached: nat, t: real)
    requires i < |Turns(c, id)|
  {
    (t, RequestStarted(id, i, DemandCost(c, Turns(c, id)[i], cached), cached)) in log
  }

  ghost predicate PreparedAt(log: Journal, id: Id, revision: nat, n: nat, t: real) {
    (t, PreparationStarted(id, revision, n)) in log
  }

  ghost predicate EventTimely(c: Config, st: Sim, e: Event) {
    match e.action
    case Arrival(id) => e.at == Flow(c.workflows, id).arrival
    case Ready(id, i) =>
      id in st.states && i <= |st.states[id].rows| && i < |Turns(c, id)| && e.at == ReadyTime(c, st.states[id].rows, id, i)
    case Updated(id, i, u) =>
      id in st.states && i <= |st.states[id].rows| && e.at == TurnStart(c, st.states[id].rows, id, i) + u.at
    case Finished(Demand(id, i, _, ready, cached)) =>
      && id in st.states && i <= |st.states[id].rows| && i < |Turns(c, id)|
      && ready == ReadyTime(c, st.states[id].rows, id, i) && Served(c, st.trace, id, i, ready, cached, e.at)
    case Finished(Preparation(id, i, revision, computed)) =>
      && id in st.states && i == |st.states[id].rows|
      && exists t :: PreparedAt(st.trace, id, revision, |computed|, t) && e.at == t + PrefillMs(c, |computed|)
    case _ => true
  }

  ghost predicate WaitingTimely(c: Config, st: Sim, q: Waiting) {
    && q.id in st.states && q.index <= |st.states[q.id].rows| && q.index < |Turns(c, q.id)|
    && q.ready == ReadyTime(c, st.states[q.id].rows, q.id, q.index) <= st.now
  }

  ghost predicate IntentTimely(c: Config, st: Sim, id: Id)
    requires id in st.intents
  {
    var intent := st.intents[id];
    && id in st.states && intent.index <= |st.states[id].rows| && intent.index < |Turns(c, id)|
    && var start, turn := TurnStart(c, st.states[id].rows, id, intent.index), Turns(c, id)[intent.index];
       && start <= st.now && intent.readyAt == start + turn.wait
       && intent.eligibleAt == start + (if c.policy == FutureTiming then LastAt(turn.updates) else 0.0)
       && (intent.willCancel <==> c.policy == FutureTiming && AnyCancel(turn.updates))
       && (intent.active ==> st.states[id].status == Running && exists e :: e in st.events && e.action == Ready(id, intent.index))
  }

  /** The time of the workflow's last finished request. */
  function LastEnd(log: Journal, id: Id): real {
    if log == [] then 0.0
    else
      var (t, x) := log[|log| - 1];
      if x.RequestFinished? && x.id == id then t else LastEnd(log[..|log| - 1], id)
  }

  ghost predicate RowTimely(c: Config, log: Journal, rows: seq<TurnRow>, id: Id, j: nat)
    requires j < |rows|
  {
    && j < |Turns(c, id)| && rows[j].turn == j
    && rows[j].ready == ReadyTime(c, rows, id, j)
    && Served(c, log, id, j, rows[j].ready, rows[j].cached, rows[j].completed)
  }

  ghost predicate ProgressTimely(c: Config, log: Journal, p: Progress, id: Id) {
    && (forall j :: 0 <= j < |p.rows| ==> RowTimely(c, log, p.rows, id, j))
    && (p.rows != [] ==> LastEnd(log, id) == p.rows[|p.rows| - 1].completed)
    && (p.completion.Some? ==>
          && |p.rows| == |Turns(c, id)| > 0
          && p.completion.value == p.rows[|p.rows| - 1].completed - Flow(c.workflows, id).arrival)
  }

  ghost predicate Timely(c: Config, st: Sim) {
    && (forall e :: e in st.events ==> EventTimely(c, st, e))
    && (forall q :: q in st.queue ==> WaitingTimely(c, st, q))
    && (forall id :: id in st.intents ==> IntentTimely(c, st, id))
    && (forall id :: id in st.states ==> ProgressTimely(c, st.trace, st.states[id], id))
  }

  /******* Growing logs and rows *******/

  ghost predicate Extends(log: Journal, more: Journal) { forall x :: x in log ==> x in more }

  /** Rows are only added and the log only grows. */
  ghost predicate Grown(st: Sim, s: Sim) {
    && s.states.Keys == st.states.Keys && Extends(st.trace, s.trace) && st.now <= s.now
    && forall id :: id in st.states ==> st.states[id].rows <= s.states[id].rows
  }

  lemma ServedStays(c: Config, log: Journal, more: Journal, id: Id, i: nat, ready: real, cached: nat, end: real)
    requires Served(c, log, id, i, ready, cached, end) && Extends(log, more)
    ensures Served(c, more, id, i, ready, cached, end)
  {
    hide DemandCost;
    var t :| StartedAt(c, log, id, i, cached, t) && ready <= t && end == t + DemandCost(c, Turns(c, id)[i], cached);
    assert StartedAt(c, more, id, i, cached, t);
  }

  lemma StartStays(c: Config, rows: seq<TurnRow>, more: seq<TurnRow>, id: Id, i: nat)
    requires rows <= more && i <= |rows|
    ensures TurnStart(c, more, id, i) == TurnStart(c, rows, id, i)
  {
  }

  lemma EventStays(c: Config, st: Sim, s: Sim, e: Event)
    requires EventTimely(c, st, e) && Grown(st, s)
    requires e.action.Finished? && e.action.job.Preparation? && e.action.job.id in st.states ==>
               s.states[e.action.job.id].rows == st.states[e.action.job.id].rows
    ensures EventTimely(c, s, e)
  {
    hide Served, PrefillMs, TurnStart, Turns;
    match e.action {
      case Ready(id, i) => StartStays(c, st.states[id].rows, s.states[id].rows, id, i);
      case Updated(id, i, _) => StartStays(c, st.states[id].rows, s.states[id].rows, id, i);
      case Finished(job) =>
        if job.Demand? {
          StartStays(c, st.states[job.id].rows, s.states[job.id].rows, job.id, job.index);
          ServedStays(c, st.trace, s.trace, job.id, job.index, job.ready, job.cached, e.at);
        } else {
          var n := |job.computed|;
          var t :| PreparedAt(st.trace, job.id, job.revision, n, t) && e.at == t + PrefillMs(c, n);
          assert PreparedAt(s.trace, job.id, job.revision, n, t);
        }
      case _ =>
    }
  }

  lemma WaitingStays(c: Config, st: Sim, s: Sim, q: Waiting)
    requires WaitingTimely(c, st, q) && Grown(st, s)
    ensures WaitingTimely(c, s, q)
  {
    hide TurnStart, Turns;
    StartStays(c, st.states[q.id].rows, s.states[q.id].rows, q.id, q.index);
  }

  /** The intent's times are as they were, and if it is active now it was before and its request is still to come. */
  ghost predicate IntentKept(st: Sim, s: Sim, id: Id) {
    && id in s.intents && id in st.intents && id in s.states
    && var x, y := st.intents[id], s.intents[id];
       && y.index == x.index && y.readyAt == x.readyAt && y.eligibleAt == x.eligibleAt && y.willCancel == x.willCancel
       && (y.active ==> x.active && s.states[id].status == Running)
       && (y.active ==> forall e :: e in st.events && e.action == Ready(id, x.index) ==> e in s.events)
  }

  lemma IntentStays(c: Config, st: Sim, s: Sim, id: Id)
    requires id in st.intents && IntentTimely(c, st, id) && Grown(st, s) && IntentKept(st, s, id)
    ensures IntentTimely(c, s, id)
  {
    hide TurnStart, Turns, LastAt, AnyCancel;
    StartStays(c, st.states[id].rows, s.states[id].rows, id, st.intents[id].index);
  }

  lemma RowStays(c: Config, log: Journal, more: Journal, rows: seq<TurnRow>, longer: seq<TurnRow>, id: Id, j: nat)
    requires j < |rows| && rows <= longer && Extends(log, more) && RowTimely(c, log, rows, id, j)
    ensures RowTimely(c, more, longer, id, j)
  {
    hide Served, TurnStart, Turns;
    StartStays(c, rows, longer, id, j);
    ServedStays(c, log, more, id, j, rows[j].ready, rows[j].cached, rows[j].completed);
  }

  lemma ProgressStays(c: Config, log: Journal, more: Journal, p: Progress, q: Progress, id: Id)
    requires ProgressTimely(c, log, p, id) && Extends(log, more) && LastEnd(more, id) == LastEnd(log, id)
    requires q.rows == p.rows && q.completion == p.completion
    ensures ProgressTimely(c, more, q, id)
  {
    hide RowTimely, LastEnd, Turns;
    forall j | 0 <= j < |q.rows| ensures RowTimely(c, more, q.rows, id, j) { RowStays(c, log, more, p.rows, q.rows, id, j); }
  }

  lemma LastEndSnoc(log: Journal, x: (real, Entry), id: Id)
    ensures LastEnd(log + [x], id) == if x.1.RequestFinished? && x.1.id == id then x.0 else LastEnd(log, id)
  {
    Init(log, x);
  }

  /******* Steps that finish no request *******/

  /** The log grew by at most one entry, which finishes no request. */
  ghost predicate Adds(st: Sim, s: Sim) {
    s.trace == st.trace || exists x :: s.trace == st.trace + [(st.now, x)] && !x.RequestFinished?
  }

  /** No row, completion, waiting request or job was added. */
  ghost predicate Calm(st: Sim, s: Sim) {
    && s.states.Keys == st.states.Keys && st.now <= s.now && Adds(st, s)
    && (forall id :: id in st.states ==> s.states[id].rows == st.states[id].rows && s.states[id].completion == st.states[id].completion)
    && (forall e :: e in s.events && e !in st.events ==> e.action == Wake)
    && (forall q :: q in s.queue ==> q in st.queue)
    && (forall id :: id in s.intents ==> IntentKept(st, s, id))
  }

  lemma AddsMeans(st: Sim, s: Sim)
    requires Adds(st, s)
    ensures Extends(st.trace, s.trace) && forall id :: LastEnd(s.trace, id) == LastEnd(st.trace, id)
  {
    hide LastEnd;
    if s.trace != st.trace {
      var x :| s.trace == st.trace + [(st.now, x)] && !x.RequestFinished?;
      forall id ensures LastEnd(s.trace, id) == LastEnd(st.trace, id) { LastEndSnoc(st.trace, (st.now, x), id); }
    }
  }

  lemma CalmTimely(c: Config, st: Sim, s: Sim)
    requires Timely(c, st) && Calm(st, s)
    ensures Timely(c, s)
  {
    hide EventTimely, WaitingTimely, IntentTimely, ProgressTimely, IntentKept, Adds;
    AddsMeans(st, s);
    forall e | e in s.events ensures EventTimely(c, s, e) {
      if e in st.events { EventStays(c, st, s, e); } else { WakeTimely(c, s, e); }
    }
    forall q | q in s.queue ensures WaitingTimely(c, s, q) { WaitingStays(c, st, s, q); }
    forall id | id in s.intents ensures IntentTimely(c, s, id) {
      KeptKnown(st, s, id);
      IntentStays(c, st, s, id);
    }
    forall id | id in s.states ensures ProgressTimely(c, s.trace, s.states[id], id) {
      ProgressStays(c, st.trace, s.trace, st.states[id], s.states[id], id);
    }
  }

  lemma KeptKnown(st: Sim, s: Sim, id: Id)
    requires IntentKept(st, s, id)
    ensures id in st.intents
  {
  }

  lemma WakeTimely(c: Config, s: Sim, e: Event)
    requires e.action == Wake
    ensures EventTimely(c, s, e)
  {
  }

  /** One more event, or one more waiting request, with the right time. */
  lemma MoreEvents(c: Config, st: Sim, s: Sim)
    requires Timely(c, st) && s == st.(events := s.events, queue := s.queue, serial := s.serial) && st.events <= s.events
    requires forall e :: e in s.events && e !in st.events ==> EventTimely(c, st, e)
    requires forall q :: q in s.queue && q !in st.queue ==> WaitingTimely(c, st, q)
    ensures Timely(c, s)
  {
    hide ProgressTimely, EventTimely, WaitingTimely, IntentTimely;
    forall e | e in s.events ensures EventTimely(c, s, e) { SameEvent(c, st, s, e); }
    forall q | q in s.queue ensures WaitingTimely(c, s, q) { SameWaiting(c, st, s, q); }
    forall id | id in s.intents ensures IntentTimely(c, s, id) { SameIntent(c, st, s, id); }
  }

  lemma SameEvent(c: Config, st: Sim, s: Sim, e: Event)
    requires EventTimely(c, st, e) && s.states == st.states && s.trace == st.trace
    ensures EventTimely(c, s, e)
  {
  }

  lemma SameWaiting(c: Config, st: Sim, s: Sim, q: Waiting)
    requires WaitingTimely(c, st, q) && s.states == st.states && s.now == st.now
    ensures WaitingTimely(c, s, q)
  {
  }

  lemma SameIntent(c: Config, st: Sim, s: Sim, id: Id)
    requires id in st.intents && IntentTimely(c, st, id)
    requires s.states == st.states && s.intents == st.intents && st.events <= s.events && s.now == st.now
    ensures IntentTimely(c, s, id)
  {
    hide TurnStart, LastAt, AnyCancel;
  }

  /******* A turn starts *******/

  lemma OpenedEvent(c: Config, st: Sim, s: Sim, id: Id, index: nat, e: Event)
    requires id in st.states && index == |st.states[id].rows| && index < |Turns(c, id)|
    requires st.now == TurnStart(c, st.states[id].rows, id, index) && s.states == st.states
    requires || e == ReadyEvent(c, st, id, index) || (e.action == Wake && st.now < e.at)
             || (index > 0 && UpdateEvent(c, st, id, index, e))
    ensures EventTimely(c, s, e)
  {
    hide TurnStart;
  }

  lemma NewIntentTimely(c: Config, st: Sim, s: Sim, id: Id, index: nat)
    requires id in st.states && index == |st.states[id].rows| && 0 < index < |Turns(c, id)| && st.states[id].status == Running
    requires st.now == TurnStart(c, st.states[id].rows, id, index) && s.states == st.states && s.now == st.now
    requires id in s.intents && s.intents[id] == NewIntent(c, st, index, Turns(c, id)[index])
    requires ReadyEvent(c, st, id, index) in s.events
    ensures IntentTimely(c, s, id)
  {
    hide TurnStart, LastAt, AnyCancel, BlockKeys;
    assert ReadyEvent(c, st, id, index).action == Ready(id, index);
  }

  lemma StartTimely(c: Config, st: Sim, s: Sim, id: Id, index: nat)
    requires Timely(c, st) && id in st.states && index == |st.states[id].rows| && index < |Turns(c, id)|
    requires st.states[id].status == Running && st.now == TurnStart(c, st.states[id].rows, id, index)
    requires Opened(c, st, s, id, index)
    ensures Timely(c, s)
  {
    hide ProgressTimely, EventTimely, WaitingTimely, IntentTimely, TurnStart, ReadyEvent, UpdateEvent, NewIntent;
    forall e | e in s.events ensures EventTimely(c, s, e) {
      if e in st.events { SameEvent(c, st, s, e); } else { OpenedEvent(c, st, s, id, index, e); }
    }
    forall q | q in s.queue ensures WaitingTimely(c, s, q) { SameWaiting(c, st, s, q); }
    forall x | x in s.intents ensures IntentTimely(c, s, x) {
      if index > 0 && x == id { NewIntentTimely(c, st, s, id, index); } else { OtherIntent(c, st, s, x); }
    }
  }

  lemma OtherIntent(c: Config, st: Sim, s: Sim, id: Id)
    requires id in st.intents && id in s.intents && s.intents[id] == st.intents[id] && IntentTimely(c, st, id)
    requires s.states == st.states && st.events <= s.events && s.now == st.now
    ensures IntentTimely(c, s, id)
  {
    hide TurnStart, LastAt, AnyCancel;
  }

  lemma StartTurnTimely(c: Config, st: Sim, id: Id, index: nat)
    requires Timely(c, st) && id in st.states && index == |st.states[id].rows| && index < |Turns(c, id)|
    requires st.now == TurnStart(c, st.states[id].rows, id, index) && SerialsOk(st.events, st.serial)
    ensures Timely(c, StartTurn(c, st, id, index))
  {
    hide Timely, TurnStart, Opened, SerialsOk;
    if st.states[id].status == Running {
      StartTurnShape(c, st, id, index);
      StartTimely(c, st, StartTurn(c, st, id, index), id, index);
    }
  }

  /******* Events *******/

  lemma PopCalm(st: Sim, e: Event)
    requires !e.action.Ready? && OnlyRunningActive(st)
    ensures Calm(st, Pop(st, e))
  {
  }

  lemma ActiveRuns(c: Config, st: Sim)
    requires Timely(c, st)
    ensures OnlyRunningActive(st)
  {
    hide EventTimely, WaitingTimely, ProgressTimely;
  }

  lemma ArrivalTimely(c: Config, st: Sim, e: Event)
    requires Inv(c, st) && Timely(c, st) && e in st.events && e.at == st.now && e.action.Arrival? && Handled(c, st, e.action)
    ensures Timely(c, Fire(c, st, e))
  {
    hide Inv, Calm, StartTurn, SerialsOk, WaitingTimely, IntentTimely, ProgressTimely;
    assert EventTimely(c, st, e);
    TokenFreed(c, st, e, e.action.id);
    ActiveRuns(c, st);
    PopCalm(st, e);
    CalmTimely(c, st, Pop(st, e));
    InvSerials(c, st);
    PopSerials(st, e);
    StartTurnTimely(c, Pop(st, e), e.action.id, 0);
  }

  ghost predicate OnlyRunningActive(st: Sim) {
    forall x :: x in st.intents ==> x in st.states && (st.intents[x].active ==> st.states[x].status == Running)
  }

  /** Only the status and the intent of `id` changed, wake-ups may have been set, and no ready event of
      another workflow was taken. */
  ghost predicate Adjusted(st: Sim, s: Sim, id: Id) {
    && s.now == st.now && Adds(st, s) && s.queue == st.queue
    && s.intents.Keys == st.intents.Keys && s.states.Keys == st.states.Keys
    && (forall x :: x in st.intents && x != id ==> s.intents[x] == st.intents[x])
    && (forall x :: x in st.states && x != id ==> s.states[x] == st.states[x])
    && (id in st.states ==> s.states[id] == st.states[id].(status := s.states[id].status))
    && (forall e :: e in st.events && e !in s.events && e.action.Ready? ==> e.action.id == id)
    && (forall e :: e in s.events && e !in st.events ==> e.action == Wake)
    && (id in st.intents ==> IntentKept(st, s, id))
  }

  lemma AdjustedCalm(st: Sim, s: Sim, id: Id)
    requires OnlyRunningActive(st) && Adjusted(st, s, id)
    ensures Calm(st, s)
  {
    hide Adds;
    forall x | x in s.intents ensures IntentKept(st, s, x) { }
  }

  lemma DeadlineCalm(st: Sim, e: Event, id: Id)
    requires id in st.states && e.action == Deadline(id)
    requires OnlyRunningActive(st)
    ensures Calm(st, OnDeadline(Pop(st, e), id))
  {
    hide Calm;
    var s := OnDeadline(Pop(st, e), id);
    if st.states[id].status == Running { assert s.trace == st.trace + [(st.now, DeadlineHit(id))]; }
    AdjustedCalm(st, s, id);
  }

  lemma CancelCalm(c: Config, st: Sim, e: Event, id: Id, index: nat, u: Update)
    requires id in st.states && e.action == Updated(id, index, u) && u.Cancel?
    requires OnlyRunningActive(st)
    ensures Calm(st, OnUpdate(c, Pop(st, e), id, index, u))
  {
    hide Calm, ScheduleWakeup;
    var s := OnUpdate(c, Pop(st, e), id, index, u);
    if s.trace != st.trace { assert s.trace == st.trace + [(st.now, CancelSeen(id))]; }
    AdjustedCalm(st, s, id);
  }

  lemma ReviseCalm(c: Config, st: Sim, e: Event, id: Id, index: nat, u: Update)
    requires id in st.states && e.action == Updated(id, index, u) && u.Revise?
    requires OnlyRunningActive(st)
    ensures Calm(st, OnUpdate(c, Pop(st, e), id, index, u))
  {
    hide Calm, ScheduleWakeup, BlockKeys;
    var s0 := Pop(st, e);
    var s := OnUpdate(c, s0, id, index, u);
    if Current(s0, id, index) && st.states[id].status == Running {
      var intent := Revised(s0.intents[id], u);
      WakeupShape(c, Log(s0.(intents := s0.intents[id := intent]), RevisionSeen(id, intent.revision)), intent);
      assert s.trace == st.trace + [(st.now, RevisionSeen(id, intent.revision))];
    }
    AdjustedCalm(st, s, id);
  }

  lemma PreparationCalm(st: Sim, e: Event, job: Job)
    requires e.action == Finished(job) && job.Preparation? && job.id in st.states && job.id in st.intents
    requires forall k :: k in job.computed ==> k in st.tags
    requires OnlyRunningActive(st)
    ensures Calm(st, OnPreparation(Pop(st, e), job))
  {
    hide SetTags, Obsolete;
    assert OnPreparation(Pop(st, e), job).trace
        == st.trace + [(st.now, PreparationFinished(job.id, |job.computed|, Obsolete(Pop(st, e), job)))];
  }

  lemma ReadyCalm(st: Sim, e: Event, id: Id, index: nat)
    requires id in st.states && e.action == Ready(id, index)
    requires OnlyRunningActive(st)
    ensures Calm(st, OnReady(Pop(st, e), id, index).(queue := st.queue))
  {
    hide Calm;
    var s := OnReady(Pop(st, e), id, index).(queue := st.queue);
    if st.states[id].status == Running { assert s.trace == st.trace + [(st.now, RequestReady(id, index))]; }
    AdjustedCalm(st, s, id);
  }

  lemma ReadyTimely(c: Config, st: Sim, e: Event)
    requires Timely(c, st) && e in st.events && e.at == st.now && e.action.Ready? && Handled(c, st, e.action)
    ensures Timely(c, Fire(c, st, e))
  {
    hide Calm, WaitingTimely, IntentTimely, ProgressTimely;
    assert EventTimely(c, st, e);
    var id, index := e.action.id, e.action.index;
    var s := Fire(c, st, e);
    var bare := s.(queue := st.queue);
    ActiveRuns(c, st);
    ReadyCalm(st, e, id, index);
    CalmTimely(c, st, bare);
    ReadyWaits(c, st, e, bare);
    hide Timely, EventTimely;
    MoreEvents(c, bare, s);
  }

  lemma ReadyWaits(c: Config, st: Sim, e: Event, bare: Sim)
    requires EventTimely(c, st, e) && e.action.Ready? && e.action.id in st.states && e.at == st.now
    requires bare == OnReady(Pop(st, e), e.action.id, e.action.index).(queue := st.queue)
    ensures forall q :: q in OnReady(Pop(st, e), e.action.id, e.action.index).queue && q !in bare.queue ==> WaitingTimely(c, bare, q)
  {
    hide TurnStart;
  }

  /******* A request finishes *******/

  lemma RecordedRow(c: Config, st: Sim, s: Sim, e: Event)
    requires Recorded(st, s, e) && e.at == st.now && EventTimely(c, st, e)
    requires e.action.job.index == |st.states[e.action.job.id].rows|
    requires s.trace == st.trace + [(st.now, RequestFinished(e.action.job.id, e.action.job.index))]
    ensures var rows := s.states[e.action.job.id].rows; RowTimely(c, s.trace, rows, e.action.job.id, |rows| - 1)
  {
    hide Served, TurnStart, SetTags;
    var job, rows, more := e.action.job, st.states[e.action.job.id].rows, s.states[e.action.job.id].rows;
    StartStays(c, rows, more, job.id, job.index);
    ServedStays(c, st.trace, s.trace, job.id, job.index, job.ready, job.cached, e.at);
  }

  lemma RecordedProgress(c: Config, st: Sim, s: Sim, e: Event, id: Id)
    requires Recorded(st, s, e) && e.at == st.now && EventTimely(c, st, e) && id in st.states
    requires e.action.job.index == |st.states[e.action.job.id].rows| < |Turns(c, e.action.job.id)|
    requires s.trace == st.trace + [(st.now, RequestFinished(e.action.job.id, e.action.job.index))]
    requires ProgressTimely(c, st.trace, st.states[id], id)
    ensures ProgressTimely(c, s.trace, s.states[id], id)
  {
    hide RowTimely, LastEnd, Turns, EventTimely;
    var job, rows, more := e.action.job, st.states[id].rows, s.states[id].rows;
    LastEndSnoc(st.trace, (st.now, RequestFinished(job.id, job.index)), id);
    if id != job.id {
      ProgressStays(c, st.trace, s.trace, st.states[id], s.states[id], id);
    } else {
      RecordedRow(c, st, s, e);
      forall j | 0 <= j < |more| ensures RowTimely(c, s.trace, more, id, j) {
        if j < |rows| { RowStays(c, st.trace, s.trace, rows, more, id, j); }
      }
    }
  }

  lemma RecordTimely(c: Config, st: Sim, s: Sim, e: Event)
    requires Timely(c, st) && Recorded(st, s, e) && e.at == st.now
    requires e.action.job.index == |st.states[e.action.job.id].rows| < |Turns(c, e.action.job.id)|
    requires s.trace == st.trace + [(st.now, RequestFinished(e.action.job.id, e.action.job.index))]
    requires forall f :: f in s.events ==> !f.action.Finished?
    ensures Timely(c, s)
  {
    hide EventTimely, WaitingTimely, IntentTimely, ProgressTimely, IntentKept, Turns;
    assert EventTimely(c, st, e);
    RecordGrows(st, s, e);
    ActiveRuns(c, st);
    forall f | f in s.events ensures EventTimely(c, s, f) { EventStays(c, st, s, f); }
    forall q | q in s.queue ensures WaitingTimely(c, s, q) { WaitingStays(c, st, s, q); }
    forall id | id in s.intents ensures IntentTimely(c, s, id) {
      RecordKeepsIntent(st, s, e, id);
      IntentStays(c, st, s, id);
    }
    forall id | id in s.states ensures ProgressTimely(c, s.trace, s.states[id], id) { RecordedProgress(c, st, s, e, id); }
  }

  lemma RecordGrows(st: Sim, s: Sim, e: Event)
    requires Recorded(st, s, e) && s.trace == st.trace + [(st.now, RequestFinished(e.action.job.id, e.action.job.index))]
    ensures Grown(st, s) && s.queue == st.queue && s.events <= st.events
  {
  }

  lemma RecordKeepsIntent(st: Sim, s: Sim, e: Event, id: Id)
    requires Recorded(st, s, e) && id in st.intents && id in st.states
    requires st.intents[id].active ==> st.states[id].status == Running
    ensures IntentKept(st, s, id)
  {
  }

  lemma CompletionTimely(c: Config, st: Sim, s: Sim, id: Id)
    requires Timely(c, st) && id in st.states && |st.states[id].rows| == |Turns(c, id)| > 0
    requires st.states[id].rows[|st.states[id].rows| - 1].completed == st.now
    requires forall f :: f in st.events ==> !TokenOf(f.action, id)
    requires s == st.(states := st.states[id := st.states[id].(status := Completed,
                        completion := Some(st.now - Flow(c.workflows, id).arrival))])
    ensures Timely(c, s)
  {
    hide EventTimely, WaitingTimely, ProgressTimely, IntentKept, Turns;
    assert Grown(st, s);
    forall e | e in s.events ensures EventTimely(c, s, e) { EventStays(c, st, s, e); }
    forall q | q in s.queue ensures WaitingTimely(c, s, q) { WaitingStays(c, st, s, q); }
    forall x | x in s.intents ensures IntentTimely(c, s, x) {
      CompletionKeepsIntent(c, st, s, id, x);
      IntentStays(c, st, s, x);
    }
    forall x | x in s.states ensures ProgressTimely(c, s.trace, s.states[x], x) { CompletedProgress(c, st, s, id, x); }
  }

  lemma CompletionKeepsIntent(c: Config, st: Sim, s: Sim, id: Id, x: Id)
    requires x in st.intents && IntentTimely(c, st, x) && id in st.states && x in s.states
    requires forall f :: f in st.events ==> !TokenOf(f.action, id)
    requires s.intents == st.intents && s.events == st.events && id in s.states
    requires s.states == st.states[id := s.states[id]]
    ensures IntentKept(st, s, x)
  {
    hide IntentTimely;
    ActiveToken(c, st, x);
  }

  /** The workflow of an active intent runs and has its ready event pending. */
  lemma ActiveToken(c: Config, st: Sim, id: Id)
    requires id in st.intents && IntentTimely(c, st, id)
    ensures id in st.states && (st.intents[id].active ==> st.states[id].status == Running && exists e :: e in st.events && TokenOf(e.action, id))
  {
    hide TurnStart, Turns, LastAt, AnyCancel;
    if st.intents[id].active {
      var e :| e in st.events && e.action == Ready(id, st.intents[id].index);
      assert TokenOf(e.action, id);
    }
  }

  lemma CompletedProgress(c: Config, st: Sim, s: Sim, id: Id, x: Id)
    requires x in st.states && id in st.states && ProgressTimely(c, st.trace, st.states[x], x) && s.trace == st.trace
    requires |st.states[id].rows| == |Turns(c, id)| > 0 && st.states[id].rows[|st.states[id].rows| - 1].completed == st.now
    requires s.states == st.states[id := st.states[id].(status := Completed, completion := Some(st.now - Flow(c.workflows, id).arrival))]
    ensures ProgressTimely(c, s.trace, s.states[x], x)
  {
    hide RowTimely, LastEnd, Turns;
  }

  lemma DemandTimely(c: Config, st: Sim, e: Event)
    requires Inv(c, st) && Timely(c, st) && e in st.events && e.at == st.now && e.action.Finished? && e.action.job.Demand?
    requires Handled(c, st, e.action)
    ensures Timely(c, Fire(c, st, e))
  {
    hide Inv, Timely, StartTurn, SerialsOk, Recorded, TurnStart, Turns, Startable;
    var job, s1 := e.action.job, Record(Pop(st, e), e.action.job);
    TokenFreed(c, st, e, job.id);
    RecordShape(st, e);
    RecordKeeps(c, st, s1, e);
    RecordTimely(c, st, s1, e);
    RecordEnds(c, st, s1, e);
    InvSerials(c, s1);
    if s1.states[job.id].status == Running {
      if job.index + 1 == |Turns(c, job.id)| {
        CompletionTimely(c, s1, Fire(c, st, e), job.id);
      } else {
        StartTurnTimely(c, s1, job.id, job.index + 1);
      }
    }
  }

  lemma RecordEnds(c: Config, st: Sim, s: Sim, e: Event)
    requires Recorded(st, s, e) && e.action.job.index == |st.states[e.action.job.id].rows|
    ensures var job, rows := e.action.job, s.states[e.action.job.id].rows;
            && |rows| == job.index + 1 && rows[job.index].completed == s.now
            && TurnStart(c, rows, job.id, job.index + 1) == s.now
            && s.events == st.events - {e}
  {
  }

  lemma OtherTimely(c: Config, st: Sim, e: Event)
    requires Timely(c, st) && Handled(c, st, e.action) && !e.action.Arrival? && !e.action.Ready?
    requires !(e.action.Finished? && e.action.job.Demand?)
    ensures Timely(c, Fire(c, st, e))
  {
    hide Timely, Calm, OnDeadline, OnUpdate, OnPreparation;
    ActiveRuns(c, st);
    match e.action {
      case Deadline(id) => DeadlineCalm(st, e, id);
      case Updated(id, index, u) => if u.Cancel? { CancelCalm(c, st, e, id, index, u); } else { ReviseCalm(c, st, e, id, index, u); }
      case Finished(job) => PreparationCalm(st, e, job);
      case Wake => PopCalm(st, e);
    }
    CalmTimely(c, st, Fire(c, st, e));
  }

  /** Every event handled at its time keeps the times right. */
  lemma FireTimely(c: Config, st: Sim, e: Event)
    requires Inv(c, st) && Timely(c, st) && e in st.events && e.at == st.now && Handled(c, st, e.action)
    ensures Timely(c, Fire(c, st, e))
  {
    hide Inv, Timely, Handle;
    if e.action.Arrival? {
      ArrivalTimely(c, st, e);
    } else if e.action.Ready? {
      ReadyTimely(c, st, e);
    } else if e.action.Finished? && e.action.job.Demand? {
      DemandTimely(c, st, e);
    } else {
      OtherTimely(c, st, e);
    }
  }

  /******* Dispatch *******/

  lemma LaunchedCalm(st: Sim, s: Sim, e: Event, x: Entry)
    requires Launched(st, s, e) && s.trace == st.trace + [(st.now, x)] && !x.RequestFinished? && OnlyRunningActive(st)
    ensures Calm(st, s.(events := st.events))
  {
  }

  lemma LaunchedTimely(c: Config, st: Sim, s: Sim, e: Event, x: Entry)
    requires Timely(c, st) && Launched(st, s, e) && s.trace == st.trace + [(st.now, x)] && !x.RequestFinished?
    requires EventTimely(c, s, e)
    ensures Timely(c, s)
  {
    hide Timely, Calm, EventTimely;
    var bare := s.(events := st.events);
    ActiveRuns(c, st);
    LaunchedCalm(st, s, e, x);
    CalmTimely(c, st, bare);
    SameEvent(c, s, bare, e);
    MoreEvents(c, bare, s);
  }

  lemma DemandEventTimely(c: Config, st: Sim, s: Sim, q: Waiting)
    requires WaitingTimely(c, st, q) && s.states == st.states
    requires var turn := Turns(c, q.id)[q.index];
             s.trace == st.trace + [(st.now, RequestStarted(q.id, q.index, DemandCost(c, turn, PromptHits(st, turn)), PromptHits(st, turn)))]
    ensures EventTimely(c, s, DemandEvent(c, st, q))
  {
    hide DemandCost, TurnStart, BlockKeys;
    var turn := Turns(c, q.id)[q.index];
    var n := PromptHits(st, turn);
    assert StartedAt(c, s.trace, q.id, q.index, n, st.now);
    assert Served(c, s.trace, q.id, q.index, q.ready, n, st.now + DemandCost(c, turn, n));
  }

  lemma LaunchDemandTimely(c: Config, st: Sim, q: Waiting)
    requires c.prefill > 0.0 && Timely(c, st) && WaitingTimely(c, st, q) && Dispatchable(c, st, q) && Free(st)
    ensures Timely(c, LaunchDemand(c, st, q))
  {
    hide Timely, WaitingTimely, EventTimely, LaunchDemand, Free, DemandCost, PromptHits, DemandEvent, Launched;
    var turn, s := Turns(c, q.id)[q.index], LaunchDemand(c, st, q);
    DemandLog(c, st, q);
    DemandShape(c, st, q);
    DemandEventTimely(c, st, s, q);
    LaunchedTimely(c, st, s, DemandEvent(c, st, q), RequestStarted(q.id, q.index, DemandCost(c, turn, PromptHits(st, turn)), PromptHits(st, turn)));
  }

  /** An active intent is for the workflow's next turn. */
  lemma ActiveIsNext(c: Config, st: Sim, id: Id)
    requires Inv(c, st) && Timely(c, st) && id in st.intents && st.intents[id].active
    ensures id in st.states && st.intents[id].index == |st.states[id].rows|
  {
    hide EventTimely, WaitingTimely, ProgressTimely, TurnStart, Turns, Linked, Gpu, Clocked, OwnIntent, Foreseen, SerialsOk;
    assert IntentTimely(c, st, id);
    var e :| e in st.events && e.action == Ready(id, st.intents[id].index);
    assert TokenOf(e.action, id) && TokenTurn(e.action) == st.intents[id].index;
  }

  lemma PreparationEventTimely(c: Config, st: Sim, s: Sim, id: Id)
    requires id in st.intents && id in st.states && st.intents[id].index == |st.states[id].rows| && s.states == st.states
    requires 0 < PreparationCount(c, st, st.intents[id])
    requires s.trace == st.trace + [(st.now, PreparationStarted(id, st.intents[id].revision, PreparationCount(c, st, st.intents[id])))]
    ensures EventTimely(c, s, PreparationEvent(c, st, id, st.intents[id]))
  {
    hide PrefillMs;
    var intent := st.intents[id];
    assert PreparedAt(s.trace, id, intent.revision, PreparationCount(c, st, intent), st.now);
  }

  lemma LaunchPreparationTimely(c: Config, st: Sim, id: Id)
    requires c.prefill > 0.0 && Inv(c, st) && Timely(c, st) && Preparable(c, st, id) && st.intents[id].active
    ensures Timely(c, LaunchPreparation(c, st, id, st.intents[id]))
  {
    hide Inv, Timely, EventTimely, LaunchPreparation, PreparationCount, PrefillMs, Launched, PreparationEvent, Distinct;
    var intent, s := st.intents[id], LaunchPreparation(c, st, id, st.intents[id]);
    ActiveIsNext(c, st, id);
    PreparationLog(c, st, id, intent);
    PreparationShape(c, st, id);
    PreparationEventTimely(c, st, s, id);
    LaunchedTimely(c, st, s, PreparationEvent(c, st, id, intent), PreparationStarted(id, intent.revision, PreparationCount(c, st, intent)));
  }

  lemma WakesTimely(c: Config, st: Sim, s: Sim)
    requires Timely(c, st) && OnlyWakes(st, s)
    ensures Timely(c, s)
  {
    hide Timely;
    ActiveRuns(c, st);
    CalmTimely(c, st, s);
  }

  lemma DropHeadTimely(c: Config, st: Sim, s: Sim)
    requires Timely(c, st) && st.queue != [] && s == st.(queue := st.queue[1..])
    ensures Timely(c, s) && WaitingTimely(c, s, st.queue[0])
  {
    hide EventTimely, IntentTimely, ProgressTimely, WaitingTimely;
    ActiveRuns(c, st);
    assert st.queue[0] in st.queue;
    SameWaiting(c, st, s, st.queue[0]);
    CalmTimely(c, st, s);
  }

  lemma {:induction false} DispatchPreparationTimely(c: Config, st: Sim, i: nat)
    requires Validated(c) && Inv(c, st) && Timely(c, st)
    requires i <= |st.intentOrder| && IntentsFit(c, st) && st.stats.computed < c.budget
    ensures Timely(c, DispatchPreparation(c, st, i))
    decreases |st.intentOrder| - i
  {
    hide Inv, Timely, Preparable, LaunchPreparation, OnlyWakes, TooEarly;
    if i < |st.intentOrder| {
      var id := st.intentOrder[i];
      if Idle(c, st, id) {
        DispatchPreparationTimely(c, st, i + 1);
      } else if TooEarly(c, st, st.intents[id]) {
        var s1 := ScheduleWakeup(c, st, st.intents[id]);
        WakeupShape(c, st, st.intents[id]);
        WakesKeep(c, st, s1);
        WakesTimely(c, st, s1);
        DispatchPreparationTimely(c, s1, i + 1);
      } else {
        ChosenPreparable(c, st, id);
        LaunchPreparationTimely(c, st, id);
      }
    }
  }

  lemma {:induction false} DispatchQueueTimely(c: Config, st: Sim)
    requires Validated(c) && Inv(c, st) && Free(st) && DispatchReady(c, st) && Timely(c, st)
    ensures Timely(c, DispatchQueue(c, st))
    decreases |st.queue|
  {
    hide Inv, Timely, LaunchDemand, WaitingTimely;
    if st.queue == [] {
      if c.policy != Off && st.stats.computed < c.budget { DispatchPreparationTimely(c, st, 0); }
    } else {
      var q, s1 := st.queue[0], st.(queue := st.queue[1..]);
      QueueDispatchable(c, st, s1);
      DropHeadTimely(c, st, s1);
      InvDispatchReady(c, s1);
      if st.states[q.id].status != Running { DispatchQueueTimely(c, s1); } else { LaunchDemandTimely(c, s1, q); }
    }
  }

  lemma DispatchTimely(c: Config, st: Sim)
    requires Validated(c) && Inv(c, st) && DispatchReady(c, st) && Timely(c, st)
    ensures Timely(c, Dispatch(c, st))
  {
    hide Inv, Timely, Validated;
    FreeUnlessBusy(c, st);
    if !st.busy { DispatchQueueTimely(c, st); }
  }

  lemma AdvanceTimely(c: Config, st: Sim, at: real)
    requires Timely(c, st) && st.now <= at
    ensures Timely(c, Advance(st, at))
  {
    hide Timely;
    ActiveRuns(c, st);
    CalmTimely(c, st, Advance(st, at));
  }
}
