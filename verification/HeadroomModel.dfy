/** The cache-scheduling simulator's data and its transition functions.

    Every method of the imperative `Simulation` class is specified by one of the
    functions below; the invariants and the termination argument are about these
    functions.  Time is `real`; a block key is the block prefix that its chained
    digest covers, so keys are injective by construction. */
module HeadroomModel {
  import opened Numbers
  import opened Wrappers

  type Id = string
  type Block = string
  type Key = seq<Block>

  /******* Workload *******/

  datatype Update = Revise(at: real, prefix: seq<Block>) | Cancel(at: real)

  datatype Turn = Turn(prompt: seq<Block>, generated: seq<Block>, decode: real, wait: real,
                       intent: seq<Block>, updates: seq<Update>)

  datatype Workflow = Workflow(id: Id, arrival: real, turns: seq<Turn>)

  datatype Policy = Off | Eager | FutureTiming

  datatype Config = Config(cacheBlocks: int, budget: int, chunk: int, prefill: real, horizon: real,
                           workflows: seq<Workflow>, policy: Policy)

  predicate ValidBlocks(blocks: seq<Block>) {
    forall b :: b in blocks ==> b != ""
  }

  predicate ValidUpdates(c: Config, turn: Turn) {
    && (forall i, j :: 0 <= i < j < |turn.updates| ==> turn.updates[i].at <= turn.updates[j].at)
    && (forall u :: u in turn.updates ==>
          && 0.0 <= u.at <= turn.wait
          && (u.Revise? ==> ValidBlocks(u.prefix) && |u.prefix| <= c.cacheBlocks))
  }

  predicate ValidTurn(c: Config, turn: Turn, first: bool) {
    && ValidBlocks(turn.prompt) && ValidBlocks(turn.generated) && ValidBlocks(turn.intent)
    && turn.prompt != []
    && |turn.prompt| + |turn.generated| <= c.cacheBlocks
    && turn.decode > 0.0 && turn.wait >= 0.0
    && (first ==> turn.intent == [] && turn.updates == [])
    && |turn.intent| <= c.cacheBlocks
    && ValidUpdates(c, turn)
  }

  predicate ValidWorkflow(c: Config, f: Workflow) {
    && f.id != "" && f.arrival >= 0.0 && f.turns != []
    && forall i :: 0 <= i < |f.turns| ==> ValidTurn(c, f.turns[i], i == 0)
  }

  /** What `validate` accepts. */
  predicate Validated(c: Config) {
    && c.cacheBlocks >= 1 && c.budget >= 1 && c.chunk >= 1
    && c.prefill > 0.0 && c.horizon > 0.0
    && c.workflows != []
    && (forall f :: f in c.workflows ==> ValidWorkflow(c, f))
    && (forall i, j :: 0 <= i < j < |c.workflows| ==> c.workflows[i].id != c.workflows[j].id)
  }

  function Flow(flows: seq<Workflow>, id: Id): Workflow {
    if flows == [] then Workflow("", 0.0, [])
    else if flows[0].id == id then flows[0]
    else Flow(flows[1..], id)
  }

  function Turns(c: Config, id: Id): seq<Turn> { Flow(c.workflows, id).turns }

  function Due(c: Config, id: Id): real { Flow(c.workflows, id).arrival + c.horizon }

  ghost function Ids(c: Config): set<Id> { set f | f in c.workflows :: f.id }

  function BlockKeys(blocks: seq<Block>): (keys: seq<Key>)
    ensures |keys| == |blocks|
    ensures forall i :: 0 <= i < |keys| ==> keys[i] == blocks[..i + 1]
  {
    seq(|blocks|, i requires 0 <= i < |blocks| => blocks[..i + 1])
  }

  /******* State *******/

  datatype Tag = Pending | Speculative | Ordinary
  datatype Status = Running | Completed | Cancelled | TimedOut

  datatype TurnRow = TurnRow(turn: nat, ready: real, completed: real, cached: nat)
  datatype Progress = Progress(status: Status, rows: seq<TurnRow>, completion: Option<real>)

  datatype Intent = Intent(index: nat, revision: nat, keys: seq<Key>, readyAt: real,
                           active: bool, eligibleAt: real, willCancel: bool)

  /** `index` of a preparation is not in the program's record; it names the turn whose
      intent launched the job, so that the look-up at its finish can be judged. */
  datatype Job =
    | Demand(id: Id, index: nat, keys: seq<Key>, ready: real, cached: nat)
    | Preparation(id: Id, index: nat, revision: nat, computed: seq<Key>)

  datatype Action =
    | Finished(job: Job)
    | Updated(id: Id, index: nat, update: Update)
    | Ready(id: Id, index: nat)
    | Arrival(id: Id)
    | Deadline(id: Id)
    | Wake

  datatype Event = Event(at: real, serial: nat, action: Action)

  datatype Waiting = Waiting(id: Id, index: nat, ready: real)

  datatype Entry =
    | DeadlineHit(id: Id)
    | RequestReady(id: Id, turn: nat)
    | CancelSeen(id: Id)
    | RevisionSeen(id: Id, revision: nat)
    | PreparationFinished(id: Id, blocks: nat, obsolete: bool)
    | RequestFinished(id: Id, turn: nat)
    | RequestStarted(id: Id, turn: nat, cost: real, cached: nat)
    | PreparationStarted(id: Id, revision: nat, blocks: nat)

  datatype Stats = Stats(demandMs: real, speculativeMs: real, computed: int, useful: int,
                         ordinary: int, cacheBlockMs: real, peak: int, obsolete: int, late: int)

  /** The order of `lru` is the order of the program's ordered cache dictionary, and
      `intentOrder` the insertion order of its intent dictionary. */
  datatype Sim = Sim(now: real, events: set<Event>, serial: nat, lru: seq<Key>, tags: map<Key, Tag>,
                     queue: seq<Waiting>, busy: bool, intentOrder: seq<Id>, intents: map<Id, Intent>,
                     states: map<Id, Progress>, trace: seq<(real, Entry)>, stats: Stats)

  /******* The event queue *******/

  function Rank(a: Action): nat {
    match a
    case Finished(_) => 0
    case Updated(_, _, _) => 1
    case Ready(_, _) => 2
    case Arrival(_) => 3
    case Deadline(_) => 4
    case Wake => 5
  }

  predicate Before(e: Event, f: Event) {
    || e.at < f.at
    || (e.at == f.at && Rank(e.action) < Rank(f.action))
    || (e.at == f.at && Rank(e.action) == Rank(f.action) && e.serial <= f.serial)
  }

  predicate IsFirst(e: Event, events: set<Event>) {
    e in events && forall f :: f in events ==> Before(e, f)
  }

  predicate SerialsOk(events: set<Event>, serial: nat) {
    && (forall e :: e in events ==> e.serial <= serial)
    && (forall e, f :: e in events && f in events && e.serial == f.serial ==> e == f)
  }

  lemma {:induction false} FirstExists(events: set<Event>)
    requires events != {}
    ensures exists e :: IsFirst(e, events)
    decreases |events|
  {
    var e :| e in events;
    if events == {e} {
      assert IsFirst(e, events);
    } else {
      var rest := events - {e};
      assert events == rest + {e};
      FirstExists(rest);
      var f :| IsFirst(f, rest);
      var g := if Before(e, f) then e else f;
      forall h | h in events ensures Before(g, h) {
        if h != e { assert h in rest; }
      }
      assert IsFirst(g, events);
    }
  }

  /** The program's `heappop`: serial numbers make the least element unique. */
  ghost function First(events: set<Event>): (e: Event)
    requires events != {}
    ensures IsFirst(e, events)
  {
    FirstExists(events);
    var e :| IsFirst(e, events);
    e
  }

  lemma FirstUnique(e: Event, events: set<Event>, serial: nat)
    requires SerialsOk(events, serial) && IsFirst(e, events)
    ensures e == First(events)
  {
    var f := First(events);
    assert Before(e, f) && Before(f, e);
  }

  function Push(st: Sim, at: real, action: Action): Sim {
    st.(serial := st.serial + 1, events := st.events + {Event(at, st.serial + 1, action)})
  }

  function Pop(st: Sim, e: Event): Sim { st.(events := st.events - {e}) }

  function Log(st: Sim, entry: Entry): Sim { st.(trace := st.trace + [(st.now, entry)]) }

  function Advance(st: Sim, at: real): Sim {
    st.(stats := st.stats.(cacheBlockMs := st.stats.cacheBlockMs + (at - st.now) * |st.lru| as real), now := at)
  }

  /******* The block cache *******/

  predicate Resident(tags: map<Key, Tag>, key: Key) { key in tags && tags[key] != Pending }

  function CachedFrom(tags: map<Key, Tag>, keys: seq<Key>, i: nat): (n: nat)
    requires i <= |keys|
    ensures i <= n <= |keys|
    ensures forall j :: i <= j < n ==> Resident(tags, keys[j])
    ensures n < |keys| ==> !Resident(tags, keys[n])
    decreases |keys| - i
  {
    if i == |keys| || !Resident(tags, keys[i]) then i else CachedFrom(tags, keys, i + 1)
  }

  function CachedPrefix(tags: map<Key, Tag>, keys: seq<Key>): (n: nat)
    ensures n <= |keys|
    ensures forall j :: 0 <= j < n ==> Resident(tags, keys[j])
    ensures n < |keys| ==> !Resident(tags, keys[n])
  {
    CachedFrom(tags, keys, 0)
  }

  /** The entries of `lru` that a reservation of `keys` does not protect, oldest first. */
  function Unprotected(lru: seq<Key>, keys: seq<Key>): (rest: seq<Key>)
    ensures forall k :: k in rest <==> k in lru && k !in keys
    ensures |rest| <= |lru|
  {
    if lru == [] then []
    else if lru[0] in keys then Unprotected(lru[1..], keys)
    else [lru[0]] + Unprotected(lru[1..], keys)
  }

  function Excess(c: Config, lru: seq<Key>, keys: seq<Key>): (n: nat)
    requires |keys| <= c.cacheBlocks
    ensures n <= |Unprotected(lru, keys)|
  {
    var over := |Unprotected(lru, keys)| + |keys| - c.cacheBlocks;
    if over > 0 then over else 0
  }

  /** Drop the oldest unprotected entries until `keys` fit, and make `keys` the newest entries. */
  function ReservedOrder(c: Config, lru: seq<Key>, keys: seq<Key>): seq<Key>
    requires |keys| <= c.cacheBlocks
  {
    Unprotected(lru, keys)[Excess(c, lru, keys)..] + keys
  }

  function Retag(tags: map<Key, Tag>, order: seq<Key>): map<Key, Tag> {
    map k | k in order :: if k in tags then tags[k] else Pending
  }

  function Reserve(c: Config, st: Sim, keys: seq<Key>): Sim
    requires |keys| <= c.cacheBlocks
  {
    var order := ReservedOrder(c, st.lru, keys);
    st.(lru := order, tags := Retag(st.tags, order),
        stats := st.stats.(peak := Max(st.stats.peak, |order|)))
  }

  /** Writing the tag of a key that is absent would grow the cache; no reachable finish does. */
  function SetTags(tags: map<Key, Tag>, keys: seq<Key>, tag: Tag): map<Key, Tag>
    requires forall k :: k in keys ==> k in tags
  {
    map k | k in tags :: if k in keys then tag else tags[k]
  }

  /** Charge one cache hit of a dispatched prompt. */
  function Hit(st: Sim, key: Key): Sim
    requires key in st.tags
  {
    var stats := if st.tags[key] == Speculative then st.stats.(useful := st.stats.useful + 1)
                 else st.stats.(ordinary := st.stats.ordinary + 1);
    st.(stats := stats, tags := st.tags[key := Ordinary])
  }

  function Hits(st: Sim, keys: seq<Key>): (r: Sim)
    requires forall k :: k in keys ==> k in st.tags
    ensures r.tags.Keys == st.tags.Keys
    decreases |keys|
  {
    if keys == [] then st else Hits(Hit(st, keys[0]), keys[1..])
  }

  /******* Intents and turns *******/

  function MaxTime(a: real, b: real): real { if a >= b then a else b }

  function LastAt(updates: seq<Update>): (t: real)
    ensures forall u :: u in updates ==> u.at <= t
    ensures t >= 0.0 && (t == 0.0 || exists u :: u in updates && u.at == t)
  {
    if updates == [] then 0.0
    else MaxTime(updates[|updates| - 1].at, LastAt(updates[..|updates| - 1]))
  }

  predicate AnyCancel(updates: seq<Update>) { exists u :: u in updates && u.Cancel? }

  function SetIntent(st: Sim, id: Id, intent: Intent): Sim {
    st.(intents := st.intents[id := intent],
        intentOrder := if id in st.intents then st.intentOrder else st.intentOrder + [id])
  }

  function Deactivate(st: Sim, id: Id): Sim {
    if id in st.intents then st.(intents := st.intents[id := st.intents[id].(active := false)]) else st
  }

  /** Prefill time of `n` blocks. */
  function PrefillMs(c: Config, n: int): real { n as real * c.prefill }

  function Begin(c: Config, st: Sim, intent: Intent): real {
    intent.readyAt - PrefillMs(c, |intent.keys| - CachedPrefix(st.tags, intent.keys))
  }

  function WakeTime(c: Config, st: Sim, intent: Intent): real {
    MaxTime(st.now, MaxTime(intent.eligibleAt, Begin(c, st, intent)))
  }

  function ScheduleWakeup(c: Config, st: Sim, intent: Intent): Sim {
    if c.policy == FutureTiming && intent.active
       && st.now < WakeTime(c, st, intent) < intent.readyAt
    then Push(st, WakeTime(c, st, intent), Wake)
    else st
  }

  function PushUpdates(st: Sim, id: Id, index: nat, updates: seq<Update>): Sim
    decreases |updates|
  {
    if updates == [] then st
    else PushUpdates(Push(st, st.now + updates[0].at, Updated(id, index, updates[0])), id, index, updates[1..])
  }

  function NewIntent(c: Config, st: Sim, index: nat, turn: Turn): Intent {
    Intent(index, 0, BlockKeys(turn.intent), st.now + turn.wait, true,
           if c.policy == FutureTiming then st.now + LastAt(turn.updates) else st.now,
           c.policy == FutureTiming && AnyCancel(turn.updates))
  }

  function StartTurn(c: Config, st: Sim, id: Id, index: nat): Sim
    requires id in st.states
    requires index < |Turns(c, id)|
  {
    if st.states[id].status != Running then st
    else
      var turn := Turns(c, id)[index];
      var s1 := Push(st, st.now + turn.wait, Ready(id, index));
      if index == 0 then s1
      else
        var intent := NewIntent(c, st, index, turn);
        ScheduleWakeup(c, PushUpdates(SetIntent(s1, id, intent), id, index, turn.updates), intent)
  }

  function SetStatus(st: Sim, id: Id, status: Status): Sim
    requires id in st.states
  {
    st.(states := st.states[id := st.states[id].(status := status)])
  }

  /******* Event handlers; the event has already left the queue *******/

  function OnDeadline(st: Sim, id: Id): Sim
    requires id in st.states
  {
    if st.states[id].status != Running then st
    else Log(Deactivate(SetStatus(st, id, TimedOut), id), DeadlineHit(id))
  }

  function OnReady(st: Sim, id: Id, index: nat): Sim
    requires id in st.states
  {
    if st.states[id].status != Running then st
    else
      var s1 := Deactivate(st, id);
      Log(s1.(queue := s1.queue + [Waiting(id, index, s1.now)]), RequestReady(id, index))
  }

  function Revised(intent: Intent, update: Update): Intent {
    match update
    case Cancel(_) => intent.(revision := intent.revision + 1, active := false)
    case Revise(_, prefix) => intent.(revision := intent.revision + 1, keys := BlockKeys(prefix))
  }

  function OnUpdate(c: Config, st: Sim, id: Id, index: nat, update: Update): Sim
    requires id in st.states
  {
    if id !in st.intents || st.intents[id].index != index || st.states[id].status != Running then st
    else
      var intent := Revised(st.intents[id], update);
      var s1 := st.(intents := st.intents[id := intent]);
      if update.Cancel? then Log(SetStatus(s1, id, Cancelled), CancelSeen(id))
      else ScheduleWakeup(c, Log(s1, RevisionSeen(id, intent.revision)), intent)
  }

  predicate Obsolete(st: Sim, job: Job)
    requires job.Preparation? && job.id in st.states && job.id in st.intents
  {
    st.states[job.id].status in {Cancelled, TimedOut} || st.intents[job.id].revision != job.revision
  }

  function OnPreparation(st: Sim, job: Job): Sim
    requires job.Preparation? && job.id in st.states && job.id in st.intents
    requires forall k :: k in job.computed ==> k in st.tags
  {
    var n := |job.computed|;
    var stats := st.stats.(
      obsolete := st.stats.obsolete + (if Obsolete(st, job) then n else 0),
      late := st.stats.late + (if st.now > st.intents[job.id].readyAt then n else 0));
    Log(st.(busy := false, stats := stats, tags := SetTags(st.tags, job.computed, Speculative)),
        PreparationFinished(job.id, n, Obsolete(st, job)))
  }

  function Record(st: Sim, job: Job): Sim
    requires job.Demand? && job.id in st.states
    requires forall k :: k in job.keys ==> k in st.tags
  {
    var p := st.states[job.id];
    var row := TurnRow(job.index, job.ready, st.now, job.cached);
    Log(st.(busy := false, tags := SetTags(st.tags, job.keys, Ordinary),
            states := st.states[job.id := p.(rows := p.rows + [row])]),
        RequestFinished(job.id, job.index))
  }

  function OnDemand(c: Config, st: Sim, job: Job): Sim
    requires job.Demand? && job.id in st.states
    requires forall k :: k in job.keys ==> k in st.tags
    requires job.index < |Turns(c, job.id)|
  {
    var s1 := Record(st, job);
    var p := s1.states[job.id];
    if p.status != Running then s1
    else if job.index + 1 == |Turns(c, job.id)| then
      s1.(states := s1.states[job.id :=
            p.(status := Completed, completion := Some(st.now - Flow(c.workflows, job.id).arrival))])
    else StartTurn(c, s1, job.id, job.index + 1)
  }

  /** What an action needs of the dictionaries its handler indexes. */
  predicate Handled(c: Config, st: Sim, a: Action) {
    match a
    case Arrival(id) => id in st.states && 0 < |Turns(c, id)|
    case Deadline(id) => id in st.states
    case Ready(id, i) => id in st.states && i < |Turns(c, id)|
    case Updated(id, i, u) => id in st.states && 0 < i < |Turns(c, id)| && u in Turns(c, id)[i].updates
    case Finished(Demand(id, i, keys, _, _)) =>
      id in st.states && i < |Turns(c, id)| && forall k :: k in keys ==> k in st.tags
    case Finished(Preparation(id, _, _, computed)) =>
      id in st.states && id in st.intents && forall k :: k in computed ==> k in st.tags
    case Wake => true
  }

  function Handle(c: Config, st: Sim, a: Action): Sim
    requires Handled(c, st, a)
  {
    match a
    case Arrival(id) => StartTurn(c, st, id, 0)
    case Deadline(id) => OnDeadline(st, id)
    case Ready(id, index) => OnReady(st, id, index)
    case Updated(id, index, update) => OnUpdate(c, st, id, index, update)
    case Finished(job) => if job.Preparation? then OnPreparation(st, job) else OnDemand(c, st, job)
    case Wake => st
  }

  /******* Dispatch *******/

  function DemandKeys(turn: Turn): seq<Key> { BlockKeys(turn.prompt + turn.generated) }

  function PromptHits(st: Sim, turn: Turn): nat { CachedPrefix(st.tags, BlockKeys(turn.prompt)) }

  function DemandCost(c: Config, turn: Turn, cached: int): real {
    PrefillMs(c, |turn.prompt| - cached) + turn.decode
  }

  function LaunchDemand(c: Config, st: Sim, q: Waiting): Sim
    requires q.index < |Turns(c, q.id)|
    requires |Turns(c, q.id)[q.index].prompt| + |Turns(c, q.id)[q.index].generated| <= c.cacheBlocks
  {
    var turn := Turns(c, q.id)[q.index];
    var cached := PromptHits(st, turn);
    var s1 := Hits(st, BlockKeys(turn.prompt)[..cached]);
    var cost := DemandCost(c, turn, cached);
    var s2 := Reserve(c, s1, DemandKeys(turn));
    var s3 := s2.(stats := s2.stats.(demandMs := s2.stats.demandMs + cost), busy := true);
    Push(Log(s3, RequestStarted(q.id, q.index, cost, cached)), st.now + cost,
         Finished(Demand(q.id, q.index, DemandKeys(turn), q.ready, cached)))
  }

  function PreparationCount(c: Config, st: Sim, intent: Intent): int {
    Min(Min(|intent.keys| - CachedPrefix(st.tags, intent.keys), c.budget - st.stats.computed), c.chunk)
  }

  function LaunchPreparation(c: Config, st: Sim, id: Id, intent: Intent): Sim
    requires |intent.keys| <= c.cacheBlocks
    requires 0 < PreparationCount(c, st, intent)
  {
    var cached := CachedPrefix(st.tags, intent.keys);
    var n := PreparationCount(c, st, intent);
    var cost := PrefillMs(c, n);
    var s1 := Reserve(c, st, intent.keys[..cached + n]);
    var s2 := s1.(stats := s1.stats.(computed := s1.stats.computed + n,
                                     speculativeMs := s1.stats.speculativeMs + cost), busy := true);
    Push(Log(s2, PreparationStarted(id, intent.revision, n)), st.now + cost,
         Finished(Preparation(id, intent.index, intent.revision, intent.keys[cached..cached + n])))
  }

  predicate QueueFits(c: Config, queue: seq<Waiting>) {
    forall q :: q in queue ==>
      && q.index < |Turns(c, q.id)|
      && |Turns(c, q.id)[q.index].prompt| + |Turns(c, q.id)[q.index].generated| <= c.cacheBlocks
  }

  predicate IntentsFit(c: Config, st: Sim) {
    forall id :: id in st.intentOrder ==>
      id in st.intents && id in st.states && |st.intents[id].keys| <= c.cacheBlocks
  }

  /** An intent the loop over intents passes over. */
  predicate Idle(c: Config, st: Sim, id: Id)
    requires id in st.intents && id in st.states
  {
    var intent := st.intents[id];
    || !intent.active || st.states[id].status != Running
    || CachedPrefix(st.tags, intent.keys) == |intent.keys|
    || (c.policy == FutureTiming && (intent.willCancel || st.now < intent.eligibleAt))
  }

  predicate TooEarly(c: Config, st: Sim, intent: Intent) {
    c.policy == FutureTiming && st.now < Begin(c, st, intent)
  }

  function DispatchPreparation(c: Config, st: Sim, i: nat): Sim
    requires i <= |st.intentOrder| && IntentsFit(c, st)
    requires c.chunk >= 1 && st.stats.computed < c.budget
    decreases |st.intentOrder| - i
  {
    if i == |st.intentOrder| then st
    else
      var id := st.intentOrder[i];
      var intent := st.intents[id];
      if Idle(c, st, id) then DispatchPreparation(c, st, i + 1)
      else if TooEarly(c, st, intent) then DispatchPreparation(c, ScheduleWakeup(c, st, intent), i + 1)
      else LaunchPreparation(c, st, id, intent)
  }

  function DispatchIdle(c: Config, st: Sim): Sim
    requires IntentsFit(c, st) && c.chunk >= 1
  {
    if c.policy == Off || c.budget <= st.stats.computed then st else DispatchPreparation(c, st, 0)
  }

  function DispatchQueue(c: Config, st: Sim): Sim
    requires QueueFits(c, st.queue) && (forall q :: q in st.queue ==> q.id in st.states)
    requires IntentsFit(c, st) && c.chunk >= 1
    decreases |st.queue|
  {
    if st.queue == [] then DispatchIdle(c, st)
    else
      var q := st.queue[0];
      var s1 := st.(queue := st.queue[1..]);
      if st.states[q.id].status != Running then DispatchQueue(c, s1) else LaunchDemand(c, s1, q)
  }

  function Dispatch(c: Config, st: Sim): Sim
    requires QueueFits(c, st.queue) && (forall q :: q in st.queue ==> q.id in st.states)
    requires IntentsFit(c, st) && c.chunk >= 1
  {
    if st.busy then st else DispatchQueue(c, st)
  }

  /******* Start *******/

  const NO_STATS: Stats := Stats(0.0, 0.0, 0, 0, 0, 0.0, 0, 0, 0)
  const EMPTY: Sim := Sim(0.0, {}, 0, [], map[], [], false, [], map[], map[], [], NO_STATS)

  function Admit(c: Config, st: Sim, f: Workflow): Sim {
    Push(Push(st.(states := st.states[f.id := Progress(Running, [], None)]),
              f.arrival, Arrival(f.id)),
         f.arrival + c.horizon, Deadline(f.id))
  }

  function AdmitAll(c: Config, n: nat): Sim
    requires n <= |c.workflows|
  {
    if n == 0 then EMPTY else Admit(c, AdmitAll(c, n - 1), c.workflows[n - 1])
  }

  function LatestArrival(flows: seq<Workflow>): (t: real)
    requires flows != []
    ensures (exists f :: f in flows && f.arrival == t) && forall f :: f in flows ==> f.arrival <= t
  {
    if |flows| == 1 then flows[0].arrival
    else MaxTime(LatestArrival(flows[..|flows| - 1]), flows[|flows| - 1].arrival)
  }

  function ObservationEnd(c: Config): real
    requires c.workflows != []
  {
    LatestArrival(c.workflows) + c.horizon
  }
}
