/** What the event log of a run says: the charged time and the block counters are sums over
    it, requests start once each and in turn order, and under the future-timing policy every
    obsolete preparation is preceded by its workflow's deadline. */
module HeadroomHistory {
  import opened HeadroomModel
  import opened HeadroomCache
  import opened HeadroomInvariant
  import opened HeadroomSteps
  import opened HeadroomJobs
  import opened HeadroomDispatch
  import opened HeadroomProgress

  type Journal = seq<(real, Entry)>

  /******* Sums over the log *******/

  function PromptOf(c: Config, x: Entry): nat {
    if x.RequestStarted? && x.turn < |Turns(c, x.id)| then |Turns(c, x.id)[x.turn].prompt| else 0
  }

  function DecodeOf(c: Config, x: Entry): real {
    if x.RequestStarted? && x.turn < |Turns(c, x.id)| then Turns(c, x.id)[x.turn].decode else 0.0
  }

  function Prompted(c: Config, log: Journal): nat {
    if log == [] then 0 else Prompted(c, log[..|log| - 1]) + PromptOf(c, log[|log| - 1].1)
  }

  function Decoded(c: Config, log: Journal): real {
    if log == [] then 0.0 else Decoded(c, log[..|log| - 1]) + DecodeOf(c, log[|log| - 1].1)
  }

  function ReusedBy(x: Entry): nat { if x.RequestStarted? then x.cached else 0 }

  function Reused(log: Journal): nat {
    if log == [] then 0 else Reused(log[..|log| - 1]) + ReusedBy(log[|log| - 1].1)
  }

  function PreparedBy(x: Entry): nat { if x.PreparationStarted? then x.blocks else 0 }

  function Prepared(log: Journal): nat {
    if log == [] then 0 else Prepared(log[..|log| - 1]) + PreparedBy(log[|log| - 1].1)
  }

  /** The jobs the log shows as started, requests and preparations. */
  function JobsStarted(log: Journal): nat {
    if log == [] then 0
    else JobsStarted(log[..|log| - 1])
         + if log[|log| - 1].1.RequestStarted? || log[|log| - 1].1.PreparationStarted? then 1 else 0
  }

  function StartedBy(x: Entry, id: Id): seq<nat> {
    if x.RequestStarted? && x.id == id then [x.turn] else []
  }

  /** The turns of a workflow in the order in which their requests started. */
  function Started(log: Journal, id: Id): seq<nat> {
    if log == [] then [] else Started(log[..|log| - 1], id) + StartedBy(log[|log| - 1].1, id)
  }

  function FinishedBy(x: Entry, id: Id): seq<nat> {
    if x.RequestFinished? && x.id == id then [x.turn] else []
  }

  function Ended(log: Journal, id: Id): seq<nat> {
    if log == [] then [] else Ended(log[..|log| - 1], id) + FinishedBy(log[|log| - 1].1, id)
  }

  function Upto(n: nat): (s: seq<nat>)
    ensures |s| == n && forall i :: 0 <= i < n ==> s[i] == i
  {
    if n == 0 then [] else Upto(n - 1) + [n - 1]
  }

  lemma Init(log: Journal, x: (real, Entry))
    ensures (log + [x])[..|log|] == log && (log + [x])[|log|] == x
  {
  }

  /******* The charged time and the block counters *******/

  ghost predicate Balanced(c: Config, st: Sim) {
    && st.stats.useful + st.stats.ordinary == Reused(st.trace)
    && st.stats.demandMs == PrefillMs(c, Prompted(c, st.trace) - Reused(st.trace)) + Decoded(c, st.trace)
    && st.stats.computed == Prepared(st.trace)
    && st.stats.speculativeMs == PrefillMs(c, Prepared(st.trace))
    && (c.policy == Off ==> Prepared(st.trace) == 0)
  }

  predicate Neutral(x: Entry) { !x.RequestStarted? && !x.PreparationStarted? }

  /** The log grew by at most one entry, which starts no job, and no counter it balances moved. */
  ghost predicate NeutralStep(st: Sim, s: Sim) {
    && (s.trace == st.trace
        || (|s.trace| == |st.trace| + 1 && s.trace[..|st.trace|] == st.trace && Neutral(s.trace[|st.trace|].1)))
    && s.stats.useful == st.stats.useful && s.stats.ordinary == st.stats.ordinary
    && s.stats.demandMs == st.stats.demandMs && s.stats.computed == st.stats.computed
    && s.stats.speculativeMs == st.stats.speculativeMs
  }

  lemma NeutralBalance(c: Config, st: Sim, s: Sim)
    requires Balanced(c, st) && NeutralStep(st, s)
    ensures Balanced(c, s)
  {
  }

  lemma StartTurnNeutral(c: Config, st: Sim, id: Id, index: nat)
    requires id in st.states && index < |Turns(c, id)| && SerialsOk(st.events, st.serial)
    ensures var s := StartTurn(c, st, id, index); s.trace == st.trace && s.stats == st.stats
  {
    if st.states[id].status == Running { StartTurnShape(c, st, id, index); }
  }

  lemma FireNeutral(c: Config, st: Sim, e: Event)
    requires Handled(c, st, e.action) && SerialsOk(st.events, st.serial)
    ensures NeutralStep(st, Fire(c, st, e))
  {
    hide SetTags, BlockKeys, StartTurn, SerialsOk, Begin;
    var s0 := Pop(st, e);
    PopSerials(st, e);
    match e.action {
      case Arrival(id) => StartTurnNeutral(c, s0, id, 0);
      case Finished(job) =>
        if job.Demand? {
          var s1 := Record(s0, job);
          if s1.states[job.id].status == Running && job.index + 1 < |Turns(c, job.id)| {
            StartTurnNeutral(c, s1, job.id, job.index + 1);
          }
        }
      case _ =>
    }
  }

  /** The charge of one more request keeps the sums. */
  lemma ChargeStep(c: Config, done: int, more: int)
    ensures PrefillMs(c, done) + PrefillMs(c, more) == PrefillMs(c, done + more)
  {
    calc {
      done as real * c.prefill + more as real * c.prefill;
      (done as real + more as real) * c.prefill;
      (done + more) as real * c.prefill;
    }
  }

  lemma LaunchDemandBalance(c: Config, st: Sim, q: Waiting)
    requires Balanced(c, st) && Dispatchable(c, st, q)
    ensures Balanced(c, LaunchDemand(c, st, q))
  {
    hide PrefillMs, Reserve, CachedPrefix, Hits, BlockKeys, Turns;
    var turn := Turns(c, q.id)[q.index];
    var n := PromptHits(st, turn);
    var s := LaunchDemand(c, st, q);
    HitsCount(st, BlockKeys(turn.prompt)[..n]);
    ReserveStats(c, Hits(st, BlockKeys(turn.prompt)[..n]), DemandKeys(turn));
    var x := (st.now, RequestStarted(q.id, q.index, DemandCost(c, turn, n), n));
    Init(st.trace, x);
    assert s.trace == st.trace + [x];
    ChargeStep(c, Prompted(c, st.trace) - Reused(st.trace), |turn.prompt| - n);
  }

  lemma ReserveStats(c: Config, st: Sim, keys: seq<Key>)
    requires |keys| <= c.cacheBlocks
    ensures var s := Reserve(c, st, keys);
            s.stats == st.stats.(peak := s.stats.peak) && s == st.(lru := s.lru, tags := s.tags, stats := s.stats)
  {
  }

  /** The log entry and the counters of a launched preparation. */
  ghost predicate PreparationBooked(c: Config, st: Sim, s: Sim, id: Id, intent: Intent, n: nat) {
    && n > 0 && s.trace == st.trace + [(st.now, PreparationStarted(id, intent.revision, n))]
    && s.stats.useful == st.stats.useful && s.stats.ordinary == st.stats.ordinary
    && s.stats.demandMs == st.stats.demandMs && s.stats.computed == st.stats.computed + n
    && s.stats.speculativeMs == st.stats.speculativeMs + PrefillMs(c, n) && s.stats.obsolete == st.stats.obsolete
    && s.states == st.states && s.now == st.now && s.stats.cacheBlockMs == st.stats.cacheBlockMs && s.stats.late == st.stats.late
    && (forall e: Event :: e.action.Finished? && e.action.job.Demand? ==> (e in s.events <==> e in st.events))
  }

  lemma PreparationLog(c: Config, st: Sim, id: Id, intent: Intent)
    requires |intent.keys| <= c.cacheBlocks && 0 < PreparationCount(c, st, intent)
    ensures PreparationBooked(c, st, LaunchPreparation(c, st, id, intent), id, intent, PreparationCount(c, st, intent))
  {
    hide PrefillMs;
  }

  lemma LaunchPreparationBalance(c: Config, st: Sim, s: Sim, id: Id, intent: Intent, n: nat)
    requires Balanced(c, st) && PreparationBooked(c, st, s, id, intent, n) && c.policy != Off
    ensures Balanced(c, s)
  {
    hide PrefillMs;
    ChargeStep(c, Prepared(st.trace), n);
    Init(st.trace, (st.now, PreparationStarted(id, intent.revision, n)));
  }

  /******* Requests start once each, in turn order *******/

  ghost predicate InFlight(st: Sim, id: Id) {
    exists e :: e in st.events && e.action.Finished? && e.action.job.Demand? && e.action.job.id == id
  }

  function SumStarted(c: Config, log: Journal, n: nat): nat
    requires n <= |c.workflows|
  {
    if n == 0 then 0 else SumStarted(c, log, n - 1) + |Started(log, c.workflows[n - 1].id)|
  }

  ghost predicate InOrder(c: Config, st: Sim) {
    && (forall id :: id in st.states ==>
          && Started(st.trace, id) == Upto(|st.states[id].rows| + if InFlight(st, id) then 1 else 0)
          && Ended(st.trace, id) == Upto(|st.states[id].rows|))
    && JobsStarted(st.trace) <= SumStarted(c, st.trace, |c.workflows|) + Prepared(st.trace)
  }

  lemma {:induction false} SumSnoc(c: Config, log: Journal, x: (real, Entry), n: nat)
    requires n <= |c.workflows|
    requires forall i, j :: 0 <= i < j < |c.workflows| ==> c.workflows[i].id != c.workflows[j].id
    ensures SumStarted(c, log + [x], n) >= SumStarted(c, log, n)
    ensures x.1.RequestStarted? && (exists i :: 0 <= i < n && c.workflows[i].id == x.1.id) ==>
              SumStarted(c, log + [x], n) == SumStarted(c, log, n) + 1
    ensures !x.1.RequestStarted? || (forall i :: 0 <= i < n ==> c.workflows[i].id != x.1.id) ==>
              SumStarted(c, log + [x], n) == SumStarted(c, log, n)
  {
    Init(log, x);
    if n > 0 {
      SumSnoc(c, log, x, n - 1);
    }
  }

  /** A step whose log entry neither starts nor ends a request, and that leaves rows and jobs alone. */
  ghost predicate QuietStep(st: Sim, s: Sim) {
    && (s.trace == st.trace
        || exists x :: s.trace == st.trace + [(st.now, x)] && Neutral(x) && !x.RequestFinished?)
    && s.states.Keys == st.states.Keys
    && (forall id :: id in st.states ==> s.states[id].rows == st.states[id].rows)
    && (forall e: Event :: e.action.Finished? && e.action.job.Demand? ==> (e in s.events <==> e in st.events))
  }

  /** How one more entry moves every reading of the log. */
  lemma Snoc(log: Journal, x: (real, Entry), id: Id)
    ensures Started(log + [x], id) == Started(log, id) + StartedBy(x.1, id)
    ensures Ended(log + [x], id) == Ended(log, id) + FinishedBy(x.1, id)
  {
    Init(log, x);
  }

  lemma SnocCounts(c: Config, log: Journal, x: (real, Entry))
    requires Validated(c)
    ensures JobsStarted(log + [x]) == JobsStarted(log) + if Neutral(x.1) then 0 else 1
    ensures Prepared(log + [x]) == Prepared(log) + PreparedBy(x.1)
    ensures SumStarted(c, log + [x], |c.workflows|) ==
            SumStarted(c, log, |c.workflows|) + if x.1.RequestStarted? && x.1.id in Ids(c) then 1 else 0
  {
    Init(log, x);
    SumSnoc(c, log, x, |c.workflows|);
    if x.1.RequestStarted? && x.1.id in Ids(c) {
      var f :| f in c.workflows && f.id == x.1.id;
      var i :| 0 <= i < |c.workflows| && c.workflows[i] == f;
    }
  }

  lemma QuietOrder(c: Config, st: Sim, s: Sim)
    requires Validated(c) && InOrder(c, st) && QuietStep(st, s)
    ensures InOrder(c, s)
  {
    hide Validated, Started, Ended, JobsStarted, Prepared, SumStarted, Upto;
    forall id ensures InFlight(s, id) <==> InFlight(st, id) { }
    if s.trace != st.trace {
      var x :| s.trace == st.trace + [(st.now, x)] && Neutral(x) && !x.RequestFinished?;
      SnocCounts(c, st.trace, (st.now, x));
      forall id ensures Started(s.trace, id) == Started(st.trace, id) && Ended(s.trace, id) == Ended(st.trace, id) {
        Snoc(st.trace, (st.now, x), id);
      }
    }
  }

  lemma FireQuiet(c: Config, st: Sim, e: Event)
    requires Handled(c, st, e.action) && SerialsOk(st.events, st.serial)
    requires !(e.action.Finished? && e.action.job.Demand?)
    ensures QuietStep(st, Fire(c, st, e))
  {
    hide SetTags, BlockKeys, OnUpdate, StartTurn;
    var s0 := Pop(st, e);
    PopSerials(st, e);
    match e.action {
      case Arrival(id) => ArrivalQuiet(c, s0, id);
      case Updated(id, i, u) => UpdateQuiet(c, s0, id, i, u);
      case _ =>
    }
  }

  lemma ArrivalQuiet(c: Config, st: Sim, id: Id)
    requires id in st.states && 0 < |Turns(c, id)| && SerialsOk(st.events, st.serial)
    ensures QuietStep(st, StartTurn(c, st, id, 0))
  {
    if st.states[id].status == Running { StartTurnShape(c, st, id, 0); }
  }

  lemma UpdateQuiet(c: Config, st: Sim, id: Id, index: nat, u: Update)
    requires id in st.states
    ensures QuietStep(st, OnUpdate(c, st, id, index, u))
  {
    hide ScheduleWakeup;
    if Current(st, id, index) && st.states[id].status == Running && u.Revise? {
      var intent := Revised(st.intents[id], u);
      WakeupShape(c, Log(st.(intents := st.intents[id := intent]), RevisionSeen(id, intent.revision)), intent);
    }
  }

  /** What finishing a request leaves behind, whether or not another turn starts. */
  lemma DemandOutcome(c: Config, st: Sim, s: Sim, e: Event)
    requires Inv(c, st) && e in st.events && e.action.Finished? && e.action.job.Demand?
    requires Handled(c, st, e.action) && s == Fire(c, st, e)
    ensures var job := e.action.job;
            && job.index == |st.states[job.id].rows|
            && s.states.Keys == st.states.Keys
            && |s.states[job.id].rows| == job.index + 1
            && (forall x :: x in st.states && x != job.id ==> s.states[x] == st.states[x])
            && (forall f :: f in s.events ==> !f.action.Finished?)
            && s.trace == st.trace + [(st.now, RequestFinished(job.id, job.index))]
  {
    hide Inv, SerialsOk, Startable, NewIntent;
    var job, s1 := e.action.job, Record(Pop(st, e), e.action.job);
    RecordShape(st, e);
    RecordKeeps(c, st, s1, e);
    DemandStartable(c, st, s1, e);
    InvSerials(c, s1);
    if s1.states[job.id].status == Running && job.index + 1 < |Turns(c, job.id)| {
      StartTurnShape(c, s1, job.id, job.index + 1);
    }
  }

  lemma OneJobAtATime(c: Config, st: Sim, e: Event)
    requires Inv(c, st) && e in st.events && e.action.Finished?
    ensures forall f :: f in st.events && f.action.Finished? ==> f == e
  {
  }

  lemma DemandOrder(c: Config, st: Sim, s: Sim, e: Event)
    requires Validated(c) && Inv(c, st) && InOrder(c, st) && e in st.events && e.action.Finished? && e.action.job.Demand?
    requires Handled(c, st, e.action) && s == Fire(c, st, e)
    ensures InOrder(c, s)
  {
    hide Inv, Fire, Validated, InOrder;
    DemandOutcome(c, st, s, e);
    OneJobAtATime(c, st, e);
    FinishOrder(c, st, s, e);
  }

  lemma FinishOrder(c: Config, st: Sim, s: Sim, e: Event)
    requires Validated(c) && InOrder(c, st) && e in st.events && e.action.Finished? && e.action.job.Demand?
    requires forall f :: f in st.events && f.action.Finished? ==> f == e
    requires var job := e.action.job;
             && job.id in st.states && job.index == |st.states[job.id].rows|
             && s.states.Keys == st.states.Keys
             && |s.states[job.id].rows| == job.index + 1
             && (forall x :: x in st.states && x != job.id ==> s.states[x] == st.states[x])
             && (forall f :: f in s.events ==> !f.action.Finished?)
             && s.trace == st.trace + [(st.now, RequestFinished(job.id, job.index))]
    ensures InOrder(c, s)
  {
    var job := e.action.job;
    var x := (st.now, RequestFinished(job.id, job.index));
    hide Validated, Started, Ended, JobsStarted, Prepared, SumStarted, Upto;
    assert InFlight(st, job.id);
    forall y ensures !InFlight(s, y) && (y != job.id ==> !InFlight(st, y)) { }
    SnocCounts(c, st.trace, x);
    UptoNext(job.index);
    forall id | id in s.states
      ensures Started(s.trace, id) == Upto(|s.states[id].rows|) && Ended(s.trace, id) == Upto(|s.states[id].rows|)
    {
      Snoc(st.trace, x, id);
    }
  }

  lemma UptoNext(n: nat)
    ensures Upto(n + 1) == Upto(n) + [n]
  {
  }

  /** The log entry and the job of a dispatched request. */
  ghost predicate DemandBooked(st: Sim, s: Sim, q: Waiting, cost: real, n: nat) {
    && s.trace == st.trace + [(st.now, RequestStarted(q.id, q.index, cost, n))]
    && s.states == st.states && q.id in st.states && q.index == |st.states[q.id].rows|
    && s.stats.obsolete == st.stats.obsolete && s.stats.late == st.stats.late
    && InFlight(s, q.id) && (forall x :: x != q.id ==> !InFlight(s, x))
  }

  lemma DemandLog(c: Config, st: Sim, q: Waiting)
    requires c.prefill > 0.0 && Dispatchable(c, st, q) && Free(st)
    ensures var turn := Turns(c, q.id)[q.index];
            DemandBooked(st, LaunchDemand(c, st, q), q, DemandCost(c, turn, PromptHits(st, turn)), PromptHits(st, turn))
  {
    var turn := Turns(c, q.id)[q.index];
    var e, s := DemandEvent(c, st, q), LaunchDemand(c, st, q);
    HitsCount(st, BlockKeys(turn.prompt)[..PromptHits(st, turn)]);
    DemandShape(c, st, q);
    assert e in s.events;
  }

  lemma LaunchDemandOrder(c: Config, st: Sim, s: Sim, q: Waiting, cost: real, n: nat)
    requires Validated(c) && InOrder(c, st) && Free(st) && st.states.Keys == Ids(c) && DemandBooked(st, s, q, cost, n)
    ensures InOrder(c, s)
  {
    hide Validated, Started, Ended, JobsStarted, Prepared, SumStarted, Upto, Ids;
    var x := (st.now, RequestStarted(q.id, q.index, cost, n));
    forall y ensures !InFlight(st, y) { }
    SnocCounts(c, st.trace, x);
    UptoNext(q.index);
    forall id | id in s.states
      ensures Started(s.trace, id) == Upto(|s.states[id].rows| + if InFlight(s, id) then 1 else 0)
      ensures Ended(s.trace, id) == Upto(|s.states[id].rows|)
    {
      Snoc(st.trace, x, id);
    }
  }

  lemma LaunchPreparationOrder(c: Config, st: Sim, s: Sim, id: Id, intent: Intent, n: nat)
    requires Validated(c) && InOrder(c, st) && PreparationBooked(c, st, s, id, intent, n)
    ensures InOrder(c, s)
  {
    hide Validated, Started, Ended, JobsStarted, Prepared, SumStarted, Upto;
    var x := (st.now, PreparationStarted(id, intent.revision, n));
    forall y ensures InFlight(s, y) <==> InFlight(st, y) { }
    SnocCounts(c, st.trace, x);
    forall y ensures Started(s.trace, y) == Started(st.trace, y) && Ended(s.trace, y) == Ended(st.trace, y) {
      Snoc(st.trace, x, y);
    }
  }
}
