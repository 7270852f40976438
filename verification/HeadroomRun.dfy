/** Whole runs: the event loop terminates, every state it passes through satisfies the
    invariant, and nothing that was recorded is ever taken back. */
module HeadroomRun {
  import opened Wrappers
  import opened HeadroomModel
  import opened HeadroomCache
  import opened HeadroomInvariant
  import opened HeadroomSteps
  import opened HeadroomJobs
  import opened HeadroomDispatch
  import opened HeadroomProgress

  /******* One instant *******/

  /** Handle the events of the current instant in queue order until none is left. */
  ghost function Drain(c: Config, st: Sim): (s: Sim)
    requires Validated(c) && Inv(c, st)
    decreases Work(c, st), |st.events|
  {
    if Quiet(st) then st
    else
      var e := First(st.events);
      FireKeeps(c, st, e);
      FireCharge(c, st, e);
      PopSmaller(st.events, e);
      Drain(c, Fire(c, st, e))
  }

  lemma PopSmaller(events: set<Event>, e: Event)
    requires e in events
    ensures |events - {e}| < |events|
  {
  }

  lemma {:induction false} DrainKeeps(c: Config, st: Sim)
    requires Validated(c) && Inv(c, st)
    ensures Inv(c, Drain(c, st)) && Quiet(Drain(c, st))
    decreases Work(c, st), |st.events|
  {
    hide Inv, Work, SerialsOk;
    if !Quiet(st) {
      var e := First(st.events);
      FireKeeps(c, st, e);
      InvSerials(c, st);
      FireCharge(c, st, e);
      PopSmaller(st.events, e);
      DrainKeeps(c, Fire(c, st, e));
    }
  }

  /** Either work was done, or all that happened is that wake-ups of this instant were dropped. */
  ghost predicate OnlyWoke(st: Sim, s: Sim) {
    && s == st.(events := s.events) && s.events <= st.events
    && forall e :: e in st.events && e !in s.events ==> e.action == Wake
  }

  lemma {:induction false} DrainCharge(c: Config, st: Sim)
    requires Validated(c) && Inv(c, st)
    ensures var s := Drain(c, st);
            Work(c, s) < Work(c, st) || (Work(c, s) == Work(c, st) && OnlyWoke(st, s))
    decreases Work(c, st), |st.events|
  {
    hide Inv, Work, SerialsOk, Fire, Handled;
    if !Quiet(st) {
      var e := First(st.events);
      FireKeeps(c, st, e);
      InvSerials(c, st);
      FireCharge(c, st, e);
      PopSmaller(st.events, e);
      DrainCharge(c, Fire(c, st, e));
    }
  }

  lemma AdvanceKeeps(c: Config, st: Sim, at: real)
    requires Inv(c, st) && forall e :: e in st.events ==> at <= e.at
    ensures Inv(c, Advance(st, at))
  {
    hide Linked, OneToken, Clocked, OwnIntent, Foreseen, SerialsOk;
    AdvanceClock(c, st, at);
    AdvanceLinks(c, st, at);
    AdvanceGpu(c, st, at);
  }

  lemma AdvanceClock(c: Config, st: Sim, at: real)
    requires Clocked(c, st) && OwnIntent(st) && Foreseen(c, st) && forall e :: e in st.events ==> at <= e.at
    ensures var s := Advance(st, at); Clocked(c, s) && OwnIntent(s) && Foreseen(c, s)
  {
  }

  lemma AdvanceLinks(c: Config, st: Sim, at: real)
    requires Linked(c, st) && OneToken(c, st)
    ensures Linked(c, Advance(st, at)) && OneToken(c, Advance(st, at))
  {
    TokensFrame(c, st, Advance(st, at));
    forall e | e in st.events ensures Handled(c, Advance(st, at), e.action) { assert Handled(c, st, e.action); }
  }

  lemma AdvanceGpu(c: Config, st: Sim, at: real)
    requires Gpu(c, st)
    ensures Gpu(c, Advance(st, at))
  {
  }

  lemma FirstSoonest(events: set<Event>)
    requires events != {}
    ensures forall e :: e in events ==> First(events).at <= e.at
  {
  }

  /** One round of the event loop: move the clock, drain the instant, choose GPU work. */
  ghost function Instant(c: Config, st: Sim): Sim
    requires Validated(c) && Inv(c, st) && st.events != {}
  {
    FirstSoonest(st.events);
    var s1 := Advance(st, First(st.events).at);
    AdvanceKeeps(c, st, First(st.events).at);
    DrainKeeps(c, s1);
    DispatchKeeps(c, Drain(c, s1));
    Dispatch(c, Drain(c, s1))
  }

  lemma InstantKeeps(c: Config, st: Sim)
    requires Validated(c) && Inv(c, st) && st.events != {}
    ensures Inv(c, Instant(c, st)) && Quiet(Instant(c, st))
  {
    hide Inv, Quiet;
    FirstSoonest(st.events);
    var s1 := Advance(st, First(st.events).at);
    AdvanceKeeps(c, st, First(st.events).at);
    DrainKeeps(c, s1);
    DispatchKeeps(c, Drain(c, s1));
  }

  /******* Wake-ups cannot chain forever *******/

  ghost function WakePoints(c: Config, st: Sim): set<real> {
    (set p | p in Points(c, st.intents) && st.now < p) + (set e | e in st.events && e.action == Wake :: e.at)
  }

  lemma DispatchCharge(c: Config, st: Sim)
    requires Validated(c) && Inv(c, st) && DispatchReady(c, st)
    ensures var s := Dispatch(c, st);
            Work(c, s) < Work(c, st) || (Work(c, s) == Work(c, st) && OnlyPoints(c, st, s))
  {
    if st.busy { PointsReflexive(c, st); } else { DispatchQueueCharge(c, st); }
  }

  /** An instant that did no work consumed a wake-up point and created only later ones. */
  lemma WakePointsShrink(c: Config, st: Sim, s1: Sim, s2: Sim, s: Sim, at: real)
    requires st.events != {} && at == First(st.events).at && s1 == Advance(st, at)
    requires (forall e :: e in st.events ==> at <= e.at) && st.now <= at
    requires OnlyWoke(s1, s2) && Quiet(s2) && OnlyPoints(c, s2, s)
    ensures WakePoints(c, s) < WakePoints(c, st)
  {
    var e := First(st.events);
    assert e in st.events && e.at == at;
    assert e !in s2.events;
    assert e.action == Wake;
    assert at in WakePoints(c, st);
    assert at !in WakePoints(c, s);
    forall p | p in WakePoints(c, s) ensures p in WakePoints(c, st) {
      if p !in Points(c, st.intents) {
        var f :| f in s.events && f.action == Wake && f.at == p;
        assert f in s2.events;
        assert f in st.events;
      }
    }
  }

  lemma AdvanceWork(c: Config, st: Sim, at: real)
    ensures Work(c, Advance(st, at)) == Work(c, st)
  {
    SameWork(c, st, Advance(st, at));
  }

  lemma ProperSubsetSmaller<T>(a: set<T>, b: set<T>)
    requires a < b
    ensures |a| < |b|
  {
    var x :| x in b && x !in a;
    SubsetSize(a, b - {x});
  }

  lemma InvNow(c: Config, st: Sim)
    requires Inv(c, st) && st.events != {}
    ensures st.now <= First(st.events).at
  {
  }

  /** Termination of the event loop. */
  lemma InstantProgress(c: Config, st: Sim)
    requires Validated(c) && Inv(c, st) && st.events != {}
    ensures var s := Instant(c, st);
            || Work(c, s) < Work(c, st)
            || (Work(c, s) == Work(c, st) && |WakePoints(c, s)| < |WakePoints(c, st)|)
  {
    hide Inv, Quiet, Work, OnlyPoints, OnlyWoke, WakePoints, DispatchReady;
    var at := First(st.events).at;
    var s1, s := Advance(st, at), Instant(c, st);
    FirstSoonest(st.events);
    InvNow(c, st);
    AdvanceKeeps(c, st, at);
    AdvanceWork(c, st, at);
    DrainKeeps(c, s1);
    DrainCharge(c, s1);
    var s2 := Drain(c, s1);
    DispatchKeeps(c, s2);
    DispatchCharge(c, s2);
    if Work(c, s) == Work(c, st) {
      WakePointsShrink(c, st, s1, s2, s, at);
      ProperSubsetSmaller(WakePoints(c, s), WakePoints(c, st));
    }
  }

  /** The event loop and its closing clock move; a ghost function, so it is known to terminate. */
  ghost function RunFrom(c: Config, st: Sim): Sim
    requires Validated(c) && Inv(c, st)
    decreases Work(c, st), |WakePoints(c, st)|
  {
    if st.events == {} || ObservationEnd(c) < First(st.events).at then Advance(st, ObservationEnd(c))
    else
      InstantKeeps(c, st);
      InstantProgress(c, st);
      RunFrom(c, Instant(c, st))
  }

  /******* The start *******/

  function ArrivalEvent(f: Workflow, i: nat): Event { Event(f.arrival, 2 * i + 1, Arrival(f.id)) }

  function DeadlineEvent(c: Config, f: Workflow, i: nat): Event {
    Event(f.arrival + c.horizon, 2 * i + 2, Deadline(f.id))
  }

  /** Which workflow's admission scheduled an event of the start. */
  function Slot(e: Event): int { (e.serial - 1) / 2 }

  lemma SlotValue(e: Event, i: nat)
    requires 2 * i + 1 <= e.serial <= 2 * i + 2
    ensures Slot(e) == i
  {
  }

  predicate Admission(c: Config, n: nat, e: Event) {
    && 0 <= Slot(e) < n <= |c.workflows|
    && (e == ArrivalEvent(c.workflows[Slot(e)], Slot(e)) || e == DeadlineEvent(c, c.workflows[Slot(e)], Slot(e)))
  }

  lemma AdmitPair(c: Config, st: Sim, f: Workflow)
    ensures Admit(c, st, f).serial == st.serial + 2
    ensures Admit(c, st, f).events == st.events + {Event(f.arrival, st.serial + 1, Arrival(f.id)),
                                                   Event(f.arrival + c.horizon, st.serial + 2, Deadline(f.id))}
  {
  }

  /** The queue holds one arrival and one deadline for each of the first `n` workflows. */
  lemma {:induction false} AdmitEvents(c: Config, n: nat)
    requires n <= |c.workflows|
    ensures AdmitAll(c, n).serial == 2 * n
    ensures forall e :: e in AdmitAll(c, n).events ==> Admission(c, n, e)
  {
    hide Slot, Admit;
    if n > 0 {
      AdmitEvents(c, n - 1);
      var f := c.workflows[n - 1];
      var st, a, d := AdmitAll(c, n - 1), ArrivalEvent(f, n - 1), DeadlineEvent(c, f, n - 1);
      AdmitPair(c, st, f);
      SlotValue(a, n - 1);
      SlotValue(d, n - 1);
      hide AdmitAll;
      forall e | e in st.events ensures Admission(c, n, e) { assert Admission(c, n - 1, e); }
    }
  }

  lemma {:induction false} AdmitDeadline(c: Config, n: nat, i: nat)
    requires i < n <= |c.workflows|
    ensures exists e :: e in AdmitAll(c, n).events && e.action == Deadline(c.workflows[i].id)
  {
    hide Admit;
    var st, f := AdmitAll(c, n - 1), c.workflows[n - 1];
    AdmitPair(c, st, f);
    if i < n - 1 {
      AdmitDeadline(c, n - 1, i);
    } else {
      assert Event(f.arrival + c.horizon, st.serial + 2, Deadline(f.id)) in AdmitAll(c, n).events;
    }
  }

  lemma IdsSnoc(flows: seq<Workflow>, f: Workflow)
    ensures (set g | g in flows + [f] :: g.id) == (set g | g in flows :: g.id) + {f.id}
  {
  }

  lemma {:induction false} AdmitStates(c: Config, n: nat)
    requires n <= |c.workflows|
    ensures var st := AdmitAll(c, n);
            && st == EMPTY.(events := st.events, serial := st.serial, states := st.states)
            && st.states.Keys == (set f | f in c.workflows[..n] :: f.id)
            && forall id :: id in st.states ==> st.states[id] == Progress(Running, [], None)
  {
    if n > 0 {
      AdmitStates(c, n - 1);
      assert c.workflows[..n] == c.workflows[..n - 1] + [c.workflows[n - 1]];
      IdsSnoc(c.workflows[..n - 1], c.workflows[n - 1]);
    }
  }

  lemma {:induction false} FlowAt(flows: seq<Workflow>, i: nat)
    requires i < |flows|
    requires forall j, k :: 0 <= j < k < |flows| ==> flows[j].id != flows[k].id
    ensures Flow(flows, flows[i].id) == flows[i]
  {
    if i > 0 {
      FlowAt(flows[1..], i - 1);
    }
  }

  function Start(c: Config): Sim { AdmitAll(c, |c.workflows|) }

  /** The start through the look-ups of the invariant. */
  lemma StartShape(c: Config)
    requires Validated(c)
    ensures var st := Start(c);
            && st == EMPTY.(events := st.events, serial := st.serial, states := st.states)
            && st.states.Keys == Ids(c)
            && (forall id :: id in st.states ==> st.states[id] == Progress(Running, [], None))
            && (forall e :: e in st.events ==> Admission(c, |c.workflows|, e) && e.serial <= st.serial)
  {
    AdmitEvents(c, |c.workflows|);
    AdmitStates(c, |c.workflows|);
    assert c.workflows[..|c.workflows|] == c.workflows;
  }

  lemma AdmissionFacts(c: Config, e: Event)
    requires Validated(c) && Admission(c, |c.workflows|, e)
    ensures e.at >= 0.0 && e.action.id in Ids(c) && Turns(c, e.action.id) != []
    ensures e.action.Deadline? ==> e.at == Due(c, e.action.id)
  {
    FlowAt(c.workflows, Slot(e));
    assert ValidWorkflow(c, c.workflows[Slot(e)]);
  }

  lemma AdmissionUnique(c: Config, e: Event, f: Event)
    requires Validated(c) && Admission(c, |c.workflows|, e) && Admission(c, |c.workflows|, f)
    ensures e.serial == f.serial || e.action == f.action ==> e == f
  {
  }

  lemma StartLinks(c: Config)
    requires Validated(c)
    ensures Linked(c, Start(c)) && SerialsOk(Start(c).events, Start(c).serial)
  {
    hide Start, Flow, Admission, Validated, Turns;
    StartShape(c);
    var st := Start(c);
    forall e | e in st.events ensures Handled(c, st, e.action) {
      AdmissionFacts(c, e);
      AdmissionKind(c, e);
    }
    forall e, f | e in st.events && f in st.events && e.serial == f.serial ensures e == f {
      AdmissionUnique(c, e, f);
    }
  }

  lemma AdmissionKind(c: Config, e: Event)
    requires Admission(c, |c.workflows|, e)
    ensures e.action.Arrival? || e.action.Deadline?
  {
  }

  lemma StartTokens(c: Config)
    requires Validated(c)
    ensures OneToken(c, Start(c))
  {
    hide Start, Flow, Admission, Validated;
    StartShape(c);
    var st := Start(c);
    forall e, f, id | e in st.events && f in st.events && TokenOf(e.action, id) && TokenOf(f.action, id)
      ensures e == f
    {
      AdmissionKind(c, e);
      AdmissionKind(c, f);
      AdmissionUnique(c, e, f);
    }
    forall e, id | e in st.events && TokenOf(e.action, id) ensures TokenTurn(e.action) == 0 {
      AdmissionKind(c, e);
    }
  }

  lemma StartGpu(c: Config)
    requires Validated(c)
    ensures OwnIntent(Start(c)) && Foreseen(c, Start(c)) && Gpu(c, Start(c))
  {
    hide Start, Flow, Admission;
    StartShape(c);
    var st := Start(c);
    forall e | e in st.events ensures e.action.Arrival? || e.action.Deadline? { AdmissionKind(c, e); }
    assert Fresh(st.tags) == {};
  }

  lemma StartDeadline(c: Config, id: Id)
    requires Validated(c) && id in Ids(c)
    ensures exists e :: e in Start(c).events && e.action == Deadline(id)
  {
    var f :| f in c.workflows && f.id == id;
    var i :| 0 <= i < |c.workflows| && c.workflows[i] == f;
    AdmitDeadline(c, |c.workflows|, i);
  }

  lemma StartClock(c: Config)
    requires Validated(c)
    ensures Clocked(c, Start(c))
  {
    hide Start, Flow, Admission, Validated, Due;
    StartShape(c);
    var st := Start(c);
    forall e | e in st.events ensures st.now <= e.at && (e.action.Deadline? ==> e.at == Due(c, e.action.id)) {
      AdmissionFacts(c, e);
    }
    forall id | id in st.states ensures exists e :: e in st.events && e.action == Deadline(id) {
      StartDeadline(c, id);
    }
  }

  lemma StartInv(c: Config)
    requires Validated(c)
    ensures Inv(c, Start(c))
  {
    hide Linked, Gpu, OneToken, Clocked, OwnIntent, Foreseen, SerialsOk, Start;
    StartLinks(c);
    StartTokens(c);
    StartGpu(c);
    StartClock(c);
  }
}
