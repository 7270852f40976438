/** What decides the fate of a warmup, in every run: admission is refused exactly when no permit is
    free, a cancelled token bars every later dispatch, and nothing else stands in the way: wherever
    a permit is free, an owner that is neither cancelled nor gone can have one more warmup sent,
    drained and finished. */
module PrefillProgress {
  import opened Wrappers
  import opened PrefillLifecycle

  /******* One step seen from one warmup *******/

  /** The warmup stayed as it was, or one of its own acts moved it. */
  lemma OwnMove(s: State, t: State, k: nat) returns (a: Option<Act>)
    requires Follows(s, t) && k < |s.warmups| && s.warmups[k].owner < |s.owners|
    ensures k < |t.warmups| && |s.owners| <= |t.owners|
    ensures forall o :: 0 <= o < |s.owners| && s.owners[o].cancelled ==> t.owners[o].cancelled
    ensures a.None? ==> t.warmups[k] == s.warmups[k]
    ensures a.Some? ==>
              var w, c := s.warmups[k], s.owners[s.warmups[k].owner].cancelled;
              && Can(w, c, a.value) && t.warmups[k] == Moved(w, c, s.free, a.value) && t.free == s.free + Freed(w, t.warmups[k])
  {
    hide Can, Moved, Freed, Tracked;
    var step :| Enabled(s, step) && t == Next(s, step);
    a := if step.Move? && step.i == k then Some(step.act) else None;
  }

  lemma WarmupKnown(path: seq<State>, i: nat, k: nat)
    requires Run(path) && i < |path| && k < |path[i].warmups|
    ensures WarmupOk(path[i].warmups[k]) && path[i].warmups[k].owner < |path[i].owners| && path[i].free >= 0
    ensures i + 1 < |path| ==> Follows(path[i], path[i + 1])
  {
    hide WarmupOk, Follows;
    RunInv(path, i, i);
    assert path[i].warmups[k] in path[i].warmups;
  }

  /******* Admission *******/

  lemma AdmissionMove(w: Warmup, cancelled: bool, free: int, a: Act)
    requires WarmupOk(w) && Can(w, cancelled, a) && w.future.Starting? && !Moved(w, cancelled, free, a).future.Starting?
    ensures var t := Moved(w, cancelled, free, a);
            t.future == (if free > 0 then Admitted else Finished) && Freed(w, t) == if free > 0 then -1 else 0
  {
    hide DispatchOk, StopOk;
  }

  /** In every run an attempt to be admitted takes a permit exactly when one is free, and otherwise
      ends the warmup. */
  lemma AdmissionDecides(path: seq<State>, i: nat, k: nat)
    requires Run(path) && i + 1 < |path| && k < |path[i].warmups| && k < |path[i + 1].warmups|
    requires path[i].warmups[k].future.Starting? && !path[i + 1].warmups[k].future.Starting?
    ensures path[i + 1].warmups[k].future == if path[i].free > 0 then Admitted else Finished
    ensures path[i + 1].free == if path[i].free > 0 then path[i].free - 1 else path[i].free
  {
    hide Follows, WarmupOk, Moved, Can, Freed;
    WarmupKnown(path, i, k);
    var a := OwnMove(path[i], path[i + 1], k);
    if a.Some? {
      AdmissionMove(path[i].warmups[k], path[i].owners[path[i].warmups[k].owner].cancelled, path[i].free, a.value);
    }
  }

  /******* Cancellation *******/

  /** Before the last check of the token. */
  predicate Unchecked(f: Future) {
    f.Unmade? || f.Unstarted? || f.Starting? || f.Admitted? || f.Preprocessing? || f.Encoded?
  }

  predicate Barred(w: Warmup) { w.generates == 0 && (Unchecked(w.future) || w.future.Finished? || w.future.Dropped?) }

  lemma BarredDriven(w: Warmup, cancelled: bool, a: Drive)
    requires WarmupOk(w) && CanDrive(w, cancelled, a) && Barred(w)
    ensures Barred(Driven(w, a)) && (w.cancelled ==> Driven(w, a).cancelled)
  {
    hide StopOk, ClosureOk;
  }

  lemma BarredPolled(w: Warmup, free: int, a: Poll)
    requires WarmupOk(w) && CanPoll(w, a) && Barred(w)
    ensures Barred(Polled(w, true, free, a)) && Polled(w, true, free, a).cancelled == w.cancelled
  {
    hide StopOk, ClosureOk;
  }

  lemma BarredRan(w: Warmup, a: Block)
    requires Barred(w)
    ensures Barred(Ran(w, true, a)) && Ran(w, true, a).cancelled == w.cancelled
  {
  }

  lemma BarredMove(w: Warmup, cancelled: bool, free: int, a: Act)
    requires WarmupOk(w) && Can(w, cancelled, a) && Barred(w) && TokenCancelled(w, cancelled)
    ensures Barred(Moved(w, cancelled, free, a)) && (w.cancelled ==> Moved(w, cancelled, free, a).cancelled)
  {
    hide WarmupOk, CanDrive, CanPoll, CanBlock, Driven, Polled, Ran, Barred;
    match a {
      case ByDriver(d) => BarredDriven(w, cancelled, d);
      case ByFuture(p) => BarredPolled(w, free, p);
      case ByClosure(b) => BarredRan(w, b);
    }
  }

  /** In every run: once the token of a warmup is cancelled before its last check, by its owner or by its
      own wind-down, it never dispatches. */
  lemma {:induction false} CancelBars(path: seq<State>, i: nat, j: nat, k: nat)
    requires Run(path) && i <= j < |path| && k < |path[i].warmups| && path[i].warmups[k].owner < |path[i].owners|
    requires TokenCancelled(path[i].warmups[k], path[i].owners[path[i].warmups[k].owner].cancelled)
    requires path[i].warmups[k].generates == 0 && Unchecked(path[i].warmups[k].future)
    ensures k < |path[j].warmups| && path[j].warmups[k].owner == path[i].warmups[k].owner < |path[j].owners|
    ensures TokenCancelled(path[j].warmups[k], path[j].owners[path[j].warmups[k].owner].cancelled)
    ensures Barred(path[j].warmups[k])
    decreases j
  {
    hide Follows, WarmupOk, Moved, Can, Freed, Run, Barred;
    if i == j {
      UncheckedBarred(path[i].warmups[k]);
    } else {
      CancelBars(path, i, j - 1, k);
      WarmupKnown(path, j - 1, k);
      var w, o := path[j - 1].warmups[k], path[j - 1].warmups[k].owner;
      var a := OwnMove(path[j - 1], path[j], k);
      if a.Some? {
        BarredMove(w, path[j - 1].owners[o].cancelled, path[j - 1].free, a.value);
        MovedOk(w, path[j - 1].owners[o].cancelled, path[j - 1].free, a.value);
        LaterOwner(w, path[j].warmups[k]);
      }
    }
  }

  lemma UncheckedBarred(w: Warmup)
    requires w.generates == 0 && Unchecked(w.future)
    ensures Barred(w)
  {
  }

  /** A warmup that has not started, or ended without starting. */
  predicate Unbegun(w: Warmup) {
    w.closure.Unspawned? && (w.future.Unmade? || w.future.Unstarted? || w.future.Finished? || w.future.Dropped?)
  }

  /** A closure that has not passed its last check, or returned without tokens. */
  predicate Unencoded(c: Closure) { c.Unspawned? || c.Queued? || c.Rendering? || c.Rendered? || c == Returned(false) }

  ghost predicate GatesHold(w: Warmup, t: Warmup) {
    (Unbegun(w) ==> Unbegun(t)) && (Unencoded(w.closure) ==> Unencoded(t.closure))
  }

  lemma GatesDriven(w: Warmup, cancelled: bool, a: Drive)
    requires WarmupOk(w) && CanDrive(w, cancelled, a)
    ensures GatesHold(w, Driven(w, a)) && (w.cancelled ==> Driven(w, a).cancelled)
  {
    hide StopOk, DispatchOk;
  }

  lemma GatesPolled(w: Warmup, free: int, a: Poll)
    requires WarmupOk(w) && CanPoll(w, a)
    ensures GatesHold(w, Polled(w, true, free, a)) && Polled(w, true, free, a).cancelled == w.cancelled
  {
    hide StopOk, DispatchOk;
  }

  lemma GatesRan(w: Warmup, a: Block)
    requires CanBlock(w, a)
    ensures GatesHold(w, Ran(w, true, a)) && Ran(w, true, a).cancelled == w.cancelled
  {
  }

  lemma GatesMove(w: Warmup, cancelled: bool, free: int, a: Act)
    requires WarmupOk(w) && Can(w, cancelled, a) && TokenCancelled(w, cancelled)
    ensures GatesHold(w, Moved(w, cancelled, free, a)) && (w.cancelled ==> Moved(w, cancelled, free, a).cancelled)
  {
    hide WarmupOk, CanDrive, CanPoll, CanBlock, Driven, Polled, Ran, GatesHold;
    match a {
      case ByDriver(d) => GatesDriven(w, cancelled, d);
      case ByFuture(p) => GatesPolled(w, free, p);
      case ByClosure(b) => GatesRan(w, b);
    }
  }

  /** In every run: once the token is cancelled, a warmup that has not started never takes a permit, and a closure
      that has not passed its last check never yields tokens. */
  lemma {:induction false} CancelStopsWork(path: seq<State>, i: nat, j: nat, k: nat)
    requires Run(path) && i <= j < |path| && k < |path[i].warmups| && path[i].warmups[k].owner < |path[i].owners|
    requires TokenCancelled(path[i].warmups[k], path[i].owners[path[i].warmups[k].owner].cancelled)
    ensures k < |path[j].warmups| && path[j].warmups[k].owner == path[i].warmups[k].owner < |path[j].owners|
    ensures TokenCancelled(path[j].warmups[k], path[j].owners[path[j].warmups[k].owner].cancelled)
    ensures GatesHold(path[i].warmups[k], path[j].warmups[k])
    decreases j
  {
    hide Follows, WarmupOk, Moved, Can, Freed, Run;
    if i < j {
      CancelStopsWork(path, i, j - 1, k);
      WarmupKnown(path, j - 1, k);
      var w, o := path[j - 1].warmups[k], path[j - 1].warmups[k].owner;
      var a := OwnMove(path[j - 1], path[j], k);
      if a.Some? {
        GatesMove(w, path[j - 1].owners[o].cancelled, path[j - 1].free, a.value);
        MovedOk(w, path[j - 1].owners[o].cancelled, path[j - 1].free, a.value);
        LaterOwner(w, path[j].warmups[k]);
      }
    }
  }

  /******* Nothing else stands in the way *******/

  /** A run can be continued from `s` to `t`. */
  ghost predicate Leads(s: State, t: State) {
    exists path :: path != [] && path[0] == s && path[|path| - 1] == t && Chain(path)
  }

  ghost predicate Chain(path: seq<State>) { forall i :: 0 <= i < |path| - 1 ==> Follows(path[i], path[i + 1]) }

  lemma LeadsStay(s: State)
    ensures Leads(s, s)
  {
    assert Chain([s]) && [s][0] == s;
  }

  lemma LeadsOn(s: State, t: State, step: Step)
    requires Leads(s, t) && Enabled(t, step)
    ensures Leads(s, Next(t, step))
  {
    hide Enabled, Next;
    var path :| path != [] && path[0] == s && path[|path| - 1] == t && Chain(path);
    var more := path + [Next(t, step)];
    forall i | 0 <= i < |more| - 1 ensures Follows(more[i], more[i + 1]) {
      if i < |path| - 1 { assert Follows(path[i], path[i + 1]); } else { assert Enabled(t, step); }
    }
    assert Chain(more) && more[0] == s && more[|more| - 1] == Next(t, step);
  }

  /** The state in which the last warmup is `w` and the rest is as in `s`. */
  ghost predicate With(s: State, t: State, w: Warmup, free: int) {
    && |t.warmups| == |s.warmups| + 1 && t.warmups[..|s.warmups|] == s.warmups && t.warmups[|s.warmups|] == w
    && t.free == free && |t.owners| == |s.owners| && w.owner < |s.owners|
    && forall o :: 0 <= o < |s.owners| ==> t.owners[o].cancelled == s.owners[o].cancelled
  }

  /** One act of the last warmup. */
  lemma Act1(start: State, s: State, t: State, w: Warmup, free: int, a: Act) returns (u: State)
    requires Leads(start, t) && With(s, t, w, free) && Can(w, s.owners[w.owner].cancelled, a)
    requires Moved(w, s.owners[w.owner].cancelled, free, a).owner == w.owner
    ensures var m := Moved(w, s.owners[w.owner].cancelled, free, a);
            Leads(start, u) && With(s, u, m, free + Freed(w, m))
  {
    hide Leads, Can, Moved, Freed, Tracked;
    var k := |s.warmups|;
    u := Next(t, Move(k, a));
    LeadsOn(start, t, Move(k, a));
    assert u.warmups[..k] == t.warmups[..k];
  }

  function D(a: Drive): Act { ByDriver(a) }

  function F(a: Poll): Act { ByFuture(a) }

  function B(a: Block): Act { ByClosure(a) }

  /** A new warmup receives its turn's text, is admitted and hands its work to the blocking pool. */
  lemma Admit(s: State, o: nat) returns (t: State, w: Warmup)
    requires o < |s.owners| && !s.owners[o].cancelled && !s.owners[o].closed && s.free > 0
    ensures Leads(s, t) && With(s, t, w, s.free - 1)
    ensures w == NewWarmup(o).(turn := Delivered, driver := Driving, future := Preprocessing, polling := false, closure := Queued)
  {
    hide Leads, With;
    LeadsStay(s);
    LeadsOn(s, s, Wrap(o));
    t, w := Next(s, Wrap(o)), NewWarmup(o);
    WrapWith(s, o);
    t := Act1(s, s, t, w, s.free, D(SendText));
    w := w.(turn := Delivered);
    t := Act1(s, s, t, w, s.free, D(Receive));
    w := w.(driver := Driving, future := Unstarted);
    t := Act1(s, s, t, w, s.free, D(BeginPoll));
    w := w.(polling := true);
    t := Act1(s, s, t, w, s.free, F(CheckStart));
    w := w.(future := Starting);
    t := Act1(s, s, t, w, s.free, F(Acquire));
    w := w.(future := Admitted);
    t := Act1(s, s, t, w, s.free - 1, F(Spawn));
    w := w.(future := Preprocessing, closure := Queued);
    t := Act1(s, s, t, w, s.free - 1, D(EndPoll));
    w := w.(polling := false);
  }

  lemma WrapWith(s: State, o: nat)
    requires o < |s.owners| && !s.owners[o].closed
    ensures With(s, Next(s, Wrap(o)), NewWarmup(o), s.free)
  {
  }

  /** The blocking work is done and the result dispatched, drained and finished. */
  lemma Serve(s: State, t0: State, w0: Warmup) returns (t: State, w: Warmup)
    requires Leads(s, t0) && With(s, t0, w0, s.free - 1) && w0.owner < |s.owners| && !s.owners[w0.owner].cancelled
    requires w0 == NewWarmup(w0.owner).(turn := Delivered, driver := Driving, future := Preprocessing, polling := false, closure := Queued)
    ensures Leads(s, t) && With(s, t, w, s.free) && w.owner == w0.owner
    ensures w.generates == 1 && w.driver.Over? && w.future.Finished? && !w.wound && w.stopped == [] && w.closure == Returned(true)
  {
    hide Leads, With;
    t, w := t0, w0;
    t := Act1(s, s, t, w, s.free - 1, B(Begin));
    w := w.(closure := Rendering);
    t := Act1(s, s, t, w, s.free - 1, B(Render));
    w := w.(closure := Rendered);
    t := Act1(s, s, t, w, s.free - 1, B(CheckRendered));
    w := w.(closure := Encoding);
    t := Act1(s, s, t, w, s.free - 1, B(Encode));
    w := w.(closure := Returned(true));
    t := Act1(s, s, t, w, s.free, D(BeginPoll));
    w := w.(polling := true);
    t := Act1(s, s, t, w, s.free, F(Join));
    w := w.(future := Encoded);
    t := Act1(s, s, t, w, s.free, F(CheckLast));
    w := w.(future := Cleared);
    t := Act1(s, s, t, w, s.free, F(Publish));
    w := w.(future := Published, slot := Some(OfRequest));
    t := Act1(s, s, t, w, s.free, F(Generate));
    w := w.(future := Generating, generates := 1);
    t := Act1(s, s, t, w, s.free, F(GenerateReturns));
    w := w.(future := Draining, slot := Some(OfResponse));
    t := Act1(s, s, t, w, s.free, F(StreamEnds));
    w := w.(future := Finished);
    t := Act1(s, s, t, w, s.free, D(Complete));
    w := w.(driver := Over, polling := false);
  }

  lemma RunOn(path: seq<State>, t: State) returns (longer: seq<State>)
    requires Run(path) && Leads(path[|path| - 1], t)
    ensures Run(longer) && path <= longer && longer[|longer| - 1] == t
  {
    hide Follows;
    var n := |path| - 1;
    var more :| more != [] && more[0] == path[n] && more[|more| - 1] == t && Chain(more);
    longer := path + more[1..];
    forall i | 0 <= i < |longer| - 1 ensures Follows(longer[i], longer[i + 1]) {
      if i < n {
        assert Follows(path[i], path[i + 1]);
      } else {
        assert longer[i] == more[i - n] && longer[i + 1] == more[i - n + 1];
        assert Follows(more[i - n], more[i - n + 1]);
      }
    }
  }

  /** Every run that leaves a permit free and an owner neither cancelled nor gone can be continued so that
      one more warmup of that owner is dispatched once, drained and finished without being stopped; its
      permit is free again, and no other warmup has moved. */
  lemma CanServe(path: seq<State>, o: nat) returns (longer: seq<State>, k: nat)
    requires Run(path)
    requires var s := path[|path| - 1]; o < |s.owners| && !s.owners[o].cancelled && !s.owners[o].closed && s.free > 0
    ensures Run(longer) && path <= longer && k == |path[|path| - 1].warmups|
    ensures var s, t := path[|path| - 1], longer[|longer| - 1];
            && |t.warmups| == k + 1 && t.warmups[..k] == s.warmups && t.free == s.free
            && t.warmups[k].owner == o && t.warmups[k].generates == 1 && t.warmups[k].future.Finished?
            && t.warmups[k].driver.Over? && t.warmups[k].stopped == [] && !t.warmups[k].wound
  {
    hide Follows, Leads;
    var s := path[|path| - 1];
    var t0, w0 := Admit(s, o);
    var t, w := Serve(s, t0, w0);
    longer := RunOn(path, t);
    k := |s.warmups|;
  }
}
