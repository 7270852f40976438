/** Speculative prefill: warmups that follow a client turn, their owners, and the blocking work
    that may outlive both.  A run is any sequence of the steps below, by any number of owners,
    drivers and blocking closures; a step is what one of them does without letting go of the
    others' view.  A poll of the inner future runs on its driver, so the driver's own decisions wait
    until it is over, while cancellation from outside may come at any point. */
module PrefillLifecycle {
  import opened Wrappers

  const PERMITS := 4

  /** Has the client's turn delivered its text? */
  datatype Turn = Pending | Delivered | Lost

  /** The driver around a warmup: waiting for the turn, driving the warmup, and the stages of its
      wind-down: decided, token cancelled, context seen, stop sent and grace running. */
  datatype Driver = Waiting | Driving | Deciding | Cancelling | Stopping | Grace | Over

  /** The warmup's future.  From `Starting` on, the states marked by `MidPoll` last only within a poll. */
  datatype Future =
    | Unmade | Unstarted | Starting | Admitted | Preprocessing | Encoded | Cleared | Published
    | Generating | Draining | Finished | Dropped(dispatched: bool)

  /** The closure on the blocking pool. */
  datatype Closure = Unspawned | Queued | Rendering | Rendered | Encoding | Returned(tokens: bool)

  /** Published contexts: the request's, then the response stream's. */
  datatype Context = OfRequest | OfResponse

  /** `wound` says that the wind-down was decided, and `exposed` which context was published by then;
      `stopped` are the contexts that were asked to stop and `generates` counts dispatches. */
  datatype Warmup = Warmup(owner: nat, turn: Turn, driver: Driver, future: Future, polling: bool, closure: Closure,
                           cancelled: bool, slot: Option<Context>, stopped: seq<Context>, generates: nat,
                           wound: bool, exposed: Option<Context>)

  datatype Owner = Owner(cancelled: bool, closed: bool, tracked: int)

  datatype State = State(free: int, owners: seq<Owner>, warmups: seq<Warmup>)

  const INITIAL := State(PERMITS, [], [])

  /** Steps of the client's stream and of the driver. */
  datatype Drive =
    | SendText | DropSender
    | SeeCancelWaiting | Receive | GiveUp | BeginPoll | EndPoll | SeeCancel | TimeOut
    | CancelToken | InspectSlot | SendStop | GraceOver | Complete

  /** Steps of the future while it is polled. */
  datatype Poll =
    | CheckStart | Acquire | Spawn | Join | BuildFails | CheckLast | Publish | Generate | GenerateFails
    | GenerateReturns | StreamEnds

  /** Steps of the blocking closure. */
  datatype Block = Begin | RenderFails | Render | CheckRendered | EncodeFails | Encode

  datatype Act = ByDriver(drive: Drive) | ByFuture(poll: Poll) | ByClosure(block: Block)

  predicate MidPoll(f: Future) { f.Starting? || f.Admitted? || f.Encoded? || f.Cleared? || f.Published? }

  predicate Resting(f: Future) { f.Preprocessing? || f.Generating? || f.Draining? }

  predicate CanDrive(w: Warmup, ownerCancelled: bool, a: Drive) {
    match a
    case SendText => w.turn.Pending?
    case DropSender => w.turn.Pending?
    case SeeCancelWaiting => w.driver.Waiting? && ownerCancelled
    case Receive => w.driver.Waiting? && w.turn.Delivered?
    case GiveUp => w.driver.Waiting? && w.turn.Lost?
    case BeginPoll => (w.driver.Driving? || w.driver.Grace?) && !w.polling && (w.future.Unstarted? || Resting(w.future))
    case EndPoll => w.polling && Resting(w.future)
    case SeeCancel => w.driver.Driving? && !w.polling && ownerCancelled
    case TimeOut => w.driver.Driving? && !w.polling
    case CancelToken => w.driver.Deciding?
    case InspectSlot => w.driver.Cancelling?
    case SendStop => w.driver.Stopping?
    case GraceOver => w.driver.Grace? && !w.polling
    case Complete => w.polling && w.future.Finished?
  }

  predicate CanPoll(w: Warmup, a: Poll) {
    w.polling &&
    match a
    case CheckStart => w.future.Unstarted?
    case Acquire => w.future.Starting?
    case Spawn => w.future.Admitted?
    case Join => w.future.Preprocessing? && w.closure.Returned?
    case BuildFails => w.future.Encoded?
    case CheckLast => w.future.Encoded?
    case Publish => w.future.Cleared?
    case Generate => w.future.Published?
    case GenerateFails => w.future.Generating?
    case GenerateReturns => w.future.Generating?
    case StreamEnds => w.future.Draining?
  }

  predicate CanBlock(w: Warmup, a: Block) {
    match a
    case Begin => w.closure.Queued?
    case RenderFails => w.closure.Rendering?
    case Render => w.closure.Rendering?
    case CheckRendered => w.closure.Rendered?
    case EncodeFails => w.closure.Encoding?
    case Encode => w.closure.Encoding?
  }

  predicate Can(w: Warmup, ownerCancelled: bool, a: Act) {
    match a
    case ByDriver(d) => CanDrive(w, ownerCancelled, d)
    case ByFuture(p) => CanPoll(w, p)
    case ByClosure(b) => CanBlock(w, b)
  }

  /** The warmup's token is a child of its owner's. */
  predicate TokenCancelled(w: Warmup, ownerCancelled: bool) { w.cancelled || ownerCancelled }

  function WindDown(w: Warmup): Warmup { w.(driver := Deciding, wound := true, exposed := w.slot) }

  function Driven(w: Warmup, a: Drive): Warmup {
    match a
    case SendText => w.(turn := Delivered)
    case DropSender => w.(turn := Lost)
    case SeeCancelWaiting => w.(driver := Over)
    case Receive => w.(driver := Driving, future := Unstarted)
    case GiveUp => w.(driver := Over)
    case BeginPoll => w.(polling := true)
    case EndPoll => w.(polling := false)
    case SeeCancel => WindDown(w)
    case TimeOut => WindDown(w)
    case CancelToken => w.(driver := Cancelling, cancelled := true)
    case InspectSlot => if w.slot.Some? then w.(driver := Stopping) else w.(driver := Over, future := Dropped(false))
    case SendStop => w.(driver := Grace, slot := None, stopped := w.stopped + (if w.slot.Some? then [w.slot.value] else []))
    case GraceOver => w.(driver := Over, future := Dropped(true))
    case Complete => w.(driver := Over, polling := false)
  }

  function Polled(w: Warmup, cancelled: bool, free: int, a: Poll): Warmup
    requires CanPoll(w, a)
  {
    match a
    case CheckStart => w.(future := if cancelled then Finished else Starting)
    case Acquire => w.(future := if free > 0 then Admitted else Finished)
    case Spawn => w.(future := Preprocessing, closure := Queued)
    case Join => w.(future := if w.closure.tokens then Encoded else Finished)
    case BuildFails => w.(future := Finished)
    case CheckLast => w.(future := if cancelled then Finished else Cleared)
    case Publish => w.(future := Published, slot := Some(OfRequest))
    case Generate => w.(future := Generating, generates := w.generates + 1)
    case GenerateFails => w.(future := Finished)
    case GenerateReturns => w.(future := Draining, slot := Some(OfResponse))
    case StreamEnds => w.(future := Finished)
  }

  function Ran(w: Warmup, cancelled: bool, a: Block): Warmup {
    match a
    case Begin => w.(closure := if cancelled then Returned(false) else Rendering)
    case RenderFails => w.(closure := Returned(false))
    case Render => w.(closure := Rendered)
    case CheckRendered => w.(closure := if cancelled then Returned(false) else Encoding)
    case EncodeFails => w.(closure := Returned(false))
    case Encode => w.(closure := Returned(true))
  }

  function Moved(w: Warmup, ownerCancelled: bool, free: int, a: Act): Warmup
    requires Can(w, ownerCancelled, a)
  {
    var cancelled := TokenCancelled(w, ownerCancelled);
    match a
    case ByDriver(d) => Driven(w, d)
    case ByFuture(p) => Polled(w, cancelled, free, p)
    case ByClosure(b) => Ran(w, cancelled, b)
  }

  /** The closure is admitted and has not returned. */
  predicate Unreturned(c: Closure) { !c.Unspawned? && !c.Returned? }

  /** Change in free permits: one is taken on admission and given back when the closure returns. */
  function Freed(w: Warmup, t: Warmup): int {
    (if Unreturned(w.closure) && t.closure.Returned? then 1 else 0) - (if w.future.Starting? && t.future.Admitted? then 1 else 0)
  }

  /** Change in the owner's tracker: the closure is tracked from its spawn to its return, the driver until it is over. */
  function Tracked(w: Warmup, t: Warmup): int {
    (if w.closure.Unspawned? && t.closure.Queued? then 1 else 0)
    - (if Unreturned(w.closure) && t.closure.Returned? then 1 else 0)
    - (if !w.driver.Over? && t.driver.Over? then 1 else 0)
  }

  datatype Step = NewOwner | Cancel(o: nat) | DropOwner(o: nat) | Wrap(o: nat) | Move(i: nat, act: Act)

  predicate Enabled(s: State, step: Step) {
    match step
    case NewOwner => true
    case Cancel(o) => o < |s.owners|
    case DropOwner(o) => o < |s.owners| && !s.owners[o].closed
    case Wrap(o) => o < |s.owners| && !s.owners[o].closed
    case Move(i, a) =>
      && i < |s.warmups| && s.warmups[i].owner < |s.owners|
      && Can(s.warmups[i], s.owners[s.warmups[i].owner].cancelled, a)
  }

  function NewWarmup(o: nat): Warmup {
    Warmup(o, Pending, Waiting, Unmade, false, Unspawned, false, None, [], 0, false, None)
  }

  function MovedOne(s: State, i: nat, a: Act): Warmup
    requires Enabled(s, Move(i, a))
  {
    Moved(s.warmups[i], s.owners[s.warmups[i].owner].cancelled, s.free, a)
  }

  function Next(s: State, step: Step): State
    requires Enabled(s, step)
  {
    match step
    case NewOwner => s.(owners := s.owners + [Owner(false, false, 0)])
    case Cancel(o) => s.(owners := s.owners[o := s.owners[o].(cancelled := true)])
    case DropOwner(o) => s.(owners := s.owners[o := s.owners[o].(cancelled := true, closed := true)])
    case Wrap(o) =>
      s.(warmups := s.warmups + [NewWarmup(o)], owners := s.owners[o := s.owners[o].(tracked := s.owners[o].tracked + 1)])
    case Move(i, a) =>
      var w, t := s.warmups[i], MovedOne(s, i, a);
      s.(warmups := s.warmups[i := t], free := s.free + Freed(w, t),
         owners := s.owners[w.owner := s.owners[w.owner].(tracked := s.owners[w.owner].tracked + Tracked(w, t))])
  }

  /******* One warmup *******/

  predicate Early(f: Future) { f.Unmade? || f.Unstarted? || f.Starting? || f.Admitted? }

  predicate Undispatched(f: Future) {
    Early(f) || f.Preprocessing? || f.Encoded? || f.Cleared? || f.Published? || f == Dropped(false)
  }

  predicate WindingDown(d: Driver) { d.Deciding? || d.Cancelling? || d.Stopping? || d.Grace? }

  ghost predicate DriverOk(w: Warmup) {
    && (w.polling ==> w.driver.Driving? || w.driver.Grace?)
    && (MidPoll(w.future) ==> w.polling && w.driver.Driving?)
    && (w.driver.Waiting? <==> w.future.Unmade? && !w.driver.Over?)
    && (w.driver.Driving? ==> !w.future.Dropped?)
    && (w.future.Finished? ==> w.polling || w.driver.Over?)
    && (WindingDown(w.driver) ==> w.wound) && (w.wound ==> WindingDown(w.driver) || w.driver.Over?)
    && (w.driver.Cancelling? || w.driver.Stopping? || w.driver.Grace? ==> w.cancelled)
    && (w.future.Unmade? ==> !w.wound && !w.polling)
    && (w.future.Dropped? ==> w.driver.Over?)
  }

  ghost predicate DispatchOk(w: Warmup) {
    && w.generates <= 1
    && (Undispatched(w.future) ==> w.generates == 0)
    && (w.future.Generating? || w.future.Draining? || w.future == Dropped(true) ==> w.generates == 1)
    && (w.slot.Some? ==> w.future.Published? || !Undispatched(w.future))
    && ((w.future.Published? || w.future.Generating?) && !w.driver.Grace? ==> w.slot == Some(OfRequest))
    && (w.future.Draining? && !w.driver.Grace? ==> w.slot == Some(OfResponse))
    && (w.driver.Grace? ==> w.future.Generating? || w.future.Draining? || w.future.Finished?)
  }

  /** The context that was published when the wind-down was decided, and no other, is asked to stop. */
  ghost predicate StopOk(w: Warmup) {
    && (!w.wound ==> w.stopped == [] && w.exposed == None)
    && (w.driver.Deciding? || w.driver.Cancelling? || w.driver.Stopping? ==> w.stopped == [] && w.slot == w.exposed)
    && (w.driver.Stopping? || w.driver.Grace? || w.future == Dropped(true) ==> w.exposed.Some?)
    && (w.driver.Grace? || (w.driver.Over? && w.wound) ==> w.stopped == if w.exposed.Some? then [w.exposed.value] else [])
    && (w.driver.Over? && w.wound && w.generates == 1 ==> w.exposed.Some?)
    && (WindingDown(w.driver) && w.generates == 1 ==> w.exposed.Some?)
    && (WindingDown(w.driver) && !w.driver.Grace? ==> !w.polling && !w.future.Finished?)
  }

  ghost predicate ClosureOk(w: Warmup) {
    && (Early(w.future) ==> w.closure.Unspawned?)
    && (w.future.Preprocessing? ==> !w.closure.Unspawned?)
    && (w.future.Encoded? || w.future.Cleared? || w.future.Published? || w.generates > 0 ==> w.closure == Returned(true))
  }

  ghost predicate WarmupOk(w: Warmup) { DriverOk(w) && DispatchOk(w) && StopOk(w) && ClosureOk(w) }

  lemma NewWarmupOk(o: nat)
    ensures WarmupOk(NewWarmup(o))
  {
  }

  lemma DrivenDriver(w: Warmup, cancelled: bool, a: Drive)
    requires WarmupOk(w) && CanDrive(w, cancelled, a)
    ensures DriverOk(Driven(w, a))
  {
  }

  lemma DrivenDispatch(w: Warmup, cancelled: bool, a: Drive)
    requires WarmupOk(w) && CanDrive(w, cancelled, a)
    ensures DispatchOk(Driven(w, a))
  {
  }

  lemma DrivenStop(w: Warmup, cancelled: bool, a: Drive)
    requires WarmupOk(w) && CanDrive(w, cancelled, a)
    ensures StopOk(Driven(w, a))
  {
  }

  lemma DrivenClosure(w: Warmup, cancelled: bool, a: Drive)
    requires WarmupOk(w) && CanDrive(w, cancelled, a)
    ensures ClosureOk(Driven(w, a))
  {
  }

  lemma PolledDriver(w: Warmup, cancelled: bool, free: int, a: Poll)
    requires WarmupOk(w) && CanPoll(w, a)
    ensures DriverOk(Polled(w, cancelled, free, a))
  {
  }

  lemma PolledDispatch(w: Warmup, cancelled: bool, free: int, a: Poll)
    requires WarmupOk(w) && CanPoll(w, a)
    ensures DispatchOk(Polled(w, cancelled, free, a))
  {
  }

  lemma PolledStop(w: Warmup, cancelled: bool, free: int, a: Poll)
    requires WarmupOk(w) && CanPoll(w, a)
    ensures StopOk(Polled(w, cancelled, free, a))
  {
  }

  lemma PolledClosure(w: Warmup, cancelled: bool, free: int, a: Poll)
    requires WarmupOk(w) && CanPoll(w, a)
    ensures ClosureOk(Polled(w, cancelled, free, a))
  {
  }

  lemma RanAll(w: Warmup, cancelled: bool, a: Block)
    requires WarmupOk(w) && CanBlock(w, a)
    ensures DriverOk(Ran(w, cancelled, a)) && DispatchOk(Ran(w, cancelled, a)) && StopOk(Ran(w, cancelled, a)) && ClosureOk(Ran(w, cancelled, a))
  {
  }

  /** A permit in use: between admission and spawn it is the future's, then the closure's until it returns. */
  function Holds(w: Warmup): nat { (if w.future.Admitted? then 1 else 0) + (if Unreturned(w.closure) then 1 else 0) }

  /** What a warmup keeps in its owner's tracker. */
  function Counted(w: Warmup): nat { (if w.driver.Over? then 0 else 1) + (if Unreturned(w.closure) then 1 else 0) }

  ghost predicate Balances(w: Warmup, t: Warmup, free: int) {
    && Holds(t) + Freed(w, t) == Holds(w) && Counted(t) == Counted(w) + Tracked(w, t)
    && (Freed(w, t) < 0 ==> free > 0) && Freed(w, t) >= -1
  }

  lemma DrivenBalances(w: Warmup, cancelled: bool, free: int, a: Drive)
    requires WarmupOk(w) && CanDrive(w, cancelled, a)
    ensures Balances(w, Driven(w, a), free)
  {
    hide DispatchOk, StopOk;
  }

  lemma PolledBalances(w: Warmup, cancelled: bool, free: int, a: Poll)
    requires WarmupOk(w) && CanPoll(w, a)
    ensures Balances(w, Polled(w, cancelled, free, a), free)
  {
    hide DispatchOk, StopOk;
  }

  lemma RanBalances(w: Warmup, cancelled: bool, free: int, a: Block)
    requires WarmupOk(w) && CanBlock(w, a)
    ensures Balances(w, Ran(w, cancelled, a), free)
  {
    hide DispatchOk, StopOk;
  }

  /** Each step changes the permits in use and the tracked work by exactly what it takes and gives back. */
  lemma MovedBalances(w: Warmup, cancelled: bool, free: int, a: Act)
    requires WarmupOk(w) && Can(w, cancelled, a)
    ensures Balances(w, Moved(w, cancelled, free, a), free)
  {
    hide WarmupOk, Balances, CanDrive, CanPoll, CanBlock, Driven, Polled, Ran;
    match a {
      case ByDriver(d) => DrivenBalances(w, cancelled, free, d);
      case ByFuture(p) => PolledBalances(w, TokenCancelled(w, cancelled), free, p);
      case ByClosure(b) => RanBalances(w, TokenCancelled(w, cancelled), free, b);
    }
  }

  /** Once its wind-down is decided a warmup dispatches nothing more, and no stop is taken back; a
      wind-down is decided between two polls and notes the published context. */
  ghost predicate Later(w: Warmup, t: Warmup) {
    && t.owner == w.owner && w.generates <= t.generates && w.stopped <= t.stopped
    && (w.wound ==> t.wound && t.generates == w.generates && t.exposed == w.exposed)
    && (w.driver.Over? ==> t.driver.Over?) && (w.closure.Returned? ==> t.closure == w.closure)
  }

  lemma DrivenLater(w: Warmup, cancelled: bool, a: Drive)
    requires WarmupOk(w) && CanDrive(w, cancelled, a)
    ensures Later(w, Driven(w, a))
  {
    hide DispatchOk, StopOk;
  }

  lemma PolledLater(w: Warmup, cancelled: bool, free: int, a: Poll)
    requires WarmupOk(w) && CanPoll(w, a)
    ensures Later(w, Polled(w, cancelled, free, a))
  {
    hide DispatchOk, StopOk;
  }

  lemma RanLater(w: Warmup, cancelled: bool, a: Block)
    requires WarmupOk(w) && CanBlock(w, a)
    ensures Later(w, Ran(w, cancelled, a))
  {
    hide DispatchOk, StopOk;
  }

  lemma MovedOk(w: Warmup, cancelled: bool, free: int, a: Act)
    requires WarmupOk(w) && Can(w, cancelled, a)
    ensures WarmupOk(Moved(w, cancelled, free, a)) && Later(w, Moved(w, cancelled, free, a))
  {
    hide DriverOk, DispatchOk, StopOk, ClosureOk, Later, CanDrive, CanPoll, CanBlock, Driven, Polled, Ran;
    var c := TokenCancelled(w, cancelled);
    match a {
      case ByDriver(d) =>
        DrivenDriver(w, cancelled, d);
        DrivenDispatch(w, cancelled, d);
        DrivenStop(w, cancelled, d);
        DrivenClosure(w, cancelled, d);
        DrivenLater(w, cancelled, d);
      case ByFuture(p) =>
        PolledDriver(w, c, free, p);
        PolledDispatch(w, c, free, p);
        PolledStop(w, c, free, p);
        PolledClosure(w, c, free, p);
        PolledLater(w, c, free, p);
      case ByClosure(b) =>
        RanAll(w, c, b);
        RanLater(w, c, b);
    }
  }

  /******* All of them *******/

  function Permits(ws: seq<Warmup>): nat {
    if ws == [] then 0 else Permits(ws[..|ws| - 1]) + Holds(ws[|ws| - 1])
  }

  function TrackedBy(ws: seq<Warmup>, o: nat): nat {
    if ws == [] then 0
    else TrackedBy(ws[..|ws| - 1], o) + if ws[|ws| - 1].owner == o then Counted(ws[|ws| - 1]) else 0
  }

  lemma {:induction false} PermitsUpdate(ws: seq<Warmup>, i: nat, t: Warmup)
    requires i < |ws|
    ensures Permits(ws[i := t]) == Permits(ws) - Holds(ws[i]) + Holds(t)
  {
    var n := |ws| - 1;
    if i < n {
      PermitsUpdate(ws[..n], i, t);
      assert ws[i := t][..n] == ws[..n][i := t];
    } else {
      assert ws[i := t][..n] == ws[..n];
    }
  }

  lemma {:induction false} TrackedUpdate(ws: seq<Warmup>, i: nat, t: Warmup, o: nat)
    requires i < |ws| && t.owner == ws[i].owner
    ensures TrackedBy(ws[i := t], o) == TrackedBy(ws, o) + if t.owner == o then Counted(t) - Counted(ws[i]) else 0
  {
    var n := |ws| - 1;
    if i < n {
      TrackedUpdate(ws[..n], i, t, o);
      assert ws[i := t][..n] == ws[..n][i := t];
    } else {
      assert ws[i := t][..n] == ws[..n];
    }
  }

  lemma SumsSnoc(ws: seq<Warmup>, t: Warmup, o: nat)
    ensures Permits(ws + [t]) == Permits(ws) + Holds(t)
    ensures TrackedBy(ws + [t], o) == TrackedBy(ws, o) + if t.owner == o then Counted(t) else 0
  {
    assert (ws + [t])[..|ws|] == ws;
  }

  lemma {:induction false} HeldTracked(ws: seq<Warmup>, i: nat)
    requires i < |ws|
    ensures Counted(ws[i]) <= TrackedBy(ws, ws[i].owner)
  {
    if i < |ws| - 1 { HeldTracked(ws[..|ws| - 1], i); }
  }

  lemma {:induction false} NoneTracked(ws: seq<Warmup>, o: nat)
    requires forall w :: w in ws ==> w.owner < o
    ensures TrackedBy(ws, o) == 0
  {
    if ws != [] { NoneTracked(ws[..|ws| - 1], o); }
  }

  ghost predicate AllOk(s: State) { forall w :: w in s.warmups ==> WarmupOk(w) && w.owner < |s.owners| }

  ghost predicate TrackersOk(s: State) { forall o :: 0 <= o < |s.owners| ==> s.owners[o].tracked == TrackedBy(s.warmups, o) }

  /** Permits are conserved and trackers are exact. */
  ghost predicate Inv(s: State) {
    AllOk(s) && s.free >= 0 && s.free + Permits(s.warmups) == 4 && TrackersOk(s)
  }

  lemma MoveKeeps(s: State, i: nat, a: Act)
    requires Inv(s) && Enabled(s, Move(i, a))
    ensures Inv(Next(s, Move(i, a))) && Later(s.warmups[i], Next(s, Move(i, a)).warmups[i])
  {
    hide Moved, Can, WarmupOk, Holds, Counted, Freed, Tracked, Later;
    var w, t := s.warmups[i], MovedOne(s, i, a);
    var cancelled := s.owners[w.owner].cancelled;
    assert w in s.warmups;
    MovedOk(w, cancelled, s.free, a);
    LaterOwner(w, t);
    MovedBalances(w, cancelled, s.free, a);
    PermitsUpdate(s.warmups, i, t);
    forall o | 0 <= o < |s.owners| ensures Next(s, Move(i, a)).owners[o].tracked == TrackedBy(s.warmups[i := t], o) {
      TrackedUpdate(s.warmups, i, t, o);
    }
  }

  lemma WrapKeeps(s: State, o: nat)
    requires Inv(s) && Enabled(s, Wrap(o))
    ensures Inv(Next(s, Wrap(o)))
  {
    hide WarmupOk;
    var t := NewWarmup(o);
    NewWarmupOk(o);
    SumsSnoc(s.warmups, t, o);
    forall p | 0 <= p < |s.owners| ensures Next(s, Wrap(o)).owners[p].tracked == TrackedBy(s.warmups + [t], p) {
      SumsSnoc(s.warmups, t, p);
    }
  }

  lemma OwnerKeeps(s: State, step: Step)
    requires Inv(s) && Enabled(s, step) && (step.NewOwner? || step.Cancel? || step.DropOwner?)
    ensures Inv(Next(s, step)) && Next(s, step).warmups == s.warmups && Next(s, step).free == s.free
  {
    hide WarmupOk;
    if step.NewOwner? { NoneTracked(s.warmups, |s.owners|); }
  }

  lemma LaterOwner(w: Warmup, t: Warmup)
    requires Later(w, t)
    ensures t.owner == w.owner
  {
  }

  lemma LaterSelf(w: Warmup)
    ensures Later(w, w)
  {
  }

  lemma LaterTransitive(a: Warmup, b: Warmup, c: Warmup)
    requires Later(a, b) && Later(b, c)
    ensures Later(a, c)
  {
  }

  ghost predicate AllLater(s: State, t: State) {
    |s.warmups| <= |t.warmups| && forall k :: 0 <= k < |s.warmups| ==> Later(s.warmups[k], t.warmups[k])
  }

  lemma StepKeeps(s: State, step: Step)
    requires Inv(s) && Enabled(s, step)
    ensures Inv(Next(s, step)) && AllLater(s, Next(s, step))
  {
    hide Inv, Later, Can, Moved;
    forall w ensures Later(w, w) { LaterSelf(w); }
    match step {
      case Wrap(o) => WrapKeeps(s, o);
      case Move(i, a) => MoveKeeps(s, i, a);
      case _ => OwnerKeeps(s, step);
    }
  }

  /******* Every run *******/

  ghost predicate Run(path: seq<State>) {
    && path != [] && path[0] == INITIAL
    && forall i :: 0 <= i < |path| - 1 ==> Follows(path[i], path[i + 1])
  }

  ghost predicate Follows(s: State, t: State) { exists step :: Enabled(s, step) && t == Next(s, step) }

  lemma {:induction false} RunInv(path: seq<State>, i: nat, j: nat)
    requires Run(path) && i <= j < |path|
    ensures Inv(path[j]) && AllLater(path[i], path[j])
  {
    hide Inv, Enabled, Next, Later, Follows;
    if i == j {
      forall w ensures Later(w, w) { LaterSelf(w); }
      if j == 0 {
        InitialInv();
      } else {
        RunInv(path, j - 1, j - 1);
        FollowsKeeps(path[j - 1], path[j]);
      }
    } else {
      RunInv(path, i, j - 1);
      FollowsKeeps(path[j - 1], path[j]);
      forall k | 0 <= k < |path[i].warmups| ensures Later(path[i].warmups[k], path[j].warmups[k]) {
        LaterTransitive(path[i].warmups[k], path[j - 1].warmups[k], path[j].warmups[k]);
      }
    }
  }

  lemma InitialInv()
    ensures Inv(INITIAL)
  {
  }

  lemma FollowsKeeps(s: State, t: State)
    requires Inv(s) && Follows(s, t)
    ensures Inv(t) && AllLater(s, t)
  {
    hide Inv, Enabled, Next, AllLater;
    var step :| Enabled(s, step) && t == Next(s, step);
    StepKeeps(s, step);
  }

  /** In every reachable state the free permits and those in use, by a warmup being admitted or by a
      closure that has not returned, are four; each tracker counts its unfinished drivers and its
      unreturned closures, and so covers every unreturned closure even after its owner is gone. */
  lemma PermitsConserved(path: seq<State>, i: nat)
    requires Run(path) && i < |path|
    ensures var s := path[i];
            && 0 <= s.free && s.free + Permits(s.warmups) == 4
            && (forall o :: 0 <= o < |s.owners| ==> s.owners[o].tracked == TrackedBy(s.warmups, o))
            && forall k :: 0 <= k < |s.warmups| && Unreturned(s.warmups[k].closure) ==>
                 s.warmups[k].owner < |s.owners| && s.owners[s.warmups[k].owner].tracked >= 1
  {
    hide Run, WarmupOk;
    RunInv(path, i, i);
    var s := path[i];
    forall k | 0 <= k < |s.warmups| && Unreturned(s.warmups[k].closure)
      ensures s.warmups[k].owner < |s.owners| && s.owners[s.warmups[k].owner].tracked >= 1
    {
      assert s.warmups[k] in s.warmups;
      HeldTracked(s.warmups, k);
    }
  }

  lemma FreeingMove(s: State, step: Step)
    requires Enabled(s, step) && Next(s, step).free > s.free
    ensures step.Move? && Unreturned(s.warmups[step.i].closure) && Next(s, step).warmups[step.i].closure.Returned?
    ensures Next(s, step).free == s.free + 1
  {
    hide Moved, Can;
  }

  /** In every run nothing but the return of a blocking closure gives a permit back: not cancellation,
      not a timeout, not the end of a warmup or of an owner. */
  lemma OnlyReturnsFree(path: seq<State>, i: nat)
    requires Run(path) && i + 1 < |path| && path[i + 1].free > path[i].free
    ensures path[i + 1].free == path[i].free + 1
    ensures exists k :: 0 <= k < |path[i].warmups| && k < |path[i + 1].warmups|
                        && Unreturned(path[i].warmups[k].closure) && path[i + 1].warmups[k].closure.Returned?
  {
    hide Enabled, Next;
    assert Follows(path[i], path[i + 1]);
    var step :| Enabled(path[i], step) && path[i + 1] == Next(path[i], step);
    FreeingMove(path[i], step);
    MoveInRange(path[i], step);
  }

  lemma MoveInRange(s: State, step: Step)
    requires Enabled(s, step) && step.Move?
    ensures step.i < |s.warmups| == |Next(s, step).warmups|
  {
  }

  /** In every run a wrapped stream causes at most one dispatch, and none once its wind-down is decided. */
  lemma DispatchedOnce(path: seq<State>, i: nat, j: nat, k: nat)
    requires Run(path) && i <= j < |path| && k < |path[i].warmups|
    ensures k < |path[j].warmups| && path[j].warmups[k].generates <= 1
    ensures path[i].warmups[k].wound ==> path[j].warmups[k].generates == path[i].warmups[k].generates
  {
    hide Run, DriverOk, ClosureOk, StopOk;
    RunInv(path, i, j);
    assert path[j].warmups[k] in path[j].warmups;
    assert Later(path[i].warmups[k], path[j].warmups[k]);
  }

  /** In every run a warmup whose wind-down was decided after it had dispatched has been sent exactly one
      stop by the time its driver is over, and a dispatched stream is dropped only after a stop. */
  lemma StoppedBeforeDropped(path: seq<State>, i: nat, k: nat)
    requires Run(path) && i < |path| && k < |path[i].warmups|
    ensures var w := path[i].warmups[k];
            && (w.wound && w.driver.Over? && w.generates == 1 ==> |w.stopped| == 1)
            && (w.future == Dropped(true) ==> |w.stopped| == 1)
  {
    hide Run, ClosureOk;
    RunInv(path, i, i);
    assert path[i].warmups[k] in path[i].warmups;
  }

  /** What the published context says about a warmup between two polls. */
  function StopTarget(f: Future): seq<Context> {
    if f.Draining? then [OfResponse] else if f.Generating? then [OfRequest] else []
  }

  lemma DecisionMove(w: Warmup, cancelled: bool, free: int, a: Act)
    requires WarmupOk(w) && Can(w, cancelled, a) && !w.wound && Moved(w, cancelled, free, a).wound
    ensures Moved(w, cancelled, free, a).exposed == w.slot
    ensures StopTarget(w.future) == if w.slot.Some? then [w.slot.value] else []
  {
    hide StopOk, ClosureOk;
  }

  lemma DecisionStep(s: State, t: State, k: nat)
    requires Inv(s) && Follows(s, t) && k < |s.warmups| && k < |t.warmups| && !s.warmups[k].wound && t.warmups[k].wound
    ensures StopTarget(s.warmups[k].future) == if t.warmups[k].exposed.Some? then [t.warmups[k].exposed.value] else []
  {
    hide WarmupOk, Moved, Can, StopTarget;
    assert s.warmups[k] in s.warmups;
    var step :| Enabled(s, step) && t == Next(s, step);
    if step.Move? && step.i == k {
      DecisionMove(s.warmups[k], s.owners[s.warmups[k].owner].cancelled, s.free, step.act);
    }
  }

  /** Which context is asked to stop, in every run: if the wind-down is decided while the response stream
      is being drained it is the response's; if `generate` is still pending it is the request's, and only
      that one, even when the stream opens during grace and is dropped with its own context not asked;
      and before a dispatch none is. */
  lemma StopGoesTo(path: seq<State>, i: nat, j: nat, k: nat)
    requires Run(path) && i < j < |path| && k < |path[i].warmups| && k < |path[i + 1].warmups| && k < |path[j].warmups|
    requires !path[i].warmups[k].wound && path[i + 1].warmups[k].wound && path[j].warmups[k].driver.Over?
    ensures path[j].warmups[k].stopped == StopTarget(path[i].warmups[k].future)
  {
    hide DriverOk, DispatchOk, ClosureOk, StopTarget, Follows;
    RunInv(path, i, i);
    RunInv(path, i + 1, j);
    assert Follows(path[i], path[i + 1]);
    DecisionStep(path[i], path[i + 1], k);
    assert path[j].warmups[k] in path[j].warmups;
    assert Later(path[i + 1].warmups[k], path[j].warmups[k]);
  }

  lemma DispatchMove(w: Warmup, cancelled: bool, free: int, a: Act)
    requires WarmupOk(w) && Can(w, cancelled, a) && Moved(w, cancelled, free, a).generates > w.generates
    ensures !w.wound && w.driver.Driving? && w.polling && w.slot == Some(OfRequest) && w.closure == Returned(true)
  {
    hide StopOk;
  }

  lemma DispatchStep(s: State, t: State, k: nat)
    requires Inv(s) && Follows(s, t) && k < |s.warmups| && k < |t.warmups|
    requires t.warmups[k].generates > s.warmups[k].generates
    ensures var w := s.warmups[k];
            !w.wound && w.driver.Driving? && w.polling && w.slot == Some(OfRequest) && w.closure == Returned(true)
  {
    hide WarmupOk, Moved, Can;
    assert s.warmups[k] in s.warmups;
    var step :| Enabled(s, step) && t == Next(s, step);
    if step.Move? && step.i == k {
      DispatchMove(s.warmups[k], s.owners[s.warmups[k].owner].cancelled, s.free, step.act);
    }
  }

  /** In every run a dispatch happens only in a poll of a warmup that is not wound down, right after its
      context was published; its preprocessing has returned by then. */
  lemma DispatchSituation(path: seq<State>, i: nat, k: nat)
    requires Run(path) && i + 1 < |path| && k < |path[i].warmups| && k < |path[i + 1].warmups|
    requires path[i + 1].warmups[k].generates > path[i].warmups[k].generates
    ensures var w := path[i].warmups[k];
            !w.wound && w.driver.Driving? && w.polling && w.slot == Some(OfRequest) && w.closure == Returned(true)
  {
    hide Inv, Follows;
    RunInv(path, i, i);
    DispatchStep(path[i], path[i + 1], k);
  }
}
