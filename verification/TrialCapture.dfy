/** The report of one controlled replay: the saved capture must run from the trial's opening
    clear to its closing one; the ledger folds everything in between, the entries it then holds
    are classified, and the result is attributable only if no batch is missing. */
module TrialCapture {
  import opened Wrappers
  import opened PublishedLedger
  import opened BlockTrie
  import opened BlockReuse
  import opened BlockResolution

  datatype Frame = Frame(topic: string, sequence: int, hash: string, batch: Batch)

  /** The collector's topic and what the trial recorded about its two clear events. */
  datatype Trial = Trial(topic: string, reset: int, resetHash: Option<string>, closing: int, closingHash: string)

  predicate Clears(f: Frame) { f.batch.Batch? && HasClear(f.batch.events) }

  /** The frames between the opening and the closing one. */
  function Inner(capture: seq<Frame>): seq<Frame> {
    if |capture| < 2 then [] else capture[1..|capture| - 1]
  }

  /** The slice starts with the trial's clear, ends with its closing clear and has none between. */
  predicate Framed(t: Trial, capture: seq<Frame>) {
    && capture != []
    && capture[0].sequence == t.reset && (t.resetHash.Some? ==> capture[0].hash == t.resetHash.value)
    && Clears(capture[0]) && (forall f :: f in Inner(capture) ==> !Clears(f))
    && (forall f :: f in capture ==> f.topic == t.topic)
    && var last := capture[|capture| - 1];
       && last.sequence == t.closing && last.hash == t.closingHash
       && last.batch.Batch? && |last.batch.events| == 1 && IsClear(last.batch.events[0])
  }

  /** The ledger after a capture, unless a batch raised: here nothing catches the error. */
  function Taken(capture: seq<Frame>): Option<State> {
    if capture == [] then Some(INITIAL)
    else
      var s, f := Taken(capture[..|capture| - 1]), capture[|capture| - 1];
      if s.None? || Raises(s.value, f.sequence, f.hash, f.batch) then None
      else Some(Accepted(s.value, f.sequence, f.hash, f.batch))
  }

  /** `g` is the batch after `f`, or `f` again. */
  predicate Follows(f: Frame, g: Frame) {
    g.sequence == f.sequence + 1 || (g.sequence == f.sequence && g.hash == f.hash)
  }

  ghost predicate Consecutive(capture: seq<Frame>) {
    forall i :: 0 < i < |capture| ==> Follows(capture[i - 1], capture[i])
  }

  /******* What the ledger's flags say about the capture *******/

  lemma LastTaken(capture: seq<Frame>)
    requires capture != [] && Taken(capture).Some?
    ensures var s, f := Taken(capture).value, capture[|capture| - 1];
            s.lastSequence == Some(f.sequence) && s.lastHash == f.hash
  {
  }

  lemma ConsecutiveSnoc(capture: seq<Frame>)
    requires |capture| >= 2
    ensures Consecutive(capture) <==>
              && Consecutive(capture[..|capture| - 1])
              && Follows(capture[|capture| - 2], capture[|capture| - 1])
  {
    var n := |capture| - 1;
    var init := capture[..n];
    if Consecutive(init) && Follows(capture[n - 1], capture[n]) {
      forall i | 0 < i < |capture| ensures Follows(capture[i - 1], capture[i]) {
        if i < n { assert Follows(init[i - 1], init[i]); }
      }
    }
    if Consecutive(capture) {
      forall i | 0 < i < n ensures Follows(init[i - 1], init[i]) { assert Follows(capture[i - 1], capture[i]); }
    }
  }

  /** A frame opens no issue exactly when it follows the one before it. */
  lemma StepIssues(capture: seq<Frame>)
    requires |capture| >= 2 && Taken(capture).Some?
    ensures Taken(capture[..|capture| - 1]).Some?
    ensures var s, t := Taken(capture[..|capture| - 1]).value, Taken(capture).value;
            && |s.issues| <= |t.issues|
            && (Follows(capture[|capture| - 2], capture[|capture| - 1]) <==> t.issues == s.issues)
  {
    hide Folded;
    LastTaken(capture[..|capture| - 1]);
  }

  /** No sequence issue is recorded exactly when the captured batches follow one another. */
  lemma {:induction false} IssuesMeanGaps(capture: seq<Frame>)
    requires Taken(capture).Some?
    ensures Taken(capture).value.issues == [] <==> Consecutive(capture)
  {
    hide Raises, Accepted;
    if |capture| >= 2 {
      IssuesMeanGaps(capture[..|capture| - 1]);
      ConsecutiveSnoc(capture);
      StepIssues(capture);
    } else if |capture| == 1 {
      FirstIssues(capture);
    }
  }

  lemma FirstIssues(capture: seq<Frame>)
    requires |capture| == 1 && Taken(capture).Some?
    ensures Taken(capture).value.issues == []
  {
    assert Taken(capture[..0]) == Some(INITIAL);
  }

  /** Events without a clear leave completeness as they find it. */
  lemma {:induction false} NoClearKeeps(f: Fold, events: seq<Event>)
    requires !HasClear(events) && DoEvents(f, events).ok
    ensures DoEvents(f, events).view.complete == f.view.complete
    decreases |events|
  {
    hide Read, DoAll;
    if events != [] {
      var e := events[0];
      EventOk(f, events);
      NoClear(e);
      CompleteFlag(f, Read(e).ops);
      NoClearKeeps(DoEvent(f, e), events[1..]);
    }
  }

  lemma OpeningCompletes(capture: seq<Frame>)
    requires |capture| == 1 && Taken(capture).Some? && Clears(capture[0])
    ensures Taken(capture).value.view.complete
  {
    hide DoEvents;
    var f := capture[0];
    assert Taken(capture[..0]) == Some(INITIAL);
    ClearCompletes(Open(Entering(INITIAL, f.sequence)), f.batch.events);
  }

  lemma StepCompletes(capture: seq<Frame>)
    requires |capture| >= 2 && Taken(capture).Some? && !Clears(capture[|capture| - 1])
    ensures Taken(capture[..|capture| - 1]).Some?
    ensures var s, t := Taken(capture[..|capture| - 1]).value, Taken(capture).value;
            t.view.complete <==> s.view.complete && Follows(capture[|capture| - 2], capture[|capture| - 1])
  {
    hide DoEvents;
    var init, f := capture[..|capture| - 1], capture[|capture| - 1];
    LastTaken(init);
    var s := Taken(init).value;
    if !Duplicate(s, f.sequence, f.hash) { NoClearKeeps(Open(Entering(s, f.sequence)), f.batch.events); }
  }

  /** From an opening clear and with no other, the ledger is complete exactly while the captured
      batches follow one another. */
  lemma {:induction false} CompleteMeansConsecutive(capture: seq<Frame>)
    requires capture != [] && Taken(capture).Some?
    requires Clears(capture[0]) && forall f :: f in capture[1..] ==> !Clears(f)
    ensures Taken(capture).value.view.complete <==> Consecutive(capture)
  {
    hide Raises, Accepted, Clears, Follows;
    if |capture| == 1 {
      OpeningCompletes(capture);
    } else {
      var n := |capture| - 1;
      assert capture[n] == capture[1..][n - 1];
      assert forall f :: f in capture[..n][1..] ==> f in capture[1..];
      StepCompletes(capture);
      CompleteMeansConsecutive(capture[..n]);
      ConsecutiveSnoc(capture);
    }
  }

  /******* The published entries against the publisher's log *******/

  function AsDelivery(f: Frame): Delivery { Delivered(f.sequence, f.hash, f.batch) }

  lemma {:induction false} TakenFaithful(log: seq<Batch>, base: int, capture: seq<Frame>)
    requires Taken(capture).Some? && forall f :: f in capture ==> Plausible(log, base, AsDelivery(f))
    ensures Faithful(log, base, Taken(capture).value)
  {
    hide Plausible, Faithful, Accepted, Raises;
    if capture == [] {
      FaithfulAtStart(log, base);
    } else {
      var init, f := capture[..|capture| - 1], capture[|capture| - 1];
      TakenFaithful(log, base, init);
      CollectFaithful(log, base, Taken(init).value, AsDelivery(f));
    }
  }

  /** What is published before the closing clear, once it is complete. */
  lemma EntriesExact(log: seq<Batch>, base: int, capture: seq<Frame>)
    requires |capture| >= 2 && Taken(capture[..|capture| - 1]).Some? && Taken(capture[..|capture| - 1]).value.view.complete
    requires forall f :: f in capture ==> Plausible(log, base, AsDelivery(f))
    ensures var last, v := capture[|capture| - 2].sequence, Taken(capture[..|capture| - 1]).value.view;
            base <= last < base + |log| && Exact(v, Events(log[..last - base + 1]))
  {
    hide Plausible, Faithful, Exact, Taken;
    var init := capture[..|capture| - 1];
    LastTaken(init);
    TakenFaithful(log, base, init);
    FaithfulSound(log, base, Taken(init).value);
  }

  /******* The report *******/

  method ListKeys(h: History) returns (order: seq<Key>)
    ensures (set k | k in order) == h.Keys
  {
    order := [];
    var todo := h.Keys;
    while todo != {}
      invariant (set k | k in order) + todo == h.Keys
      decreases |todo|
    {
      var k :| k in todo;
      order, todo := order + [k], todo - {k};
    }
  }

  method InternInputs(identity: BlockIdentity, inputs: seq<seq<int>>) returns (ids: set<nat>)
    requires identity.Valid() && identity.size == 16
    modifies identity`nodes
    ensures identity.Valid() && Extends(old(identity.nodes), identity.nodes) && Stands(identity.nodes, ids, inputs, 16)
  {
    hide Interned, Extends, Stands, Image, AllKnown;
    ids := {};
    ExtendsSelf(identity.nodes);
    StandsNone(identity.nodes, 16);
    for i := 0 to |inputs|
      invariant identity.Valid() && Extends(old(identity.nodes), identity.nodes)
      invariant Stands(identity.nodes, ids, inputs[..i], 16)
    {
      ghost var before := identity.nodes;
      var more := identity.Blocks(inputs[i]);
      StandsMore(before, identity.nodes, ids, inputs[..i], inputs[i], more, 16);
      ExtendsMore(old(identity.nodes), before, identity.nodes);
      assert inputs[..i + 1] == inputs[..i] + [inputs[i]];
      ids := ids + more;
    }
    assert inputs[..|inputs|] == inputs;
  }

  datatype Terminal = Terminal(counts: Counts, view: View, issues: seq<Issue>, attributable: bool)

  /** The terminal classification for a view: the counts partition its entries by what their
      tokens alone determine. */
  ghost predicate Classified(r: Terminal, reals: seq<seq<int>>, warms: seq<seq<int>>) {
    Counted(r.view.history, r.view.blocks.Keys, reals, warms, r.counts) && Total(r.counts) == |r.view.blocks|
  }

  ghost predicate AllRooted(v: View) { forall k :: k in v.blocks ==> Rooted(v.history, k) }

  /** Check the slice as the report does before it reads any batch. */
  method CheckSlice(t: Trial, capture: seq<Frame>) returns (ok: bool)
    ensures ok <==> Framed(t, capture)
  {
    if capture == [] || capture[0].sequence != t.reset { return false; }
    if t.resetHash.Some? && capture[0].hash != t.resetHash.value { return false; }
    if !Clears(capture[0]) { return false; }
    if exists f :: f in Inner(capture) && Clears(f) { return false; }
    if exists f :: f in capture && f.topic != t.topic { return false; }
    var last := capture[|capture| - 1];
    if last.sequence != t.closing || last.hash != t.closingHash { return false; }
    ok := last.batch.Batch? && |last.batch.events| == 1 && IsClear(last.batch.events[0]);
  }

  /** Give every frame to the ledger; the first that raises ends it. */
  method AcceptAll(ledger: PublishedBlocks, capture: seq<Frame>) returns (ok: bool)
    requires ledger.St() == INITIAL
    modifies ledger
    ensures ok <==> Taken(capture).Some?
    ensures ok ==> ledger.St() == Taken(capture).value
  {
    hide Accepted, Raises;
    for i := 0 to |capture|
      invariant Taken(capture[..i]) == Some(ledger.St())
    {
      assert capture[..i + 1][..i] == capture[..i];
      var r := ledger.Accept(capture[i].sequence, capture[i].hash, capture[i].batch);
      if r.Failure? {
        TakenStops(capture, i + 1);
        return false;
      }
    }
    assert capture[..|capture|] == capture;
    ok := true;
  }

  lemma {:induction false} TakenStops(capture: seq<Frame>, i: nat)
    requires i <= |capture| && Taken(capture[..i]).None?
    ensures Taken(capture).None?
    decreases |capture| - i
  {
    if i == |capture| {
      assert capture[..i] == capture;
    } else {
      assert capture[..i + 1][..i] == capture[..i];
      TakenStops(capture, i + 1);
    }
  }

  /** When the flag is set: the batches follow one another and every entry has its ancestry. */
  lemma Attributable(t: Trial, capture: seq<Frame>, view: View)
    requires Framed(t, capture) && Taken(capture).Some?
    requires Taken(capture[..|capture| - 1]).Some? && view == Taken(capture[..|capture| - 1]).value.view
    ensures view.complete && Taken(capture).value.issues == [] <==> |capture| >= 2 && Consecutive(capture)
  {
    hide Accepted, Raises;
    var init := capture[..|capture| - 1];
    IssuesMeanGaps(capture);
    if |capture| >= 2 {
      assert init[1..] == Inner(capture);
      CompleteMeansConsecutive(init);
      ConsecutiveSnoc(capture);
    }
  }

  /** From a saved capture to the terminal classification.  It fails exactly when the slice is
      not framed by its clears, a batch raises, or no real input exists.  Otherwise the entries
      just before the closing clear are classified, and the result is attributable exactly when
      no batch of the capture is missing and every entry's ancestry is known.  Then, if the
      frames come from a log with one batch per number, the entries are the log's. */
  method TrialReport(t: Trial, capture: seq<Frame>, reals: seq<seq<int>>, warms: seq<seq<int>>,
                     ghost log: seq<Batch>, ghost base: int)
    returns (r: Result<Terminal>)
    ensures r.Success? <==> Framed(t, capture) && Taken(capture).Some? && reals != []
    ensures r.Success? ==>
              && Taken(capture[..|capture| - 1]).Some?
              && r.value.view == Taken(capture[..|capture| - 1]).value.view
              && Classified(r.value, reals, warms)
              && (r.value.issues == [] <==> Consecutive(capture))
              && (r.value.attributable <==> |capture| >= 2 && Consecutive(capture) && AllRooted(r.value.view))
    ensures r.Success? && r.value.attributable && (forall f :: f in capture ==> Plausible(log, base, AsDelivery(f))) ==>
              var last := capture[|capture| - 2].sequence;
              base <= last < base + |log| && Exact(r.value.view, Events(log[..last - base + 1]))
  {
    hide Interned, Extends, Stands, Counted, Rooted, Exact, Plausible, Framed, Events, Raises, Accepted, Total, Consecutive, Taken;
    var ok := CheckSlice(t, capture);
    if !ok { return Failure("capture rejected"); }
    FramedFrames(t, capture);
    var identity := new BlockIdentity(16);
    var seen := InternInputs(identity, reals);
    ghost var before := identity.nodes;
    var warm := InternInputs(identity, warms);
    StandsStable(before, identity.nodes, seen, reals, 16);
    var n := |capture| - 1;
    var init, closing := capture[..n], capture[n];
    var ledger := new PublishedBlocks();
    ok := AcceptAll(ledger, init);
    TakenNext(capture);
    if !ok || reals == [] { return Failure("report aborted"); }
    var view := View(ledger.complete, ledger.blocks, ledger.history);
    var order := ListKeys(view.history);
    var counts, attributable := Classify(view, identity, order, seen, warm, reals, warms);
    var receipt := ledger.Accept(closing.sequence, closing.hash, closing.batch);
    if receipt.Failure? { return Failure("report aborted"); }
    attributable := attributable && ledger.issues == [];
    IssuesMeanGaps(capture);
    Attributable(t, capture, view);
    if attributable && forall f :: f in capture ==> Plausible(log, base, AsDelivery(f)) {
      EntriesExact(log, base, capture);
    }
    r := Success(Terminal(counts, view, ledger.issues, attributable));
  }

  lemma FramedFrames(t: Trial, capture: seq<Frame>)
    requires Framed(t, capture)
    ensures capture != []
  {
  }

  lemma TakenNext(capture: seq<Frame>)
    requires capture != []
    ensures var s, f := Taken(capture[..|capture| - 1]), capture[|capture| - 1];
            Taken(capture) ==
              if s.None? || Raises(s.value, f.sequence, f.hash, f.batch) then None
              else Some(Accepted(s.value, f.sequence, f.hash, f.batch))
  {
  }
}
