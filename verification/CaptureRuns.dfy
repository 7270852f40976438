/** What a capture's close status and its validation mean: when the status is valid, what its
    counts count, exactly which files are accepted, and that a capture of any length can end
    in an accepted file. */
module CaptureRuns {
  import opened Wrappers
  import opened CaptureLog

  /******* The close status *******/

  /** The step that takes the close status. */
  ghost predicate TakesStatus(s: Capture, t: Capture) { s.producer.Joined? && t.producer.Idle? && Next(s, t) }

  lemma StatusStep(s: Capture, t: Capture)
    requires TakesStatus(s, t)
    ensures t == Produced(s, TakeStatus)
  {
    hide CloseReport;
    var a :| Enabled(s, a) && t == Apply(s, a);
    assert !a.ByWriter? by { if a.ByWriter? { WriterAlone(s, a.w); } }
  }

  lemma WriterAlone(s: Capture, a: Consume)
    requires CanConsume(s, a)
    ensures Consumed(s, a).producer == s.producer
  {
    hide Report;
  }

  /** What the counts of a status count, and when it is valid. */
  ghost predicate StatusMeans(s: Capture, r: Status) {
    && r.process == s.setup.process
    && r.attempted == |s.past.attempts| && r.queued == |s.past.accepted| && r.dropped == r.attempted - r.queued
    && r.pending == |s.queue| + |Held(s.writer)| && r.persisted + r.failed + r.pending == r.queued
    && multiset(r.failures) + Outstanding(s.writer) == s.past.raised
    && r.failed == multiset(r.failures)[Write]
    && (r.drainTimeout <==> !s.writer.Done?)
    && (s.writer.Done? ==> (r.summaryWritten <==> s.past.footer.Some?))
    && (r.valid <==> s.writer.Done? && s.past.raised == multiset{})
  }

  lemma StatusCounts(s: Capture)
    requires Inv(s) && s.producer.Joined?
    ensures var r := CloseReport(s, s.producer.alive);
            && r.process == s.setup.process
            && r.attempted == |s.past.attempts| && r.queued == |s.past.accepted| && r.dropped == r.attempted - r.queued
            && r.pending == |s.queue| + |Held(s.writer)| && r.persisted + r.failed + r.pending == r.queued
            && (r.drainTimeout <==> !s.writer.Done?) && r.failures == s.failures && r.failed == s.failed
            && (s.writer.Done? ==> (r.summaryWritten <==> s.past.footer.Some?))
            && (r.valid <==> s.writer.Done? && s.summaryWritten && s.failures == [])
  {
    hide Fifo, FileIs, Prefix, Noted, Reported, Vouched;
  }

  lemma NothingRaised(s: Capture)
    requires Noted(s) && s.writer.Done?
    ensures s.past.raised == multiset{} <==> s.failures == []
    ensures s.failures == [] ==> s.summaryWritten
  {
    if s.failures != [] { assert s.failures[0] in multiset(s.failures); }
  }

  lemma StatusHolds(s: Capture)
    requires Inv(s) && s.producer.Joined?
    ensures StatusMeans(s, CloseReport(s, s.producer.alive))
  {
    hide CloseReport, Attempted, Accounted, Ordered, Sealing, Filed, Reported, Vouched;
    StatusCounts(s);
    if s.writer.Done? { NothingRaised(s); }
  }

  /** In every interleaving: the status that `close` returns counts the records built, queued, dropped,
      persisted, failed and pending, lists every failure once, and is valid exactly when the writer is done
      and nothing was raised in serializing, enqueueing, writing, the summary, closing or joining. */
  lemma CloseStatus(path: seq<Capture>, setup: Setup, i: nat)
    requires Interleaving(path, setup) && i + 1 < |path| && TakesStatus(path[i], path[i + 1])
    ensures path[i + 1].result.Some? && StatusMeans(path[i], path[i + 1].result.value)
  {
    hide Inv, Interleaving, StatusMeans, CloseReport, Next;
    AlwaysInv(path, setup, i);
    StatusStep(path[i], path[i + 1]);
    StatusTaken(path[i]);
    StatusHolds(path[i]);
  }

  lemma StatusTaken(s: Capture)
    requires s.producer.Joined?
    ensures Produced(s, TakeStatus).result == Some(CloseReport(s, s.producer.alive)) && Produced(s, TakeStatus).producer.Idle?
  {
  }

  /** And then, on a file that was empty, the validator accepts. */
  lemma CloseAccepted(path: seq<Capture>, setup: Setup, i: nat)
    requires Interleaving(path, setup) && i + 1 < |path| && TakesStatus(path[i], path[i + 1])
    requires setup.process != "" && setup.prior == [] && path[i].writer.Done? && path[i].past.raised == multiset{}
    ensures path[i + 1].result.Some? && Validated(path[i + 1].file, path[i + 1].result.value)
  {
    hide Interleaving, Validated, TakesStatus;
    CloseStatus(path, setup, i);
    ValidatorComplete(path, setup, i + 1);
  }

  /******* Which records are queued *******/

  /** What becomes of the record being written, once it is serialized. */
  ghost predicate Enqueues(s: Capture, t: Capture) {
    if !s.closed && |s.queue| < s.setup.capacity
    then |s.past.attempts| > 0 && t.queue == s.queue + [s.past.attempts[|s.past.attempts| - 1]] && t.dropped == s.dropped
         && t.past.raised == s.past.raised
    else t.queue == s.queue && t.dropped == s.dropped + 1 && t.past.raised == s.past.raised + multiset{Enqueue}
  }

  lemma PutDecides(s: Capture)
    requires CanProduce(s, Put) && s.past.attempts != []
    ensures Enqueues(s, Produced(s, Put))
  {
  }

  lemma SerializeRaises(s: Capture)
    requires CanProduce(s, SerializeFails) && s.past.attempts != []
    ensures Produced(s, SerializeFails).past.raised[Serialization] == s.past.raised[Serialization] + 1
  {
  }

  lemma LeavesEncoding(s: Capture, t: Capture)
    requires Next(s, t) && s.producer.Encoding? && !t.producer.Encoding?
    ensures CanProduce(s, Put) && s.past.attempts != [] && (t == Produced(s, Put) || t == Produced(s, SerializeFails))
  {
    hide Raise, Drop;
    var a :| Enabled(s, a) && t == Apply(s, a);
    if a.ByWriter? { WriterAlone(s, a.w); }
  }

  /** In every interleaving a record that serializes is queued exactly when the capture is open and the queue has
      room, and is dropped, with one failure noted, otherwise. */
  lemma QueuedExactly(path: seq<Capture>, setup: Setup, i: nat)
    requires Interleaving(path, setup) && i + 1 < |path| && path[i].producer.Encoding? && !path[i + 1].producer.Encoding?
    requires path[i + 1].past.raised[Serialization] == path[i].past.raised[Serialization]
    ensures path[i].setup == setup && Enqueues(path[i], path[i + 1])
  {
    hide Inv, Produced, Enqueues, Next;
    AlwaysInv(path, setup, i);
    assert Next(path[i], path[i + 1]);
    LeavesEncoding(path[i], path[i + 1]);
    PutDecides(path[i]);
    SerializeRaises(path[i]);
  }

  /******* Exactly which files are accepted *******/

  /** A whole capture file: numbered records of one process from the start to the close record, then one
      summary; it and the close status are valid and balance. */
  ghost predicate Whole(rows: seq<Row>, status: Status) {
    && |rows| >= 2
    && var n := |rows| - 1;
       && (forall i :: 0 <= i < n ==> rows[i].Record? && rows[i].sequence == i + 1 && rows[i].process == status.process)
       && rows[0].kind == Start && rows[n - 1].kind == Close
       && rows[n].Summary? && rows[n].process == status.process != ""
       && status.valid && status.summaryWritten && !status.drainTimeout && rows[n].report.valid
       && Balanced(status, n) && Balanced(rows[n].report, n)
  }

  lemma {:induction false} NoSummaries(rows: seq<Row>)
    requires Summaries(rows) == 0
    ensures Events(rows) == rows
  {
    if rows != [] { NoSummaries(rows[..|rows| - 1]); }
  }

  lemma WholeAccepted(rows: seq<Row>, status: Status)
    requires Whole(rows, status)
    ensures Validated(rows, status)
  {
    hide Validated, Balanced;
    var n := |rows| - 1;
    assert rows == rows[..n] + [Summary(status.process, rows[n].report)];
    RowsAccepted(rows, rows[..n], status, rows[n].report);
  }

  lemma AcceptedWhole(rows: seq<Row>, status: Status)
    requires Validated(rows, status)
    ensures Whole(rows, status)
  {
    hide Balanced;
    var n := |rows| - 1;
    var init := rows[..n];
    assert Summaries(init) == 0 && Events(rows) == Events(init);
    NoSummaries(init);
    assert rows[n] in rows;
    forall i | 0 <= i < n ensures rows[i].Record? && rows[i].sequence == i + 1 && rows[i].process == status.process {
      assert rows[i] == init[i] && rows[i] in rows;
    }
  }

  /** The validator accepts a file and a status exactly when they are whole. */
  lemma AcceptedExactly(rows: seq<Row>, status: Status)
    ensures Validated(rows, status) <==> Whole(rows, status)
  {
    hide Validated, Whole;
    if Validated(rows, status) { AcceptedWhole(rows, status); }
    if Whole(rows, status) { WholeAccepted(rows, status); }
  }

  /******* A capture of any length can be accepted *******/

  ghost predicate Chain(path: seq<Capture>) { forall i :: 0 <= i < |path| - 1 ==> Next(path[i], path[i + 1]) }

  ghost predicate Leads(s: Capture, t: Capture) {
    exists path :: path != [] && path[0] == s && path[|path| - 1] == t && Chain(path)
  }

  lemma LeadsStay(s: Capture)
    ensures Leads(s, s)
  {
    assert Chain([s]) && [s][0] == s;
  }

  lemma LeadsOn(s: Capture, t: Capture, a: Action)
    requires Leads(s, t) && Enabled(t, a)
    ensures Leads(s, Apply(t, a))
  {
    hide Enabled, Apply;
    var path :| path != [] && path[0] == s && path[|path| - 1] == t && Chain(path);
    var more := path + [Apply(t, a)];
    forall i | 0 <= i < |more| - 1 ensures Next(more[i], more[i + 1]) {
      if i < |path| - 1 { assert Next(path[i], path[i + 1]); } else { assert Enabled(t, a); }
    }
    assert Chain(more) && more[0] == s && more[|more| - 1] == Apply(t, a);
  }

  function Rows(setup: Setup, k: nat): (rows: seq<Row>)
    ensures |rows| == k
  {
    seq(k, i requires 0 <= i < k => Record(if i == 0 then Start else Other, i + 1, setup.process))
  }

  /** `k` records have been written one by one, each persisted before the next. */
  function Steady(setup: Setup, k: nat): Capture {
    Capture(setup, k, k, k, 0, 0, [], [], false, false, false, setup.prior + Rows(setup, k),
            Idle, Checking, None, Past(Rows(setup, k), Rows(setup, k), 0, false, None, multiset{}))
  }

  lemma RowsSnoc(setup: Setup, k: nat)
    ensures Rows(setup, k + 1) == Rows(setup, k) + [Record(if k == 0 then Start else Other, k + 1, setup.process)]
    ensures setup.prior + Rows(setup, k + 1) == setup.prior + Rows(setup, k) + [Rows(setup, k + 1)[k]]
  {
  }

  function P(a: Produce): Action { ByProducer(a) }

  function W(a: Consume): Action { ByWriter(a) }

  /** One record through the queue into the file. */
  lemma WriteOne(start: Capture, setup: Setup, k: nat)
    requires Leads(start, Steady(setup, k)) && setup.capacity >= 1
    ensures Leads(start, Steady(setup, k + 1))
  {
    hide Leads, Report, CloseReport, Rows;
    RowsSnoc(setup, k);
    var s0 := Steady(setup, k);
    LeadsOn(start, s0, P(Begin));
    var s1 := Apply(s0, P(Begin));
    LeadsOn(start, s1, P(Put));
    var s2 := Apply(s1, P(Put));
    LeadsOn(start, s2, P(Count));
    var s3 := Apply(s2, P(Count));
    LeadsOn(start, s3, W(CheckStop));
    var s4 := Apply(s3, W(CheckStop));
    LeadsOn(start, s4, W(GetRow));
    var s5 := Apply(s4, W(GetRow));
    LeadsOn(start, s5, W(WriteRow));
    var s6 := Apply(s5, W(WriteRow));
    LeadsOn(start, s6, W(CountPersisted));
    assert Apply(s6, W(CountPersisted)) == Steady(setup, k + 1);
  }

  lemma {:induction false} WriteMany(setup: Setup, k: nat)
    requires setup.capacity >= 1
    ensures Leads(Opened(setup), Steady(setup, k))
  {
    hide Leads, Steady;
    if k == 0 {
      OpenedSteady(setup);
      LeadsStay(Opened(setup));
    } else {
      WriteMany(setup, k - 1);
      WriteOne(Opened(setup), setup, k - 1);
    }
  }

  lemma OpenedSteady(setup: Setup)
    ensures Opened(setup) == Steady(setup, 0)
  {
    assert setup.prior + [] == setup.prior;
  }

  /** `close` writes its record; the writer persists it, writes its summary and ends. */
  lemma CloseDown(start: Capture, setup: Setup, k: nat) returns (s: Capture)
    requires Leads(start, Steady(setup, k)) && setup.capacity >= 1 && k > 0
    ensures Leads(start, s) && s.producer.Joined? && s.writer.Done? && s.past.raised == multiset{}
    ensures |s.past.attempts| == k + 1
  {
    hide Leads, CloseReport, Rows;
    s := Steady(setup, k);
    LeadsOn(start, s, P(BeginClose));
    s := Apply(s, P(BeginClose));
    LeadsOn(start, s, P(Put));
    s := Apply(s, P(Put));
    LeadsOn(start, s, P(Count));
    s := Apply(s, P(Count));
    LeadsOn(start, s, P(SetClosed));
    s := Apply(s, P(SetClosed));
    LeadsOn(start, s, P(SetStop));
    s := Apply(s, P(SetStop));
    LeadsOn(start, s, W(CheckStop));
    s := Apply(s, W(CheckStop));
    LeadsOn(start, s, W(CheckEmpty));
    s := Apply(s, W(CheckEmpty));
    LeadsOn(start, s, W(GetRow));
    s := Apply(s, W(GetRow));
    LeadsOn(start, s, W(WriteRow));
    s := Apply(s, W(WriteRow));
    LeadsOn(start, s, W(CountPersisted));
    s := Apply(s, W(CountPersisted));
    LeadsOn(start, s, W(CheckStop));
    s := Apply(s, W(CheckStop));
    LeadsOn(start, s, W(CheckEmpty));
    s := Apply(s, W(CheckEmpty));
    LeadsOn(start, s, W(TakeSummary));
    s := Apply(s, W(TakeSummary));
    LeadsOn(start, s, W(WriteSummary));
    s := Apply(s, W(WriteSummary));
    LeadsOn(start, s, W(MarkSummary));
    s := Apply(s, W(MarkSummary));
    LeadsOn(start, s, W(CloseStream));
    s := Apply(s, W(CloseStream));
    LeadsOn(start, s, P(JoinReturns));
    s := Apply(s, P(JoinReturns));
  }

  lemma LeadsRun(setup: Setup, s: Capture) returns (path: seq<Capture>)
    requires Leads(Opened(setup), s)
    ensures Interleaving(path, setup) && path[|path| - 1] == s
  {
    hide Opened, Next;
    path :| path != [] && path[0] == Opened(setup) && path[|path| - 1] == s && Chain(path);
    forall i | 0 <= i < |path| - 1 ensures Next(path[i], path[i + 1]) { }
  }

  lemma RunOn(path: seq<Capture>, setup: Setup, t: Capture)
    requires Interleaving(path, setup) && Next(path[|path| - 1], t)
    ensures Interleaving(path + [t], setup)
  {
    hide Opened, Next;
    var more := path + [t];
    forall i | 0 <= i < |more| - 1 ensures Next(more[i], more[i + 1]) { if i < |path| - 1 { assert Next(path[i], path[i + 1]); } }
  }

  lemma StatusNext(s: Capture) returns (t: Capture)
    requires s.producer.Joined?
    ensures TakesStatus(s, t)
  {
    hide CloseReport;
    assert Enabled(s, P(TakeStatus));
    t := Apply(s, P(TakeStatus));
  }

  lemma StatusAttempts(s: Capture, r: Status)
    requires StatusMeans(s, r) && s.writer.Done? && s.past.raised == multiset{}
    ensures r.valid && r.attempted == |s.past.attempts|
  {
  }

  /** For every number of records, start and close included, some interleaving ends with a status that
      counts them all and a file that the validator accepts. */
  lemma AcceptanceReached(setup: Setup, n: nat) returns (path: seq<Capture>)
    requires setup.capacity >= 1 && setup.process != "" && setup.prior == [] && n >= 2
    ensures Interleaving(path, setup)
    ensures var s := path[|path| - 1];
            s.result.Some? && s.result.value.valid && s.result.value.attempted == n && Validated(s.file, s.result.value)
  {
    hide Validated, Leads, StatusMeans, Next, Opened;
    WriteMany(setup, n - 1);
    var s := CloseDown(Opened(setup), setup, n - 1);
    var some := LeadsRun(setup, s);
    var t := StatusNext(s);
    path := some + [t];
    RunOn(some, setup, t);
    CloseStatus(path, setup, |some| - 1);
    StatusAttempts(s, t.result.value);
    CloseAccepted(path, setup, |some| - 1);
  }
}
