/** The worker's capture log: one producer hands records to a writer thread through a bounded
    queue, and an offline validator decides from the file and the close status whether the
    capture is whole.  Every interleaving is a sequence of the actions below; each action is
    one access to the shared fields, or one critical section of the condition's lock. */
module CaptureLog {
  import opened Wrappers

  datatype Kind = Start | Close | Other

  datatype Stage = Serialization | Enqueue | Write | WriterSummary | StreamClose | CloseTimeout

  datatype Status = Status(attempted: nat, queued: nat, process: string, persisted: nat, failed: nat, dropped: nat,
                           pending: int, failures: seq<Stage>, valid: bool, summaryWritten: bool, drainTimeout: bool)

  /** A line of the capture file.  `Garbage` is a line that does not parse. */
  datatype Row = Record(kind: Kind, sequence: nat, process: string) | Summary(process: string, report: Status) | Garbage

  /******* Two threads *******/

  /** Where the producer is.  `Encoding` and `Counting` are inside `write`, before the queue
      operation and between it and the count, with the lock held; the rest is `close`. */
  datatype Producer =
    | Idle
    | Encoding(closing: bool)
    | Counting(closing: bool)
    | Recorded
    | Sealed
    | Joining
    | Joined(alive: bool)

  datatype Writer =
    | Checking
    | CheckingEmpty
    | Getting
    | Writing(row: Row)
    | Wrote(row: Row)
    | Refused(row: Row)
    | Exiting
    | Summing(report: Status)
    | Summed
    | SummaryRefused
    | ClosingStream
    | CloseRefused
    | Done

  /** What never changes: the process id, the queue's capacity and the lines that were in the file. */
  datatype Setup = Setup(process: string, capacity: nat, prior: seq<Row>)

  /** What the proof remembers: `attempts` are all records ever built, `accepted` those put on the
      queue, `closeAt` the number of the closing record, `junk` whether a write ever raised,
      `footer` the summary in the file, and `raised` every failure at the moment it happened. */
  datatype Past = Past(attempts: seq<Row>, accepted: seq<Row>, closeAt: nat, junk: bool, footer: Option<Status>,
                       raised: multiset<Stage>)

  datatype Capture = Capture(
    setup: Setup,
    sequence: nat, queued: nat, persisted: nat, failed: nat, dropped: nat, failures: seq<Stage>,
    queue: seq<Row>, closed: bool, stop: bool, summaryWritten: bool, file: seq<Row>,
    producer: Producer, writer: Writer, result: Option<Status>, past: Past)

  function Opened(setup: Setup): Capture {
    Capture(setup, 0, 0, 0, 0, 0, [], [], false, false, false, setup.prior,
            Idle, Checking, None, Past([], [], 0, false, None, multiset{}))
  }

  datatype Produce =
    | Begin | BeginClose | SerializeFails | Put | Count | SetClosed | SetStop | Rejoin | JoinReturns | TakeStatus

  datatype Consume =
    | CheckStop | CheckEmpty | GetRow | GetNothing | WriteRow | WriteFails(partial: seq<Row>) | CountPersisted | CountFailed
    | TakeSummary | WriteSummary | SummaryFails(partial: seq<Row>) | MarkSummary | CountSummaryFailure
    | CloseStream | CloseFails | CountCloseFailure

  datatype Action = ByProducer(p: Produce) | ByWriter(w: Consume)

  predicate Locked(s: Capture) { s.producer.Counting? }

  predicate CanProduce(s: Capture, a: Produce) {
    match a
    case Begin => s.producer.Idle?
    case BeginClose => s.producer.Idle? && s.sequence > 0 && !s.closed
    case SerializeFails => s.producer.Encoding?
    case Put => s.producer.Encoding?
    case Count => s.producer.Counting?
    case SetClosed => s.producer.Recorded?
    case SetStop => s.producer.Sealed?
    case Rejoin => s.producer.Idle? && s.closed
    case JoinReturns => s.producer.Joining?
    case TakeStatus => s.producer.Joined?
  }

  predicate CanConsume(s: Capture, a: Consume) {
    match a
    case CheckStop => s.writer.Checking?
    case CheckEmpty => s.writer.CheckingEmpty?
    case GetRow => s.writer.Getting? && s.queue != []
    case GetNothing => s.writer.Getting?
    case WriteRow => s.writer.Writing?
    case WriteFails(_) => s.writer.Writing?
    case CountPersisted => s.writer.Wrote? && !Locked(s)
    case CountFailed => s.writer.Refused? && !Locked(s)
    case TakeSummary => s.writer.Exiting? && !Locked(s)
    case WriteSummary => s.writer.Summing?
    case SummaryFails(_) => s.writer.Summing?
    case MarkSummary => s.writer.Summed?
    case CountSummaryFailure => s.writer.SummaryRefused? && !Locked(s)
    case CloseStream => s.writer.ClosingStream?
    case CloseFails => s.writer.ClosingStream?
    case CountCloseFailure => s.writer.CloseRefused? && !Locked(s)
  }

  /** What `status` returns. */
  function Report(s: Capture): Status {
    var pending := s.queued - s.persisted - s.failed;
    Status(s.sequence, s.queued, s.setup.process, s.persisted, s.failed, s.dropped, pending, s.failures,
           s.closed && pending == 0 && s.failures == [], s.summaryWritten, false)
  }

  /** What `close` returns, `alive` being what the join found. */
  function CloseReport(s: Capture, alive: bool): Status {
    var r := Report(s);
    r.(valid := r.valid && r.summaryWritten && s.writer.Done?, drainTimeout := alive && !s.writer.Done?)
  }

  function Build(s: Capture, kind: Kind): Capture {
    s.(sequence := s.sequence + 1, past := s.past.(attempts := s.past.attempts + [Record(kind, s.sequence + 1, s.setup.process)]),
       producer := Encoding(kind == Close))
  }

  function Fail(s: Capture, stage: Stage): Capture { s.(failures := s.failures + [stage]) }

  function Raise(s: Capture, stage: Stage): Capture { s.(past := s.past.(raised := s.past.raised + multiset{stage})) }

  function After(closing: bool): Producer { if closing then Recorded else Idle }

  function Drop(s: Capture, stage: Stage): Capture
    requires s.producer.Encoding?
  {
    Fail(s, stage).(dropped := s.dropped + 1, producer := After(s.producer.closing))
  }

  function Produced(s: Capture, a: Produce): Capture
    requires CanProduce(s, a) && (s.producer.Encoding? ==> s.past.attempts != [])
  {
    match a
    case Begin => Build(s, if s.sequence == 0 then Start else Other)
    case BeginClose => var t := Build(s, Close); t.(past := t.past.(closeAt := t.sequence))
    case SerializeFails => Raise(Drop(s, Serialization), Serialization)
    case Put =>
      if s.closed || |s.queue| >= s.setup.capacity then Raise(Drop(s, Enqueue), Enqueue)
      else
        var row := s.past.attempts[|s.past.attempts| - 1];
        s.(queue := s.queue + [row], past := s.past.(accepted := s.past.accepted + [row]),
           producer := Counting(s.producer.closing))
    case Count => s.(queued := s.queued + 1, producer := After(s.producer.closing))
    case SetClosed => s.(closed := true, producer := Sealed)
    case SetStop => s.(stop := true, producer := Joining)
    case Rejoin => s.(producer := Joining)
    case JoinReturns =>
      if s.writer.Done? then s.(producer := Joined(false)) else Raise(Fail(s, CloseTimeout), CloseTimeout).(producer := Joined(true))
    case TakeStatus => s.(result := Some(CloseReport(s, s.producer.alive)), producer := Idle)
  }

  function Consumed(s: Capture, a: Consume): Capture
    requires CanConsume(s, a)
  {
    match a
    case CheckStop => s.(writer := if s.stop then CheckingEmpty else Getting)
    case CheckEmpty => s.(writer := if s.queue == [] then Exiting else Getting)
    case GetRow => s.(writer := Writing(s.queue[0]), queue := s.queue[1..])
    case GetNothing => s.(writer := Checking)
    case WriteRow => s.(writer := Wrote(s.writer.row), file := s.file + [s.writer.row])
    case WriteFails(partial) =>
      s.(writer := Refused(s.writer.row), file := s.file + partial, past := Raise(s, Write).past.(junk := true))
    case CountPersisted => s.(writer := Checking, persisted := s.persisted + 1)
    case CountFailed => Fail(s, Write).(writer := Checking, failed := s.failed + 1)
    case TakeSummary => s.(writer := Summing(Report(s)))
    case WriteSummary =>
      s.(writer := Summed, file := s.file + [Summary(s.setup.process, s.writer.report)],
         past := s.past.(footer := Some(s.writer.report)))
    case SummaryFails(partial) =>
      s.(writer := SummaryRefused, file := s.file + partial, past := Raise(s, WriterSummary).past.(junk := true))
    case MarkSummary => s.(writer := ClosingStream, summaryWritten := true)
    case CountSummaryFailure => Fail(s, WriterSummary).(writer := ClosingStream)
    case CloseStream => s.(writer := Done)
    case CloseFails => Raise(s, StreamClose).(writer := CloseRefused)
    case CountCloseFailure => Fail(s, StreamClose).(writer := Done)
  }

  predicate Enabled(s: Capture, a: Action) {
    match a
    case ByProducer(p) => CanProduce(s, p) && (s.producer.Encoding? ==> s.past.attempts != [])
    case ByWriter(w) => CanConsume(s, w)
  }

  function Apply(s: Capture, a: Action): Capture
    requires Enabled(s, a)
  {
    match a
    case ByProducer(p) => Produced(s, p)
    case ByWriter(w) => Consumed(s, w)
  }

  /******* The invariant *******/

  predicate IsClose(s: Capture, n: nat) {
    0 < n <= |s.past.attempts| && s.past.attempts[n - 1].Record? && s.past.attempts[n - 1].kind == Close
  }

  /** The producer is inside `close`, writing the closing record. */
  predicate WritingClose(p: Producer) { p.Recorded? || ((p.Encoding? || p.Counting?) && p.closing) }

  function Building(s: Capture): nat { if s.producer.Encoding? || s.producer.Counting? then 1 else 0 }

  function Uncounted(s: Capture): nat { if s.producer.Counting? then 1 else 0 }

  /** The row the writer has taken off the queue and not yet counted. */
  function Held(w: Writer): seq<Row> { if w.Writing? || w.Wrote? || w.Refused? then [w.row] else [] }

  predicate Left(w: Writer) {
    w.Exiting? || w.Summing? || w.Summed? || w.SummaryRefused? || w.ClosingStream? || w.CloseRefused? || w.Done?
  }

  ghost predicate Attempted(s: Capture) {
    && |s.past.attempts| == s.sequence
    && (forall i :: 0 <= i < |s.past.attempts| ==>
          && s.past.attempts[i].Record? && s.past.attempts[i].sequence == i + 1 && s.past.attempts[i].process == s.setup.process
          && (s.past.attempts[i].kind == Start <==> i == 0))
    && (Building(s) == 1 ==> s.sequence > 0)
  }

  /** Nothing is lost from the books: every record built is queued, dropped or under way, and every
      record queued is persisted, failed, in the writer's hands or waiting. */
  ghost predicate Accounted(s: Capture) {
    && s.sequence == s.queued + s.dropped + Building(s)
    && s.queued + Uncounted(s) == s.persisted + s.failed + |Held(s.writer)| + |s.queue|
    && s.dropped + s.failed <= |s.failures|
    && |s.queue| <= s.setup.capacity
  }

  /** `done` records have been counted, `held` is in the writer's hands, the rest waits. */
  ghost predicate Fifo(accepted: seq<Row>, done: nat, held: seq<Row>, queue: seq<Row>) {
    done <= |accepted| && accepted == accepted[..done] + held + queue
  }

  lemma FifoPut(accepted: seq<Row>, done: nat, held: seq<Row>, queue: seq<Row>, row: Row)
    requires Fifo(accepted, done, held, queue)
    ensures Fifo(accepted + [row], done, held, queue + [row])
  {
    assert (accepted + [row])[..done] == accepted[..done];
  }

  lemma FifoGet(accepted: seq<Row>, done: nat, queue: seq<Row>)
    requires Fifo(accepted, done, [], queue) && queue != []
    ensures Fifo(accepted, done, [queue[0]], queue[1..])
  {
  }

  lemma FifoCount(accepted: seq<Row>, done: nat, row: Row, queue: seq<Row>)
    requires Fifo(accepted, done, [row], queue)
    ensures Fifo(accepted, done + 1, [], queue) && accepted[..done + 1] == accepted[..done] + [row]
  {
  }

  ghost predicate Prefix(some: seq<Row>, all: seq<Row>) { some <= all }

  lemma PrefixGrows(some: seq<Row>, all: seq<Row>)
    requires Prefix(some, all) && |all| == |some| + 1
    ensures Prefix(some + [all[|all| - 1]], all)
  {
    assert all == some + [all[|all| - 1]];
  }

  lemma PrefixStays(some: seq<Row>, all: seq<Row>, row: Row)
    requires Prefix(some, all)
    ensures Prefix(some, all + [row])
  {
  }

  /** The queue is first in, first out; as long as nothing was dropped it carries every record. */
  ghost predicate Ordered(s: Capture) {
    && |s.past.accepted| == s.queued + Uncounted(s)
    && Fifo(s.past.accepted, s.persisted + s.failed, Held(s.writer), s.queue)
    && (s.dropped == 0 ==> Prefix(s.past.accepted, s.past.attempts))
  }

  /** `closed` is set between two writes, and the writer leaves only after it, with nothing queued. */
  ghost predicate Sealing(s: Capture) {
    && (s.stop ==> s.closed)
    && (s.closed ==> !s.producer.Counting? && !WritingClose(s.producer))
    && (s.producer.Sealed? || s.producer.Joining? || s.producer.Joined? ==> s.closed)
    && (s.producer.Joined? && !s.producer.alive ==> s.writer.Done?)
    && (s.writer.CheckingEmpty? ==> s.stop)
    && (Left(s.writer) ==> s.stop && s.queue == [])
    && s.past.closeAt <= s.sequence
    && (s.closed || WritingClose(s.producer) ==> IsClose(s, s.past.closeAt))
    && (WritingClose(s.producer) ==> s.past.closeAt == s.sequence)
    && (s.closed ==> s.sequence <= s.past.closeAt + s.dropped + Building(s))
  }

  ghost predicate FileIs(file: seq<Row>, prior: seq<Row>, accepted: seq<Row>, n: nat, process: string, footer: Option<Status>) {
    && n <= |accepted|
    && file == prior + accepted[..n] + if footer.Some? then [Summary(process, footer.value)] else []
  }

  lemma FilePut(file: seq<Row>, prior: seq<Row>, accepted: seq<Row>, n: nat, process: string, footer: Option<Status>, row: Row)
    requires FileIs(file, prior, accepted, n, process, footer)
    ensures FileIs(file, prior, accepted + [row], n, process, footer)
  {
    assert (accepted + [row])[..n] == accepted[..n];
  }

  lemma FileWrite(file: seq<Row>, prior: seq<Row>, accepted: seq<Row>, n: nat, process: string, queue: seq<Row>, row: Row)
    requires FileIs(file, prior, accepted, n, process, None) && Fifo(accepted, n, [row], queue)
    ensures FileIs(file + [row], prior, accepted, n + 1, process, None)
  {
    FifoCount(accepted, n, row, queue);
  }

  lemma FileSummary(file: seq<Row>, prior: seq<Row>, accepted: seq<Row>, n: nat, process: string, report: Status)
    requires FileIs(file, prior, accepted, n, process, None)
    ensures FileIs(file + [Summary(process, report)], prior, accepted, n, process, Some(report))
  {
  }

  /** While no write has raised, the file is what was there before, the persisted records and,
      at the end, the summary. */
  ghost predicate Filed(s: Capture) {
    && (s.past.junk ==> s.failures != [] || s.writer.Refused? || s.writer.SummaryRefused?)
    && (!s.past.junk ==>
          && s.failed == 0 && !s.writer.Refused? && !s.writer.SummaryRefused?
          && FileIs(s.file, s.setup.prior, s.past.accepted, s.persisted + (if s.writer.Wrote? then 1 else 0),
                    s.setup.process, s.past.footer))
    && (s.past.footer.Some? ==> s.writer.Summed? || s.writer.ClosingStream? || s.writer.CloseRefused? || s.writer.Done?)
    && (s.summaryWritten || s.writer.Summed? <==> s.past.footer.Some?)
  }

  /** A failure the writer has met and not yet recorded. */
  function Met(w: Writer): Option<Stage> {
    match w
    case Refused(_) => Some(Write)
    case SummaryRefused => Some(WriterSummary)
    case CloseRefused => Some(StreamClose)
    case _ => None
  }

  function Outstanding(w: Writer): multiset<Stage> { if Met(w).Some? then multiset{Met(w).value} else multiset{} }

  /** Every failure is recorded once and counted, and a missing summary is one. */
  ghost predicate Noted(s: Capture) {
    && s.past.raised == multiset(s.failures) + Outstanding(s.writer)
    && s.failed == multiset(s.failures)[Write]
    && s.dropped == multiset(s.failures)[Serialization] + multiset(s.failures)[Enqueue]
    && (Closing(s.writer) && !s.summaryWritten ==> s.failures != [])
  }

  lemma NoteOne(failures: seq<Stage>, stage: Stage)
    ensures multiset(failures + [stage]) == multiset(failures) + multiset{stage}
  {
  }

  /** One more failure is in the list and in its counter. */
  ghost predicate Adds(s: Capture, t: Capture, stage: Stage) {
    && t.failures == s.failures + [stage]
    && t.failed == s.failed + (if stage == Write then 1 else 0)
    && t.dropped == s.dropped + (if stage == Serialization || stage == Enqueue then 1 else 0)
  }

  /** A failure of the producer is recorded as it happens, */
  lemma NotedAtOnce(s: Capture, t: Capture, stage: Stage)
    requires Noted(s) && Adds(s, t, stage) && t.past.raised == s.past.raised + multiset{stage} && t.writer == s.writer
    ensures Noted(t)
  {
    NoteOne(s.failures, stage);
  }

  /** one of the writer just after. */
  lemma NotedLater(s: Capture, t: Capture, stage: Stage)
    requires Noted(s) && Adds(s, t, stage) && t.past.raised == s.past.raised
    requires Met(s.writer) == Some(stage) && Met(t.writer) == None
    ensures Noted(t)
  {
    NoteOne(s.failures, stage);
  }

  /** A step of the writer that meets a failure leaves it outstanding. */
  lemma FailureMet(s: Capture, t: Capture, stage: Stage)
    requires Noted(s) && t.failures == s.failures && t.failed == s.failed && t.dropped == s.dropped
    requires t.summaryWritten == s.summaryWritten
    requires t.past.raised == s.past.raised + multiset{stage}
    requires Met(s.writer) == None && Met(t.writer) == Some(stage)
    requires t.writer.CloseRefused? ==> s.writer.ClosingStream?
    ensures Noted(t)
  {
  }

  predicate Closing(w: Writer) { w.ClosingStream? || w.CloseRefused? || w.Done? }

  lemma NothingNew(s: Capture, t: Capture)
    requires Noted(s) && t.failures == s.failures && t.past.raised == s.past.raised
    requires t.failed == s.failed && t.dropped == s.dropped && Met(t.writer) == Met(s.writer)
    requires Closing(t.writer) && !t.summaryWritten ==> Closing(s.writer) && !s.summaryWritten
    ensures Noted(t)
  {
  }

  lemma SameAttempts(s: Capture, t: Capture)
    requires Attempted(s) && t.past.attempts == s.past.attempts && t.sequence == s.sequence && t.setup == s.setup
    requires Building(t) <= Building(s)
    ensures Attempted(t)
  {
  }

  /** What a report taken after the writer left still says. */
  ghost predicate StillTrue(s: Capture, r: Status) {
    && r.process == s.setup.process && r.queued == s.queued && r.persisted == s.persisted && r.failed == s.failed
    && r.pending == 0 && r.failures <= s.failures && r.attempted <= s.sequence && r.dropped <= s.dropped
    && r.queued + r.dropped <= r.attempted && r.dropped <= |r.failures| && (r.valid <==> r.failures == [])
  }

  ghost predicate Reported(s: Capture) {
    && (s.writer.Summing? ==> StillTrue(s, s.writer.report))
    && (s.past.footer.Some? ==> StillTrue(s, s.past.footer.value))
  }

  /** What a close status that calls itself valid promises from then on. */
  ghost predicate Vouched(s: Capture) {
    s.result.Some? && s.result.value.valid ==>
      var r := s.result.value;
      && s.writer.Done? && s.past.footer.Some? && !s.past.junk
      && r.process == s.setup.process && r.summaryWritten && !r.drainTimeout && r.failures == []
      && r.attempted == r.queued == r.persisted == s.persisted == s.queued == |s.past.accepted| && s.failed == 0
      && r.failed == 0 && r.dropped == 0 && r.pending == 0
      && r.attempted == s.past.closeAt && s.past.closeAt <= s.sequence == |s.past.attempts| && IsClose(s, s.past.closeAt)
      && s.past.accepted == s.past.attempts[..r.attempted]
      && s.past.footer.value.valid && s.past.footer.value.failures == [] && s.past.footer.value.dropped == 0
      && s.past.footer.value.attempted == r.attempted
  }

  ghost predicate Inv(s: Capture) {
    Attempted(s) && Accounted(s) && Ordered(s) && Sealing(s) && Filed(s) && Noted(s) && Reported(s) && Vouched(s)
  }

  /** Before the writer is done nothing has been vouched for. */
  lemma NothingVouched(s: Capture, t: Capture)
    requires Vouched(s) && !s.writer.Done? && t.result == s.result
    ensures Vouched(t)
  {
  }

  lemma OpenedInv(setup: Setup)
    ensures Inv(Opened(setup))
  {
    var s := Opened(setup);
    assert s.file == s.setup.prior + s.past.accepted[..0] + [];
  }

  /******* Every step of the producer keeps it *******/

  lemma BeginAttempts(s: Capture)
    requires Attempted(s) && Accounted(s) && Ordered(s) && s.producer.Idle?
    ensures var t := Produced(s, Begin); Attempted(t) && Accounted(t) && Ordered(t)
  {
    hide Fifo, Prefix;
    if s.dropped == 0 { PrefixStays(s.past.accepted, s.past.attempts, Produced(s, Begin).past.attempts[s.sequence]); }
  }

  lemma BeginKeeps(s: Capture)
    requires Inv(s) && CanProduce(s, Begin)
    ensures Inv(Produced(s, Begin))
  {
    hide FileIs, Attempted, Accounted, Ordered;
    BeginAttempts(s);
    AttemptCount(s);
  }

  lemma AttemptCount(s: Capture)
    requires Attempted(s)
    ensures |s.past.attempts| == s.sequence
  {
  }

  lemma BeginCloseAttempts(s: Capture)
    requires Attempted(s) && Accounted(s) && Ordered(s) && CanProduce(s, BeginClose)
    ensures var t := Produced(s, BeginClose); Attempted(t) && Accounted(t) && Ordered(t) && IsClose(t, t.past.closeAt)
  {
    hide Fifo, Prefix;
    if s.dropped == 0 { PrefixStays(s.past.accepted, s.past.attempts, Produced(s, BeginClose).past.attempts[s.sequence]); }
  }

  lemma BeginCloseKeeps(s: Capture)
    requires Inv(s) && CanProduce(s, BeginClose)
    ensures Inv(Produced(s, BeginClose))
  {
    hide FileIs, Attempted, Accounted, Ordered, IsClose;
    BeginCloseAttempts(s);
    AttemptCount(s);
    NotVouched(s);
  }

  lemma NotVouched(s: Capture)
    requires Sealing(s) && Vouched(s) && !s.closed
    ensures !(s.result.Some? && s.result.value.valid)
  {
  }

  lemma DropKeeps(s: Capture, stage: Stage)
    requires Inv(s) && s.producer.Encoding? && (stage == Serialization || stage == Enqueue)
    ensures Inv(Raise(Drop(s, stage), stage))
  {
    hide Fifo, FileIs, Prefix, Noted;
    NotedAtOnce(s, Raise(Drop(s, stage), stage), stage);
  }

  lemma SerializeFailsKeeps(s: Capture)
    requires Inv(s) && CanProduce(s, SerializeFails)
    ensures Inv(Produced(s, SerializeFails))
  {
    hide Inv;
    DropKeeps(s, Serialization);
  }

  /** The record of the current write goes to the end of the queue. */
  ghost predicate Enqueued(s: Capture, t: Capture, row: Row) {
    && s.producer.Encoding? && !s.closed && |s.queue| < s.setup.capacity
    && |s.past.attempts| > 0 && row == s.past.attempts[|s.past.attempts| - 1]
    && t == s.(queue := s.queue + [row], past := s.past.(accepted := s.past.accepted + [row]),
               producer := Counting(s.producer.closing))
  }

  lemma EnqueuedOrder(s: Capture, t: Capture, row: Row)
    requires Attempted(s) && Accounted(s) && Ordered(s) && Enqueued(s, t, row)
    ensures Attempted(t) && Accounted(t) && Ordered(t)
  {
    hide Fifo, Prefix;
    FifoPut(s.past.accepted, s.persisted + s.failed, Held(s.writer), s.queue, row);
    if s.dropped == 0 { PrefixGrows(s.past.accepted, s.past.attempts); }
  }

  lemma EnqueuedFile(s: Capture, t: Capture, row: Row)
    requires Sealing(s) && Filed(s) && Noted(s) && Reported(s) && Vouched(s) && Enqueued(s, t, row)
    ensures Sealing(t) && Filed(t) && Noted(t) && Reported(t) && Vouched(t)
  {
    hide FileIs;
    if !s.past.junk {
      FilePut(s.file, s.setup.prior, s.past.accepted, s.persisted + (if s.writer.Wrote? then 1 else 0), s.setup.process,
              s.past.footer, row);
    }
  }

  lemma EnqueuedKeeps(s: Capture, t: Capture, row: Row)
    requires Inv(s) && Enqueued(s, t, row)
    ensures Inv(t)
  {
    hide Attempted, Accounted, Ordered, Sealing, Filed, Noted, Reported, Vouched, Enqueued;
    EnqueuedOrder(s, t, row);
    EnqueuedFile(s, t, row);
  }

  lemma PutKeeps(s: Capture)
    requires Inv(s) && CanProduce(s, Put) && s.past.attempts != []
    ensures Inv(Produced(s, Put))
  {
    hide Inv;
    if s.closed || |s.queue| >= s.setup.capacity {
      DropKeeps(s, Enqueue);
    } else {
      EnqueuedKeeps(s, Produced(s, Put), s.past.attempts[|s.past.attempts| - 1]);
    }
  }

  lemma CountKeeps(s: Capture)
    requires Inv(s) && CanProduce(s, Count)
    ensures Inv(Produced(s, Count))
  {
    hide Fifo, FileIs, Prefix, Report, CloseReport, Noted, Attempted;
    NothingNew(s, Produced(s, Count));
    SameAttempts(s, Produced(s, Count));
  }

  lemma SetClosedKeeps(s: Capture)
    requires Inv(s) && CanProduce(s, SetClosed)
    ensures Inv(Produced(s, SetClosed))
  {
    hide Fifo, FileIs, Prefix, Report, CloseReport, Noted, Attempted;
    NothingNew(s, Produced(s, SetClosed));
    SameAttempts(s, Produced(s, SetClosed));
  }

  lemma SetStopKeeps(s: Capture)
    requires Inv(s) && CanProduce(s, SetStop)
    ensures Inv(Produced(s, SetStop))
  {
    hide Fifo, FileIs, Prefix, Report, CloseReport, Noted, Attempted;
    NothingNew(s, Produced(s, SetStop));
    SameAttempts(s, Produced(s, SetStop));
  }

  lemma RejoinKeeps(s: Capture)
    requires Inv(s) && CanProduce(s, Rejoin)
    ensures Inv(Produced(s, Rejoin))
  {
    hide Fifo, FileIs, Prefix, Report, CloseReport, Noted, Attempted;
    NothingNew(s, Produced(s, Rejoin));
    SameAttempts(s, Produced(s, Rejoin));
  }

  lemma CloseTimeoutKeeps(s: Capture)
    requires Inv(s) && s.producer.Joining? && !s.writer.Done?
    ensures Inv(Raise(Fail(s, CloseTimeout), CloseTimeout).(producer := Joined(true)))
  {
    hide Fifo, FileIs, Prefix, Noted, Attempted, Vouched;
    NothingVouched(s, Raise(Fail(s, CloseTimeout), CloseTimeout).(producer := Joined(true)));
    SameAttempts(s, Raise(Fail(s, CloseTimeout), CloseTimeout).(producer := Joined(true)));
    NotedAtOnce(s, Raise(Fail(s, CloseTimeout), CloseTimeout).(producer := Joined(true)), CloseTimeout);
  }

  lemma JoinedKeeps(s: Capture)
    requires Inv(s) && s.producer.Joining? && s.writer.Done?
    ensures Inv(s.(producer := Joined(false)))
  {
    hide Fifo, FileIs, Prefix;
  }

  lemma JoinReturnsKeeps(s: Capture)
    requires Inv(s) && CanProduce(s, JoinReturns)
    ensures Inv(Produced(s, JoinReturns))
  {
    hide Inv;
    if s.writer.Done? { JoinedKeeps(s); } else { CloseTimeoutKeeps(s); }
  }

  /** A close status that calls itself valid is taken when all is written and nothing has failed. */
  lemma StatusVouches(s: Capture)
    requires Inv(s) && s.producer.Joined?
    ensures Vouched(Produced(s, TakeStatus))
  {
    hide Fifo, FileIs;
  }

  lemma TakeStatusKeeps(s: Capture)
    requires Inv(s) && CanProduce(s, TakeStatus)
    ensures Inv(Produced(s, TakeStatus))
  {
    hide Fifo, FileIs, Prefix, Report, CloseReport, Vouched, Noted, Attempted;
    SameAttempts(s, Produced(s, TakeStatus));
    StatusVouches(s);
    NothingNew(s, Produced(s, TakeStatus));
  }

  lemma ProducerKeeps(s: Capture, a: Produce)
    requires Inv(s) && CanProduce(s, a) && (s.producer.Encoding? ==> s.past.attempts != [])
    ensures Inv(Produced(s, a))
  {
    hide Inv, Produced;
    match a {
      case Begin => BeginKeeps(s);
      case BeginClose => BeginCloseKeeps(s);
      case SerializeFails => SerializeFailsKeeps(s);
      case Put => PutKeeps(s);
      case Count => CountKeeps(s);
      case SetClosed => SetClosedKeeps(s);
      case SetStop => SetStopKeeps(s);
      case Rejoin => RejoinKeeps(s);
      case JoinReturns => JoinReturnsKeeps(s);
      case TakeStatus => TakeStatusKeeps(s);
    }
  }

  /******* And every step of the writer *******/

  lemma CheckStopKeeps(s: Capture)
    requires Inv(s) && CanConsume(s, CheckStop)
    ensures Inv(Consumed(s, CheckStop))
  {
    hide Fifo, FileIs, Prefix, Report, CloseReport, Noted, Attempted;
    NothingNew(s, Consumed(s, CheckStop));
    SameAttempts(s, Consumed(s, CheckStop));
  }

  lemma CheckEmptyKeeps(s: Capture)
    requires Inv(s) && CanConsume(s, CheckEmpty)
    ensures Inv(Consumed(s, CheckEmpty))
  {
    hide Fifo, FileIs, Prefix, Report, CloseReport, Noted, Attempted;
    NothingNew(s, Consumed(s, CheckEmpty));
    SameAttempts(s, Consumed(s, CheckEmpty));
  }

  lemma GetRowKeeps(s: Capture)
    requires Inv(s) && CanConsume(s, GetRow)
    ensures Inv(Consumed(s, GetRow))
  {
    hide Fifo, FileIs, Prefix, Report, CloseReport, Noted, Attempted;
    NothingNew(s, Consumed(s, GetRow));
    SameAttempts(s, Consumed(s, GetRow));
    FifoGet(s.past.accepted, s.persisted + s.failed, s.queue);
  }

  lemma GetNothingKeeps(s: Capture)
    requires Inv(s) && CanConsume(s, GetNothing)
    ensures Inv(Consumed(s, GetNothing))
  {
    hide Fifo, FileIs, Prefix, Report, CloseReport, Noted, Attempted;
    NothingNew(s, Consumed(s, GetNothing));
    SameAttempts(s, Consumed(s, GetNothing));
  }

  lemma WriteRowKeeps(s: Capture)
    requires Inv(s) && CanConsume(s, WriteRow)
    ensures Inv(Consumed(s, WriteRow))
  {
    hide Fifo, FileIs, Prefix, Report, CloseReport, Noted, Attempted;
    NothingNew(s, Consumed(s, WriteRow));
    SameAttempts(s, Consumed(s, WriteRow));
    assert s.past.footer == None;
    if !s.past.junk {
      FileWrite(s.file, s.setup.prior, s.past.accepted, s.persisted, s.setup.process, s.queue, s.writer.row);
    }
  }

  lemma WriteFailsKeeps(s: Capture, partial: seq<Row>)
    requires Inv(s) && CanConsume(s, WriteFails(partial))
    ensures Inv(Consumed(s, WriteFails(partial)))
  {
    hide Fifo, FileIs, Prefix, Report, CloseReport, Noted, Attempted;
    SameAttempts(s, Consumed(s, WriteFails(partial)));
    FailureMet(s, Consumed(s, WriteFails(partial)), Write);
  }

  lemma CountPersistedKeeps(s: Capture)
    requires Inv(s) && CanConsume(s, CountPersisted)
    ensures Inv(Consumed(s, CountPersisted))
  {
    hide Fifo, FileIs, Prefix, Report, CloseReport, Noted, Attempted;
    NothingNew(s, Consumed(s, CountPersisted));
    SameAttempts(s, Consumed(s, CountPersisted));
    FifoCount(s.past.accepted, s.persisted + s.failed, s.writer.row, s.queue);
  }

  lemma CountFailedKeeps(s: Capture)
    requires Inv(s) && CanConsume(s, CountFailed)
    ensures Inv(Consumed(s, CountFailed))
  {
    hide Fifo, FileIs, Prefix, Report, CloseReport, Noted, Attempted, Vouched;
    NothingVouched(s, Consumed(s, CountFailed));
    SameAttempts(s, Consumed(s, CountFailed));
    NotedLater(s, Consumed(s, CountFailed), Write);
    FifoCount(s.past.accepted, s.persisted + s.failed, s.writer.row, s.queue);
  }

  lemma TakeSummaryKeeps(s: Capture)
    requires Inv(s) && CanConsume(s, TakeSummary)
    ensures Inv(Consumed(s, TakeSummary))
  {
    hide Fifo, FileIs, Prefix, Noted, Attempted;
    NothingNew(s, Consumed(s, TakeSummary));
    SameAttempts(s, Consumed(s, TakeSummary));
  }

  lemma WriteSummaryKeeps(s: Capture)
    requires Inv(s) && CanConsume(s, WriteSummary)
    ensures Inv(Consumed(s, WriteSummary))
  {
    hide Fifo, FileIs, Prefix, Report, CloseReport, Noted, Attempted;
    NothingNew(s, Consumed(s, WriteSummary));
    SameAttempts(s, Consumed(s, WriteSummary));
    assert s.past.footer == None;
    if !s.past.junk {
      FileSummary(s.file, s.setup.prior, s.past.accepted, s.persisted, s.setup.process, s.writer.report);
    }
  }

  lemma SummaryFailsKeeps(s: Capture, partial: seq<Row>)
    requires Inv(s) && CanConsume(s, SummaryFails(partial))
    ensures Inv(Consumed(s, SummaryFails(partial)))
  {
    hide Fifo, FileIs, Prefix, Report, CloseReport, Noted, Attempted;
    SameAttempts(s, Consumed(s, SummaryFails(partial)));
    FailureMet(s, Consumed(s, SummaryFails(partial)), WriterSummary);
  }

  lemma MarkSummaryKeeps(s: Capture)
    requires Inv(s) && CanConsume(s, MarkSummary)
    ensures Inv(Consumed(s, MarkSummary))
  {
    hide Fifo, FileIs, Prefix, Report, CloseReport, Noted, Attempted;
    NothingNew(s, Consumed(s, MarkSummary));
    SameAttempts(s, Consumed(s, MarkSummary));
  }

  lemma CountSummaryFailureKeeps(s: Capture)
    requires Inv(s) && CanConsume(s, CountSummaryFailure)
    ensures Inv(Consumed(s, CountSummaryFailure))
  {
    hide Fifo, FileIs, Prefix, Report, CloseReport, Noted, Attempted, Vouched;
    NothingVouched(s, Consumed(s, CountSummaryFailure));
    SameAttempts(s, Consumed(s, CountSummaryFailure));
    NotedLater(s, Consumed(s, CountSummaryFailure), WriterSummary);
  }

  lemma CloseStreamKeeps(s: Capture)
    requires Inv(s) && CanConsume(s, CloseStream)
    ensures Inv(Consumed(s, CloseStream))
  {
    hide Fifo, FileIs, Prefix, Report, CloseReport, Noted, Attempted;
    NothingNew(s, Consumed(s, CloseStream));
    SameAttempts(s, Consumed(s, CloseStream));
  }

  lemma CloseFailsKeeps(s: Capture)
    requires Inv(s) && CanConsume(s, CloseFails)
    ensures Inv(Consumed(s, CloseFails))
  {
    hide Fifo, FileIs, Prefix, Report, CloseReport, Noted, Attempted;
    SameAttempts(s, Consumed(s, CloseFails));
    FailureMet(s, Consumed(s, CloseFails), StreamClose);
  }

  lemma CountCloseFailureKeeps(s: Capture)
    requires Inv(s) && CanConsume(s, CountCloseFailure)
    ensures Inv(Consumed(s, CountCloseFailure))
  {
    hide Fifo, FileIs, Prefix, Report, CloseReport, Noted, Attempted, Vouched;
    NothingVouched(s, Consumed(s, CountCloseFailure));
    SameAttempts(s, Consumed(s, CountCloseFailure));
    NotedLater(s, Consumed(s, CountCloseFailure), StreamClose);
  }

  lemma WriterKeeps(s: Capture, a: Consume)
    requires Inv(s) && CanConsume(s, a)
    ensures Inv(Consumed(s, a))
  {
    hide Inv, Consumed, CanConsume;
    match a {
      case CheckStop => CheckStopKeeps(s);
      case CheckEmpty => CheckEmptyKeeps(s);
      case GetRow => GetRowKeeps(s);
      case GetNothing => GetNothingKeeps(s);
      case WriteRow => WriteRowKeeps(s);
      case WriteFails(partial) => WriteFailsKeeps(s, partial);
      case CountPersisted => CountPersistedKeeps(s);
      case CountFailed => CountFailedKeeps(s);
      case TakeSummary => TakeSummaryKeeps(s);
      case WriteSummary => WriteSummaryKeeps(s);
      case SummaryFails(partial) => SummaryFailsKeeps(s, partial);
      case MarkSummary => MarkSummaryKeeps(s);
      case CountSummaryFailure => CountSummaryFailureKeeps(s);
      case CloseStream => CloseStreamKeeps(s);
      case CloseFails => CloseFailsKeeps(s);
      case CountCloseFailure => CountCloseFailureKeeps(s);
    }
  }

  /******* Every interleaving *******/

  ghost predicate Next(s: Capture, t: Capture) { exists a :: Enabled(s, a) && t == Apply(s, a) }

  ghost predicate Interleaving(path: seq<Capture>, setup: Setup) {
    && path != [] && path[0] == Opened(setup)
    && forall i :: 0 <= i < |path| - 1 ==> Next(path[i], path[i + 1])
  }

  lemma ProducerFrame(s: Capture, a: Produce)
    requires CanProduce(s, a) && (s.producer.Encoding? ==> s.past.attempts != [])
    ensures Produced(s, a).setup == s.setup
  {
    hide Report, CloseReport;
  }

  lemma WriterFrame(s: Capture, a: Consume)
    requires CanConsume(s, a)
    ensures Consumed(s, a).setup == s.setup
  {
    hide Report;
  }

  lemma NextKeeps(s: Capture, t: Capture)
    requires Inv(s) && Next(s, t)
    ensures Inv(t) && t.setup == s.setup
  {
    hide Inv, Produced, Consumed, CanProduce, CanConsume;
    var a :| Enabled(s, a) && t == Apply(s, a);
    match a {
      case ByProducer(p) =>
        ProducerKeeps(s, p);
        ProducerFrame(s, p);
      case ByWriter(w) =>
        WriterKeeps(s, w);
        WriterFrame(s, w);
    }
  }

  /** Whatever the interleaving, the invariant holds in every state. */
  lemma {:induction false} AlwaysInv(path: seq<Capture>, setup: Setup, i: nat)
    requires Interleaving(path, setup) && i < |path|
    ensures Inv(path[i]) && path[i].setup == setup
  {
    hide Inv, Next;
    if i == 0 {
      OpenedInv(setup);
    } else {
      AlwaysInv(path, setup, i - 1);
      NextKeeps(path[i - 1], path[i]);
    }
  }

  lemma BooksBalance(s: Capture)
    requires Inv(s)
    ensures !s.producer.Encoding? && !s.producer.Counting? ==> s.sequence == s.queued + s.dropped
    ensures !Locked(s) ==> Report(s).pending == |Held(s.writer)| + |s.queue|
    ensures |s.queue| <= s.setup.capacity
  {
  }

  /** In every interleaving: between two producer calls every attempted record is queued or dropped,
      and every queued record is persisted, failed or still pending. */
  lemma Conserved(path: seq<Capture>, setup: Setup, i: nat)
    requires Interleaving(path, setup) && i < |path|
    ensures var s := path[i];
            && (!s.producer.Encoding? && !s.producer.Counting? ==> s.sequence == s.queued + s.dropped)
            && (!Locked(s) ==> Report(s).pending == |Held(s.writer)| + |s.queue|)
            && |s.queue| <= setup.capacity
  {
    hide Inv, Interleaving;
    AlwaysInv(path, setup, i);
    BooksBalance(path[i]);
  }

  lemma DrainedNow(s: Capture)
    requires Inv(s) && !Locked(s) && s.queued == s.persisted + s.failed
    ensures s.queue == [] && Held(s.writer) == []
    ensures !s.past.junk ==> FileIs(s.file, s.setup.prior, s.past.accepted, |s.past.accepted|, s.setup.process, s.past.footer)
  {
  }

  /** In every interleaving: when `drain` finds its condition, nothing is queued or in the writer's
      hands, and unless a write has raised every record that was queued is in the file. */
  lemma Drained(path: seq<Capture>, setup: Setup, i: nat)
    requires Interleaving(path, setup) && i < |path|
    requires !Locked(path[i]) && path[i].queued == path[i].persisted + path[i].failed
    ensures var s := path[i];
            && s.queue == [] && Held(s.writer) == []
            && (!s.past.junk ==> FileIs(s.file, setup.prior, s.past.accepted, |s.past.accepted|, setup.process, s.past.footer))
  {
    hide Inv, Interleaving, FileIs;
    AlwaysInv(path, setup, i);
    DrainedNow(path[i]);
  }

  lemma ProducerBehindExit(s: Capture, a: Produce)
    requires Inv(s) && Left(s.writer) && CanProduce(s, a) && (s.producer.Encoding? ==> s.past.attempts != [])
    ensures var t := Produced(s, a); t.writer == s.writer && t.queue == s.queue && t.past.accepted == s.past.accepted
  {
    hide Report, CloseReport, Attempted, Accounted, Ordered, Filed, Reported, Vouched;
  }

  lemma WriterBehindExit(s: Capture, a: Consume)
    requires Left(s.writer) && CanConsume(s, a)
    ensures var t := Consumed(s, a); Left(t.writer) && t.queue == s.queue && t.past.accepted == s.past.accepted
  {
    hide Report;
  }

  lemma StepBehindExit(s: Capture, t: Capture)
    requires Inv(s) && Left(s.writer) && Next(s, t)
    ensures Left(t.writer) && t.past.accepted == s.past.accepted
  {
    hide Inv, Produced, Consumed, CanProduce, CanConsume;
    var a :| Enabled(s, a) && t == Apply(s, a);
    match a {
      case ByProducer(p) => ProducerBehindExit(s, p);
      case ByWriter(w) => WriterBehindExit(s, w);
    }
  }

  lemma LeftEmpty(s: Capture)
    requires Inv(s) && Left(s.writer)
    ensures s.queue == []
  {
  }

  /** In every interleaving: once the writer has left its loop it stays away, nothing is on the queue,
      and nothing is ever put there again. */
  lemma {:induction false} NothingBehindExit(path: seq<Capture>, setup: Setup, i: nat, j: nat)
    requires Interleaving(path, setup) && i <= j < |path| && Left(path[i].writer)
    ensures Left(path[j].writer) && path[j].queue == [] && path[j].past.accepted == path[i].past.accepted
    decreases j
  {
    hide Inv, Next, Left;
    AlwaysInv(path, setup, j);
    if i < j {
      NothingBehindExit(path, setup, i, j - 1);
      AlwaysInv(path, setup, j - 1);
      StepBehindExit(path[j - 1], path[j]);
    }
    LeftEmpty(path[j]);
  }

  /******* The validator *******/

  predicate Balanced(r: Status, n: nat) {
    && r.attempted == n && r.queued == n && r.persisted == n
    && r.failed == 0 && r.dropped == 0 && r.pending == 0 && r.failures == []
  }

  function Events(rows: seq<Row>): seq<Row> {
    if rows == [] then []
    else if rows[|rows| - 1].Summary? then Events(rows[..|rows| - 1])
    else Events(rows[..|rows| - 1]) + [rows[|rows| - 1]]
  }

  function Summaries(rows: seq<Row>): nat {
    if rows == [] then 0 else Summaries(rows[..|rows| - 1]) + if rows[|rows| - 1].Summary? then 1 else 0
  }

  /** What the validator accepts; every line must parse. */
  predicate Validated(rows: seq<Row>, status: Status) {
    && (forall row :: row in rows ==> !row.Garbage?)
    && status.valid && status.summaryWritten && !status.drainTimeout
    && Summaries(rows) == 1 && rows != [] && rows[|rows| - 1].Summary?
    && var footer, events := rows[|rows| - 1].report, Events(rows);
       && footer.valid
       && events != [] && events[0].Record? && events[0].kind == Start
       && events[|events| - 1].Record? && events[|events| - 1].kind == Close
       && status.process != "" && (forall row :: row in rows ==> !row.Garbage? && row.process == status.process)
       && (forall i :: 0 <= i < |events| ==> events[i].Record? && events[i].sequence == i + 1)
       && Balanced(status, |events|) && Balanced(footer, |events|)
  }

  lemma {:induction false} EventsOfRecords(rows: seq<Row>, report: Status, process: string)
    requires forall row :: row in rows ==> row.Record?
    ensures Events(rows) == rows && Summaries(rows) == 0
    ensures Events(rows + [Summary(process, report)]) == rows && Summaries(rows + [Summary(process, report)]) == 1
  {
    if rows != [] {
      EventsOfRecords(rows[..|rows| - 1], report, process);
      assert rows == rows[..|rows| - 1] + [rows[|rows| - 1]] && rows[|rows| - 1] in rows;
    }
    var all := rows + [Summary(process, report)];
    assert all[..|all| - 1] == rows;
  }

  /** The file of a capture was empty, or held lines of other processes. */
  ghost predicate FreshProcess(setup: Setup) {
    setup.process != "" && forall row :: row in setup.prior ==> row.Garbage? || row.process != setup.process
  }

  lemma FileFixed(s: Capture)
    requires Inv(s) && s.result.Some? && s.result.value.valid
    ensures var n := s.result.value.attempted;
            && n <= |s.past.attempts| && s.past.footer.Some?
            && s.file == s.setup.prior + s.past.attempts[..n] + [Summary(s.setup.process, s.past.footer.value)]
  {
    assert s.past.accepted[..|s.past.accepted|] == s.past.accepted;
  }

  lemma NonemptyHas(rows: seq<Row>)
    ensures rows == [] || exists row :: row in rows
  {
    if rows != [] { assert rows[0] in rows; }
  }

  lemma NoForeignRows(prior: seq<Row>, rest: seq<Row>, process: string)
    requires forall row :: row in prior ==> row.Garbage? || row.process != process
    requires forall row :: row in prior + rest ==> !row.Garbage? && row.process == process
    ensures prior == []
  {
    assert forall row :: row in prior ==> row in prior + rest;
    NonemptyHas(prior);
  }

  lemma AcceptedFile(s: Capture)
    requires Inv(s) && FreshProcess(s.setup) && s.result.Some? && Validated(s.file, s.result.value)
    ensures var n := s.result.value.attempted;
            && 0 < n <= |s.past.attempts| && s.past.footer.Some?
            && s.file == s.past.attempts[..n] + [Summary(s.setup.process, s.past.footer.value)]
            && s.past.attempts[0].Record? && s.past.attempts[0].kind == Start && IsClose(s, n)
            && forall i :: 0 <= i < n ==> s.file[i].Record? && s.file[i].sequence == i + 1
  {
    hide Events, Summaries, Accounted, Ordered, Sealing, Filed, Reported;
    FileFixed(s);
    var n := s.result.value.attempted;
    var rest := s.past.attempts[..n] + [Summary(s.setup.process, s.past.footer.value)];
    assert s.file == s.setup.prior + rest;
    NoForeignRows(s.setup.prior, rest, s.setup.process);
  }

  lemma RowsAccepted(rows: seq<Row>, events: seq<Row>, status: Status, report: Status)
    requires rows == events + [Summary(status.process, report)] && events != []
    requires status.valid && status.summaryWritten && !status.drainTimeout && report.valid && status.process != ""
    requires forall i :: 0 <= i < |events| ==>
               events[i].Record? && events[i].sequence == i + 1 && events[i].process == status.process
    requires events[0].kind == Start && events[|events| - 1].kind == Close
    requires Balanced(status, |events|) && Balanced(report, |events|)
    ensures Validated(rows, status)
  {
    hide Balanced;
    EventsOfRecords(events, report, status.process);
  }

  lemma ValidAccepted(s: Capture)
    requires Inv(s) && s.setup.process != "" && s.setup.prior == [] && s.result.Some? && s.result.value.valid
    ensures Validated(s.file, s.result.value)
  {
    hide Accounted, Ordered, Sealing, Filed;
    FileFixed(s);
    var n := s.result.value.attempted;
    RowsAccepted(s.file, s.past.attempts[..n], s.result.value, s.past.footer.value);
  }

  /** In every interleaving a close status that calls itself valid fixes the file for good: the lines
      that were there, the attempted records in order, and one summary. */
  lemma VouchedFile(path: seq<Capture>, setup: Setup, i: nat)
    requires Interleaving(path, setup) && i < |path| && path[i].result.Some? && path[i].result.value.valid
    ensures var s := path[i]; var n := s.result.value.attempted;
            && n <= |s.past.attempts| && s.past.footer.Some?
            && s.file == setup.prior + s.past.attempts[..n] + [Summary(setup.process, s.past.footer.value)]
  {
    hide Inv, Interleaving;
    AlwaysInv(path, setup, i);
    FileFixed(path[i]);
  }

  /** Soundness, in every interleaving: an accepted file and status contain every attempted record
      exactly once, in order, from the opening record to the closing one, and one summary after them. */
  lemma ValidatorSound(path: seq<Capture>, setup: Setup, i: nat)
    requires Interleaving(path, setup) && i < |path| && FreshProcess(setup)
    requires path[i].result.Some? && Validated(path[i].file, path[i].result.value)
    ensures var s := path[i]; var n := s.result.value.attempted;
            && 0 < n <= |s.past.attempts| && s.past.footer.Some?
            && s.file == s.past.attempts[..n] + [Summary(setup.process, s.past.footer.value)]
            && s.past.attempts[0].Record? && s.past.attempts[0].kind == Start && IsClose(s, n)
            && forall k :: 0 <= k < n ==> s.file[k].Record? && s.file[k].sequence == k + 1
  {
    hide Inv, Interleaving, Validated, FreshProcess, IsClose;
    AlwaysInv(path, setup, i);
    AcceptedFile(path[i]);
  }

  /** Completeness, in every interleaving: a valid close status on a file that was empty is accepted. */
  lemma ValidatorComplete(path: seq<Capture>, setup: Setup, i: nat)
    requires Interleaving(path, setup) && i < |path| && setup.process != "" && setup.prior == []
    requires path[i].result.Some? && path[i].result.value.valid
    ensures Validated(path[i].file, path[i].result.value)
  {
    hide Inv, Interleaving, Validated;
    AlwaysInv(path, setup, i);
    ValidAccepted(path[i]);
  }
}
