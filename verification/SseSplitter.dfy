/** Splitting a server-sent event stream that arrives in chunks.  A blank line, written with LF
    or CRLF line ends, closes an event; cutting the same bytes into other chunks changes
    neither the events nor whether a truncated event is left over. */
module SseSplitter {
  import opened Wrappers

  type Bytes = seq<nat>

  const CR := 13
  const LF := 10

  /******* Finding the end of an event *******/

  /** The length of the blank-line break that starts at `i`, or 0: an optional CR, LF, an optional CR, LF. */
  function BreakAt(b: Bytes, i: nat): (n: nat)
    ensures n > 0 ==> i + n <= |b|
    ensures n == 0 || 2 <= n <= 4
  {
    var j := if i < |b| && b[i] == CR then i + 1 else i;
    if j >= |b| || b[j] != LF then 0
    else
      var k := if j + 1 < |b| && b[j + 1] == CR then j + 2 else j + 1;
      if k >= |b| || b[k] != LF then 0 else k + 1 - i
  }

  /** The four ways to write a blank line. */
  ghost predicate Separator(s: Bytes) {
    s == [LF, LF] || s == [CR, LF, LF] || s == [LF, CR, LF] || s == [CR, LF, CR, LF]
  }

  lemma BreakIsSeparator(b: Bytes, i: nat)
    requires i <= |b|
    ensures BreakAt(b, i) > 0 ==> Separator(b[i..i + BreakAt(b, i)])
    ensures forall s :: Separator(s) && s <= b[i..] ==> BreakAt(b, i) == |s|
  {
    forall s | Separator(s) && s <= b[i..] ensures BreakAt(b, i) == |s| { SeparatorFound(b, i, s); }
  }

  lemma SeparatorFound(b: Bytes, i: nat, s: Bytes)
    requires i <= |b| && Separator(s) && s <= b[i..]
    ensures BreakAt(b, i) == |s|
  {
    assert b[i] == s[0] && b[i + 1] == s[1] && (|s| > 2 ==> b[i + 2] == s[2]) && (|s| > 3 ==> b[i + 3] == s[3]);
  }

  /** The first break at or after `i`. */
  function FirstBreak(b: Bytes, i: nat): (r: Option<nat>)
    requires i <= |b|
    ensures r.Some? ==> i <= r.value && BreakAt(b, r.value) > 0
    ensures r.Some? ==> forall j :: i <= j < r.value ==> BreakAt(b, j) == 0
    ensures r.None? ==> forall j :: i <= j <= |b| ==> BreakAt(b, j) == 0
    decreases |b| - i
  {
    if BreakAt(b, i) > 0 then Some(i) else if i == |b| then None else FirstBreak(b, i + 1)
  }

  /** Bytes that arrive later leave a break where it is. */
  lemma BreakStays(b: Bytes, c: Bytes, i: nat)
    requires BreakAt(b, i) > 0
    ensures BreakAt(b + c, i) == BreakAt(b, i)
  {
  }

  /** They cannot bring an earlier break either: one that starts before another is over by its end. */
  lemma NoEarlierBreak(b: Bytes, c: Bytes, p: nat, i: nat)
    requires BreakAt(b, p) > 0 && i < p && BreakAt(b, i) == 0
    ensures BreakAt(b + c, i) == 0
  {
  }

  lemma FirstBreakStays(b: Bytes, c: Bytes)
    requires FirstBreak(b, 0).Some?
    ensures FirstBreak(b + c, 0) == FirstBreak(b, 0)
  {
    var p := FirstBreak(b, 0).value;
    BreakStays(b, c, p);
    forall i | 0 <= i < p ensures BreakAt(b + c, i) == 0 { NoEarlierBreak(b, c, p, i); }
  }

  /******* Splitting all at once *******/

  datatype Split = Split(frames: seq<Bytes>, rest: Bytes)

  function SplitAll(b: Bytes): (r: Split)
    ensures FirstBreak(r.rest, 0).None?
    decreases |b|
  {
    var p := FirstBreak(b, 0);
    if p.None? then Split([], b)
    else
      var tail := SplitAll(b[p.value + BreakAt(b, p.value)..]);
      Split([b[..p.value]] + tail.frames, tail.rest)
  }

  lemma BreakInside(b: Bytes, p: nat)
    requires BreakAt(b, p) > 0
    ensures p + BreakAt(b, p) <= |b|
  {
  }

  lemma SplitFirst(b: Bytes, p: nat)
    requires FirstBreak(b, 0) == Some(p)
    ensures BreakAt(b, p) > 0 && p + BreakAt(b, p) <= |b|
    ensures var tail := SplitAll(b[p + BreakAt(b, p)..]); SplitAll(b) == Split([b[..p]] + tail.frames, tail.rest)
  {
    hide BreakAt, FirstBreak;
    BreakInside(b, p);
    var n := p + BreakAt(b, p);
    assert FirstBreak(b, 0).value == p;
    assert SplitAll(b) == Split([b[..p]] + SplitAll(b[n..]).frames, SplitAll(b[n..]).rest);
  }

  lemma SplitNone(b: Bytes)
    requires FirstBreak(b, 0) == None
    ensures SplitAll(b) == Split([], b)
  {
  }

  /** No separator starts in `b` before position `n`. */
  ghost predicate NoneBefore(b: Bytes, n: nat) { forall i, s :: 0 <= i < n && i <= |b| && Separator(s) ==> !(s <= b[i..]) }

  /** `b` is the frames, each followed by the leftmost separator, and then a rest without one. */
  ghost predicate IsSplit(b: Bytes, frames: seq<Bytes>, rest: Bytes)
    decreases |frames|
  {
    if frames == [] then rest == b && NoneBefore(b, |b| + 1)
    else
      exists s, tail :: Separator(s) && b == frames[0] + s + tail && NoneBefore(b, |frames[0]|) && IsSplit(tail, frames[1..], rest)
  }

  lemma BreakFirst(b: Bytes, p: nat)
    requires FirstBreak(b, 0) == Some(p)
    ensures NoneBefore(b, p)
  {
    hide Separator, BreakAt;
    forall i, s | 0 <= i < p && i <= |b| && Separator(s) ensures !(s <= b[i..]) { NoBreakNoSeparator(b, i, s); }
  }

  lemma NoBreakNoSeparator(b: Bytes, i: nat, s: Bytes)
    requires i <= |b| && BreakAt(b, i) == 0 && Separator(s)
    ensures !(s <= b[i..])
  {
    if s <= b[i..] { SeparatorFound(b, i, s); }
  }

  lemma BreakNowhere(b: Bytes)
    requires FirstBreak(b, 0) == None
    ensures NoneBefore(b, |b| + 1)
  {
    hide Separator, BreakAt;
    forall i, s | 0 <= i < |b| + 1 && i <= |b| && Separator(s) ensures !(s <= b[i..]) { NoBreakNoSeparator(b, i, s); }
  }

  /** Splitting cuts at the leftmost separator, again and again, and loses nothing else. */
  lemma {:induction false} SplitExact(b: Bytes)
    ensures IsSplit(b, SplitAll(b).frames, SplitAll(b).rest)
    decreases |b|
  {
    hide BreakAt, FirstBreak, SplitAll, Separator, NoneBefore, IsSplit;
    var p := FirstBreak(b, 0);
    if p.None? {
      SplitNone(b);
      BreakNowhere(b);
      SplitWhole(b);
    } else {
      SplitFirst(b, p.value);
      BreakFirst(b, p.value);
      BreakIsSeparator(b, p.value);
      var n := p.value + BreakAt(b, p.value);
      var s, tail, frames := b[p.value..n], b[n..], SplitAll(b).frames;
      SplitExact(tail);
      assert b == b[..p.value] + s + tail;
      assert frames[0] == b[..p.value] && frames[1..] == SplitAll(tail).frames;
      SplitCut(b, s, tail, frames, SplitAll(b).rest);
    }
  }

  lemma SplitWhole(b: Bytes)
    requires NoneBefore(b, |b| + 1)
    ensures IsSplit(b, [], b)
  {
  }

  lemma SplitCut(b: Bytes, s: Bytes, tail: Bytes, frames: seq<Bytes>, rest: Bytes)
    requires frames != [] && Separator(s) && b == frames[0] + s + tail && NoneBefore(b, |frames[0]|) && IsSplit(tail, frames[1..], rest)
    ensures IsSplit(b, frames, rest)
  {
    hide Separator, NoneBefore;
  }

  /** Splitting as bytes arrive gives what splitting everything at once gives. */
  lemma {:induction false} SplitMore(b: Bytes, c: Bytes)
    ensures var s := SplitAll(b); var t := SplitAll(s.rest + c);
            SplitAll(b + c) == Split(s.frames + t.frames, t.rest)
    decreases |b|
  {
    hide BreakAt, FirstBreak, SplitAll;
    var p := FirstBreak(b, 0);
    if p.None? {
      SplitNone(b);
      assert [] + SplitAll(b + c).frames == SplitAll(b + c).frames;
    } else {
      FirstBreakStays(b, c);
      BreakStays(b, c, p.value);
      var n := p.value + BreakAt(b, p.value);
      SplitFirst(b, p.value);
      SplitFirst(b + c, p.value);
      assert (b + c)[..p.value] == b[..p.value] && (b + c)[n..] == b[n..] + c;
      SplitMore(b[n..], c);
      var s := SplitAll(b[n..]);
      var t := SplitAll(s.rest + c);
      assert [b[..p.value]] + s.frames + t.frames == [b[..p.value]] + (s.frames + t.frames);
    }
  }

  /** Splitting after each arrival, keeping the unfinished rest. */
  function SplitAsItComes(pieces: seq<Bytes>): Split {
    if pieces == [] then Split([], [])
    else
      var s := SplitAsItComes(pieces[..|pieces| - 1]);
      var t := SplitAll(s.rest + pieces[|pieces| - 1]);
      Split(s.frames + t.frames, t.rest)
  }

  function Concat(pieces: seq<Bytes>): Bytes {
    if pieces == [] then [] else Concat(pieces[..|pieces| - 1]) + pieces[|pieces| - 1]
  }

  lemma {:induction false} ArrivalsSplitAlike(pieces: seq<Bytes>)
    ensures SplitAsItComes(pieces) == SplitAll(Concat(pieces))
  {
    if pieces == [] {
      assert FirstBreak([], 0).None?;
    } else {
      ArrivalsSplitAlike(pieces[..|pieces| - 1]);
      SplitMore(Concat(pieces[..|pieces| - 1]), pieces[|pieces| - 1]);
    }
  }

  /** Two ways of cutting the same bytes give the same frames and the same rest. */
  lemma CuttingIrrelevant(a: seq<Bytes>, b: seq<Bytes>)
    requires Concat(a) == Concat(b)
    ensures SplitAsItComes(a) == SplitAsItComes(b)
  {
    ArrivalsSplitAlike(a);
    ArrivalsSplitAlike(b);
  }

  /******* Reading frames *******/

  datatype Frame<T> = Skipped | Parsed(value: T) | Unparsed(error: string)
  datatype Chunk = Chunk(at: int, data: Bytes)
  datatype Event<T> = Event(at: int, value: T)
  datatype Error = BadTimestamp | BadEvent(error: string) | Truncated

  function Values<T>(frames: seq<Bytes>, parse: Bytes -> Frame<T>): seq<T> {
    if frames == [] then []
    else
      var init, last := Values(frames[..|frames| - 1], parse), parse(frames[|frames| - 1]);
      if last.Parsed? then init + [last.value] else init
  }

  function BadEvents<T>(frames: seq<Bytes>, parse: Bytes -> Frame<T>): seq<Error> {
    if frames == [] then []
    else
      var init, last := BadEvents(frames[..|frames| - 1], parse), parse(frames[|frames| - 1]);
      if last.Unparsed? then init + [BadEvent(last.error)] else init
  }

  /** The value of a parsed frame has as many values before it as there are parsed frames before it; so the values
      are those of the parsed frames, in order. */
  lemma {:induction false} ValueAt<T>(frames: seq<Bytes>, parse: Bytes -> Frame<T>, i: nat)
    requires i < |frames|
    ensures Values(frames[..i], parse) <= Values(frames, parse)
    ensures parse(frames[i]).Parsed? ==>
              && |Values(frames[..i], parse)| < |Values(frames, parse)|
              && Values(frames, parse)[|Values(frames[..i], parse)|] == parse(frames[i]).value
    ensures !parse(frames[i]).Parsed? ==> Values(frames[..i + 1], parse) == Values(frames[..i], parse)
    ensures parse(frames[i]).Parsed? ==> |Values(frames[..i + 1], parse)| == |Values(frames[..i], parse)| + 1
    decreases |frames|
  {
    var n := |frames| - 1;
    assert frames == frames[..n] + [frames[n]] && frames[..i + 1] == frames[..i] + [frames[i]];
    ValuesSnoc(frames[..n], frames[n], parse);
    ValuesSnoc(frames[..i], frames[i], parse);
    if i < n {
      ValueAt(frames[..n], parse, i);
      assert frames[..n][..i] == frames[..i];
    }
  }

  function Join(chunks: seq<Chunk>): Bytes {
    if chunks == [] then [] else Join(chunks[..|chunks| - 1]) + chunks[|chunks| - 1].data
  }

  function Contents<T>(events: seq<Event<T>>): seq<T> { seq(|events|, i requires 0 <= i < |events| => events[i].value) }

  /** The errors that do not concern the chunks' timestamps. */
  function Untimed(errors: seq<Error>): seq<Error> {
    if errors == [] then []
    else
      var init, last := Untimed(errors[..|errors| - 1]), errors[|errors| - 1];
      if last.BadTimestamp? then init else init + [last]
  }

  predicate Blank(b: Bytes) { forall x :: x in b ==> x == 32 || 9 <= x <= 13 }

  /** What is found in the bytes, however they were cut. */
  function Found<T>(b: Bytes, parse: Bytes -> Frame<T>): (seq<T>, seq<Error>) {
    var s := SplitAll(b);
    (Values(s.frames, parse), BadEvents(s.frames, parse) + if Blank(s.rest) then [] else [Truncated])
  }

  lemma ValuesSnoc<T>(frames: seq<Bytes>, f: Bytes, parse: Bytes -> Frame<T>)
    ensures Values(frames + [f], parse) == Values(frames, parse) + if parse(f).Parsed? then [parse(f).value] else []
    ensures BadEvents(frames + [f], parse)
         == BadEvents(frames, parse) + if parse(f).Unparsed? then [BadEvent(parse(f).error)] else []
  {
    assert (frames + [f])[..|frames|] == frames;
  }

  lemma UntimedSnoc(errors: seq<Error>, e: Error)
    ensures Untimed(errors + [e]) == Untimed(errors) + if e.BadTimestamp? then [] else [e]
  {
    assert (errors + [e])[..|errors|] == errors;
  }

  /******* The splitter as it is written *******/

  /** The program's regular-expression search. */
  method Search(b: Bytes) returns (p: Option<nat>)
    ensures p == FirstBreak(b, 0)
  {
    var i := 0;
    while i <= |b|
      invariant 0 <= i <= |b| + 1
      invariant i <= |b| ==> FirstBreak(b, i) == FirstBreak(b, 0)
      invariant i == |b| + 1 ==> FirstBreak(b, 0) == None
    {
      if BreakAt(b, i) > 0 { return Some(i); }
      i := i + 1;
    }
    p := None;
  }

  /** Cut the finished frames off the buffer and read each. */
  method TakeFrames<T>(buffer: Bytes, at: int, parse: Bytes -> Frame<T>, events: seq<Event<T>>, errors: seq<Error>,
                       ghost frames: seq<Bytes>)
    returns (rest: Bytes, moreEvents: seq<Event<T>>, moreErrors: seq<Error>)
    requires Contents(events) == Values(frames, parse) && Untimed(errors) == BadEvents(frames, parse)
    ensures rest == SplitAll(buffer).rest
    ensures Contents(moreEvents) == Values(frames + SplitAll(buffer).frames, parse)
    ensures Untimed(moreErrors) == BadEvents(frames + SplitAll(buffer).frames, parse)
    ensures events <= moreEvents && forall i :: |events| <= i < |moreEvents| ==> moreEvents[i].at == at
    ensures TimeErrors(moreErrors) == TimeErrors(errors)
  {
    hide FirstBreak, Values, BadEvents, Untimed, BreakAt, TimeErrors;
    rest, moreEvents, moreErrors := buffer, events, errors;
    ghost var done := frames;
    assert frames + SplitAll(buffer).frames == done + SplitAll(rest).frames;
    while true
      invariant SplitAll(rest).rest == SplitAll(buffer).rest && done + SplitAll(rest).frames == frames + SplitAll(buffer).frames
      invariant Contents(moreEvents) == Values(done, parse) && Untimed(moreErrors) == BadEvents(done, parse)
      invariant events <= moreEvents && forall i :: |events| <= i < |moreEvents| ==> moreEvents[i].at == at
      invariant TimeErrors(moreErrors) == TimeErrors(errors)
      decreases |rest|
    {
      var p := Search(rest);
      if p.None? { break; }
      var n := p.value + BreakAt(rest, p.value);
      var raw := rest[..p.value];
      ghost var before := rest;
      rest := rest[n..];
      SplitFirst(before, p.value);
      assert done + [raw] + SplitAll(rest).frames == done + ([raw] + SplitAll(rest).frames);
      ValuesSnoc(done, raw, parse);
      done := done + [raw];
      match parse(raw) {
        case Skipped =>
        case Parsed(value) =>
          ContentsSnoc(moreEvents, Event(at, value));
          moreEvents := moreEvents + [Event(at, value)];
        case Unparsed(error) =>
          UntimedSnoc(moreErrors, BadEvent(error));
          TimeErrorsSnoc(moreErrors, BadEvent(error));
          moreErrors := moreErrors + [BadEvent(error)];
      }
    }
    SplitNone(rest);
    assert done + [] == done;
  }

  lemma ContentsSnoc<T>(events: seq<Event<T>>, e: Event<T>)
    ensures Contents(events + [e]) == Contents(events) + [e.value]
  {
  }

  lemma FoundStart<T>(parse: Bytes -> Frame<T>)
    ensures SplitAll([]) == Split([], []) && Values([], parse) == [] && BadEvents([], parse) == [] && Untimed([]) == []
    ensures Contents<T>([]) == [] && Join([]) == []
  {
  }

  /** Chunk `i` is stamped earlier than the one before it. */
  predicate Early(chunks: seq<Chunk>, i: nat)
    requires i < |chunks|
  {
    i > 0 && chunks[i].at < chunks[i - 1].at
  }

  /** How many events are complete once the first `n` chunks have arrived. */
  ghost function Arrived<T>(chunks: seq<Chunk>, parse: Bytes -> Frame<T>, n: nat): nat
    requires n <= |chunks|
  {
    |Values(SplitAll(Join(chunks[..n])).frames, parse)|
  }

  /** The events completed by chunk `i` bear its time. */
  ghost predicate StampedBy<T>(chunks: seq<Chunk>, parse: Bytes -> Frame<T>, i: nat, events: seq<Event<T>>)
    requires i < |chunks|
  {
    && Arrived(chunks, parse, i + 1) <= |events|
    && forall m :: Arrived(chunks, parse, i) <= m < Arrived(chunks, parse, i + 1) ==> events[m].at == chunks[i].at
  }

  /** Each event bears the time of the chunk that completed its frame. */
  ghost predicate Stamped<T>(chunks: seq<Chunk>, parse: Bytes -> Frame<T>, n: nat, events: seq<Event<T>>)
    requires n <= |chunks|
  {
    && |events| == Arrived(chunks, parse, n)
    && forall i :: 0 <= i < n ==> StampedBy(chunks, parse, i, events)
  }

  lemma StampMore<T>(chunks: seq<Chunk>, parse: Bytes -> Frame<T>, n: nat, events: seq<Event<T>>, more: seq<Event<T>>)
    requires n < |chunks| && Stamped(chunks, parse, n, events)
    requires events <= more && |more| == Arrived(chunks, parse, n + 1)
    requires forall m :: |events| <= m < |more| ==> more[m].at == chunks[n].at
    ensures Stamped(chunks, parse, n + 1, more)
  {
    hide Arrived;
    forall i | 0 <= i < n ensures StampedBy(chunks, parse, i, more) { assert StampedBy(chunks, parse, i, events); }
    assert StampedBy(chunks, parse, n, more);
  }

  lemma StampFrames<T>(chunks: seq<Chunk>, parse: Bytes -> Frame<T>, n: nat, events: seq<Event<T>>, more: seq<Event<T>>,
                       frames: seq<Bytes>, rest: Bytes)
    requires n < |chunks| && Stamped(chunks, parse, n, events) && events <= more
    requires SplitAll(Join(chunks[..n + 1])) == Split(frames, rest) && Contents(more) == Values(frames, parse)
    requires forall m :: |events| <= m < |more| ==> more[m].at == chunks[n].at
    ensures Stamped(chunks, parse, n + 1, more)
  {
    hide Stamped, SplitAll, Join, Values;
    assert |Contents(more)| == |more|;
    StampMore(chunks, parse, n, events, more);
  }

  lemma JoinedMore(chunks: seq<Chunk>, n: nat, frames: seq<Bytes>, rest: Bytes)
    requires n < |chunks| && SplitAll(Join(chunks[..n])) == Split(frames, rest)
    ensures var t := SplitAll(rest + chunks[n].data); SplitAll(Join(chunks[..n + 1])) == Split(frames + t.frames, t.rest)
  {
    hide SplitAll;
    assert chunks[..n + 1][..n] == chunks[..n];
    SplitMore(Join(chunks[..n]), chunks[n].data);
  }

  lemma EarlyIf(chunks: seq<Chunk>, i: nat)
    requires i < |chunks|
    ensures Early(chunks, i) <==> i > 0 && chunks[i].at < chunks[i - 1].at
  {
  }

  lemma StampNone<T>(chunks: seq<Chunk>, parse: Bytes -> Frame<T>)
    ensures Stamped(chunks, parse, 0, [])
  {
    FoundStart(parse);
  }

  function TimeErrors(errors: seq<Error>): nat {
    if errors == [] then 0 else TimeErrors(errors[..|errors| - 1]) + if errors[|errors| - 1].BadTimestamp? then 1 else 0
  }

  lemma TimeErrorsSnoc(errors: seq<Error>, e: Error)
    ensures TimeErrors(errors + [e]) == TimeErrors(errors) + if e.BadTimestamp? then 1 else 0
  {
    assert (errors + [e])[..|errors|] == errors;
  }

  lemma NoTimeErrors()
    ensures TimeErrors([]) == 0
  {
  }

  function EarlyChunks(chunks: seq<Chunk>, n: nat): nat
    requires n <= |chunks|
  {
    if n == 0 then 0 else EarlyChunks(chunks, n - 1) + if Early(chunks, n - 1) then 1 else 0
  }

  /** Read a stream chunk by chunk.  `parse` decodes one frame: its data lines, its label, its JSON. */
  method SseEvents<T>(chunks: seq<Chunk>, parse: Bytes -> Frame<T>) returns (events: seq<Event<T>>, errors: seq<Error>)
    ensures (Contents(events), Untimed(errors)) == Found(Join(chunks), parse)
    ensures Stamped(chunks, parse, |chunks|, events)
    ensures TimeErrors(errors) == EarlyChunks(chunks, |chunks|)
  {
    hide Values, BadEvents, Untimed, SplitAll, Contents, Stamped, Arrived, Join, Early, Blank, TimeErrors;
    var buffer: Bytes, lastAt: Option<int> := [], None;
    events, errors := [], [];
    ghost var frames: seq<Bytes> := [];
    FoundStart(parse);
    NoTimeErrors();
    StampNone(chunks, parse);
    for i := 0 to |chunks|
      invariant SplitAll(Join(chunks[..i])) == Split(frames, buffer)
      invariant Contents(events) == Values(frames, parse) && Untimed(errors) == BadEvents(frames, parse)
      invariant Stamped(chunks, parse, i, events)
      invariant lastAt == if i == 0 then None else Some(chunks[i - 1].at)
      invariant TimeErrors(errors) == EarlyChunks(chunks, i)
    {
      var chunk := chunks[i];
      EarlyIf(chunks, i);
      if lastAt.Some? && chunk.at < lastAt.value {
        UntimedSnoc(errors, BadTimestamp);
        TimeErrorsSnoc(errors, BadTimestamp);
        errors := errors + [BadTimestamp];
      }
      lastAt := Some(chunk.at);
      JoinedMore(chunks, i, frames, buffer);
      ghost var more, before := SplitAll(buffer + chunk.data).frames, events;
      buffer, events, errors := TakeFrames(buffer + chunk.data, chunk.at, parse, events, errors, frames);
      frames := frames + more;
      StampFrames(chunks, parse, i, before, events, frames, buffer);
    }
    assert chunks[..|chunks|] == chunks;
    assert BadEvents(frames, parse) + [] == BadEvents(frames, parse);
    if !Blank(buffer) {
      UntimedSnoc(errors, Truncated);
      TimeErrorsSnoc(errors, Truncated);
      errors := errors + [Truncated];
    }
  }
}
