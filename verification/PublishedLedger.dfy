/** The published-block ledger: a lossy stream of KV event batches is folded, one delivery at
    a time, into the blocks that are cached now and the blocks stored since the last clear. */
module PublishedLedger {
  import opened Wrappers

  /******* Deliveries as they arrive *******/

  datatype Hash = Bytes(data: seq<nat>) | Number(n: int) | Unsupported
  datatype Key = BytesKey(data: seq<nat>) | NumberKey(n: nat)

  /** A tagged event.  An absent `kind` or `medium` reads as "", an absent block size as 0;
      `hashes`, `tokens` and `parent` are `None` when the mapping has no such entry. */
  datatype Event =
    | NotMapping
    | Mapping(kind: string, medium: string, group: Option<int>, hashes: Option<seq<Hash>>, blockSize: int,
              tokens: Option<seq<int>>, lora: bool, extraKeys: bool, parent: Option<Option<Hash>>)

  datatype Batch = Malformed | Batch(events: seq<Event>)

  /** `Unreadable` stands for a wrong frame layout or a payload that does not decode. */
  datatype Delivery = Unreadable | Delivered(sequence: int, hash: string, batch: Batch)

  /******* What an event asks for *******/

  datatype Record = Record(parent: Option<Key>, tokens: seq<int>)
  datatype Op = Clear | Drop(key: Key) | Put(key: Key, record: Record)

  /** `Refused` events withdraw completeness before they raise; `Raised` ones just raise. */
  datatype Reading = Ops(ops: seq<Op>) | Refused | Raised

  function HashKey(h: Hash): (k: Option<Key>)
    ensures k.Some? <==> h.Bytes? || (h.Number? && h.n >= 0)
  {
    match h
    case Bytes(data) => Some(BytesKey(data))
    case Number(n) => if n >= 0 then Some(NumberKey(n)) else None
    case Unsupported => None
  }

  /** Distinct hashes never share a ledger key. */
  lemma HashKeyInjective(a: Hash, b: Hash)
    requires HashKey(a).Some? && HashKey(a) == HashKey(b)
    ensures a == b
  {
  }

  function Keys(hashes: seq<Hash>): (r: Option<seq<Key>>)
    ensures r.Some? ==> |r.value| == |hashes|
  {
    if hashes == [] then Some([])
    else
      var k, rest := HashKey(hashes[0]), Keys(hashes[1..]);
      if k.None? || rest.None? then None else Some([k.value] + rest.value)
  }

  /** The records of one stored event form a chain: each block's parent is the one before it. */
  function Puts(keys: seq<Key>, tokens: seq<int>, parent: Option<Key>): (ops: seq<Op>)
    requires |tokens| == 16 * |keys|
    ensures |ops| == |keys|
    decreases |keys|
  {
    if keys == [] then []
    else [Put(keys[0], Record(parent, tokens[..16]))] + Puts(keys[1..], tokens[16..], Some(keys[0]))
  }

  lemma SliceShift<T>(s: seq<T>, k: nat, lo: nat, hi: nat)
    requires lo <= hi && k + hi <= |s|
    ensures s[k..][lo..hi] == s[k + lo..k + hi]
  {
  }

  lemma {:induction false} PutsAt(keys: seq<Key>, tokens: seq<int>, parent: Option<Key>, i: nat)
    requires |tokens| == 16 * |keys| && i < |keys|
    ensures Puts(keys, tokens, parent)[i]
         == Put(keys[i], Record(if i == 0 then parent else Some(keys[i - 1]), tokens[16 * i..16 * (i + 1)]))
    decreases i
  {
    if i > 0 {
      PutsAt(keys[1..], tokens[16..], Some(keys[0]), i - 1);
      SliceShift(tokens, 16, 16 * (i - 1), 16 * i);
    }
  }

  function Drops(keys: seq<Key>): seq<Op> {
    seq(|keys|, i requires 0 <= i < |keys| => Drop(keys[i]))
  }

  function ReadStored(e: Event, keys: seq<Key>): Reading
    requires e.Mapping?
  {
    if e.blockSize != 16 then Refused
    else if e.tokens.None? then Raised
    else if |e.tokens.value| != 16 * |keys| then Refused
    else if e.lora || e.extraKeys then Refused
    else if e.parent.None? then Raised
    else if e.parent.value.None? then Ops(Puts(keys, e.tokens.value, None))
    else
      var p := HashKey(e.parent.value.value);
      if p.None? then Raised else Ops(Puts(keys, e.tokens.value, p))
  }

  function Read(e: Event): Reading {
    if e.NotMapping? then Raised
    else if e.kind == "AllBlocksCleared" then Ops([Clear])
    else if e.kind != "BlockStored" && e.kind != "BlockRemoved" then Refused
    else if e.medium != "GPU" || (e.group.Some? && e.group.value != 0) then Refused
    else if e.hashes.None? then Raised
    else
      var keys := Keys(e.hashes.value);
      if keys.None? then Raised
      else if e.kind == "BlockRemoved" then Ops(Drops(keys.value))
      else ReadStored(e, keys.value)
  }

  /******* Folding events *******/

  datatype View = View(complete: bool, blocks: map<Key, Record>, history: map<Key, Record>)

  /** A view under way through a batch, with the batch's counters; not `ok` once it has raised. */
  datatype Fold = Fold(view: View, ok: bool, stored: nat, removed: nat, cleared: nat)

  function Do(f: Fold, op: Op): Fold {
    match op
    case Clear => f.(view := View(true, map[], map[]), cleared := f.cleared + 1)
    case Drop(k) =>
      f.(view := f.view.(blocks := f.view.blocks - {k}), removed := f.removed + if k in f.view.blocks then 1 else 0)
    case Put(k, r) =>
      if k in f.view.history && f.view.history[k] != r then f.(view := f.view.(complete := false), ok := false)
      else f.(view := f.view.(blocks := f.view.blocks[k := r], history := f.view.history[k := r]),
              stored := f.stored + if k in f.view.blocks then 0 else 1)
  }

  function DoAll(f: Fold, ops: seq<Op>): Fold
    decreases |ops|
  {
    if ops == [] || !f.ok then f else DoAll(Do(f, ops[0]), ops[1..])
  }

  function DoEvent(f: Fold, e: Event): Fold {
    match Read(e)
    case Ops(ops) => DoAll(f, ops)
    case Refused => f.(view := f.view.(complete := false), ok := false)
    case Raised => f.(ok := false)
  }

  function DoEvents(f: Fold, events: seq<Event>): Fold
    decreases |events|
  {
    if events == [] || !f.ok then f else DoEvents(DoEvent(f, events[0]), events[1..])
  }

  function Open(view: View): Fold { Fold(view, true, 0, 0, 0) }

  /******* The ledger *******/

  datatype Issue = Issue(sequence: int)
  datatype State = State(lastSequence: Option<int>, lastHash: string, view: View, issues: seq<Issue>)
  datatype Receipt = Receipt(duplicate: bool, complete: bool, published: nat, stored: nat, removed: nat,
                             cleared: nat, issue: bool)

  const INITIAL := State(None, "", View(false, map[], map[]), [])

  predicate Duplicate(s: State, sequence: int, hash: string) {
    s.lastSequence == Some(sequence) && s.lastHash == hash
  }

  predicate Gap(s: State, sequence: int) { s.lastSequence.Some? && sequence != s.lastSequence.value + 1 }

  /** Completeness as the batch's first event finds it. */
  function Entering(s: State, sequence: int): View {
    if Gap(s, sequence) then s.view.(complete := false) else s.view
  }

  function Folded(s: State, sequence: int, batch: Batch): Fold {
    if batch.Malformed? then Open(Entering(s, sequence)).(ok := false)
    else DoEvents(Open(Entering(s, sequence)), batch.events)
  }

  function Accepted(s: State, sequence: int, hash: string, batch: Batch): State {
    if Duplicate(s, sequence, hash) then s
    else
      var f := Folded(s, sequence, batch);
      State(Some(sequence), hash, f.view,
            if f.ok && Gap(s, sequence) then s.issues + [Issue(sequence)] else s.issues)
  }

  predicate Raises(s: State, sequence: int, hash: string, batch: Batch) {
    !Duplicate(s, sequence, hash) && !Folded(s, sequence, batch).ok
  }

  /** One received message, with the collector's handler for what raises. */
  function Collected(s: State, d: Delivery): State {
    match d
    case Unreadable => s.(view := s.view.(complete := false))
    case Delivered(n, h, batch) =>
      var t := Accepted(s, n, h, batch);
      if Raises(s, n, h, batch) then t.(view := t.view.(complete := false)) else t
  }

  function CollectedAll(ds: seq<Delivery>): State {
    if ds == [] then INITIAL else Collected(CollectedAll(ds[..|ds| - 1]), ds[|ds| - 1])
  }

  /******* The publisher's log *******/

  function Events(log: seq<Batch>): seq<Event> {
    if log == [] then []
    else Events(log[..|log| - 1]) +
         (if log[|log| - 1].Malformed? then [NotMapping] else log[|log| - 1].events)
  }

  predicate IsClear(e: Event) { e.Mapping? && e.kind == "AllBlocksCleared" }

  predicate HasClear(events: seq<Event>) { exists e :: e in events && IsClear(e) }

  /** The events after the latest clear. */
  function Since(events: seq<Event>): (r: seq<Event>)
    ensures |r| <= |events| && r == events[|events| - |r|..]
    ensures forall e :: e in r ==> !IsClear(e)
    ensures HasClear(events) ==> |r| < |events| && IsClear(events[|events| - |r| - 1])
  {
    if events == [] || IsClear(events[|events| - 1]) then []
    else Since(events[..|events| - 1]) + [events[|events| - 1]]
  }

  function Asked(e: Event): seq<Op> { if Read(e).Ops? then Read(e).ops else [] }

  function AllAsked(events: seq<Event>): seq<Op> {
    if events == [] then [] else AllAsked(events[..|events| - 1]) + Asked(events[|events| - 1])
  }

  ghost predicate Readable(events: seq<Event>) { forall e :: e in events ==> Read(e).Ops? }

  /** `k` was stored and not removed afterwards. */
  ghost predicate Live(ops: seq<Op>, k: Key) {
    exists i :: 0 <= i < |ops| && ops[i].Put? && ops[i].key == k && forall j :: i < j < |ops| ==> ops[j] != Drop(k)
  }

  ghost predicate StoredIn(ops: seq<Op>, k: Key) { exists op :: op in ops && op.Put? && op.key == k }

  /** What a complete ledger means, without reference to the fold: history holds exactly the
      blocks stored by `ops`, and blocks those of them not removed since. */
  ghost predicate Describes(v: View, ops: seq<Op>) {
    && (forall k :: k in v.history <==> StoredIn(ops, k))
    && (forall op :: op in ops && op.Put? && op.key in v.history ==> v.history[op.key] == op.record)
    && (forall k :: k in v.blocks <==> Live(ops, k))
    && Agree(v)
  }

  /** Every block that is present is in history with the same record. */
  ghost predicate Agree(v: View) { forall k :: k in v.blocks ==> k in v.history && v.history[k] == v.blocks[k] }

  /** The ledger equals what the reader makes of the log from its latest clear. */
  ghost predicate Told(v: View, events: seq<Event>) {
    && HasClear(events) && Readable(Since(events)) && Describes(v, AllAsked(Since(events)))
  }

  /******* The same in terms of the events' own fields *******/

  predicate KeyFor(h: Hash, k: Key) {
    (h.Bytes? && k == BytesKey(h.data)) || (h.Number? && h.n >= 0 && k == NumberKey(h.n))
  }

  predicate Keyed(h: Hash) { h.Bytes? || (h.Number? && h.n >= 0) }

  /** The parent that a stored event names for its first block. */
  predicate FirstParent(e: Event, p: Option<Key>) {
    && e.Mapping? && e.parent.Some?
    && if e.parent.value.None? then p.None? else p.Some? && KeyFor(e.parent.value.value, p.value)
  }

  /** Block `i` of a stored event is `k`, with its own 16 tokens, below the block before it. */
  predicate StoresAt(e: Event, i: nat, k: Key, r: Record) {
    && e.Mapping? && e.kind == "BlockStored" && e.hashes.Some? && e.tokens.Some?
    && i < |e.hashes.value| && 16 * (i + 1) <= |e.tokens.value|
    && KeyFor(e.hashes.value[i], k) && r.tokens == e.tokens.value[16 * i..16 * (i + 1)]
    && if i == 0 then FirstParent(e, r.parent)
       else r.parent.Some? && KeyFor(e.hashes.value[i - 1], r.parent.value)
  }

  ghost predicate Stores(e: Event, k: Key, r: Record) { exists i: nat :: StoresAt(e, i, k, r) }

  ghost predicate Removes(e: Event, k: Key) {
    && e.Mapping? && e.kind == "BlockRemoved" && e.hashes.Some?
    && exists i :: 0 <= i < |e.hashes.value| && KeyFor(e.hashes.value[i], k)
  }

  /** The fields of an event that the ledger takes without refusing it. */
  predicate Legible(e: Event) {
    && e.Mapping?
    && (|| e.kind == "AllBlocksCleared"
        || (&& (e.kind == "BlockStored" || e.kind == "BlockRemoved")
            && e.medium == "GPU" && (e.group.Some? ==> e.group.value == 0)
            && e.hashes.Some? && (forall h :: h in e.hashes.value ==> Keyed(h))
            && (e.kind == "BlockStored" ==>
                  && e.blockSize == 16 && e.tokens.Some? && |e.tokens.value| == 16 * |e.hashes.value|
                  && !e.lora && !e.extraKeys
                  && e.parent.Some? && (e.parent.value.Some? ==> Keyed(e.parent.value.value)))))
  }

  ghost predicate StoredBy(events: seq<Event>, k: Key) { exists i, r :: 0 <= i < |events| && Stores(events[i], k, r) }

  /** Some event stores `k` and no later one removes it. */
  ghost predicate Remains(events: seq<Event>, k: Key) {
    exists i, r :: 0 <= i < |events| && Stores(events[i], k, r) && forall j :: i < j < |events| ==> !Removes(events[j], k)
  }

  /** The ledger equals the log's story from its latest clear: every event since then can be read,
      history holds exactly the blocks stored, with their parents and tokens, and present are
      exactly those not removed afterwards. */
  ghost predicate Exact(v: View, events: seq<Event>) {
    && HasClear(events)
    && var since := Since(events);
       && (forall e :: e in since ==> Legible(e))
       && (forall k :: k in v.history <==> StoredBy(since, k))
       && (forall e, k, r :: e in since && Stores(e, k, r) && k in v.history ==> v.history[k] == r)
       && (forall k :: k in v.blocks <==> Remains(since, k))
       && Agree(v)
  }

  /** Lost, repeated and reordered batches are covered by any list of deliveries; a delivered
      batch is the log's batch of that number, or has a part that cannot be read. */
  predicate Plausible(log: seq<Batch>, base: int, d: Delivery) {
    || d.Unreadable?
    || d.batch.Malformed?
    || (exists e :: e in d.batch.events && !Legible(e))
    || (base <= d.sequence < base + |log| && d.batch == log[d.sequence - base])
  }

  /******* The fold, one step at a time *******/

  lemma {:induction false} DoAllSnoc(f: Fold, ops: seq<Op>, op: Op)
    ensures DoAll(f, ops + [op]) == if DoAll(f, ops).ok then Do(DoAll(f, ops), op) else DoAll(f, ops)
    decreases |ops|
  {
    if ops == [] {
      assert ops + [op] == [op] && [op][1..] == [];
    } else if f.ok {
      assert (ops + [op])[1..] == ops[1..] + [op];
      DoAllSnoc(Do(f, ops[0]), ops[1..], op);
    }
  }

  lemma DoNext(f: Fold, ops: seq<Op>, i: nat)
    requires f.ok && i < |ops|
    ensures DoAll(f, ops[i..]) == if Do(f, ops[i]).ok then DoAll(Do(f, ops[i]), ops[i + 1..]) else Do(f, ops[i])
  {
    assert ops[i..][1..] == ops[i + 1..];
  }

  lemma DoPut(f: Fold, k: Key, r: Record)
    ensures var v := f.view;
            Do(f, Put(k, r)) ==
              if k in v.history && v.history[k] != r then f.(view := View(false, v.blocks, v.history), ok := false)
              else f.(view := View(v.complete, v.blocks[k := r], v.history[k := r]),
                      stored := f.stored + if k in v.blocks then 0 else 1)
  {
  }

  lemma DoNone(f: Fold)
    ensures DoAll(f, []) == f
  {
  }

  lemma {:induction false} DoEventsSnoc(f: Fold, events: seq<Event>, e: Event)
    ensures DoEvents(f, events + [e]) == if DoEvents(f, events).ok then DoEvent(DoEvents(f, events), e) else DoEvents(f, events)
    decreases |events|
  {
    if events == [] {
      assert events + [e] == [e] && [e][1..] == [];
    } else if f.ok {
      assert (events + [e])[1..] == events[1..] + [e];
      DoEventsSnoc(DoEvent(f, events[0]), events[1..], e);
    }
  }

  /******* Blocks always agree with history *******/

  lemma {:induction false} OpsAgree(f: Fold, ops: seq<Op>)
    requires Agree(f.view)
    ensures Agree(DoAll(f, ops).view)
    decreases |ops|
  {
    if ops != [] && f.ok { OpsAgree(Do(f, ops[0]), ops[1..]); }
  }

  lemma {:induction false} EventsAgree(f: Fold, events: seq<Event>)
    requires Agree(f.view)
    ensures Agree(DoEvents(f, events).view)
    decreases |events|
  {
    if events != [] && f.ok {
      if Read(events[0]).Ops? { OpsAgree(f, Read(events[0]).ops); }
      EventsAgree(DoEvent(f, events[0]), events[1..]);
    }
  }

  /** After any deliveries at all, even implausible ones. */
  lemma {:induction false} AlwaysAgree(ds: seq<Delivery>)
    ensures Agree(CollectedAll(ds).view)
  {
    if ds != [] {
      var s, d := CollectedAll(ds[..|ds| - 1]), ds[|ds| - 1];
      AlwaysAgree(ds[..|ds| - 1]);
      if d.Delivered? && d.batch.Batch? { EventsAgree(Open(Entering(s, d.sequence)), d.batch.events); }
    }
  }

  /******* A complete ledger describes the log since its latest clear *******/

  lemma LivePut(ops: seq<Op>, op: Op, k: Key)
    requires op.Put?
    ensures Live(ops + [op], k) <==> op.key == k || Live(ops, k)
  {
    var more := ops + [op];
    if op.key == k {
      assert more[|ops|].Put? && more[|ops|].key == k;
    } else if Live(ops, k) {
      var i :| 0 <= i < |ops| && ops[i].Put? && ops[i].key == k && forall j :: i < j < |ops| ==> ops[j] != Drop(k);
      assert more[i].Put? && more[i].key == k;
    }
    if op.key != k && Live(more, k) {
      var i :| 0 <= i < |more| && more[i].Put? && more[i].key == k && forall j :: i < j < |more| ==> more[j] != Drop(k);
      assert ops[i].Put? && ops[i].key == k && forall j :: i < j < |ops| ==> ops[j] == more[j];
    }
  }

  lemma LiveDrop(ops: seq<Op>, d: Key, k: Key)
    ensures Live(ops + [Drop(d)], k) <==> k != d && Live(ops, k)
  {
    var more := ops + [Drop(d)];
    assert more[|ops|] == Drop(d);
    if k != d && Live(ops, k) {
      var i :| 0 <= i < |ops| && ops[i].Put? && ops[i].key == k && forall j :: i < j < |ops| ==> ops[j] != Drop(k);
      assert more[i].Put? && more[i].key == k;
    }
    if Live(more, k) {
      var i :| 0 <= i < |more| && more[i].Put? && more[i].key == k && forall j :: i < j < |more| ==> more[j] != Drop(k);
      assert ops[i].Put? && ops[i].key == k && forall j :: i < j < |ops| ==> ops[j] == more[j];
    }
  }

  lemma OpDescribes(f: Fold, ops: seq<Op>, op: Op)
    requires Describes(f.view, ops) && !op.Clear? && Do(f, op).ok
    ensures Describes(Do(f, op).view, ops + [op])
  {
    hide Live;
    var v, more := Do(f, op).view, ops + [op];
    assert op in more;
    forall k ensures k in v.blocks <==> Live(more, k) {
      if op.Put? { LivePut(ops, op, k); } else { LiveDrop(ops, op.key, k); }
    }
    forall k ensures k in v.history <==> StoredIn(more, k) {
      if StoredIn(ops, k) {
        var p :| p in ops && p.Put? && p.key == k;
        assert p in more;
      }
    }
  }

  lemma {:induction false} OpsDescribe(f: Fold, ops: seq<Op>, more: seq<Op>)
    requires Describes(f.view, ops) && (forall op :: op in more ==> !op.Clear?) && f.ok && DoAll(f, more).ok
    ensures Describes(DoAll(f, more).view, ops + more)
    decreases |more|
  {
    hide Describes, Do;
    if more == [] {
      assert ops + more == ops;
    } else {
      OkStays(Do(f, more[0]), more[1..]);
      OpDescribes(f, ops, more[0]);
      OpsDescribe(Do(f, more[0]), ops + [more[0]], more[1..]);
      assert ops + [more[0]] + more[1..] == ops + more;
    }
  }

  lemma {:induction false} OkStays(f: Fold, ops: seq<Op>)
    requires DoAll(f, ops).ok
    ensures f.ok
    decreases |ops|
  {
    if ops != [] && f.ok { OkStays(Do(f, ops[0]), ops[1..]); }
  }

  lemma {:induction false} PutsOnly(keys: seq<Key>, tokens: seq<int>, parent: Option<Key>)
    requires |tokens| == 16 * |keys|
    ensures forall op :: op in Puts(keys, tokens, parent) ==> op.Put?
    decreases |keys|
  {
    if keys != [] { PutsOnly(keys[1..], tokens[16..], Some(keys[0])); }
  }

  /** Only a clear event asks for a clear. */
  lemma NoClear(e: Event)
    requires !IsClear(e) && Read(e).Ops?
    ensures forall op :: op in Read(e).ops ==> !op.Clear?
  {
    hide Keys;
    if e.kind == "BlockStored" {
      var p := if e.parent.value.None? then None else HashKey(e.parent.value.value);
      PutsOnly(Keys(e.hashes.value).value, e.tokens.value, p);
    }
  }

  lemma {:induction false} CompleteFlag(f: Fold, ops: seq<Op>)
    requires (forall op :: op in ops ==> !op.Clear?) && f.ok && DoAll(f, ops).ok
    ensures DoAll(f, ops).view.complete == f.view.complete
    decreases |ops|
  {
    if ops != [] {
      OkStays(Do(f, ops[0]), ops[1..]);
      CompleteFlag(Do(f, ops[0]), ops[1..]);
    }
  }

  lemma ClearExact(f: Fold, events: seq<Event>, e: Event)
    requires f.ok && IsClear(e)
    ensures Told(DoEvent(f, e).view, events + [e])
  {
    var more := events + [e];
    assert more[|events|] == e && e in more;
    assert Since(more) == [];
    assert DoAll(f, [Clear]) == Do(f, Clear);
  }

  lemma ReadExact(f: Fold, events: seq<Event>, e: Event)
    requires f.ok && f.view.complete && Told(f.view, events)
    requires !IsClear(e) && Read(e).Ops? && DoAll(f, Read(e).ops).ok
    ensures Told(DoAll(f, Read(e).ops).view, events + [e])
  {
    hide Describes, Since, Read;
    NoClear(e);
    SinceSnoc(events, e);
    var tail := Since(events);
    assert (tail + [e])[..|tail|] == tail;
    OpsDescribe(f, AllAsked(tail), Read(e).ops);
    ClearStays(events, e);
  }

  /** One more event of the log, read in full. */
  lemma EventExact(f: Fold, events: seq<Event>, e: Event)
    requires f.ok && DoEvent(f, e).ok && DoEvent(f, e).view.complete
    requires f.view.complete ==> Told(f.view, events)
    ensures Told(DoEvent(f, e).view, events + [e])
  {
    hide Told, Read, DoAll;
    if IsClear(e) {
      ClearExact(f, events, e);
    } else {
      NoClear(e);
      CompleteFlag(f, Read(e).ops);
      ReadExact(f, events, e);
    }
  }

  lemma SinceSnoc(events: seq<Event>, e: Event)
    requires !IsClear(e)
    ensures Since(events + [e]) == Since(events) + [e]
  {
    assert (events + [e])[..|events|] == events;
  }

  lemma ClearStays(events: seq<Event>, e: Event)
    requires HasClear(events)
    ensures HasClear(events + [e])
  {
    var x :| x in events && IsClear(x);
    assert x in events + [e];
  }

  /** A whole batch: completeness at the end is earned inside it or carried from before. */
  lemma {:induction false} BatchExact(f: Fold, before: seq<Event>, events: seq<Event>)
    requires f.ok && (f.view.complete ==> Told(f.view, before))
    ensures DoEvents(f, events).ok && DoEvents(f, events).view.complete ==>
              Told(DoEvents(f, events).view, before + events)
    decreases |events|
  {
    hide Told, DoEvent;
    if events == [] {
      assert before + events == before;
    } else {
      var init, e := events[..|events| - 1], events[|events| - 1];
      assert events == init + [e] && before + events == before + init + [e];
      DoEventsSnoc(f, init, e);
      BatchExact(f, before, init);
      if DoEvents(f, events).ok && DoEvents(f, events).view.complete {
        EventExact(DoEvents(f, init), before + init, e);
      }
    }
  }

  lemma {:induction false} UnreadRaises(f: Fold, events: seq<Event>, e: Event)
    requires e in events && !Read(e).Ops?
    ensures !DoEvents(f, events).ok
    decreases |events|
  {
    if f.ok && events[0] != e { UnreadRaises(DoEvent(f, events[0]), events[1..], e); }
  }

  ghost predicate Faithful(log: seq<Batch>, base: int, s: State) {
    s.view.complete ==>
      && s.lastSequence.Some? && base <= s.lastSequence.value < base + |log|
      && Told(s.view, Events(log[..s.lastSequence.value - base + 1]))
  }

  lemma CollectFaithful(log: seq<Batch>, base: int, s: State, d: Delivery)
    requires Faithful(log, base, s) && Plausible(log, base, d)
    ensures Faithful(log, base, Collected(s, d))
  {
    hide Told, DoEvents, Read;
    if d.Delivered? && d.batch.Batch? && !Duplicate(s, d.sequence, d.hash) && Folded(s, d.sequence, d.batch).ok {
      var f := Open(Entering(s, d.sequence));
      if e :| e in d.batch.events && !Legible(e) {
        LegibleRead(e);
        UnreadRaises(f, d.batch.events, e);
      }
      var i := d.sequence - base;
      assert log[..i + 1][..i] == log[..i];
      BatchExact(f, Events(log[..i]), d.batch.events);
    }
  }

  lemma FaithfulAtStart(log: seq<Batch>, base: int)
    ensures Faithful(log, base, INITIAL)
  {
  }

  /******* What the reader makes of an event is what its fields say *******/

  lemma {:induction false} KeysAt(hashes: seq<Hash>)
    ensures Keys(hashes).Some? <==> forall h :: h in hashes ==> Keyed(h)
    ensures Keys(hashes).Some? ==> forall i :: 0 <= i < |hashes| ==> KeyFor(hashes[i], Keys(hashes).value[i])
  {
    if hashes != [] {
      var rest := hashes[1..];
      KeysAt(rest);
      assert forall h :: h in hashes <==> h == hashes[0] || h in rest;
      assert HashKey(hashes[0]).Some? <==> Keyed(hashes[0]);
      if Keys(hashes).Some? {
        var keys := Keys(hashes).value;
        assert keys == [HashKey(hashes[0]).value] + Keys(rest).value;
        forall i | 0 <= i < |hashes| ensures KeyFor(hashes[i], keys[i]) {
          if i > 0 { assert hashes[i] == rest[i - 1] && keys[i] == Keys(rest).value[i - 1]; }
        }
      }
    }
  }

  /** An event is read exactly when its fields allow it. */
  lemma LegibleRead(e: Event)
    ensures Read(e).Ops? <==> Legible(e)
  {
    hide Keys, Puts;
    if e.Mapping? && e.hashes.Some? { KeysAt(e.hashes.value); }
  }

  /** What a legible stored event asks for: its blocks, each with its parent and tokens. */
  lemma StoredAsked(e: Event, k: Key, r: Record)
    requires Legible(e) && e.kind == "BlockStored"
    ensures Read(e).Ops? && (Put(k, r) in Read(e).ops <==> Stores(e, k, r))
    ensures forall op :: op in Read(e).ops ==> op.Put?
  {
    hide Keys, Puts;
    KeysAt(e.hashes.value);
    var keys := Keys(e.hashes.value).value;
    var p := if e.parent.value.None? then None else HashKey(e.parent.value.value);
    var ops := Puts(keys, e.tokens.value, p);
    assert Read(e) == Ops(ops);
    PutsOnly(keys, e.tokens.value, p);
    if Put(k, r) in ops {
      var i :| 0 <= i < |ops| && ops[i] == Put(k, r);
      PutsAt(keys, e.tokens.value, p, i);
      assert StoresAt(e, i, k, r);
    }
    if Stores(e, k, r) {
      var i: nat :| StoresAt(e, i, k, r);
      PutsAt(keys, e.tokens.value, p, i);
      assert ops[i] == Put(k, r);
    }
  }

  /** A legible removal asks for exactly its blocks to be dropped. */
  lemma RemovedAsked(e: Event, k: Key)
    requires Legible(e) && e.kind == "BlockRemoved"
    ensures Read(e).Ops? && (Drop(k) in Read(e).ops <==> Removes(e, k))
    ensures forall op :: op in Read(e).ops ==> op.Drop?
  {
    hide Keys;
    KeysAt(e.hashes.value);
    var keys := Keys(e.hashes.value).value;
    assert Read(e) == Ops(Drops(keys));
    if Drop(k) in Drops(keys) {
      var i :| 0 <= i < |keys| && Drops(keys)[i] == Drop(k);
      assert KeyFor(e.hashes.value[i], k);
    }
    if Removes(e, k) {
      var i :| 0 <= i < |e.hashes.value| && KeyFor(e.hashes.value[i], k);
      assert Drops(keys)[i] == Drop(k);
    }
  }

  /** An event asks for a block to be stored, or dropped, exactly when its fields say so. */
  lemma AskedMeans(e: Event, k: Key, r: Record)
    requires Legible(e) && !IsClear(e)
    ensures Put(k, r) in Asked(e) <==> Stores(e, k, r)
    ensures Drop(k) in Asked(e) <==> Removes(e, k)
    ensures (forall op :: op in Asked(e) ==> op.Put?) || (forall op :: op in Asked(e) ==> op.Drop?)
  {
    hide Read, Legible;
    LegibleKinds(e);
    if e.kind == "BlockStored" { StoredAsked(e, k, r); } else { RemovedAsked(e, k); }
  }

  lemma LegibleKinds(e: Event)
    requires Legible(e) && !IsClear(e)
    ensures e.Mapping? && (e.kind == "BlockStored" || e.kind == "BlockRemoved")
  {
  }

  lemma {:induction false} LiveMore(ops: seq<Op>, more: seq<Op>, k: Key)
    requires (forall op :: op in more ==> op.Put?) || (forall op :: op in more ==> op.Drop?)
    ensures Live(ops + more, k) <==> StoredIn(more, k) || (Live(ops, k) && Drop(k) !in more)
    decreases |more|
  {
    hide Live;
    if more == [] {
      assert ops + more == ops;
    } else {
      var init, op := more[..|more| - 1], more[|more| - 1];
      assert more == init + [op] && ops + more == ops + init + [op];
      LiveMore(ops, init, k);
      if op.Put? {
        LivePut(ops + init, op, k);
        assert op in more;
        assert forall x :: x in more ==> x.Put?;
        StoredSnoc(init, op, k);
      } else {
        LiveDrop(ops + init, op.key, k);
        assert !StoredIn(more, k) && !StoredIn(init, k);
      }
    }
  }

  lemma StoredSnoc(ops: seq<Op>, op: Op, k: Key)
    ensures StoredIn(ops + [op], k) <==> StoredIn(ops, k) || (op.Put? && op.key == k)
  {
    assert op in ops + [op];
    if StoredIn(ops, k) {
      var p :| p in ops && p.Put? && p.key == k;
      assert p in ops + [op];
    }
  }

  lemma RemainsSnoc(events: seq<Event>, e: Event, k: Key)
    ensures Remains(events + [e], k) <==> (exists r :: Stores(e, k, r)) || (Remains(events, k) && !Removes(e, k))
  {
    hide Stores, Removes;
    var more := events + [e];
    if r :| Stores(e, k, r) {
      assert Stores(more[|events|], k, r);
    } else if Remains(events, k) && !Removes(e, k) {
      var i, r :| 0 <= i < |events| && Stores(events[i], k, r) && forall j :: i < j < |events| ==> !Removes(events[j], k);
      assert Stores(more[i], k, r);
    }
    if Remains(more, k) && !exists r :: Stores(e, k, r) {
      var i, r :| 0 <= i < |more| && Stores(more[i], k, r) && forall j :: i < j < |more| ==> !Removes(more[j], k);
      assert more[|events|] == e && i < |events| && Stores(events[i], k, r);
      assert forall j :: i < j < |events| ==> events[j] == more[j];
    }
  }

  lemma {:induction false} LiveRemains(events: seq<Event>, k: Key)
    requires forall e :: e in events ==> Legible(e) && !IsClear(e)
    ensures Live(AllAsked(events), k) <==> Remains(events, k)
  {
    hide Live, Remains, Legible, IsClear, Asked, Stores, Removes;
    if events == [] {
      NothingRemains(k);
    } else {
      var init, e := events[..|events| - 1], events[|events| - 1];
      assert events == init + [e];
      LiveRemains(init, k);
      forall r ensures Put(k, r) in Asked(e) <==> Stores(e, k, r) { AskedMeans(e, k, r); }
      AskedMeans(e, k, Record(None, []));
      assert StoredIn(Asked(e), k) <==> exists r :: Stores(e, k, r) by { StoredMeans(Asked(e), k); }
      LiveMore(AllAsked(init), Asked(e), k);
      RemainsSnoc(init, e, k);
    }
  }

  lemma StoredMeans(ops: seq<Op>, k: Key)
    ensures StoredIn(ops, k) <==> exists r :: Put(k, r) in ops
  {
    if StoredIn(ops, k) {
      var op :| op in ops && op.Put? && op.key == k;
      assert Put(k, op.record) in ops;
    }
  }

  lemma NothingRemains(k: Key)
    ensures !Live(AllAsked([]), k) && !Remains([], k)
  {
  }

  lemma {:induction false} PutMeansStores(events: seq<Event>, k: Key, r: Record)
    requires forall e :: e in events ==> Legible(e) && !IsClear(e)
    ensures Put(k, r) in AllAsked(events) <==> exists e :: e in events && Stores(e, k, r)
  {
    hide Legible, IsClear, Asked, Stores, Removes;
    if events != [] {
      var init, e := events[..|events| - 1], events[|events| - 1];
      PutMeansStores(init, k, r);
      AskedMeans(e, k, r);
      assert forall x :: x in events <==> x in init || x == e;
    }
  }

  lemma StoredByMeans(events: seq<Event>, k: Key)
    requires forall e :: e in events ==> Legible(e) && !IsClear(e)
    ensures StoredIn(AllAsked(events), k) <==> StoredBy(events, k)
  {
    hide Legible, IsClear, AllAsked, Stores;
    StoredMeans(AllAsked(events), k);
    if StoredBy(events, k) {
      var i, r :| 0 <= i < |events| && Stores(events[i], k, r);
      PutMeansStores(events, k, r);
      assert Put(k, r) in AllAsked(events);
    }
    if StoredIn(AllAsked(events), k) {
      var r :| Put(k, r) in AllAsked(events);
      PutMeansStores(events, k, r);
      var e :| e in events && Stores(e, k, r);
      var i :| 0 <= i < |events| && events[i] == e;
      assert Stores(events[i], k, r);
    }
  }

  /** Reading the log and following its fields tell the same story. */
  lemma ToldExact(v: View, events: seq<Event>)
    requires Told(v, events)
    ensures Exact(v, events)
  {
    hide Read, Legible, IsClear, AllAsked, Stores, Live, Remains, StoredBy, Agree;
    var since := Since(events);
    forall e | e in since ensures Legible(e) { LegibleRead(e); }
    forall k ensures k in v.history <==> StoredBy(since, k) { StoredByMeans(since, k); }
    forall k ensures k in v.blocks <==> Remains(since, k) { LiveRemains(since, k); }
    forall e, k, r | e in since && Stores(e, k, r) && k in v.history ensures v.history[k] == r {
      PutMeansStores(since, k, r);
    }
  }

  ghost predicate Sound(log: seq<Batch>, base: int, s: State) {
    s.view.complete ==>
      && s.lastSequence.Some? && base <= s.lastSequence.value < base + |log|
      && Exact(s.view, Events(log[..s.lastSequence.value - base + 1]))
  }

  lemma FaithfulSound(log: seq<Batch>, base: int, s: State)
    requires Faithful(log, base, s)
    ensures Sound(log, base, s)
  {
    hide Told, Exact;
    if s.view.complete { ToldExact(s.view, Events(log[..s.lastSequence.value - base + 1])); }
  }

  lemma {:induction false} AlwaysFaithful(log: seq<Batch>, base: int, ds: seq<Delivery>)
    requires forall d :: d in ds ==> Plausible(log, base, d)
    ensures Faithful(log, base, CollectedAll(ds))
  {
    hide Plausible, Faithful, Collected;
    if ds != [] {
      AlwaysFaithful(log, base, ds[..|ds| - 1]);
      CollectFaithful(log, base, CollectedAll(ds[..|ds| - 1]), ds[|ds| - 1]);
    } else {
      FaithfulAtStart(log, base);
    }
  }

  /** The main result: for any deliveries drawn from a log with one batch per number, with
      losses, repeats, reordering and unreadable batches, a ledger that calls itself complete
      is exactly the log's story from its latest clear up to the last number it took. */
  lemma CompleteMeansExact(log: seq<Batch>, base: int, ds: seq<Delivery>)
    requires forall d :: d in ds ==> Plausible(log, base, d)
    ensures Sound(log, base, CollectedAll(ds))
  {
    hide Plausible, Faithful, Sound, CollectedAll;
    AlwaysFaithful(log, base, ds);
    FaithfulSound(log, base, CollectedAll(ds));
  }

  /******* Completeness can be regained *******/

  lemma {:induction false} ClearCompletes(f: Fold, events: seq<Event>)
    requires DoEvents(f, events).ok && (f.view.complete || HasClear(events))
    ensures DoEvents(f, events).view.complete
    decreases |events|
  {
    hide Read, DoAll;
    if events != [] {
      var e := events[0];
      EventOk(f, events);
      if IsClear(e) {
        ClearRead(f, e);
      } else {
        NoClear(e);
        CompleteFlag(f, Read(e).ops);
        if x :| x in events && IsClear(x) { assert x in events[1..]; }
      }
      ClearCompletes(DoEvent(f, e), events[1..]);
    }
  }

  lemma ClearRead(f: Fold, e: Event)
    requires f.ok && IsClear(e)
    ensures DoEvent(f, e).ok && DoEvent(f, e).view.complete
  {
    assert DoAll(f, [Clear]) == Do(f, Clear);
  }

  lemma {:induction false} EventOk(f: Fold, events: seq<Event>)
    requires events != [] && DoEvents(f, events).ok
    ensures f.ok && DoEvent(f, events[0]).ok && Read(events[0]).Ops?
    decreases |events|
  {
    if !Read(events[0]).Ops? { UnreadRaises(f, events, events[0]); }
    if events[1..] != [] { EventOk(DoEvent(f, events[0]), events[1..]); }
  }

  /** Whatever was lost before, a batch that is read in full and holds a clear makes the ledger
      complete, and one that is next in number and read in full keeps it complete. */
  lemma Regained(s: State, d: Delivery)
    requires d.Delivered? && d.batch.Batch? && !Raises(s, d.sequence, d.hash, d.batch)
    requires !Duplicate(s, d.sequence, d.hash)
    requires HasClear(d.batch.events) || (s.view.complete && !Gap(s, d.sequence))
    ensures Collected(s, d).view.complete
  {
    ClearCompletes(Open(Entering(s, d.sequence)), d.batch.events);
  }

  /******* Conservation of the batch counters *******/

  lemma {:induction false} OpsBalance(f: Fold, ops: seq<Op>)
    ensures var g := DoAll(f, ops);
            && g.stored >= f.stored && g.removed >= f.removed && g.cleared >= f.cleared
            && (g.cleared == f.cleared ==>
                  |g.view.blocks| - g.stored + g.removed == |f.view.blocks| - f.stored + f.removed)
    decreases |ops|
  {
    if ops != [] && f.ok {
      OpBalance(f, ops[0]);
      OpsBalance(Do(f, ops[0]), ops[1..]);
    }
  }

  lemma OpBalance(f: Fold, op: Op)
    ensures var g := Do(f, op);
            && g.stored >= f.stored && g.removed >= f.removed && g.cleared >= f.cleared
            && (g.cleared == f.cleared ==>
                  |g.view.blocks| - g.stored + g.removed == |f.view.blocks| - f.stored + f.removed)
  {
    match op {
      case Clear =>
      case Drop(k) => RemoveSize(f.view.blocks, k);
      case Put(k, r) => InsertSize(f.view.blocks, k, r);
    }
  }

  lemma RemoveSize(m: map<Key, Record>, k: Key)
    ensures |m - {k}| == |m| - if k in m then 1 else 0
  {
    assert (m - {k}).Keys == m.Keys - {k};
    if k !in m { assert m - {k} == m; }
  }

  lemma InsertSize(m: map<Key, Record>, k: Key, r: Record)
    ensures |m[k := r]| == |m| + if k in m then 0 else 1
  {
    assert m[k := r].Keys == m.Keys + {k};
  }

  lemma {:induction false} EventsBalance(f: Fold, events: seq<Event>)
    ensures var g := DoEvents(f, events);
            && g.stored >= f.stored && g.removed >= f.removed && g.cleared >= f.cleared
            && (g.cleared == f.cleared ==>
                  |g.view.blocks| - g.stored + g.removed == |f.view.blocks| - f.stored + f.removed)
    decreases |events|
  {
    hide Read, DoAll;
    if events != [] && f.ok {
      if Read(events[0]).Ops? { OpsBalance(f, Read(events[0]).ops); }
      EventsBalance(DoEvent(f, events[0]), events[1..]);
    }
  }

  lemma {:induction false} PutsKeepCounts(f: Fold, ops: seq<Op>)
    requires forall op :: op in ops ==> op.Put?
    ensures var g := DoAll(f, ops); g.removed == f.removed && g.cleared == f.cleared
    decreases |ops|
  {
    if ops != [] && f.ok {
      assert ops[0] in ops;
      PutsKeepCounts(Do(f, ops[0]), ops[1..]);
    }
  }

  lemma {:induction false} DropsKeepCounts(f: Fold, ops: seq<Op>)
    requires forall op :: op in ops ==> op.Drop?
    ensures var g := DoAll(f, ops); g.stored == f.stored && g.cleared == f.cleared && g.ok == f.ok
    decreases |ops|
  {
    if ops != [] && f.ok {
      assert ops[0] in ops;
      DropsKeepCounts(Do(f, ops[0]), ops[1..]);
    }
  }

  /** What each kind of event adds to the counters: new entries, entries taken away, or a clear. */
  lemma EventCounts(f: Fold, e: Event)
    requires f.ok && DoEvent(f, e).ok
    ensures Legible(e)
    ensures var g, grown := DoEvent(f, e), |DoEvent(f, e).view.blocks| - |f.view.blocks|;
            && (e.kind == "BlockStored" ==> g == f.(view := g.view, stored := g.stored) && g.stored - f.stored == grown)
            && (e.kind == "BlockRemoved" ==> g == f.(view := g.view, removed := g.removed) && g.removed - f.removed == -grown)
            && (e.kind == "AllBlocksCleared" ==> g == f.(view := View(true, map[], map[]), cleared := f.cleared + 1))
  {
    hide Read, Legible, DoAll;
    LegibleRead(e);
    if IsClear(e) {
      ClearCounts(f, e);
    } else {
      LegibleKinds(e);
      OpsBalance(f, Read(e).ops);
      if e.kind == "BlockStored" {
        StoredAsked(e, NumberKey(0), Record(None, []));
        PutsKeepCounts(f, Read(e).ops);
      } else {
        RemovedAsked(e, NumberKey(0));
        DropsKeepCounts(f, Read(e).ops);
      }
    }
  }

  lemma ClearCounts(f: Fold, e: Event)
    requires f.ok && IsClear(e)
    ensures DoEvent(f, e) == f.(view := View(true, map[], map[]), cleared := f.cleared + 1)
  {
    assert DoAll(f, [Clear]) == Do(f, Clear);
  }

  /******* Which events are refused *******/

  ghost predicate OpsAgreeWith(h: map<Key, Record>, ops: seq<Op>)
    requires forall op :: op in ops ==> op.Put?
  {
    && (forall op :: op in ops && op.key in h ==> h[op.key] == op.record)
    && (forall a, b :: a in ops && b in ops && a.key == b.key ==> a.record == b.record)
  }

  lemma OpsAgreeFirst(h: map<Key, Record>, ops: seq<Op>)
    requires ops != [] && forall op :: op in ops ==> op.Put?
    ensures var k, r := ops[0].key, ops[0].record;
            OpsAgreeWith(h, ops) <==> (k in h ==> h[k] == r) && OpsAgreeWith(h[k := r], ops[1..])
  {
    var k, r, g := ops[0].key, ops[0].record, h[ops[0].key := ops[0].record];
    assert forall op :: op in ops <==> op == ops[0] || op in ops[1..];
    if (k in h ==> h[k] == r) && OpsAgreeWith(g, ops[1..]) {
      forall op | op in ops && op.key in h ensures h[op.key] == op.record { if op != ops[0] { assert op.key in g; } }
      forall a, b | a in ops && b in ops && a.key == b.key ensures a.record == b.record {
        if a in ops[1..] && b == ops[0] { assert a.key in g; }
        if b in ops[1..] && a == ops[0] { assert b.key in g; }
      }
    }
  }

  lemma {:induction false} PutsOk(f: Fold, ops: seq<Op>)
    requires f.ok && forall op :: op in ops ==> op.Put?
    ensures DoAll(f, ops).ok <==> OpsAgreeWith(f.view.history, ops)
    decreases |ops|
  {
    hide OpsAgreeWith;
    if ops == [] {
      NoOpsAgree(f.view.history);
    } else {
      assert ops[0] in ops;
      OpsAgreeFirst(f.view.history, ops);
      if Do(f, ops[0]).ok { PutsOk(Do(f, ops[0]), ops[1..]); }
    }
  }

  lemma NoOpsAgree(h: map<Key, Record>)
    ensures OpsAgreeWith(h, [])
  {
  }

  /** No block of the event has another record in the history or elsewhere in the event. */
  ghost predicate Consistent(h: map<Key, Record>, e: Event) {
    && (forall k, r :: Stores(e, k, r) && k in h ==> h[k] == r)
    && (forall k, r, q :: Stores(e, k, r) && Stores(e, k, q) ==> r == q)
  }

  /** An event is taken exactly when its fields allow it and its blocks contradict no record. */
  lemma EventTaken(f: Fold, e: Event)
    requires f.ok
    ensures DoEvent(f, e).ok <==> Legible(e) && Consistent(f.view.history, e)
  {
    hide Read, Legible, DoAll, Stores;
    LegibleRead(e);
    if Legible(e) {
      if IsClear(e) {
        ClearRead(f, e);
        NoStores(e);
      } else {
        LegibleKinds(e);
        if e.kind == "BlockStored" {
          forall k, r ensures Put(k, r) in Read(e).ops <==> Stores(e, k, r) { StoredAsked(e, k, r); }
          StoredAsked(e, NumberKey(0), Record(None, []));
          PutsOk(f, Read(e).ops);
          AgreeMeans(f.view.history, e, Read(e).ops);
        } else {
          RemovedAsked(e, NumberKey(0));
          DropsKeepCounts(f, Read(e).ops);
          NoStores(e);
        }
      }
    }
  }

  lemma NoStores(e: Event)
    requires e.Mapping? && e.kind != "BlockStored"
    ensures forall k, r :: !Stores(e, k, r)
  {
  }

  lemma AgreeMeans(h: map<Key, Record>, e: Event, ops: seq<Op>)
    requires (forall op :: op in ops ==> op.Put?) && forall k, r :: Put(k, r) in ops <==> Stores(e, k, r)
    ensures OpsAgreeWith(h, ops) <==> Consistent(h, e)
  {
    hide Stores;
    if Consistent(h, e) {
      forall op | op in ops && op.key in h ensures h[op.key] == op.record { assert op == Put(op.key, op.record); }
      forall a, b | a in ops && b in ops && a.key == b.key ensures a.record == b.record {
        assert a == Put(a.key, a.record) && b == Put(b.key, b.record);
      }
    }
    if OpsAgreeWith(h, ops) {
      forall k, r | Stores(e, k, r) && k in h ensures h[k] == r { assert Put(k, r) in ops; }
      forall k, r, q | Stores(e, k, r) && Stores(e, k, q) ensures r == q { assert Put(k, r) in ops && Put(k, q) in ops; }
    }
  }

  /** Without a clear, what a batch publishes anew less what it removes is the change in size. */
  lemma ReceiptBalance(s: State, sequence: int, batch: Batch)
    requires batch.Batch? && Folded(s, sequence, batch).cleared == 0
    ensures var f := Folded(s, sequence, batch);
            |f.view.blocks| == |s.view.blocks| + f.stored - f.removed
  {
    EventsBalance(Open(Entering(s, sequence)), batch.events);
  }

  /******* The collector as it is written *******/

  class PublishedBlocks {
    var lastSequence: Option<int>
    var lastHash: string
    var complete: bool
    var blocks: map<Key, Record>
    var history: map<Key, Record>
    var issues: seq<Issue>

    ghost function Seen(): View
      reads this
    {
      View(complete, blocks, history)
    }

    ghost function St(): State
      reads this
    {
      State(lastSequence, lastHash, Seen(), issues)
    }

    constructor ()
      ensures St() == INITIAL
    {
      lastSequence, lastHash, complete, blocks, history, issues := None, "", false, map[], map[], [];
    }

    method ParseHashes(hashes: seq<Hash>) returns (keys: Option<seq<Key>>)
      ensures keys == Keys(hashes)
    {
      var out: seq<Key> := [];
      assert hashes[0..] == hashes;
      assert Keys(hashes).Some? ==> out + Keys(hashes).value == Keys(hashes).value;
      for i := 0 to |hashes|
        invariant |out| == i
        invariant Keys(hashes) == (var rest := Keys(hashes[i..]); if rest.None? then None else Some(out + rest.value))
      {
        assert hashes[i..][1..] == hashes[i + 1..];
        var k := HashKey(hashes[i]);
        if k.None? { return None; }
        ghost var rest := Keys(hashes[i + 1..]);
        assert rest.Some? ==> out + ([k.value] + rest.value) == out + [k.value] + rest.value;
        out := out + [k.value];
      }
      assert hashes[|hashes|..] == [] && out + [] == out;
      keys := Some(out);
    }

    method RemoveKeys(keys: seq<Key>, ghost f: Fold) returns (removed: nat)
      requires f.ok && f.view == Seen()
      modifies `blocks
      ensures DoAll(f, Drops(keys)) == f.(view := Seen(), removed := f.removed + removed)
    {
      removed := 0;
      assert Drops(keys)[0..] == Drops(keys);
      for i := 0 to |keys|
        invariant DoAll(f, Drops(keys)) == DoAll(f.(view := Seen(), removed := f.removed + removed), Drops(keys)[i..])
      {
        assert Drops(keys)[i..][1..] == Drops(keys)[i + 1..];
        if keys[i] in blocks { removed := removed + 1; }
        blocks := blocks - {keys[i]};
      }
    }

    /** Store a chain of blocks; a hash whose earlier record differs ends the batch. */
    method StoreKeys(keys: seq<Key>, tokens: seq<int>, first: Option<Key>, ghost f: Fold) returns (ok: bool, stored: nat)
      requires f.ok && f.view == Seen() && |tokens| == 16 * |keys|
      modifies `blocks, `history, `complete
      ensures DoAll(f, Puts(keys, tokens, first)) == f.(view := Seen(), ok := ok, stored := f.stored + stored)
    {
      hide Puts, DoAll, Do;
      stored := 0;
      var parent := first;
      ghost var ops, g := Puts(keys, tokens, first), f;
      assert ops[0..] == ops;
      for i := 0 to |keys|
        invariant parent == if i == 0 then first else Some(keys[i - 1])
        invariant g == f.(view := Seen(), stored := f.stored + stored) && DoAll(f, ops) == DoAll(g, ops[i..])
      {
        PutsAt(keys, tokens, first, i);
        DoNext(g, ops, i);
        var record := Record(parent, tokens[16 * i..16 * (i + 1)]);
        DoPut(g, keys[i], record);
        if keys[i] in history && history[keys[i]] != record {
          complete := false;
          return false, stored;
        }
        if keys[i] !in blocks { stored := stored + 1; }
        blocks, history := blocks[keys[i] := record], history[keys[i] := record];
        parent, g := Some(keys[i]), Do(g, ops[i]);
      }
      assert ops[|keys|..] == [];
      DoNone(g);
      ok := true;
    }

    method ApplyStored(e: Event, keys: seq<Key>, ghost f: Fold) returns (ok: bool, stored: nat)
      requires e.Mapping? && f.ok && f.view == Seen()
      modifies `blocks, `history, `complete
      ensures f.(view := Seen(), ok := ok, stored := f.stored + stored) ==
                match ReadStored(e, keys)
                case Ops(ops) => DoAll(f, ops)
                case Refused => f.(view := f.view.(complete := false), ok := false)
                case Raised => f.(ok := false)
    {
      stored := 0;
      if e.blockSize != 16 { complete := false; return false, 0; }
      if e.tokens.None? { return false, 0; }
      if |e.tokens.value| != 16 * |keys| { complete := false; return false, 0; }
      if e.lora { complete := false; return false, 0; }
      if e.extraKeys { complete := false; return false, 0; }
      if e.parent.None? { return false, 0; }
      var parent: Option<Key> := None;
      if e.parent.value.Some? {
        parent := HashKey(e.parent.value.value);
        if parent.None? { return false, 0; }
      }
      ok, stored := StoreKeys(keys, e.tokens.value, parent, f);
    }

    method ApplyEvent(e: Event, ghost f: Fold) returns (ok: bool, stored: nat, removed: nat, cleared: nat)
      requires f.ok && f.view == Seen()
      modifies `blocks, `history, `complete
      ensures DoEvent(f, e) == Fold(Seen(), ok, f.stored + stored, f.removed + removed, f.cleared + cleared)
    {
      ok, stored, removed, cleared := false, 0, 0, 0;
      if e.NotMapping? { return; }
      if e.kind == "AllBlocksCleared" {
        blocks, history, complete := map[], map[], true;
        assert DoAll(f, [Clear]) == Do(f, Clear);
        return true, 0, 0, 1;
      }
      if e.kind != "BlockStored" && e.kind != "BlockRemoved" { complete := false; return; }
      if e.medium != "GPU" || (e.group.Some? && e.group.value != 0) { complete := false; return; }
      if e.hashes.None? { return; }
      var keys := ParseHashes(e.hashes.value);
      if keys.None? { return; }
      if e.kind == "BlockRemoved" {
        removed := RemoveKeys(keys.value, f);
        ok := true;
      } else {
        ok, stored := ApplyStored(e, keys.value, f);
      }
    }

    /** Take one numbered batch; `Failure` stands for a raised error, after which the fields
        keep what the batch did before it. */
    method Accept(sequence: int, hash: string, batch: Batch) returns (r: Result<Receipt>)
      modifies this
      ensures St() == Accepted(old(St()), sequence, hash, batch)
      ensures r.Failure? <==> Raises(old(St()), sequence, hash, batch)
      ensures r.Success? ==>
                var f := if r.value.duplicate then Open(Seen()) else Folded(old(St()), sequence, batch);
                && r.value.duplicate == Duplicate(old(St()), sequence, hash)
                && r.value == Receipt(r.value.duplicate, complete, |blocks|, f.stored, f.removed, f.cleared,
                                      !r.value.duplicate && Gap(old(St()), sequence))
    {
      hide DoEvent;
      if lastSequence == Some(sequence) && lastHash == hash {
        return Success(Receipt(true, complete, |blocks|, 0, 0, 0, false));
      }
      var issue := lastSequence.Some? && sequence != lastSequence.value + 1;
      if issue { complete := false; }
      lastSequence, lastHash := Some(sequence), hash;
      if batch.Malformed? { return Failure("batch rejected"); }
      var events := batch.events;
      var stored, removed, cleared := 0, 0, 0;
      ghost var f := Open(Seen());
      assert events[0..] == events;
      for i := 0 to |events|
        invariant lastSequence == Some(sequence) && lastHash == hash && issues == old(issues)
        invariant DoEvents(f, events) == DoEvents(Fold(Seen(), true, stored, removed, cleared), events[i..])
      {
        assert events[i..][1..] == events[i + 1..];
        var ok, s, d, k := ApplyEvent(events[i], Fold(Seen(), true, stored, removed, cleared));
        stored, removed, cleared := stored + s, removed + d, cleared + k;
        if !ok { return Failure("batch rejected"); }
      }
      if issue { issues := issues + [Issue(sequence)]; }
      r := Success(Receipt(false, complete, |blocks|, stored, removed, cleared, issue));
    }

    /** One received message: whatever raises counts as a failure and ends completeness. */
    method Receive(d: Delivery) returns (failed: bool)
      modifies this
      ensures St() == Collected(old(St()), d)
      ensures failed <==> d.Unreadable? || Raises(old(St()), d.sequence, d.hash, d.batch)
    {
      hide Accepted, Raises;
      match d {
        case Unreadable =>
          failed := true;
        case Delivered(sequence, hash, batch) =>
          var r := Accept(sequence, hash, batch);
          failed := r.Failure?;
      }
      if failed { complete := false; }
    }
  }

  /** The collector's loop over the messages of a capture.  Given a log they are drawn from, a
      result that is marked complete is exact. */
  method CollectBlocks(ds: seq<Delivery>, ghost log: seq<Batch>, ghost base: int) returns (view: View, last: Option<int>)
    requires forall d :: d in ds ==> Plausible(log, base, d)
    ensures view == CollectedAll(ds).view && last == CollectedAll(ds).lastSequence
    ensures Agree(view)
    ensures view.complete ==> last.Some? && base <= last.value < base + |log|
                              && Exact(view, Events(log[..last.value - base + 1]))
  {
    hide Plausible, Collected, Exact, Agree, Events;
    var ledger := new PublishedBlocks();
    for i := 0 to |ds|
      invariant ledger.St() == CollectedAll(ds[..i])
    {
      assert ds[..i + 1][..i] == ds[..i];
      var _ := ledger.Receive(ds[i]);
    }
    assert ds[..|ds|] == ds;
    CompleteMeansExact(log, base, ds);
    AlwaysAgree(ds);
    view, last := View(ledger.complete, ledger.blocks, ledger.history), ledger.lastSequence;
  }
}
