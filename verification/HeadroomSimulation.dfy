/** The simulator as the program writes it: an object whose methods update its fields in
    place, with the program's loops.  Each method is proved to compute the transition
    function that the invariants are about. */
module HeadroomSimulation {
  import opened Numbers
  import opened Wrappers
  import opened HeadroomModel
  import opened HeadroomWorkload
  import opened HeadroomCache
  import opened HeadroomInvariant
  import opened HeadroomSteps
  import opened HeadroomJobs
  import opened HeadroomDispatch
  import opened HeadroomProgress
  import opened HeadroomRun
  import opened HeadroomHistory
  import opened HeadroomTallies
  import opened HeadroomResults
  import opened HeadroomTimes
  import opened HeadroomRevisions
  import opened HeadroomReach

  /******* Filtering the ordered cache *******/

  lemma {:induction false} FilterCompose(s: seq<Key>, a: seq<Key>, b: seq<Key>)
    ensures Unprotected(Unprotected(s, a), b) == Unprotected(s, a + b)
  {
    if s != [] { FilterCompose(s[1..], a, b); }
  }

  lemma FilterFirst(s: seq<Key>, b: seq<Key>)
    requires s != []
    ensures Unprotected(s, b) == if s[0] in b then Unprotected(s[1..], b) else [s[0]] + Unprotected(s[1..], b)
  {
  }

  lemma PrependConcat(x: Key, s: seq<Key>, t: seq<Key>)
    ensures [x] + (s + t) == [x] + s + t
  {
  }

  lemma {:induction false} FilterConcat(s: seq<Key>, t: seq<Key>, b: seq<Key>)
    ensures Unprotected(s + t, b) == Unprotected(s, b) + Unprotected(t, b)
  {
    if s == [] {
      assert s + t == t;
    } else {
      FilterConcat(s[1..], t, b);
      assert (s + t)[1..] == s[1..] + t;
      FilterFirst(s, b);
      FilterFirst(s + t, b);
      PrependConcat(s[0], Unprotected(s[1..], b), Unprotected(t, b));
    }
  }

  lemma {:induction false} FilterSame(s: seq<Key>, a: seq<Key>, b: seq<Key>)
    requires forall k :: k in s ==> (k in a <==> k in b)
    ensures Unprotected(s, a) == Unprotected(s, b)
  {
    if s != [] { FilterSame(s[1..], a, b); }
  }

  lemma {:induction false} FilterNone(s: seq<Key>, b: seq<Key>)
    requires forall k :: k in s ==> k !in b
    ensures Unprotected(s, b) == s
  {
    if s != [] { FilterNone(s[1..], b); }
  }

  /** Deleting the victim removes the oldest unprotected entry and no other. */
  lemma DropVictim(s: seq<Key>, keys: seq<Key>, victim: Key)
    requires Distinct(s) && Unprotected(s, keys) != [] && Unprotected(s, keys)[0] == victim
    ensures var t := Unprotected(s, [victim]);
            && Distinct(t) && Unprotected(t, keys) == Unprotected(s, keys)[1..]
            && (forall k :: k in keys ==> (k in t <==> k in s))
  {
    var u := Unprotected(s, keys);
    UnprotectedDistinct(s, keys);
    UnprotectedDistinct(s, [victim]);
    FilterCompose(s, [victim], keys);
    FilterCompose(s, keys, [victim]);
    FilterSame(s, [victim] + keys, keys + [victim]);
    assert u == [victim] + u[1..];
    FilterConcat([victim], u[1..], [victim]);
    assert forall i :: 0 < i < |u| ==> u[0] != u[i];
    FilterNone(u[1..], [victim]);
    assert Unprotected([victim], [victim]) == [];
    assert victim in u;
  }

  /** Moving the next reserved key to the end of the order. */
  lemma MoveToEnd(s: seq<Key>, keys: seq<Key>, i: nat)
    requires Distinct(keys) && i < |keys|
    ensures Unprotected(Unprotected(s, keys[..i]) + keys[..i], [keys[i]]) + [keys[i]]
         == Unprotected(s, keys[..i + 1]) + keys[..i + 1]
  {
    var done, key := keys[..i], keys[i];
    assert keys[..i + 1] == done + [key];
    FilterConcat(Unprotected(s, done), done, [key]);
    FilterCompose(s, done, [key]);
    assert key !in done;
    FilterNone(done, [key]);
  }

  lemma NewCount(keys: seq<Key>, i: nat, lru: seq<Key>)
    requires Distinct(keys) && i < |keys|
    ensures |Elements(keys[..i + 1]) - Elements(lru)|
         == |Elements(keys[..i]) - Elements(lru)| + if keys[i] in lru then 0 else 1
  {
    var done, key := Elements(keys[..i]), keys[i];
    assert keys[..i + 1] == keys[..i] + [key];
    assert Elements(keys[..i + 1]) == done + {key};
    assert key !in done;
    if key in lru {
      assert (done + {key}) - Elements(lru) == done - Elements(lru);
    } else {
      assert (done + {key}) - Elements(lru) == (done - Elements(lru)) + {key};
    }
  }

  /** The cache order after the `out` oldest unprotected entries were deleted. */
  ghost predicate Evicted(c: Config, from: seq<Key>, lru: seq<Key>, keys: seq<Key>, out: nat) {
    && Distinct(lru) && out <= |Unprotected(from, keys)|
    && Unprotected(lru, keys) == Unprotected(from, keys)[out..]
    && (forall k :: k in lru ==> k in from)
    && (forall k :: k in keys ==> (k in lru <==> k in from))
  }

  lemma EvictNone(c: Config, st: Sim, keys: seq<Key>)
    requires CacheShape(c, st) && Distinct(keys)
    ensures Evicted(c, st.lru, st.lru, keys, 0) && st.tags == Retag(st.tags, st.lru)
    ensures |st.lru| + |Elements(keys) - Elements(st.lru)| == |Unprotected(st.lru, keys)| + |keys|
  {
    ReservationCount(st.lru, keys);
  }

  lemma HitsNext(st: Sim, keys: seq<Key>, i: nat)
    requires i < |keys| && forall k :: k in keys ==> k in st.tags
    ensures keys[i] in st.tags && Hits(st, keys[i..]) == Hits(Hit(st, keys[i]), keys[i + 1..])
  {
    assert keys[i..][1..] == keys[i + 1..];
  }

  lemma HitsPresent(tags: map<Key, Tag>, keys: seq<Key>, n: nat)
    requires n == CachedPrefix(tags, keys)
    ensures forall k :: k in keys[..n] ==> k in tags
  {
  }

  lemma HitsNone(st: Sim)
    ensures Hits(st, []) == st
  {
  }

  /** One round of the loop over intents. */
  lemma NextIntent(c: Config, st: Sim, i: nat)
    requires i < |st.intentOrder| && IntentsFit(c, st) && c.chunk >= 1 && st.stats.computed < c.budget
    requires st.intentOrder[i] in st.intents && st.intentOrder[i] in st.states
    ensures var id := st.intentOrder[i]; var intent := st.intents[id];
            var cached := CachedPrefix(st.tags, intent.keys);
            var idle := !intent.active || st.states[id].status != Running || cached == |intent.keys|
                        || (c.policy == FutureTiming && (intent.willCancel || st.now < intent.eligibleAt));
            var early := c.policy == FutureTiming && st.now < intent.readyAt - PrefillMs(c, |intent.keys| - cached);
            && (idle <==> Idle(c, st, id))
            && IntentsFit(c, ScheduleWakeup(c, st, intent)) && ScheduleWakeup(c, st, intent).intentOrder == st.intentOrder
            && ScheduleWakeup(c, st, intent).stats == st.stats
            && (idle ==> DispatchPreparation(c, st, i) == DispatchPreparation(c, st, i + 1))
            && (!idle && early ==> DispatchPreparation(c, st, i) == DispatchPreparation(c, ScheduleWakeup(c, st, intent), i + 1))
            && (!idle && !early ==> 0 < PreparationCount(c, st, intent) && DispatchPreparation(c, st, i) == LaunchPreparation(c, st, id, intent))
  {
    hide LaunchPreparation, PrefillMs, ScheduleWakeup, CachedPrefix, Resident, IntentsFit;
    WakeFits(c, st, st.intentOrder[i]);
  }

  lemma WakeFits(c: Config, st: Sim, id: Id)
    requires IntentsFit(c, st) && id in st.intentOrder
    ensures id in st.intents && id in st.states && |st.intents[id].keys| <= c.cacheBlocks
    ensures var s := ScheduleWakeup(c, st, st.intents[id]); IntentsFit(c, s) && s.intentOrder == st.intentOrder && s.stats == st.stats
  {
    hide Begin;
  }

  lemma NoMoreIntents(c: Config, st: Sim)
    requires IntentsFit(c, st) && c.chunk >= 1 && st.stats.computed < c.budget
    ensures DispatchPreparation(c, st, |st.intentOrder|) == st
  {
  }

  lemma CountReady(c: Config, st: Sim)
    requires CacheShape(c, st)
    ensures forall k :: k in st.tags <==> k in st.lru
  {
  }

  lemma KeepAll(s: seq<Key>, keys: seq<Key>)
    ensures Unprotected(s, keys[..0]) + keys[..0] == s
  {
    FilterNone(s, keys[..0]);
  }

  lemma EvictMore(c: Config, from: seq<Key>, lru: seq<Key>, keys: seq<Key>, out: nat)
    requires Evicted(c, from, lru, keys, out) && |keys| <= c.cacheBlocks
    requires |Unprotected(from, keys)| - out + |keys| > c.cacheBlocks
    ensures Unprotected(lru, keys) != [] && out < Excess(c, from, keys)
  {
  }

  lemma {:induction false} DeleteLength(s: seq<Key>, k: Key)
    requires Distinct(s) && k in s
    ensures |Unprotected(s, [k])| == |s| - 1
  {
    if s[0] == k {
      assert forall i :: 0 < i < |s| ==> s[0] != s[i];
      FilterNone(s[1..], [k]);
    } else {
      DeleteLength(s[1..], k);
    }
  }

  lemma EvictStep(c: Config, from: seq<Key>, lru: seq<Key>, keys: seq<Key>, out: nat, victim: Key, tags: map<Key, Tag>)
    requires Evicted(c, from, lru, keys, out) && Unprotected(lru, keys) != [] && Unprotected(lru, keys)[0] == victim
    ensures var t := Unprotected(lru, [victim]);
            Evicted(c, from, t, keys, out + 1) && Retag(tags, lru) - {victim} == Retag(tags, t) && |t| == |lru| - 1
  {
    var t := Unprotected(lru, [victim]);
    DropVictim(lru, keys, victim);
    assert victim in Unprotected(lru, keys);
    DeleteLength(lru, victim);
    RetagDrop(tags, lru, t, victim);
    assert Unprotected(from, keys)[out..][1..] == Unprotected(from, keys)[out + 1..];
  }

  lemma RetagDrop(tags: map<Key, Tag>, lru: seq<Key>, rest: seq<Key>, victim: Key)
    requires forall k :: k in rest <==> k in lru && k != victim
    ensures Retag(tags, lru) - {victim} == Retag(tags, rest)
  {
  }

  lemma OrderMembers(kept: seq<Key>, keys: seq<Key>, i: nat, k: Key)
    requires i < |keys|
    ensures k in Unprotected(kept, keys[..i + 1]) + keys[..i + 1]
         <==> k == keys[i] || k in Unprotected(kept, keys[..i]) + keys[..i]
  {
    assert keys[..i + 1] == keys[..i] + [keys[i]];
  }

  lemma TagNext(c: Config, st: Sim, kept: seq<Key>, keys: seq<Key>, i: nat, tags: map<Key, Tag>)
    requires CacheShape(c, st) && Distinct(keys) && i < |keys| <= c.cacheBlocks
    requires Evicted(c, st.lru, kept, keys, Excess(c, st.lru, keys))
    requires tags == Retag(st.tags, Unprotected(kept, keys[..i]) + keys[..i])
    ensures (if keys[i] in tags then tags else tags[keys[i] := Pending])
         == Retag(st.tags, Unprotected(kept, keys[..i + 1]) + keys[..i + 1])
  {
    var now, next := Unprotected(kept, keys[..i]) + keys[..i], Unprotected(kept, keys[..i + 1]) + keys[..i + 1];
    NextTagged(c, st, kept, keys, i);
    hide Evicted, CacheShape, Distinct, Unprotected, Excess;
    forall k ensures k in next <==> k == keys[i] || k in now { OrderMembers(kept, keys, i, k); }
    RetagOne(st.tags, now, next, keys[i]);
  }

  lemma NextTagged(c: Config, st: Sim, kept: seq<Key>, keys: seq<Key>, i: nat)
    requires CacheShape(c, st) && Distinct(keys) && i < |keys| <= c.cacheBlocks
    requires Evicted(c, st.lru, kept, keys, Excess(c, st.lru, keys))
    ensures keys[i] in Unprotected(kept, keys[..i]) + keys[..i] <==> keys[i] in st.tags
  {
    assert keys[i] !in keys[..i] && keys[i] in keys;
  }

  lemma RetagOne(tags: map<Key, Tag>, now: seq<Key>, next: seq<Key>, key: Key)
    requires forall k :: k in next <==> k == key || k in now
    requires key in now <==> key in tags
    ensures var t := Retag(tags, now); (if key in t then t else t[key := Pending]) == Retag(tags, next)
  {
  }

  lemma EvictedOrder(c: Config, from: seq<Key>, kept: seq<Key>, keys: seq<Key>)
    requires |keys| <= c.cacheBlocks && Evicted(c, from, kept, keys, Excess(c, from, keys))
    ensures Unprotected(kept, keys) + keys == ReservedOrder(c, from, keys)
  {
  }

  lemma ReserveIs(c: Config, st: Sim, s: Sim, keys: seq<Key>)
    requires |keys| <= c.cacheBlocks
    requires s == st.(lru := ReservedOrder(c, st.lru, keys), tags := Retag(st.tags, ReservedOrder(c, st.lru, keys)),
                      stats := st.stats.(peak := Max(st.stats.peak, |ReservedOrder(c, st.lru, keys)|)))
    ensures s == Reserve(c, st, keys)
  {
  }

  /******* One loop step of the remaining methods *******/

  lemma TagMore(tags: map<Key, Tag>, keys: seq<Key>, i: nat, tag: Tag)
    requires i < |keys| && forall k :: k in keys ==> k in tags
    ensures forall k :: k in keys[..i + 1] ==> k in tags
    ensures SetTags(tags, keys[..i], tag)[keys[i] := tag] == SetTags(tags, keys[..i + 1], tag)
  {
    assert keys[..i + 1] == keys[..i] + [keys[i]];
    assert keys[i] in keys;
  }

  lemma HitsShape(c: Config, st: Sim, keys: seq<Key>)
    requires CacheShape(c, st) && forall k :: k in keys ==> k in st.tags
    ensures CacheShape(c, Hits(st, keys))
  {
    HitsCount(st, keys);
  }

  lemma WakesFit(c: Config, st: Sim, s: Sim)
    requires IntentsFit(c, st) && OnlyWakes(st, s)
    ensures IntentsFit(c, s)
  {
  }

  lemma InvCache(c: Config, st: Sim)
    requires Inv(c, st)
    ensures CacheShape(c, st)
  {
  }

  lemma DispatchableFits(c: Config, st: Sim, q: Waiting)
    requires Dispatchable(c, st, q)
    ensures q.index < |Turns(c, q.id)|
    ensures |Turns(c, q.id)[q.index].prompt| + |Turns(c, q.id)[q.index].generated| <= c.cacheBlocks
  {
  }

  lemma DrainDone(c: Config, st: Sim)
    requires Validated(c) && Inv(c, st) && st.events == {}
    ensures Drain(c, st) == st
  {
  }

  /** Whether the first event belongs to this instant decides whether the instant is over. */
  lemma DrainStep(c: Config, st: Sim, e: Event)
    requires Validated(c) && Inv(c, st) && st.events != {} && e == First(st.events)
    ensures st.now <= e.at && Handled(c, st, e.action) && Handled(c, Pop(st, e), e.action)
    ensures e.at != st.now ==> Drain(c, st) == st
    ensures e.at == st.now ==>
              && Inv(c, Fire(c, st, e)) && Drain(c, Fire(c, st, e)) == Drain(c, st) && Fire(c, st, e).now == st.now
              && (Work(c, Fire(c, st, e)) < Work(c, st)
                  || (Work(c, Fire(c, st, e)) == Work(c, st) && |Fire(c, st, e).events| < |st.events|))
  {
    hide Inv, Work, SerialsOk, Fire;
    InvNow(c, st);
    FirstSoonest(st.events);
    FireKeeps(c, st, e);
    InvSerials(c, st);
    FireCharge(c, st, e);
    PopSmaller(st.events, e);
    FireEvolves(c, st, e);
  }

  lemma InstantParts(c: Config, st: Sim)
    requires Validated(c) && Inv(c, st) && st.events != {}
    ensures var s1 := Advance(st, First(st.events).at);
            && Inv(c, s1) && Inv(c, Drain(c, s1)) && DispatchReady(c, Drain(c, s1))
            && Instant(c, st) == Dispatch(c, Drain(c, s1))
  {
    hide Inv, Quiet;
    FirstSoonest(st.events);
    var s1 := Advance(st, First(st.events).at);
    AdvanceKeeps(c, st, First(st.events).at);
    DrainKeeps(c, s1);
    DispatchKeeps(c, Drain(c, s1));
  }

  lemma RunStops(c: Config, st: Sim)
    requires Validated(c) && Inv(c, st) && (st.events == {} || ObservationEnd(c) < First(st.events).at)
    ensures RunFrom(c, st) == Advance(st, ObservationEnd(c)) && st.states.Keys == Ids(c)
  {
    InvIds(c, st);
  }

  datatype ReportRow = ReportRow(id: Id, status: Status, capped: real, rows: seq<TurnRow>)
  datatype Report = Report(rows: seq<ReportRow>, stats: Stats, unconsumed: int, log: seq<(real, Entry)>)

  ghost predicate RowOf(c: Config, st: Sim, id: Id, row: ReportRow) {
    && id in st.states && row.id == id && row.rows == st.states[id].rows
    && (st.states[id].status == Running ==> row.status == TimedOut)
    && (st.states[id].status != Running ==> row.status == st.states[id].status)
    && row.capped == if st.states[id].completion.Some? then st.states[id].completion.value else c.horizon
  }

  /** One row per workflow in workload order, read off the final state. */
  ghost predicate Faithful(c: Config, st: Sim, r: Report) {
    && |r.rows| == |c.workflows| && r.stats == st.stats && r.unconsumed == st.stats.computed - st.stats.useful
    && r.log == st.trace
    && forall i :: 0 <= i < |r.rows| ==> RowOf(c, st, c.workflows[i].id, r.rows[i])
  }

  class Simulation {
    const c: Config
    var now: real
    var events: set<Event>
    var serial: nat
    var lru: seq<Key>
    var tags: map<Key, Tag>
    var queue: seq<Waiting>
    var busy: bool
    var intentOrder: seq<Id>
    var intents: map<Id, Intent>
    var states: map<Id, Progress>
    var trace: seq<(real, Entry)>
    var stats: Stats

    ghost function St(): Sim
      reads this
    {
      Sim(now, events, serial, lru, tags, queue, busy, intentOrder, intents, states, trace, stats)
    }

    constructor (c: Config)
      ensures this.c == c && St() == EMPTY
    {
      this.c := c;
      now, events, serial, lru, tags := 0.0, {}, 0, [], map[];
      queue, busy, intentOrder, intents := [], false, [], map[];
      states, trace, stats := map[], [], NO_STATS;
    }

    method Schedule(at: real, action: Action)
      modifies `events, `serial
      ensures St() == Push(old(St()), at, action)
    {
      serial := serial + 1;
      events := events + {Event(at, serial, action)};
    }

    method AddEntry(entry: Entry)
      modifies `trace
      ensures St() == Log(old(St()), entry)
    {
      trace := trace + [(now, entry)];
    }

    method AdvanceTo(at: real)
      modifies `now, `stats
      ensures St() == Advance(old(St()), at)
    {
      stats := stats.(cacheBlockMs := stats.cacheBlockMs + (at - now) * |lru| as real);
      now := at;
    }

    /** Scan the keys in order for the first that is absent or pending. */
    method CountCached(keys: seq<Key>) returns (n: nat)
      ensures n == CachedPrefix(tags, keys)
    {
      n := 0;
      while n < |keys|
        invariant n <= |keys| && CachedFrom(tags, keys, n) == CachedPrefix(tags, keys)
      {
        if keys[n] !in tags || tags[keys[n]] == Pending { return; }
        n := n + 1;
      }
    }

    /** Count the keys that a reservation would add. */
    method CountNew(keys: seq<Key>) returns (n: nat)
      requires Distinct(keys) && (forall k :: k in tags <==> k in lru)
      ensures n == |Elements(keys) - Elements(lru)|
    {
      n := 0;
      assert Elements(keys[..0]) - Elements(lru) == {};
      for i := 0 to |keys|
        invariant n == |Elements(keys[..i]) - Elements(lru)|
      {
        NewCount(keys, i, lru);
        if keys[i] !in tags { n := n + 1; }
      }
      assert keys[..|keys|] == keys;
    }

    /** Scan the cache in order for the first entry that is not protected. */
    method FindVictim(keys: seq<Key>) returns (victim: Key)
      requires Unprotected(lru, keys) != []
      ensures victim == Unprotected(lru, keys)[0]
    {
      var j := 0;
      assert lru[0..] == lru;
      while lru[j] in keys
        invariant 0 <= j < |lru| && Unprotected(lru[j..], keys) == Unprotected(lru, keys)
        decreases |lru| - j
      {
        assert lru[j..][1..] == lru[j + 1..];
        j := j + 1;
      }
      victim := lru[j];
    }

    /** Delete unprotected entries, oldest first, until the new keys fit. */
    method Evict(keys: seq<Key>, added: nat)
      requires CacheShape(c, St()) && Distinct(keys) && |keys| <= c.cacheBlocks
      requires added == |Elements(keys) - Elements(lru)|
      modifies `lru, `tags
      ensures Evicted(c, old(lru), lru, keys, Excess(c, old(lru), keys)) && tags == Retag(old(tags), lru)
    {
      hide Unprotected, Retag, Distinct, Elements, Evicted, CacheShape;
      ghost var out := 0;
      EvictNone(c, St(), keys);
      while |lru| + added > c.cacheBlocks
        invariant Evicted(c, old(lru), lru, keys, out) && tags == Retag(old(tags), lru)
        invariant |lru| + added == |Unprotected(old(lru), keys)| - out + |keys|
        invariant 0 <= out <= Excess(c, old(lru), keys)
        decreases Excess(c, old(lru), keys) - out
      {
        EvictMore(c, old(lru), lru, keys, out);
        var victim := FindVictim(keys);
        EvictStep(c, old(lru), lru, keys, out, victim, old(tags));
        tags := tags - {victim};
        lru := Unprotected(lru, [victim]);
        out := out + 1;
      }
    }

    method ReserveBlocks(keys: seq<Key>)
      requires CacheShape(c, St()) && Distinct(keys) && |keys| <= c.cacheBlocks
      modifies `lru, `tags, `stats
      ensures St() == Reserve(c, old(St()), keys)
    {
      hide Unprotected, Retag, Distinct, CacheShape, Evicted, Elements, Excess;
      CountReady(c, St());
      var added := CountNew(keys);
      Evict(keys, added);
      ghost var kept := lru;
      KeepAll(kept, keys);
      for i := 0 to |keys|
        invariant lru == Unprotected(kept, keys[..i]) + keys[..i]
        invariant tags == Retag(old(tags), lru) && stats == old(stats)
      {
        MoveToEnd(kept, keys, i);
        TagNext(c, old(St()), kept, keys, i, tags);
        if keys[i] !in tags {
          tags := tags[keys[i] := Pending];
        }
        lru := Unprotected(lru, [keys[i]]) + [keys[i]];
      }
      assert keys[..|keys|] == keys;
      EvictedOrder(c, old(lru), kept, keys);
      stats := stats.(peak := Max(stats.peak, |lru|));
      ReserveIs(c, old(St()), St(), keys);
    }

    /** Wake the dispatcher when a timed intent should begin. */
    method ArmWakeup(intent: Intent)
      modifies `events, `serial
      ensures St() == ScheduleWakeup(c, old(St()), intent)
    {
      if c.policy == FutureTiming && intent.active {
        var cached := CountCached(intent.keys);
        var begin := intent.readyAt - PrefillMs(c, |intent.keys| - cached);
        var at := MaxTime(now, MaxTime(intent.eligibleAt, begin));
        if now < at < intent.readyAt {
          Schedule(at, Wake);
        }
      }
    }

    method ScheduleUpdates(id: Id, index: nat, updates: seq<Update>)
      modifies `events, `serial
      ensures St() == PushUpdates(old(St()), id, index, updates)
    {
      assert updates[0..] == updates;
      for i := 0 to |updates|
        invariant PushUpdates(St(), id, index, updates[i..]) == PushUpdates(old(St()), id, index, updates)
      {
        assert updates[i..][1..] == updates[i + 1..];
        Schedule(now + updates[i].at, Updated(id, index, updates[i]));
      }
    }

    method BeginTurn(id: Id, index: nat)
      requires id in states && index < |Turns(c, id)|
      modifies `events, `serial, `intents, `intentOrder
      ensures St() == StartTurn(c, old(St()), id, index)
    {
      hide PushUpdates, ScheduleWakeup, LastAt, AnyCancel, Turns;
      if states[id].status != Running { return; }
      var turn := Turns(c, id)[index];
      var ready := now + turn.wait;
      Schedule(ready, Ready(id, index));
      if index > 0 {
        var intent := Intent(index, 0, BlockKeys(turn.intent), ready, true, now, false);
        if c.policy == FutureTiming {
          intent := intent.(eligibleAt := now + LastAt(turn.updates), willCancel := AnyCancel(turn.updates));
        }
        if id !in intents { intentOrder := intentOrder + [id]; }
        intents := intents[id := intent];
        ScheduleUpdates(id, index, turn.updates);
        ArmWakeup(intent);
      }
    }

    method TagAll(keys: seq<Key>, tag: Tag)
      requires forall k :: k in keys ==> k in tags
      modifies `tags
      ensures tags == SetTags(old(tags), keys, tag)
    {
      for i := 0 to |keys|
        invariant forall k :: k in keys[..i] ==> k in old(tags)
        invariant tags == SetTags(old(tags), keys[..i], tag)
      {
        TagMore(old(tags), keys, i, tag);
        tags := tags[keys[i] := tag];
      }
      assert keys[..|keys|] == keys;
    }

    method ExpireWorkflow(id: Id)
      requires id in states
      modifies `states, `intents, `trace
      ensures St() == OnDeadline(old(St()), id)
    {
      if states[id].status == Running {
        states := states[id := states[id].(status := TimedOut)];
        if id in intents { intents := intents[id := intents[id].(active := false)]; }
        AddEntry(DeadlineHit(id));
      }
    }

    method EnqueueRequest(id: Id, index: nat)
      requires id in states
      modifies `queue, `intents, `trace
      ensures St() == OnReady(old(St()), id, index)
    {
      if states[id].status == Running {
        if id in intents { intents := intents[id := intents[id].(active := false)]; }
        queue := queue + [Waiting(id, index, now)];
        AddEntry(RequestReady(id, index));
      }
    }

    method ApplyUpdate(id: Id, index: nat, update: Update)
      requires id in states
      modifies `states, `intents, `trace, `events, `serial
      ensures St() == OnUpdate(c, old(St()), id, index, update)
    {
      hide ScheduleWakeup, BlockKeys;
      if id !in intents || intents[id].index != index || states[id].status != Running { return; }
      intents := intents[id := intents[id].(revision := intents[id].revision + 1)];
      match update {
        case Cancel(_) =>
          intents := intents[id := intents[id].(active := false)];
          assert intents == old(intents)[id := Revised(old(intents)[id], update)];
          states := states[id := states[id].(status := Cancelled)];
          AddEntry(CancelSeen(id));
        case Revise(_, prefix) =>
          intents := intents[id := intents[id].(keys := BlockKeys(prefix))];
          assert intents == old(intents)[id := Revised(old(intents)[id], update)];
          AddEntry(RevisionSeen(id, intents[id].revision));
          ArmWakeup(intents[id]);
      }
    }

    method FinishPreparation(job: Job)
      requires job.Preparation? && job.id in states && job.id in intents
      requires forall k :: k in job.computed ==> k in tags
      modifies `busy, `stats, `tags, `trace
      ensures St() == OnPreparation(old(St()), job)
    {
      busy := false;
      var current := intents[job.id];
      var obsolete := states[job.id].status in {Cancelled, TimedOut} || current.revision != job.revision;
      if obsolete { stats := stats.(obsolete := stats.obsolete + |job.computed|); }
      if now > current.readyAt { stats := stats.(late := stats.late + |job.computed|); }
      TagAll(job.computed, Speculative);
      AddEntry(PreparationFinished(job.id, |job.computed|, obsolete));
    }

    method FinishRequest(job: Job)
      requires job.Demand? && job.id in states && job.index < |Turns(c, job.id)|
      requires forall k :: k in job.keys ==> k in tags
      modifies this
      ensures St() == OnDemand(c, old(St()), job)
    {
      hide StartTurn, Turns;
      busy := false;
      TagAll(job.keys, Ordinary);
      var p := states[job.id];
      states := states[job.id := p.(rows := p.rows + [TurnRow(job.index, job.ready, now, job.cached)])];
      AddEntry(RequestFinished(job.id, job.index));
      assert St() == Record(old(St()), job);
      p := states[job.id];
      if p.status != Running { return; }
      if job.index + 1 == |Turns(c, job.id)| {
        states := states[job.id := p.(status := Completed, completion := Some(now - Flow(c.workflows, job.id).arrival))];
      } else {
        BeginTurn(job.id, job.index + 1);
      }
    }

    method HandleEvent(a: Action)
      requires Handled(c, St(), a)
      modifies this
      ensures St() == Handle(c, old(St()), a)
    {
      hide StartTurn, OnDeadline, OnReady, OnUpdate, OnPreparation, OnDemand, Turns;
      match a {
        case Arrival(id) => BeginTurn(id, 0);
        case Deadline(id) => ExpireWorkflow(id);
        case Ready(id, index) => EnqueueRequest(id, index);
        case Updated(id, index, update) => ApplyUpdate(id, index, update);
        case Finished(job) => if job.Preparation? { FinishPreparation(job); } else { FinishRequest(job); }
        case Wake =>
      }
    }

    /** Charge the cached prefix of a prompt, key by key. */
    method CountHits(keys: seq<Key>)
      requires forall k :: k in keys ==> k in tags
      modifies `tags, `stats
      ensures St() == Hits(old(St()), keys)
    {
      hide Hits;
      assert keys[0..] == keys;
      for i := 0 to |keys|
        invariant forall k :: k in keys ==> k in tags
        invariant Hits(St(), keys[i..]) == Hits(old(St()), keys)
      {
        HitsNext(St(), keys, i);
        if tags[keys[i]] == Speculative {
          stats := stats.(useful := stats.useful + 1);
        } else {
          stats := stats.(ordinary := stats.ordinary + 1);
        }
        tags := tags[keys[i] := Ordinary];
      }
      HitsNone(St());
    }

    /** Make the GPU busy with a job until its completion event. */
    method Occupy(cost: real, entry: Entry, job: Job)
      modifies `busy, `trace, `events, `serial
      ensures St() == Push(Log(old(St()).(busy := true), entry), now + cost, Finished(job))
    {
      busy := true;
      AddEntry(entry);
      Schedule(now + cost, Finished(job));
    }

    method StartRequest(q: Waiting)
      requires CacheShape(c, St()) && q.index < |Turns(c, q.id)|
      requires |Turns(c, q.id)[q.index].prompt| + |Turns(c, q.id)[q.index].generated| <= c.cacheBlocks
      modifies `tags, `stats, `lru, `busy, `trace, `events, `serial
      ensures St() == LaunchDemand(c, old(St()), q)
    {
      hide CacheShape, Hits, Reserve, Turns, PrefillMs, Distinct, CachedPrefix, BlockKeys, Resident;
      ghost var before := St();
      var turn := Turns(c, q.id)[q.index];
      var prompt, keys := BlockKeys(turn.prompt), BlockKeys(turn.prompt + turn.generated);
      var cached := CountCached(prompt);
      HitsPresent(tags, prompt, cached);
      HitsShape(c, St(), prompt[..cached]);
      CountHits(prompt[..cached]);
      ghost var hit := St();
      var cost := PrefillMs(c, |prompt| - cached) + turn.decode;
      KeysDistinct(turn.prompt + turn.generated);
      ReserveBlocks(keys);
      ghost var reserved := St();
      assert hit == Hits(before, prompt[..cached]) && reserved == Reserve(c, hit, keys);
      stats := stats.(demandMs := stats.demandMs + cost);
      Occupy(cost, RequestStarted(q.id, q.index, cost, cached), Demand(q.id, q.index, keys, q.ready, cached));
    }

    method StartPreparation(id: Id, cached: nat)
      requires CacheShape(c, St()) && Preparable(c, St(), id) && cached == CachedPrefix(tags, intents[id].keys)
      modifies `tags, `stats, `lru, `busy, `trace, `events, `serial
      ensures St() == LaunchPreparation(c, old(St()), id, intents[id])
    {
      hide CacheShape, Reserve, PrefillMs, CachedPrefix, Resident;
      var intent := intents[id];
      var count := Min(Min(|intent.keys| - cached, c.budget - stats.computed), c.chunk);
      var target, computed := intent.keys[..cached + count], intent.keys[cached..cached + count];
      ReserveBlocks(target);
      var cost := PrefillMs(c, count);
      stats := stats.(computed := stats.computed + count, speculativeMs := stats.speculativeMs + cost);
      Occupy(cost, PreparationStarted(id, intent.revision, count),
             Preparation(id, intent.index, intent.revision, computed));
    }

    /** Go through the intents in the order they were first declared; prepare for the first that is due. */
    method PrepareNext()
      requires Validated(c) && Inv(c, St()) && IntentsFit(c, St()) && stats.computed < c.budget
      modifies `tags, `stats, `lru, `busy, `trace, `events, `serial
      ensures St() == DispatchPreparation(c, old(St()), 0)
    {
      hide Inv, OnlyWakes, ScheduleWakeup, LaunchPreparation, Validated, Preparable, CacheShape, PrefillMs, CachedPrefix, Resident,
           DispatchPreparation, TooEarly, Idle;
      PrefillPositive(c);
      var i := 0;
      while i < |intentOrder|
        invariant 0 <= i <= |intentOrder| && Inv(c, St()) && IntentsFit(c, St()) && stats == old(stats)
        invariant DispatchPreparation(c, St(), i) == DispatchPreparation(c, old(St()), 0)
      {
        var id := intentOrder[i];
        var intent := intents[id];
        NextIntent(c, St(), i);
        i := i + 1;
        if !intent.active || states[id].status != Running { continue; }
        var cached := CountCached(intent.keys);
        if cached == |intent.keys| { continue; }
        if c.policy == FutureTiming {
          if intent.willCancel || now < intent.eligibleAt { continue; }
          var begin := intent.readyAt - PrefillMs(c, |intent.keys| - cached);
          if now < begin {
            WakeupShape(c, St(), intent);
            WakesKeep(c, St(), ScheduleWakeup(c, St(), intent));
            WakesFit(c, St(), ScheduleWakeup(c, St(), intent));
            ArmWakeup(intent);
            continue;
          }
        }
        ChosenPreparable(c, St(), id);
        InvCache(c, St());
        StartPreparation(id, cached);
        return;
      }
      NoMoreIntents(c, St());
    }

    method ChooseWork()
      requires Validated(c) && Inv(c, St())
      modifies `queue, `tags, `stats, `lru, `busy, `trace, `events, `serial
      ensures DispatchReady(c, old(St())) && St() == Dispatch(c, old(St()))
    {
      hide Inv, Validated, LaunchDemand, CacheShape, Dispatchable, DispatchPreparation, QueueFits, IntentsFit;
      InvDispatchReady(c, St());
      if busy { return; }
      while queue != []
        invariant Inv(c, St()) && DispatchReady(c, St())
        invariant DispatchQueue(c, St()) == DispatchQueue(c, old(St()))
        decreases |queue|
      {
        ghost var st := St();
        var q := queue[0];
        queue := queue[1..];
        QueueDispatchable(c, st, St());
        InvDispatchReady(c, St());
        if states[q.id].status == Running {
          InvCache(c, St());
          DispatchableFits(c, St(), q);
          StartRequest(q);
          return;
        }
      }
      if c.policy == Off { return; }
      if c.budget - stats.computed <= 0 { return; }
      PrepareNext();
    }

    /** One workflow after another is admitted, with its arrival and its deadline. */
    method AdmitWorkflows()
      requires St() == EMPTY
      modifies `states, `events, `serial
      ensures St() == Start(c)
    {
      hide Push;
      for i := 0 to |c.workflows|
        invariant St() == AdmitAll(c, i)
      {
        var f := c.workflows[i];
        states := states[f.id := Progress(Running, [], None)];
        Schedule(f.arrival, Arrival(f.id));
        Schedule(f.arrival + c.horizon, Deadline(f.id));
      }
    }

    method PeekEvent() returns (e: Event)
      requires events != {} && SerialsOk(events, serial)
      ensures e == First(events)
    {
      FirstExists(events);
      e :| e in events && IsFirst(e, events);
      FirstUnique(e, events, serial);
    }

    /** Apply every event of the current instant before more GPU work is chosen. */
    method DrainInstant()
      requires Validated(c) && Inv(c, St())
      modifies this
      ensures St() == Drain(c, old(St()))
    {
      hide Inv, Work, SerialsOk, Handled, Validated, Handle, Quiet;
      var at := now;
      while events != {}
        invariant Inv(c, St()) && now == at
        invariant Drain(c, St()) == Drain(c, old(St()))
        decreases Work(c, St()), |events|
      {
        InvSerials(c, St());
        var e := PeekEvent();
        DrainStep(c, St(), e);
        if e.at != at { return; }
        ghost var st := St();
        events := events - {e};
        HandleEvent(e.action);
      }
      DrainDone(c, St());
    }

    /** The event loop, the closing clock move and the report. */
    method Run() returns (report: Report)
      requires Validated(c) && St() == EMPTY
      modifies this
      ensures Inv(c, Start(c)) && St() == RunFrom(c, Start(c))
      ensures Faithful(c, St(), report)
    {
      hide Inv, Work, WakePoints, SerialsOk, Start, ObservationEnd, Drain, Dispatch, Quiet, ValidWorkflow;
      var end := ObservationEnd(c);
      AdmitWorkflows();
      StartInv(c);
      while events != {}
        invariant Inv(c, Start(c)) && Inv(c, St())
        invariant RunFrom(c, St()) == RunFrom(c, Start(c))
        decreases Work(c, St()), |WakePoints(c, St())|
      {
        InvSerials(c, St());
        var e := PeekEvent();
        if e.at > end { break; }
        ghost var st := St();
        InstantKeeps(c, st);
        InstantProgress(c, st);
        InstantParts(c, st);
        AdvanceTo(e.at);
        DrainInstant();
        ChooseWork();
      }
      RunStops(c, St());
      AdvanceTo(end);
      report := Summarize();
    }

    method Summarize() returns (report: Report)
      requires states.Keys == Ids(c)
      ensures Faithful(c, St(), report)
    {
      var rows: seq<ReportRow> := [];
      for i := 0 to |c.workflows|
        invariant |rows| == i
        invariant forall j :: 0 <= j < i ==> RowOf(c, St(), c.workflows[j].id, rows[j])
      {
        var f := c.workflows[i];
        assert f.id in Ids(c);
        var p := states[f.id];
        var status := if p.status == Running then TimedOut else p.status;
        var capped := if p.completion.Some? then p.completion.value else c.horizon;
        rows := rows + [ReportRow(f.id, status, capped, p.rows)];
      }
      report := Report(rows, stats, stats.computed - stats.useful, trace);
    }
  }

  /** What the report says of a workflow that was checked and simulated under a policy. */
  ghost predicate SoundRow(c: Config, i: nat, row: ReportRow)
    requires i < |c.workflows|
  {
    var f := c.workflows[i];
    && row.id == f.id && row.status != Running && row.capped <= c.horizon
    && (row.status != Completed ==> row.capped == c.horizon)
    && |row.rows| <= |f.turns|
    && (row.status == Completed ==> |row.rows| == |f.turns| > 0 && row.capped == row.rows[|row.rows| - 1].completed - f.arrival)
    && forall j :: 0 <= j < |row.rows| ==> TurnSound(c, f, row.rows, j)
  }

  /** A turn is ready its wait after the one before it was completed, and takes at least its own cost from there. */
  ghost predicate TurnSound(c: Config, f: Workflow, rows: seq<TurnRow>, j: nat)
    requires j < |rows| <= |f.turns|
  {
    && rows[j].turn == j && rows[j].cached <= |f.turns[j].prompt|
    && rows[j].ready == (if j == 0 then f.arrival else rows[j - 1].completed) + f.turns[j].wait
    && rows[j].ready + DemandCost(c, f.turns[j], rows[j].cached) <= rows[j].completed
  }

  ghost predicate SoundReport(c: Config, r: Report)
    requires c.workflows != []
  {
    && |r.rows| == |c.workflows| && (forall i :: 0 <= i < |r.rows| ==> SoundRow(c, i, r.rows[i]))
    && r.stats.peak <= c.cacheBlocks
    && 0 <= r.unconsumed <= r.stats.computed <= c.budget
    && r.unconsumed == r.stats.computed - r.stats.useful
    && 0 <= r.stats.obsolete <= r.stats.computed && 0 <= r.stats.late <= r.stats.computed
    && 0.0 <= r.stats.cacheBlockMs <= FullCacheMs(c, ObservationEnd(c))
    && r.stats.computed == Prepared(r.log) && r.stats.obsolete == ObsoleteBlocks(r.log) && r.stats.late == LateBlocks(c, r.log)
    && r.stats.useful + r.stats.ordinary == Reused(r.log)
    && r.stats.demandMs == Decoded(c, r.log) + PrefillMs(c, Prompted(c, r.log) - Reused(r.log))
    && r.stats.speculativeMs == PrefillMs(c, Prepared(r.log))
  }

  lemma FaithfulSound(c: Config, s: Sim, r: Report)
    requires Validated(c) && Inv(c, Start(c)) && s == RunFrom(c, Start(c)) && Faithful(c, s, r)
    ensures SoundReport(c, r)
  {
    hide RunFrom, Start, Inv, Validated, Outcome, PrefillMs, FullCacheMs, ObservationEnd, Told, SoundRow, ResidentMs, MostHeld,
         Decoded, Prompted, Reused, Prepared, ObsoleteBlocks, LateBlocks, Behaviour, Expired, Flow, Tallied;
    RunReport(c);
    var _ := RunTold(c);
    LateNow(c, s);
    ReusedSplit(c, s);
    forall i | 0 <= i < |r.rows| ensures SoundRow(c, i, r.rows[i]) {
      WorkflowAt(c, i);
      OutcomeRow(c, s, c.workflows[i].id, i, r.rows[i]);
    }
  }

  lemma WorkflowAt(c: Config, i: nat)
    requires Validated(c) && i < |c.workflows|
    ensures c.workflows[i].id in Ids(c) && Flow(c.workflows, c.workflows[i].id) == c.workflows[i]
  {
    FlowAt(c.workflows, i);
  }

  lemma OutcomeRow(c: Config, s: Sim, id: Id, i: nat, row: ReportRow)
    requires i < |c.workflows| && id == c.workflows[i].id && id in s.states && Outcome(c, s, id) && Told(c, s)
    requires Flow(c.workflows, id) == c.workflows[i] && RowOf(c, s, id, row)
    ensures SoundRow(c, i, row)
  {
    hide LateTold, Revising, EventTimely, WaitingTimely, IntentTimely, RowTimely, TurnSound, Ended, LastEnd, Flow;
    assert ProgressTimely(c, s.trace, s.states[id], id);
    forall j | 0 <= j < |row.rows| ensures TurnSound(c, c.workflows[i], row.rows, j) { TurnRight(c, s.trace, row.rows, id, i, j); }
  }

  lemma TurnRight(c: Config, log: seq<(real, Entry)>, rows: seq<TurnRow>, id: Id, i: nat, j: nat)
    requires i < |c.workflows| && Flow(c.workflows, id) == c.workflows[i] && j < |rows| <= |c.workflows[i].turns|
    requires RowTimely(c, log, rows, id, j)
    ensures TurnSound(c, c.workflows[i], rows, j)
  {
    hide DemandCost, Flow;
    var cost := DemandCost(c, c.workflows[i].turns[j], rows[j].cached);
    var t :| StartedAt(c, log, id, j, rows[j].cached, t) && rows[j].ready <= t && rows[j].completed == t + cost;
  }

  lemma LateNow(c: Config, s: Sim)
    requires Told(c, s)
    ensures s.stats.late == LateBlocks(c, s.trace)
  {
  }

  lemma ReusedSplit(c: Config, s: Sim)
    requires Counters(c, s)
    ensures Prompted(c, s.trace) - s.stats.useful - s.stats.ordinary == Prompted(c, s.trace) - Reused(s.trace)
  {
  }

  /** Validation, simulation and report: every accepted workload gives a sound report, every
      other one is refused. */
  method Simulate(c: Config) returns (r: Result<Report>)
    ensures r.Success? <==> Validated(c)
    ensures r.Success? ==>
              Inv(c, Start(c)) && Faithful(c, RunFrom(c, Start(c)), r.value) && SoundReport(c, r.value)
  {
    hide Inv, Start, RunFrom, Faithful, SoundReport;
    var ok := Validate(c);
    if !ok { return Failure("invalid workload"); }
    var simulation := new Simulation(c);
    var report := simulation.Run();
    FaithfulSound(c, simulation.St(), report);
    r := Success(report);
  }
}
