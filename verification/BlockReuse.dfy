/** Block counting by ids against the prefix arithmetic of the session-cost and parity reports. */
module BlockReuse {
  import opened Numbers
  import opened Wrappers
  import opened BlockTrie

  function ChunkAll(inputs: seq<seq<int>>, size: nat): (r: seq<Path>)
    requires size > 0
    ensures |r| == |inputs|
  {
    if inputs == [] then [] else ChunkAll(inputs[..|inputs| - 1], size) + [Chunks(inputs[|inputs| - 1], size)]
  }

  /** The block prefixes that a list of inputs stands for. */
  ghost function Held(inputs: seq<seq<int>>, size: nat): set<Path>
    requires size > 0
  {
    AllPrefixes(ChunkAll(inputs, size))
  }

  lemma HeldSnoc(inputs: seq<seq<int>>, x: seq<int>, size: nat)
    requires size > 0
    ensures Held(inputs + [x], size) == Held(inputs, size) + Prefixes(Chunks(x, size))
  {
    assert (inputs + [x])[..|inputs|] == inputs;
    var c := ChunkAll(inputs, size);
    assert (c + [Chunks(x, size)])[..|c|] == c;
  }

  lemma {:induction false} MaxChunks(a: seq<int>, others: seq<seq<int>>, size: nat)
    requires size > 0
    ensures MaxLcp(Chunks(a, size), ChunkAll(others, size)) == MaxLcp(a, others) / size
  {
    hide Chunks;
    if others == [] {
      DivideSmall(0, size);
    } else {
      var init, last := others[..|others| - 1], others[|others| - 1];
      MaxChunks(a, init, size);
      SharedChunks(a, last, size);
      var c := ChunkAll(others, size);
      assert c[..|c| - 1] == ChunkAll(init, size);
      var x, y := MaxLcp(a, init), Lcp(a, last);
      if x <= y { DivideMonotone(x, y, size); } else { DivideMonotone(y, x, size); }
    }
  }

  /** The number of an input's ids among those of earlier inputs is the longest common token
      prefix, in whole blocks. */
  lemma SharedIds(nodes: Nodes, a: seq<int>, earlier: seq<seq<int>>, size: nat)
    requires size > 0 && Interned(nodes)
    requires AllKnown(nodes, Prefixes(Chunks(a, size))) && AllKnown(nodes, Held(earlier, size))
    ensures |Image(nodes, Prefixes(Chunks(a, size))) * Image(nodes, Held(earlier, size))| == MaxLcp(a, earlier) / size
  {
    var p, q := Prefixes(Chunks(a, size)), Held(earlier, size);
    ImageOps(nodes, p, q);
    ImageSize(nodes, p * q);
    SharedCount(Chunks(a, size), ChunkAll(earlier, size));
    MaxChunks(a, earlier, size);
  }

  lemma NextMultiple(i: nat, size: nat)
    requires i > 0
    ensures i * size == size + (i - 1) * size && (i - 1) * size >= 0
  {
  }

  lemma {:induction false} ChunksCover(a: seq<int>, size: nat, i: nat)
    requires size > 0 && i <= |Chunks(a, size)|
    ensures i * size <= |a|
    decreases i
  {
    if i > 0 {
      NextMultiple(i, size);
      ChunksCover(a[size..], size, i - 1);
    }
  }

  lemma {:induction false} SameChunks(a: seq<int>, b: seq<int>, size: nat, i: nat)
    requires size > 0 && i <= |Chunks(a, size)| && i <= |Chunks(b, size)|
    requires i * size <= |a| && i * size <= |b|
    ensures Chunks(a, size)[..i] == Chunks(b, size)[..i] <==> a[..i * size] == b[..i * size]
    decreases i
  {
    if i == 0 {
      assert 0 * size == 0;
    } else {
      NextMultiple(i, size);
      var n := (i - 1) * size;
      ChunksCover(a[size..], size, i - 1);
      ChunksCover(b[size..], size, i - 1);
      SameChunks(a[size..], b[size..], size, i - 1);
      var p, q := Chunks(a, size), Chunks(b, size);
      assert p[..i] == [a[..size]] + Chunks(a[size..], size)[..i - 1];
      assert q[..i] == [b[..size]] + Chunks(b[size..], size)[..i - 1];
      SplitEqual(p[..i], q[..i], 1);
      SplitEqual(a[..size + n], b[..size + n], size);
      assert a[..size + n][size..] == a[size..][..n] && b[..size + n][size..] == b[size..][..n];
      assert a[..size + n][..size] == a[..size] && b[..size + n][..size] == b[..size];
    }
  }

  lemma SplitEqual<T>(s: seq<T>, t: seq<T>, k: nat)
    requires |s| == |t| && k <= |s|
    ensures s == t <==> s[..k] == t[..k] && s[k..] == t[k..]
  {
    assert s == s[..k] + s[k..] && t == t[..k] + t[k..];
  }

  /** Two inputs share an id exactly when all their tokens up to that block are equal. */
  lemma SharedIdMeansSharedPrefix(nodes: Nodes, a: seq<int>, b: seq<int>, size: nat, i: nat, j: nat)
    requires size > 0 && Interned(nodes) && 1 <= i <= |Chunks(a, size)| && 1 <= j <= |Chunks(b, size)|
    requires Known(nodes, Chunks(a, size)[..i]) && Known(nodes, Chunks(b, size)[..j])
    ensures i * size <= |a| && j * size <= |b|
    ensures Walk(nodes, Chunks(a, size)[..i]) == Walk(nodes, Chunks(b, size)[..j])
        <==> i == j && a[..i * size] == b[..j * size]
  {
    hide Chunks, Interned, Walk;
    ChunksCover(a, size, i);
    ChunksCover(b, size, j);
    if i == j { SameChunks(a, b, size, i); }
    if Walk(nodes, Chunks(a, size)[..i]) == Walk(nodes, Chunks(b, size)[..j]) {
      WalkInjective(nodes, Chunks(a, size)[..i], Chunks(b, size)[..j]);
    }
  }

  /******* Coverage of an input by earlier ones *******/

  function Limit(tokens: seq<int>): nat { if tokens == [] then 0 else |tokens| - 1 }

  /** Whole blocks of a common prefix that leave a last token to compute, in tokens. */
  function CoveredBy(tokens: seq<int>, other: seq<int>, size: nat): nat
    requires size > 0
  {
    Min(Lcp(tokens, other), Limit(tokens)) / size * size
  }

  function Coverage(tokens: seq<int>, previous: seq<seq<int>>, size: nat): nat
    requires size > 0
  {
    if previous == [] then 0
    else Max(Coverage(tokens, previous[..|previous| - 1], size), CoveredBy(tokens, previous[|previous| - 1], size))
  }

  function PrefixCoverage(tokens: seq<int>, previous: seq<seq<int>>, size: int): Option<nat> {
    if size <= 0 then None else Some(Coverage(tokens, previous, size))
  }

  lemma LcpTruncated(tokens: seq<int>, other: seq<int>, k: nat)
    requires k <= |tokens|
    ensures Lcp(tokens[..k], other) == Min(Lcp(tokens, other), k)
  {
    var n := Min(Lcp(tokens, other), k);
    LcpLong(tokens, other, n);
    assert tokens[..k][..n] == tokens[..n];
    LcpUnique(tokens[..k], other, n);
  }

  lemma {:induction false} MaxTruncated(tokens: seq<int>, previous: seq<seq<int>>, k: nat)
    requires k <= |tokens|
    ensures MaxLcp(tokens[..k], previous) == Min(MaxLcp(tokens, previous), k)
  {
    if previous != [] {
      MaxTruncated(tokens, previous[..|previous| - 1], k);
      LcpTruncated(tokens, previous[|previous| - 1], k);
    }
  }

  lemma TimesMonotone(a: nat, b: nat, size: nat)
    requires a <= b
    ensures a * size <= b * size
  {
  }

  lemma {:induction false} CoverageInBlocks(tokens: seq<int>, previous: seq<seq<int>>, size: nat)
    requires size > 0
    ensures Coverage(tokens, previous, size) == MaxLcp(tokens[..Limit(tokens)], previous) / size * size
  {
    if previous == [] {
      DivideSmall(0, size);
      assert 0 * size == 0;
    } else {
      var init, last := previous[..|previous| - 1], previous[|previous| - 1];
      var t := tokens[..Limit(tokens)];
      CoverageInBlocks(tokens, init, size);
      LcpTruncated(tokens, last, Limit(tokens));
      LargerMultiple(MaxLcp(t, init), Lcp(t, last), size);
    }
  }

  lemma LargerMultiple(x: nat, y: nat, size: nat)
    requires size > 0
    ensures Max(x / size * size, y / size * size) == Max(x, y) / size * size
  {
    if x <= y {
      DivideMonotone(x, y, size);
      TimesMonotone(x / size, y / size, size);
    } else {
      DivideMonotone(y, x, size);
      TimesMonotone(y / size, x / size, size);
    }
  }

  /** Coverage is refused for a block size that is not positive; otherwise it is the block size
      times the number of ids that the input, without its last token, shares with the earlier
      inputs. */
  lemma CoverageCountsIds(nodes: Nodes, tokens: seq<int>, previous: seq<seq<int>>, size: int)
    requires Interned(nodes)
    requires size > 0 ==> AllKnown(nodes, Held(previous, size))
    requires size > 0 ==> AllKnown(nodes, Prefixes(Chunks(tokens[..Limit(tokens)], size)))
    ensures PrefixCoverage(tokens, previous, size) ==
              if size <= 0 then None
              else Some(|Image(nodes, Prefixes(Chunks(tokens[..Limit(tokens)], size))) * Image(nodes, Held(previous, size))| * size)
  {
    hide Chunks, Prefixes, Held, Image, AllKnown;
    if size > 0 {
      CoverageInBlocks(tokens, previous, size);
      SharedIds(nodes, tokens[..Limit(tokens)], previous, size);
    }
  }

  /** The parity report's eligible ideal. */
  function EligibleIdeal(tokens: seq<int>, earlier: seq<seq<int>>): nat {
    Min(16 * (MaxLcp(tokens, earlier) / 16), 16 * (Limit(tokens) / 16))
  }

  /** Both reports compute the same number. */
  lemma EligibleIsCoverage(tokens: seq<int>, earlier: seq<seq<int>>)
    ensures PrefixCoverage(tokens, earlier, 16) == Some(EligibleIdeal(tokens, earlier))
  {
    CoverageInBlocks(tokens, earlier, 16);
    MaxTruncated(tokens, earlier, Limit(tokens));
  }

  /** The blocks of a warmup that its follow-up does not hold, by the cost report's arithmetic. */
  function NonmatchingBlocks(prepared: seq<int>, following: seq<int>, size: nat): int
    requires size > 0
  {
    (|prepared| / size * size - Lcp(prepared, following) / size * size) / size
  }

  lemma NonmatchingCountsIds(nodes: Nodes, prepared: seq<int>, following: seq<int>, size: nat)
    requires size > 0 && Interned(nodes)
    requires AllKnown(nodes, Prefixes(Chunks(prepared, size))) && AllKnown(nodes, Prefixes(Chunks(following, size)))
    ensures NonmatchingBlocks(prepared, following, size)
         == |Image(nodes, Prefixes(Chunks(prepared, size))) - Image(nodes, Prefixes(Chunks(following, size)))|
  {
    hide Chunks, AllKnown, Interned, Prefixes, AllPrefixes, Image, MaxLcp;
    var a, b := Chunks(prepared, size), Chunks(following, size);
    var p, q := Prefixes(a), Prefixes(b);
    ImageOps(nodes, p, q);
    ImageKnown(nodes, p, p - q);
    ImageSize(nodes, p - q);
    HeldOne(b);
    SharedCount(a, [b]);
    PrefixCount(a, |a|);
    assert a[..|a|] == a;
    SetSplit(p, q);
    ChunkCount(prepared, size);
    SharedChunks(prepared, following, size);
    MaxOfOne(a, b);
    DifferenceOfMultiples(|prepared| / size, Lcp(prepared, following) / size, size);
  }

  lemma MaxOfOne(a: Path, b: Path)
    ensures MaxLcp(a, [b]) == Lcp(a, b)
  {
    assert [b][..0] == [];
  }

  lemma ImageKnown(nodes: Nodes, p: set<Path>, q: set<Path>)
    requires AllKnown(nodes, p) && q <= p
    ensures AllKnown(nodes, q)
  {
  }

  lemma HeldOne(b: Path)
    ensures AllPrefixes([b]) == Prefixes(b)
  {
    assert [b][..0] == [];
  }

  lemma DifferenceOfMultiples(x: nat, y: nat, size: nat)
    requires size > 0 && y <= x
    ensures (x * size - y * size) / size == x - y
  {
    assert x * size - y * size == (x - y) * size;
    DivideUnique((x - y) * size, size, x - y, 0);
  }

  /******* A session of warmups and follow-ups *******/

  datatype Case = Case(original: seq<int>, prepared: seq<int>, following: seq<int>)

  datatype Snapshot = Snapshot(current: nat, seen: nat, olderReal: nat, warm: nat, warmOnly: nat, both: nat, combined: nat)

  datatype Stage = AfterWarmup | AfterFollowup
  datatype Step = Step(position: nat, stage: Stage, counts: Snapshot)

  /** Counts over the sets of known blocks; current must belong to the real history. */
  function Measure<T>(seen: set<T>, warm: set<T>, current: set<T>): Option<Snapshot> {
    if !(current <= seen) then None
    else Some(Snapshot(|current|, |seen|, |seen - current|, |warm|, |warm - seen|, |warm * seen|, |seen + warm|))
  }

  ghost function Reals(rows: seq<Case>): seq<seq<int>> {
    if rows == [] then [] else Reals(rows[..|rows| - 1]) + [rows[|rows| - 1].original] + [rows[|rows| - 1].following]
  }

  ghost function Warms(rows: seq<Case>): seq<seq<int>> {
    if rows == [] then [] else Warms(rows[..|rows| - 1]) + [rows[|rows| - 1].prepared]
  }

  /** Each count of a snapshot is the number of block prefixes of its own kind. */
  ghost predicate Pictured(s: Snapshot, seen: set<Path>, warm: set<Path>, current: set<Path>) {
    && s.current == |current|
    && s.seen == |seen|
    && s.olderReal == |set p | p in seen && p !in current|
    && s.warm == |warm|
    && s.warmOnly == |set p | p in warm && p !in seen|
    && s.both == |set p | p in warm && p in seen|
    && s.combined == |seen + warm|
  }

  lemma MeasurePictures(seen: set<Path>, warm: set<Path>, current: set<Path>)
    ensures Measure(seen, warm, current).Some? <==> current <= seen
    ensures Measure(seen, warm, current).Some? ==> Pictured(Measure(seen, warm, current).value, seen, warm, current)
  {
    assert (set p | p in seen && p !in current) == seen - current;
    assert (set p | p in warm && p !in seen) == warm - seen;
    assert (set p | p in warm && p in seen) == warm * seen;
  }

  /** The counts of a snapshot fit together. */
  lemma PictureBalances(s: Snapshot, seen: set<Path>, warm: set<Path>, current: set<Path>)
    requires Pictured(s, seen, warm, current) && current <= seen
    ensures s.seen == s.current + s.olderReal && s.warm == s.warmOnly + s.both && s.combined == s.seen + s.warmOnly
  {
    var older, only, both := (set p | p in seen && p !in current), (set p | p in warm && p !in seen), (set p | p in warm && p in seen);
    PartsAdd(current, older, seen);
    PartsAdd(only, both, warm);
    PartsAdd(seen, only, seen + warm);
  }

  lemma PartsAdd<T>(a: set<T>, b: set<T>, all: set<T>)
    requires a !! b && forall x :: x in all <==> x in a || x in b
    ensures |all| == |a| + |b|
  {
    assert all == a + b;
  }

  /** Counting ids is counting block prefixes. */
  lemma MeasureImage(nodes: Nodes, seen: set<Path>, warm: set<Path>, current: set<Path>)
    requires Interned(nodes) && AllKnown(nodes, seen) && AllKnown(nodes, warm) && current <= seen
    ensures Measure(Image(nodes, seen), Image(nodes, warm), Image(nodes, current)) == Measure(seen, warm, current)
  {
    hide Interned, Known, Walk;
    assert AllKnown(nodes, current);
    ImageOps(nodes, seen, current);
    ImageOps(nodes, current, seen);
    ImageOps(nodes, warm, seen);
    ImageOps(nodes, seen, warm);
    ImageSize(nodes, current);
    ImageSize(nodes, seen);
    ImageSize(nodes, warm);
    ImageSize(nodes, seen - current);
    ImageSize(nodes, warm - seen);
    ImageSize(nodes, warm * seen);
    ImageSize(nodes, seen + warm);
  }

  /** The id sets that the loop carries stand for the inputs seen so far. */
  ghost predicate Stands(nodes: Nodes, ids: set<nat>, inputs: seq<seq<int>>, size: nat)
    requires size > 0
  {
    AllKnown(nodes, Held(inputs, size)) && ids == Image(nodes, Held(inputs, size))
  }

  lemma StandsMore(before: Nodes, nodes: Nodes, ids: set<nat>, inputs: seq<seq<int>>, x: seq<int>, more: set<nat>, size: nat)
    requires size > 0 && Interned(nodes) && Extends(before, nodes) && Stands(before, ids, inputs, size)
    requires AllKnown(nodes, Prefixes(Chunks(x, size))) && more == Image(nodes, Prefixes(Chunks(x, size)))
    ensures Stands(nodes, ids + more, inputs + [x], size)
  {
    hide Interned, Known, Walk, Chunks, Prefixes, Held;
    HeldSnoc(inputs, x, size);
    ImageStable(before, nodes, Held(inputs, size));
    ImageOps(nodes, Held(inputs, size), Prefixes(Chunks(x, size)));
  }

  lemma StandsStable(before: Nodes, nodes: Nodes, ids: set<nat>, inputs: seq<seq<int>>, size: nat)
    requires size > 0 && Extends(before, nodes) && Stands(before, ids, inputs, size)
    ensures Stands(nodes, ids, inputs, size)
  {
    ImageStable(before, nodes, Held(inputs, size));
  }

  lemma MeasureStands(nodes: Nodes, seen: set<nat>, warm: set<nat>, reals: seq<seq<int>>, warms: seq<seq<int>>,
                      x: seq<int>, size: nat)
    requires size > 0 && Interned(nodes) && Stands(nodes, seen, reals + [x], size) && Stands(nodes, warm, warms, size)
    ensures Measure(seen, warm, Image(nodes, Prefixes(Chunks(x, size))))
         == Measure(Held(reals + [x], size), Held(warms, size), Prefixes(Chunks(x, size)))
    ensures Measure(seen, warm, Image(nodes, Prefixes(Chunks(x, size)))).Some?
  {
    hide Interned, Known, Walk, Chunks, Prefixes, Held, Image, AllKnown;
    HeldSnoc(reals, x, size);
    MeasureImage(nodes, Held(reals + [x], size), Held(warms, size), Prefixes(Chunks(x, size)));
  }

  lemma StandsNone(nodes: Nodes, size: nat)
    requires size > 0
    ensures Stands(nodes, {}, [], size)
  {
  }

  /** The two steps of row `k` count what the inputs up to then stand for. */
  ghost predicate RowShown(rows: seq<Case>, size: nat, steps: seq<Step>, k: nat)
    requires size > 0 && k < |rows|
  {
    && 2 * k + 1 < |steps|
    && steps[2 * k].position == k + 1 == steps[2 * k + 1].position
    && steps[2 * k].stage == AfterWarmup && steps[2 * k + 1].stage == AfterFollowup
    && var reals, warms, row := Reals(rows[..k]), Held(Warms(rows[..k + 1]), size), rows[k];
       && Pictured(steps[2 * k].counts, Held(reals + [row.original], size), warms, Prefixes(Chunks(row.original, size)))
       && Pictured(steps[2 * k + 1].counts, Held(reals + [row.original] + [row.following], size), warms,
                   Prefixes(Chunks(row.following, size)))
  }

  lemma ShownStays(rows: seq<Case>, size: nat, steps: seq<Step>, k: nat, a: Step, b: Step)
    requires size > 0 && k < |rows| && RowShown(rows, size, steps, k)
    ensures RowShown(rows, size, steps + [a] + [b], k)
  {
    hide Pictured, Held, Prefixes, Chunks, Reals, Warms;
  }

  /** Intern the inputs of one row, with a snapshot after its warmup and one after its follow-up. */
  method ShowRow(identities: BlockIdentity, row: Case, seen: set<nat>, warm: set<nat>, ghost reals: seq<seq<int>>,
                 ghost warms: seq<seq<int>>)
    returns (first: Snapshot, second: Snapshot, seenNow: set<nat>, warmNow: set<nat>)
    requires identities.Valid()
    requires Stands(identities.nodes, seen, reals, identities.size) && Stands(identities.nodes, warm, warms, identities.size)
    modifies identities`nodes
    ensures identities.Valid()
    ensures Stands(identities.nodes, seenNow, reals + [row.original] + [row.following], identities.size)
    ensures Stands(identities.nodes, warmNow, warms + [row.prepared], identities.size)
    ensures var n := identities.size;
            && Pictured(first, Held(reals + [row.original], n), Held(warms + [row.prepared], n), Prefixes(Chunks(row.original, n)))
            && Pictured(second, Held(reals + [row.original] + [row.following], n), Held(warms + [row.prepared], n),
                        Prefixes(Chunks(row.following, n)))
  {
    hide Interned, Extends, Stands, Measure, Image, AllKnown, Known, Chunks, Prefixes, Held, Pictured;
    var size := identities.size;
    ghost var n0 := identities.nodes;
    var current := identities.Blocks(row.original);
    StandsMore(n0, identities.nodes, seen, reals, row.original, current, size);
    StandsStable(n0, identities.nodes, warm, warms, size);
    seenNow := seen + current;
    ghost var n1 := identities.nodes;
    var prepared := identities.Blocks(row.prepared);
    StandsMore(n1, identities.nodes, warm, warms, row.prepared, prepared, size);
    StandsStable(n1, identities.nodes, seenNow, reals + [row.original], size);
    warmNow := warm + prepared;
    CurrentStable(n1, identities.nodes, row.original, size);
    MeasureStands(identities.nodes, seenNow, warmNow, reals, warms + [row.prepared], row.original, size);
    MeasurePictures(Held(reals + [row.original], size), Held(warms + [row.prepared], size), Prefixes(Chunks(row.original, size)));
    var measured := Measure(seenNow, warmNow, current);
    first := measured.value;
    ghost var n2 := identities.nodes;
    current := identities.Blocks(row.following);
    StandsMore(n2, identities.nodes, seenNow, reals + [row.original], row.following, current, size);
    StandsStable(n2, identities.nodes, warmNow, warms + [row.prepared], size);
    seenNow := seenNow + current;
    MeasureStands(identities.nodes, seenNow, warmNow, reals + [row.original], warms + [row.prepared], row.following, size);
    MeasurePictures(Held(reals + [row.original] + [row.following], size), Held(warms + [row.prepared], size),
                    Prefixes(Chunks(row.following, size)));
    measured := Measure(seenNow, warmNow, current);
    second := measured.value;
  }

  /** One more row, in terms of the rows so far. */
  lemma ShowMore(rows: seq<Case>, size: nat, k: nat, steps: seq<Step>, first: Snapshot, second: Snapshot)
    requires size > 0 && k < |rows| && |steps| == 2 * k && forall j :: 0 <= j < k ==> RowShown(rows, size, steps, j)
    requires var reals, warms, row := Reals(rows[..k]), Warms(rows[..k]), rows[k];
             && Pictured(first, Held(reals + [row.original], size), Held(warms + [row.prepared], size),
                         Prefixes(Chunks(row.original, size)))
             && Pictured(second, Held(reals + [row.original] + [row.following], size), Held(warms + [row.prepared], size),
                         Prefixes(Chunks(row.following, size)))
    ensures var more := steps + [Step(k + 1, AfterWarmup, first)] + [Step(k + 1, AfterFollowup, second)];
            forall j :: 0 <= j < k + 1 ==> RowShown(rows, size, more, j)
  {
    hide Pictured, Held, Prefixes, Chunks;
    var a, b := Step(k + 1, AfterWarmup, first), Step(k + 1, AfterFollowup, second);
    SessionSnoc(rows, k);
    forall j | 0 <= j < k ensures RowShown(rows, size, steps + [a] + [b], j) { ShownStays(rows, size, steps, j, a, b); }
  }

  lemma SessionSnoc(rows: seq<Case>, k: nat)
    requires k < |rows|
    ensures rows[..k + 1][..k] == rows[..k] && rows[..k + 1][k] == rows[k]
    ensures Reals(rows[..k + 1]) == Reals(rows[..k]) + [rows[k].original] + [rows[k].following]
    ensures Warms(rows[..k + 1]) == Warms(rows[..k]) + [rows[k].prepared]
  {
    assert rows[..k + 1][..k] == rows[..k];
  }

  /** Intern every input of a session in order and take two snapshots per row. */
  method Session(rows: seq<Case>, size: int) returns (r: Option<seq<Step>>)
    ensures r.Some? <==> size > 0 && rows != []
    ensures r.Some? ==> |r.value| == 2 * |rows|
    ensures r.Some? ==> forall k :: 0 <= k < |rows| ==> RowShown(rows, size, r.value, k)
  {
    hide Interned, Extends, Stands, Measure, Prefixes, Chunks, Held, RowShown, Reals, Warms;
    var maybe := BlockIdentity.Create(size);
    if maybe.None? { return None; }
    var identities := maybe.value;
    var seen: set<nat>, warm: set<nat>, steps: seq<Step> := {}, {}, [];
    StandsNone(identities.nodes, size);
    NoRows();
    for k := 0 to |rows|
      invariant identities.Valid() && identities.size == size && |steps| == 2 * k && fresh(identities)
      invariant Stands(identities.nodes, seen, Reals(rows[..k]), size)
      invariant Stands(identities.nodes, warm, Warms(rows[..k]), size)
      invariant forall j :: 0 <= j < k ==> RowShown(rows, size, steps, j)
    {
      var first, second, seenNow, warmNow := ShowRow(identities, rows[k], seen, warm, Reals(rows[..k]), Warms(rows[..k]));
      SessionSnoc(rows, k);
      ShowMore(rows, size, k, steps, first, second);
      seen, warm := seenNow, warmNow;
      steps := steps + [Step(k + 1, AfterWarmup, first)] + [Step(k + 1, AfterFollowup, second)];
    }
    if steps == [] { return None; }
    r := Some(steps);
  }

  lemma NoRows()
    ensures Reals([]) == [] && Warms([]) == []
  {
  }

  lemma CurrentStable(before: Nodes, nodes: Nodes, x: seq<int>, size: nat)
    requires size > 0 && Extends(before, nodes) && AllKnown(before, Prefixes(Chunks(x, size)))
    ensures Image(nodes, Prefixes(Chunks(x, size))) == Image(before, Prefixes(Chunks(x, size)))
  {
    ImageStable(before, nodes, Prefixes(Chunks(x, size)));
  }

  /******* Warmups that are prefixes of their follow-ups leave nothing behind *******/

  lemma {:induction false} PrefixChunks(a: seq<int>, b: seq<int>, size: nat)
    requires size > 0 && a <= b
    ensures Chunks(a, size) <= Chunks(b, size)
    decreases |a|
  {
    if |a| >= size {
      assert a[..size] == b[..size] && a[size..] <= b[size..];
      PrefixChunks(a[size..], b[size..], size);
    }
  }

  lemma PrefixesNested(a: Path, b: Path)
    requires a <= b
    ensures Prefixes(a) <= Prefixes(b)
  {
    forall p | p in Prefixes(a) ensures p in Prefixes(b) {
      PrefixMember(p, a);
      PrefixMember(p, b);
    }
  }

  lemma {:induction false} WarmsHeld(rows: seq<Case>, size: nat)
    requires size > 0 && forall row :: row in rows ==> row.prepared <= row.following
    ensures Held(Warms(rows), size) <= Held(Reals(rows), size)
  {
    hide Chunks, Held, Prefixes;
    if rows == [] {
      assert Warms(rows) == Reals(rows);
    } else {
      var init, row := rows[..|rows| - 1], rows[|rows| - 1];
      WarmsHeld(init, size);
      HeldSnoc(Warms(init), row.prepared, size);
      HeldSnoc(Reals(init), row.original, size);
      HeldSnoc(Reals(init) + [row.original], row.following, size);
      PrefixChunks(row.prepared, row.following, size);
      PrefixesNested(Chunks(row.prepared, size), Chunks(row.following, size));
    }
  }

  /** If every warmup so far is an exact prefix of its follow-up, the snapshot after the
      follow-up has no warmup-only block. */
  lemma NoWarmupOnly(rows: seq<Case>, size: nat, steps: seq<Step>, k: nat)
    requires size > 0 && k < |rows| && RowShown(rows, size, steps, k)
    requires forall row :: row in rows[..k + 1] ==> row.prepared <= row.following
    ensures steps[2 * k + 1].counts.warmOnly == 0
  {
    hide Chunks, Held, Prefixes;
    SessionSnoc(rows, k);
    WarmsHeld(rows[..k + 1], size);
    var warms, reals := Held(Warms(rows[..k + 1]), size), Held(Reals(rows[..k + 1]), size);
    assert (set p | p in warms && p !in reals) == {};
  }

  lemma {:induction false} HeldMember(inputs: seq<seq<int>>, p: Path, size: nat)
    requires size > 0
    ensures p in Held(inputs, size) <==> exists i :: 0 <= i < |inputs| && p in Prefixes(Chunks(inputs[i], size))
  {
    hide Chunks, Prefixes, Held;
    if inputs == [] {
      assert Held(inputs, size) == {} by { HeldNone(size); }
    } else {
      var init := inputs[..|inputs| - 1];
      HeldMember(init, p, size);
      HeldSnoc(init, inputs[|inputs| - 1], size);
      assert inputs == init + [inputs[|inputs| - 1]];
    }
  }

  lemma HeldNone(size: nat)
    requires size > 0
    ensures Held([], size) == {}
  {
  }

  /** Some real input holds all whole blocks of `a`. */
  predicate Covered(a: seq<int>, reals: seq<seq<int>>, size: nat)
    requires size > 0
  {
    MaxLcp(a, reals) / size == |a| / size
  }

  /** Exactly when no block of the warmups is theirs alone: each warmup's whole blocks are
      covered by some real input. */
  lemma WarmupOnlyExactly(warms: seq<seq<int>>, reals: seq<seq<int>>, size: nat)
    requires size > 0
    ensures |Held(warms, size) - Held(reals, size)| == 0 <==> forall i :: 0 <= i < |warms| ==> Covered(warms[i], reals, size)
  {
    hide Covered, Held, Prefixes, Chunks;
    var w, r := Held(warms, size), Held(reals, size);
    forall i | 0 <= i < |warms| ensures Prefixes(Chunks(warms[i], size)) <= r <==> Covered(warms[i], reals, size) {
      CoveredExactly(warms[i], reals, size);
    }
    forall i, p | 0 <= i < |warms| && p in Prefixes(Chunks(warms[i], size)) ensures p in w { HeldMember(warms, p, size); }
    if forall i :: 0 <= i < |warms| ==> Covered(warms[i], reals, size) {
      forall p | p in w ensures p in r {
        HeldMember(warms, p, size);
        var i :| 0 <= i < |warms| && p in Prefixes(Chunks(warms[i], size));
      }
    }
    SetSplit(w, r);
  }

  lemma SetSplit<T>(p: set<T>, q: set<T>)
    ensures |p| == |p - q| + |p * q|
    ensures p <= q <==> |p - q| == 0
  {
    assert p == (p - q) + p * q;
    if |p - q| == 0 { assert p - q == {}; }
  }

  lemma CoveredExactly(a: seq<int>, reals: seq<seq<int>>, size: nat)
    requires size > 0
    ensures Prefixes(Chunks(a, size)) <= Held(reals, size) <==> Covered(a, reals, size)
  {
    hide Chunks, Prefixes, AllPrefixes, MaxLcp;
    var c := Chunks(a, size);
    SharedCount(c, ChunkAll(reals, size));
    MaxChunks(a, reals, size);
    PrefixCount(c, |c|);
    assert c[..|c|] == c;
    ChunkCount(a, size);
    SetSplit(Prefixes(c), Held(reals, size));
  }
}
