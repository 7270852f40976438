/** Block identity by interning: a block's id stands for the whole token prefix that ends with
    it, so counting ids agrees with longest-common-prefix arithmetic. */
module BlockTrie {
  import opened Numbers
  import opened Wrappers

  type Block = seq<int>
  type Path = seq<Block>

  /******* Whole blocks of an input *******/

  /** The whole blocks of `tokens`, in order; a partial last block is left out. */
  function Chunks(tokens: seq<int>, size: nat): (r: Path)
    requires size > 0
    decreases |tokens|
  {
    if |tokens| < size then [] else [tokens[..size]] + Chunks(tokens[size..], size)
  }

  lemma DivideStep(n: nat, size: nat)
    requires 0 < size <= n
    ensures n / size == (n - size) / size + 1
  {
    var q, r := (n - size) / size, (n - size) % size;
    assert n - size == q * size + r;
    DivideUnique(n, size, q + 1, r);
  }

  lemma DivideUnique(n: nat, size: nat, q: nat, r: nat)
    requires size > 0 && n == q * size + r && r < size
    ensures n / size == q
  {
    var d, m := n / size, n % size;
    assert n == d * size + m;
    assert (d - q) * size == r - m;
    MultipleLarge(d - q, size);
  }

  lemma MultipleLarge(x: int, size: int)
    requires size > 0
    ensures x > 0 ==> x * size >= size
    ensures x < 0 ==> x * size <= -size
  {
  }

  lemma DivideSmall(n: nat, size: nat)
    requires n < size
    ensures n / size == 0
  {
  }

  lemma DivideMonotone(a: nat, b: nat, size: nat)
    requires a <= b && size > 0
    ensures a / size <= b / size
    decreases b
  {
    if b < size {
      DivideSmall(a, size);
      DivideSmall(b, size);
    } else if a < size {
      DivideSmall(a, size);
      DivideStep(b, size);
    } else {
      DivideStep(a, size);
      DivideStep(b, size);
      DivideMonotone(a - size, b - size, size);
    }
  }

  lemma {:induction false} ChunkCount(tokens: seq<int>, size: nat)
    requires size > 0
    ensures |Chunks(tokens, size)| == |tokens| / size
    decreases |tokens|
  {
    if |tokens| < size {
      DivideSmall(|tokens|, size);
    } else {
      DivideStep(|tokens|, size);
      ChunkCount(tokens[size..], size);
    }
  }

  function Lcp<T(==)>(a: seq<T>, b: seq<T>): (n: nat)
    ensures n <= |a| && n <= |b| && a[..n] == b[..n]
    ensures n < |a| && n < |b| ==> a[n] != b[n]
  {
    if a == [] || b == [] || a[0] != b[0] then 0 else 1 + Lcp(a[1..], b[1..])
  }

  /** The first position where two inputs differ, found by scanning both. */
  method CommonPrefix(left: seq<int>, right: seq<int>) returns (n: nat)
    ensures n == Lcp(left, right)
  {
    n := 0;
    while n < |left| && n < |right|
      invariant n <= |left| && n <= |right| && left[..n] == right[..n]
    {
      if left[n] != right[n] { break; }
      n := n + 1;
    }
    LcpUnique(left, right, n);
  }

  lemma {:induction false} LcpUnique<T>(a: seq<T>, b: seq<T>, n: nat)
    requires n <= |a| && n <= |b| && a[..n] == b[..n]
    requires n < |a| && n < |b| ==> a[n] != b[n]
    ensures n == Lcp(a, b)
  {
    if n > 0 {
      assert a[0] == a[..n][0] && b[0] == b[..n][0];
      assert a[1..][..n - 1] == a[..n][1..] && b[1..][..n - 1] == b[..n][1..];
      LcpUnique(a[1..], b[1..], n - 1);
    }
  }

  lemma LcpDrop<T>(a: seq<T>, b: seq<T>, k: nat)
    requires k <= |a| && k <= |b| && a[..k] == b[..k]
    ensures Lcp(a, b) == k + Lcp(a[k..], b[k..])
  {
    var n := Lcp(a[k..], b[k..]);
    assert a[..k + n] == a[..k] + a[k..][..n];
    assert b[..k + n] == b[..k] + b[k..][..n];
    LcpUnique(a, b, k + n);
  }

  lemma LcpLong<T>(a: seq<T>, b: seq<T>, k: nat)
    requires k <= Lcp(a, b)
    ensures a[..k] == b[..k]
  {
    var n := Lcp(a, b);
    assert a[..n][..k] == a[..k] && b[..n][..k] == b[..k];
  }

  lemma LcpShort<T>(a: seq<T>, b: seq<T>, k: nat)
    requires k <= |a| && k <= |b| && a[..k] != b[..k]
    ensures Lcp(a, b) < k
  {
    if k <= Lcp(a, b) { LcpLong(a, b, k); }
  }

  /** Two inputs share as many leading whole blocks as fit in their common token prefix. */
  lemma {:induction false} SharedChunks(a: seq<int>, b: seq<int>, size: nat)
    requires size > 0
    ensures Lcp(Chunks(a, size), Chunks(b, size)) == Lcp(a, b) / size
    decreases |a|
  {
    if |a| < size || |b| < size {
      DivideSmall(Lcp(a, b), size);
    } else if a[..size] != b[..size] {
      LcpShort(a, b, size);
      DivideSmall(Lcp(a, b), size);
    } else {
      LcpDrop(a, b, size);
      SharedChunks(a[size..], b[size..], size);
      DivideStep(Lcp(a, b), size);
      LcpCons(a[..size], Chunks(a[size..], size), Chunks(b[size..], size));
    }
  }

  lemma LcpCons<T>(x: T, a: seq<T>, b: seq<T>)
    ensures Lcp([x] + a, [x] + b) == 1 + Lcp(a, b)
  {
    assert ([x] + a)[1..] == a && ([x] + b)[1..] == b;
  }

  /******* Prefix sets *******/

  ghost predicate Begins(p: Path, path: Path) { p <= path }

  /** The nonempty prefixes of a path: what its blocks stand for. */
  ghost function Prefixes(path: Path): set<Path> { set i | 1 <= i <= |path| :: path[..i] }

  ghost function AllPrefixes(paths: seq<Path>): set<Path> {
    if paths == [] then {} else AllPrefixes(paths[..|paths| - 1]) + Prefixes(paths[|paths| - 1])
  }

  lemma PrefixMember(p: Path, path: Path)
    ensures p in Prefixes(path) <==> p != [] && p <= path
  {
    if p != [] && p <= path { assert p == path[..|p|]; }
  }

  lemma {:induction false} AllPrefixesMember(p: Path, paths: seq<Path>)
    ensures p in AllPrefixes(paths) <==> exists i :: 0 <= i < |paths| && p in Prefixes(paths[i])
  {
    if paths != [] {
      AllPrefixesMember(p, paths[..|paths| - 1]);
    }
  }

  function MaxLcp<T(==)>(a: seq<T>, others: seq<seq<T>>): (n: nat)
    ensures n <= |a|
  {
    if others == [] then 0
    else Max(MaxLcp(a, others[..|others| - 1]), Lcp(a, others[|others| - 1]))
  }

  lemma SharedPrefixes(a: Path, b: Path, i: nat)
    requires 1 <= i <= |a|
    ensures a[..i] in Prefixes(b) <==> i <= Lcp(a, b)
  {
    PrefixMember(a[..i], b);
    if i <= Lcp(a, b) { LcpLong(a, b, i); }
    if a[..i] <= b {
      assert a[..i] == b[..i];
      LcpDrop(a, b, i);
    }
  }

  lemma {:induction false} SharedWithAny(a: Path, others: seq<Path>, i: nat)
    requires 1 <= i <= |a|
    ensures a[..i] in AllPrefixes(others) <==> i <= MaxLcp(a, others)
  {
    if others != [] {
      SharedWithAny(a, others[..|others| - 1], i);
      SharedPrefixes(a, others[|others| - 1], i);
    }
  }

  lemma BeginsSnoc(p: Path, path: Path, block: Block)
    ensures Begins(p, path + [block]) <==> Begins(p, path) || p == path + [block]
  {
    assert (path + [block])[..|path|] == path;
    if Begins(p, path + [block]) && |p| > |path| { assert p == path + [block]; }
  }

  lemma PrefixesSnoc(path: Path, block: Block)
    ensures Prefixes(path + [block]) == Prefixes(path) + {path + [block]}
  {
    forall p ensures p in Prefixes(path + [block]) <==> p in Prefixes(path) || p == path + [block] {
      PrefixMember(p, path + [block]);
      PrefixMember(p, path);
      BeginsSnoc(p, path, block);
    }
  }

  lemma {:induction false} PrefixCount(path: Path, n: nat)
    requires n <= |path|
    ensures |Prefixes(path[..n])| == n
  {
    if n > 0 {
      PrefixCount(path, n - 1);
      assert path[..n] == path[..n - 1] + [path[n - 1]];
      PrefixesSnoc(path[..n - 1], path[n - 1]);
      forall p | p in Prefixes(path[..n - 1]) ensures |p| < n { PrefixMember(p, path[..n - 1]); }
    }
  }

  /** The blocks of an input that earlier inputs already hold are its longest shared prefix. */
  lemma SharedCount(a: Path, others: seq<Path>)
    ensures |Prefixes(a) * AllPrefixes(others)| == MaxLcp(a, others)
  {
    var n := MaxLcp(a, others);
    forall p ensures p in Prefixes(a) * AllPrefixes(others) <==> p in Prefixes(a[..n]) {
      PrefixMember(p, a);
      PrefixMember(p, a[..n]);
      if p != [] && p <= a {
        assert p == a[..|p|];
        SharedWithAny(a, others, |p|);
        if |p| <= n { assert a[..n][..|p|] == p; }
      }
    }
    assert Prefixes(a) * AllPrefixes(others) == Prefixes(a[..n]);
    PrefixCount(a, n);
  }

  /******* The interning table *******/

  type Nodes = map<(nat, Block), nat>

  /** Ids are distinct, within 1 to the size of the table, and larger than their parents. */
  ghost predicate Interned(nodes: Nodes) {
    && (forall k :: k in nodes ==> 1 <= nodes[k] <= |nodes| && k.0 < nodes[k])
    && (forall k, j :: k in nodes && j in nodes && nodes[k] == nodes[j] ==> k == j)
  }

  ghost predicate Extends(before: Nodes, after: Nodes) {
    forall k :: k in before ==> k in after && after[k] == before[k]
  }

  /** The id that a path leads to; the root is 0. */
  function Walk(nodes: Nodes, path: Path): (id: Option<nat>) {
    if path == [] then Some(0)
    else
      var p := Walk(nodes, path[..|path| - 1]);
      if p.Some? && (p.value, path[|path| - 1]) in nodes then Some(nodes[(p.value, path[|path| - 1])]) else None
  }

  ghost predicate Known(nodes: Nodes, path: Path) { Walk(nodes, path).Some? }

  /** An id determines the whole path to it. */
  lemma {:induction false} WalkInjective(nodes: Nodes, a: Path, b: Path)
    requires Interned(nodes) && Known(nodes, a) && Walk(nodes, a) == Walk(nodes, b)
    ensures a == b
  {
    if a != [] && b != [] {
      var p, q := Walk(nodes, a[..|a| - 1]), Walk(nodes, b[..|b| - 1]);
      assert (p.value, a[|a| - 1]) == (q.value, b[|b| - 1]);
      WalkInjective(nodes, a[..|a| - 1], b[..|b| - 1]);
      assert a == a[..|a| - 1] + [a[|a| - 1]] && b == b[..|b| - 1] + [b[|b| - 1]];
    }
  }

  lemma {:induction false} WalkStable(before: Nodes, after: Nodes, path: Path)
    requires Extends(before, after) && Known(before, path)
    ensures Walk(after, path) == Walk(before, path)
  {
    if path != [] { WalkStable(before, after, path[..|path| - 1]); }
  }

  lemma {:induction false} PrefixKnown(nodes: Nodes, path: Path, i: nat)
    requires Known(nodes, path) && i <= |path|
    ensures Known(nodes, path[..i])
  {
    if i == |path| {
      assert path[..i] == path;
    } else {
      PrefixKnown(nodes, path[..|path| - 1], i);
      assert path[..|path| - 1][..i] == path[..i];
    }
  }

  /** The program's `setdefault`: look the child up, or give it the next id. */
  function Intern(nodes: Nodes, parent: nat, block: Block): Nodes {
    if (parent, block) in nodes then nodes else nodes[(parent, block) := |nodes| + 1]
  }

  lemma InternShape(nodes: Nodes, path: Path, block: Block)
    requires Interned(nodes) && Known(nodes, path)
    ensures var after := Intern(nodes, Walk(nodes, path).value, block);
            && Interned(after) && Extends(nodes, after)
            && Walk(after, path + [block]) == Some(after[(Walk(nodes, path).value, block)])
  {
    hide Interned;
    var parent := Walk(nodes, path).value;
    var after := Intern(nodes, parent, block);
    WalkInRange(nodes, path);
    InternKeeps(nodes, parent, block);
    WalkStable(nodes, after, path);
    assert (path + [block])[..|path|] == path;
  }

  lemma InternKeeps(nodes: Nodes, parent: nat, block: Block)
    requires Interned(nodes) && parent <= |nodes|
    ensures Interned(Intern(nodes, parent, block)) && Extends(nodes, Intern(nodes, parent, block))
  {
    var after := Intern(nodes, parent, block);
    if (parent, block) !in nodes {
      assert after.Keys == nodes.Keys + {(parent, block)};
      assert |after| == |nodes| + 1;
    }
  }

  lemma WalkInRange(nodes: Nodes, path: Path)
    requires Interned(nodes) && Known(nodes, path)
    ensures Walk(nodes, path).value <= |nodes|
  {
  }

  /** Interning one child of a known path makes exactly one more path known. */
  lemma {:induction false} InternPaths(nodes: Nodes, path: Path, block: Block, p: Path)
    requires Interned(nodes) && Known(nodes, path)
    ensures Known(Intern(nodes, Walk(nodes, path).value, block), p) <==> Known(nodes, p) || p == path + [block]
    decreases |p|
  {
    var parent := Walk(nodes, path).value;
    var after := Intern(nodes, parent, block);
    InternShape(nodes, path, block);
    if Known(nodes, p) {
      WalkStable(nodes, after, p);
    } else if Known(after, p) {
      var init, last := p[..|p| - 1], p[|p| - 1];
      assert p == init + [last];
      InternPaths(nodes, path, block, init);
      if Known(nodes, init) {
        WalkStable(nodes, after, init);
        assert (Walk(nodes, init).value, last) == (parent, block);
        WalkInjective(nodes, init, path);
      } else {
        assert init == path + [block];
        NewIsLeaf(nodes, path, block, last);
      }
    }
  }

  /** The node that was just created has no children yet. */
  lemma NewIsLeaf(nodes: Nodes, path: Path, block: Block, last: Block)
    requires Interned(nodes) && Known(nodes, path) && !Known(nodes, path + [block])
    ensures !Known(Intern(nodes, Walk(nodes, path).value, block), path + [block] + [last])
  {
    var parent := Walk(nodes, path).value;
    var after := Intern(nodes, parent, block);
    var child := path + [block];
    assert child[..|child| - 1] == path && child[|child| - 1] == block;
    assert (parent, block) !in nodes;
    InternShape(nodes, path, block);
    assert (child + [last])[..|child|] == child;
    assert Walk(after, child).value == |nodes| + 1;
    WalkInRange(nodes, path);
  }

  /******* Ids of an input *******/

  ghost function Image(nodes: Nodes, paths: set<Path>): set<nat> {
    set p | p in paths && Known(nodes, p) :: Walk(nodes, p).value
  }

  ghost predicate AllKnown(nodes: Nodes, paths: set<Path>) { forall p :: p in paths ==> Known(nodes, p) }

  lemma ImageMember(nodes: Nodes, paths: set<Path>, p: Path)
    requires Interned(nodes) && Known(nodes, p)
    ensures Walk(nodes, p).value in Image(nodes, paths) <==> p in paths
  {
    if Walk(nodes, p).value in Image(nodes, paths) {
      var q :| q in paths && Known(nodes, q) && Walk(nodes, q).value == Walk(nodes, p).value;
      WalkInjective(nodes, p, q);
    }
  }

  lemma {:induction false} ImageSize(nodes: Nodes, paths: set<Path>)
    requires Interned(nodes) && AllKnown(nodes, paths)
    ensures |Image(nodes, paths)| == |paths|
    decreases |paths|
  {
    if paths == {} {
      assert Image(nodes, paths) == {};
    } else {
      var p :| p in paths;
      var rest := paths - {p};
      ImageSize(nodes, rest);
      ImageMember(nodes, rest, p);
      assert Image(nodes, paths) == Image(nodes, rest) + {Walk(nodes, p).value};
    }
  }

  lemma ImageOps(nodes: Nodes, a: set<Path>, b: set<Path>)
    requires Interned(nodes) && AllKnown(nodes, a) && AllKnown(nodes, b)
    ensures Image(nodes, a) + Image(nodes, b) == Image(nodes, a + b)
    ensures Image(nodes, a) * Image(nodes, b) == Image(nodes, a * b)
    ensures Image(nodes, a) - Image(nodes, b) == Image(nodes, a - b)
    ensures a <= b ==> Image(nodes, a) <= Image(nodes, b)
  {
    forall id | id in Image(nodes, a)
      ensures id in Image(nodes, b) <==> id in Image(nodes, a * b)
      ensures id in Image(nodes, b) <==> id !in Image(nodes, a - b)
    {
      var p :| p in a && Known(nodes, p) && Walk(nodes, p).value == id;
      ImageMember(nodes, b, p);
      ImageMember(nodes, a * b, p);
      ImageMember(nodes, a - b, p);
    }
  }

  lemma ImageStable(before: Nodes, after: Nodes, paths: set<Path>)
    requires Extends(before, after) && AllKnown(before, paths)
    ensures AllKnown(after, paths) && Image(after, paths) == Image(before, paths)
  {
    forall p | p in paths ensures Walk(after, p) == Walk(before, p) { WalkStable(before, after, p); }
  }

  class BlockIdentity {
    const size: nat
    var nodes: Nodes

    ghost predicate Valid()
      reads this
    {
      size > 0 && Interned(nodes)
    }

    constructor (size: nat)
      requires size > 0
      ensures Valid() && this.size == size && nodes == map[]
    {
      this.size, nodes := size, map[];
    }

    /** A size that is not positive is refused. */
    static method Create(size: int) returns (r: Option<BlockIdentity>)
      ensures r.Some? <==> size > 0
      ensures r.Some? ==> fresh(r.value) && r.value.Valid() && r.value.size == size && r.value.nodes == map[]
    {
      if size <= 0 { return None; }
      var identity := new BlockIdentity(size);
      r := Some(identity);
    }

    /** Walk the whole blocks of `tokens` from the root, interning as needed.  The ids stand for
        the input's block prefixes, and no other path becomes known. */
    method Blocks(tokens: seq<int>) returns (ids: set<nat>)
      requires Valid()
      modifies `nodes
      ensures Valid() && Extends(old(nodes), nodes)
      ensures AllKnown(nodes, Prefixes(Chunks(tokens, size))) && ids == Image(nodes, Prefixes(Chunks(tokens, size)))
      ensures forall p :: Known(nodes, p) <==> Known(old(nodes), p) || Begins(p, Chunks(tokens, size))
    {
      hide Interned, Chunks, Walk, Prefixes, Traced, Extends, AllKnown, Image, Begins;
      var parent, start := 0, 0;
      ids := {};
      ghost var done: Path := [];
      TracedRoot(nodes);
      ChunksAll(tokens, size);
      while start + size <= |tokens|
        invariant 0 <= start <= |tokens| && Traced(old(nodes), nodes, done, parent, ids)
        invariant Chunks(tokens, size) == done + Chunks(tokens[start..], size)
      {
        var block := tokens[start..start + size];
        ChunksStep(tokens, start, size);
        TracedStep(old(nodes), nodes, done, parent, ids, block);
        if (parent, block) !in nodes { nodes := nodes[(parent, block) := |nodes| + 1]; }
        parent := nodes[(parent, block)];
        ids := ids + {parent};
        assert done + [block] + Chunks(tokens[start + size..], size) == done + ([block] + Chunks(tokens[start + size..], size));
        done := done + [block];
        start := start + size;
      }
      ChunksEnd(tokens, start, size);
      assert done + [] == done;
      TracedEnd(old(nodes), nodes, done, parent, ids);
    }
  }

  /** How far the loop over an input's blocks has come: `done` is interned and nothing else is new. */
  ghost predicate Traced(first: Nodes, nodes: Nodes, done: Path, parent: nat, ids: set<nat>) {
    && Interned(nodes) && Extends(first, nodes) && Walk(nodes, done) == Some(parent)
    && AllKnown(nodes, Prefixes(done)) && ids == Image(nodes, Prefixes(done))
    && forall p :: Known(nodes, p) <==> Known(first, p) || Begins(p, done)
  }

  lemma TracedRoot(nodes: Nodes)
    requires Interned(nodes)
    ensures Traced(nodes, nodes, [], 0, {})
  {
    RootKnown(nodes);
  }

  lemma TracedStep(first: Nodes, nodes: Nodes, done: Path, parent: nat, ids: set<nat>, block: Block)
    requires Traced(first, nodes, done, parent, ids)
    ensures var after := Intern(nodes, parent, block);
            Traced(first, after, done + [block], after[(parent, block)], ids + {after[(parent, block)]})
  {
    hide Walk, Prefixes, Image, AllKnown, Interned, Begins;
    var after := Intern(nodes, parent, block);
    InternShape(nodes, done, block);
    InternPathsAll(nodes, done, block);
    PrefixesStep(nodes, after, done, block);
  }

  lemma TracedEnd(first: Nodes, nodes: Nodes, done: Path, parent: nat, ids: set<nat>)
    requires Traced(first, nodes, done, parent, ids)
    ensures Interned(nodes) && Extends(first, nodes)
    ensures AllKnown(nodes, Prefixes(done)) && ids == Image(nodes, Prefixes(done))
    ensures forall p :: Known(nodes, p) <==> Known(first, p) || Begins(p, done)
  {
  }

  lemma RootKnown(nodes: Nodes)
    ensures Walk(nodes, []) == Some(0) && Prefixes([]) == {} && Image(nodes, {}) == {}
    ensures forall p :: Begins(p, []) ==> p == []
  {
  }

  lemma ChunksAll(tokens: seq<int>, size: nat)
    requires size > 0
    ensures Chunks(tokens, size) == [] + Chunks(tokens[0..], size)
  {
    assert tokens[0..] == tokens;
  }

  lemma ChunksStep(tokens: seq<int>, start: nat, size: nat)
    requires size > 0 && start + size <= |tokens|
    ensures Chunks(tokens[start..], size) == [tokens[start..start + size]] + Chunks(tokens[start + size..], size)
  {
    assert tokens[start..][..size] == tokens[start..start + size];
    assert tokens[start..][size..] == tokens[start + size..];
  }

  lemma ChunksEnd(tokens: seq<int>, start: nat, size: nat)
    requires size > 0 && start <= |tokens| < start + size
    ensures Chunks(tokens[start..], size) == []
  {
  }

  lemma InternPathsAll(nodes: Nodes, done: Path, block: Block)
    requires Interned(nodes) && Known(nodes, done)
    ensures forall p :: Known(Intern(nodes, Walk(nodes, done).value, block), p) <==> Known(nodes, p) || p == done + [block]
    ensures forall p :: Begins(p, done + [block]) <==> Begins(p, done) || p == done + [block]
  {
    forall p ensures Known(Intern(nodes, Walk(nodes, done).value, block), p) <==> Known(nodes, p) || p == done + [block] {
      InternPaths(nodes, done, block, p);
    }
    forall p ensures Begins(p, done + [block]) <==> Begins(p, done) || p == done + [block] {
      BeginsSnoc(p, done, block);
    }
  }

  lemma PrefixesStep(before: Nodes, after: Nodes, done: Path, block: Block)
    requires Interned(before) && Extends(before, after) && AllKnown(before, Prefixes(done)) && Known(after, done + [block])
    ensures Prefixes(done + [block]) == Prefixes(done) + {done + [block]}
    ensures AllKnown(after, Prefixes(done + [block]))
    ensures Image(after, Prefixes(done + [block])) == Image(before, Prefixes(done)) + {Walk(after, done + [block]).value}
  {
    var more := done + [block];
    PrefixesSnoc(done, block);
    ImageStable(before, after, Prefixes(done));
    assert Image(after, Prefixes(more)) == Image(after, Prefixes(done)) + {Walk(after, more).value};
  }
}
