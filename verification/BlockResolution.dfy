/** Published blocks name their parent by hash.  Resolving a block follows the parents to the
    root and interns the token path on the way back, so that published entries and inputs
    share one identity and can be classified together. */
module BlockResolution {
  import opened Wrappers
  import opened PublishedLedger
  import opened BlockTrie
  import opened BlockReuse

  type History = map<Key, Record>

  predicate ValidTokens(tokens: seq<int>) {
    |tokens| == 16 && forall t :: t in tokens ==> 0 <= t <= 0xffff_ffff
  }

  ghost predicate AllPresent(h: History, ks: seq<Key>) {
    forall k :: k in ks ==> k in h && |h[k].tokens| == 16 && forall t :: t in h[k].tokens ==> 0 <= t < 0x1_0000_0000
  }

  /** The parent that position `i` of a line from the root must name. */
  function Above(ks: seq<Key>, i: nat): Option<Key>
    requires i < |ks|
  {
    if i == 0 then None else Some(ks[i - 1])
  }

  /** `ks` leads from a root block down to its last key through present, valid blocks. */
  ghost predicate Lineage(h: History, ks: seq<Key>) {
    && ks != [] && AllPresent(h, ks)
    && forall i {:trigger Above(ks, i)} :: 0 <= i < |ks| ==> h[ks[i]].parent == Above(ks, i)
  }

  ghost predicate LineOf(h: History, k: Key, ks: seq<Key>) { Lineage(h, ks) && ks[|ks| - 1] == k }

  /** The ancestry of `k` reaches the root. */
  ghost predicate Rooted(h: History, k: Key) { exists ks :: LineOf(h, k, ks) }

  ghost function TokenPath(h: History, ks: seq<Key>): (p: Path)
    requires AllPresent(h, ks)
    ensures |p| == |ks|
  {
    seq(|ks|, i requires 0 <= i < |ks| => h[ks[i]].tokens)
  }

  ghost function PathOf(h: History, k: Key): Path
    requires Rooted(h, k)
  {
    var ks :| LineOf(h, k, ks);
    TokenPath(h, ks)
  }

  lemma {:induction false} LineageUnique(h: History, a: seq<Key>, b: seq<Key>)
    requires Lineage(h, a) && Lineage(h, b) && a[|a| - 1] == b[|b| - 1]
    ensures a == b
  {
    var m, n := |a| - 1, |b| - 1;
    assert h[a[m]].parent == Above(a, m) && h[b[n]].parent == Above(b, n);
    if m > 0 {
      LineagePrefix(h, a, |a| - 1);
      LineagePrefix(h, b, |b| - 1);
      LineageUnique(h, a[..|a| - 1], b[..|b| - 1]);
      assert a == a[..|a| - 1] + [a[|a| - 1]] && b == b[..|b| - 1] + [b[|b| - 1]];
    }
  }

  lemma LineagePrefix(h: History, ks: seq<Key>, n: nat)
    requires Lineage(h, ks) && 1 <= n <= |ks|
    ensures LineOf(h, ks[n - 1], ks[..n])
  {
    forall i | 0 <= i < n ensures h[ks[..n][i]].parent == Above(ks[..n], i) {
      assert h[ks[i]].parent == Above(ks, i);
    }
  }

  /** No key occurs twice in a lineage. */
  lemma LineageDistinct(h: History, ks: seq<Key>, i: nat, j: nat)
    requires Lineage(h, ks) && i < |ks| && j < |ks| && ks[i] == ks[j]
    ensures i == j
  {
    LineagePrefix(h, ks, i + 1);
    LineagePrefix(h, ks, j + 1);
    LineageUnique(h, ks[..i + 1], ks[..j + 1]);
    assert |ks[..i + 1]| == |ks[..j + 1]|;
  }

  lemma PathIs(h: History, k: Key, ks: seq<Key>)
    requires LineOf(h, k, ks)
    ensures Rooted(h, k) && PathOf(h, k) == TokenPath(h, ks)
  {
    forall js | LineOf(h, k, js) ensures js == ks { LineageUnique(h, ks, js); }
  }

  /******* Climbing to the root *******/

  /** From `start`, `pending` are the keys passed on the way up and `next` is the one to visit. */
  ghost predicate Climbed(h: History, start: Key, pending: seq<Key>, next: Option<Key>) {
    && (pending == [] ==> next == Some(start)) && (pending != [] ==> pending[0] == start)
    && AllPresent(h, pending)
    && forall i {:trigger Upward(pending, next, i)} :: 0 <= i < |pending| ==> h[pending[i]].parent == Upward(pending, next, i)
  }

  function Upward(pending: seq<Key>, next: Option<Key>, i: nat): Option<Key>
    requires i < |pending|
  {
    if i + 1 < |pending| then Some(pending[i + 1]) else next
  }

  /** Every lineage of `start` passes through the keys of the climb, from its end. */
  lemma {:induction false} ClimbFollows(h: History, start: Key, pending: seq<Key>, next: Option<Key>, ks: seq<Key>)
    requires Climbed(h, start, pending, next) && LineOf(h, start, ks)
    ensures |pending| <= |ks| && (forall i :: 0 <= i < |pending| ==> pending[i] == ks[|ks| - 1 - i])
    ensures next == if |pending| == |ks| then None else Some(ks[|ks| - 1 - |pending|])
    decreases |pending|
  {
    if pending != [] {
      ClimbShorter(h, start, pending, next);
      ClimbFollows(h, start, pending[..|pending| - 1], Some(pending[|pending| - 1]), ks);
      ParentAbove(h, start, pending, next, ks);
    }
  }

  lemma ClimbShorter(h: History, start: Key, pending: seq<Key>, next: Option<Key>)
    requires Climbed(h, start, pending, next) && pending != []
    ensures Climbed(h, start, pending[..|pending| - 1], Some(pending[|pending| - 1]))
  {
    var n := |pending| - 1;
    var init := pending[..n];
    forall i | 0 <= i < n ensures h[init[i]].parent == Upward(init, Some(pending[n]), i) {
      assert h[pending[i]].parent == Upward(pending, next, i);
    }
  }

  lemma ParentAbove(h: History, start: Key, pending: seq<Key>, next: Option<Key>, ks: seq<Key>)
    requires Climbed(h, start, pending, next) && LineOf(h, start, ks) && 0 < |pending| <= |ks|
    requires pending[|pending| - 1] == ks[|ks| - |pending|]
    ensures next == if |pending| == |ks| then None else Some(ks[|ks| - 1 - |pending|])
  {
    var n := |pending| - 1;
    assert h[pending[n]].parent == Upward(pending, next, n);
    assert h[ks[|ks| - 1 - n]].parent == Above(ks, |ks| - 1 - n);
  }

  /** A key that is absent, invalid or already passed has no ancestry to the root. */
  lemma ClimbFails(h: History, start: Key, pending: seq<Key>, next: Key)
    requires Climbed(h, start, pending, Some(next))
    requires next in pending || next !in h || !ValidTokens(h[next].tokens)
    ensures !Rooted(h, start)
  {
    forall ks ensures !LineOf(h, start, ks) {
      if LineOf(h, start, ks) {
        ClimbFollows(h, start, pending, Some(next), ks);
        if next in pending { ClimbRepeats(h, start, pending, next, ks); }
      }
    }
  }

  lemma ClimbRepeats(h: History, start: Key, pending: seq<Key>, next: Key, ks: seq<Key>)
    requires Climbed(h, start, pending, Some(next)) && next in pending && Lineage(h, ks)
    ensures !LineOf(h, start, ks)
  {
    if LineOf(h, start, ks) {
      ClimbFollows(h, start, pending, Some(next), ks);
      var j :| 0 <= j < |pending| && pending[j] == next;
      LineageDistinct(h, ks, |ks| - 1 - j, |ks| - 1 - |pending|);
    }
  }

  lemma ClimbStep(h: History, start: Key, pending: seq<Key>, next: Key)
    requires Climbed(h, start, pending, Some(next)) && next in h && ValidTokens(h[next].tokens)
    ensures Climbed(h, start, pending + [next], h[next].parent)
  {
    var more := pending + [next];
    forall i | 0 <= i < |more| ensures h[more[i]].parent == Upward(more, h[next].parent, i) {
      if i < |pending| { assert h[pending[i]].parent == Upward(pending, Some(next), i); }
    }
  }

  /******* Interning on the way back *******/

  /** The resolved keys have a lineage, and their id is where its token path leads. */
  ghost predicate Resolved(h: History, nodes: Nodes, resolved: map<Key, nat>) {
    forall k :: k in resolved ==> Rooted(h, k) && Walk(nodes, PathOf(h, k)) == Some(resolved[k])
  }

  lemma ResolvedStable(h: History, before: Nodes, nodes: Nodes, resolved: map<Key, nat>)
    requires Resolved(h, before, resolved) && Extends(before, nodes)
    ensures Resolved(h, nodes, resolved)
  {
    forall k | k in resolved ensures Walk(nodes, PathOf(h, k)) == Some(resolved[k]) {
      WalkStable(before, nodes, PathOf(h, k));
    }
  }

  /** `line` is the lineage of the last key resolved, and `parent` its id; both start at the root. */
  ghost predicate Descending(h: History, nodes: Nodes, line: seq<Key>, parent: nat) {
    && (line != [] ==> Lineage(h, line)) && AllPresent(h, line)
    && Walk(nodes, TokenPath(h, line)) == Some(parent)
  }

  lemma DescendStart(h: History, nodes: Nodes, resolved: map<Key, nat>, next: Option<Key>) returns (line: seq<Key>)
    requires Resolved(h, nodes, resolved) && (next.None? || next.value in resolved)
    ensures Descending(h, nodes, line, if next.None? then 0 else resolved[next.value])
    ensures if next.None? then line == [] else line != [] && line[|line| - 1] == next.value
  {
    if next.None? {
      line := [];
    } else {
      line :| LineOf(h, next.value, line);
      PathIs(h, next.value, line);
    }
  }

  lemma DescendStep(h: History, nodes: Nodes, line: seq<Key>, parent: nat, key: Key)
    requires Interned(nodes) && Descending(h, nodes, line, parent) && key in h && ValidTokens(h[key].tokens)
    requires h[key].parent == if line == [] then None else Some(line[|line| - 1])
    ensures var after := Intern(nodes, parent, h[key].tokens);
            && Interned(after) && Extends(nodes, after)
            && Descending(h, after, line + [key], after[(parent, h[key].tokens)])
            && Rooted(h, key) && Walk(after, PathOf(h, key)) == Some(after[(parent, h[key].tokens)])
  {
    hide Interned, Walk;
    var after, more := Intern(nodes, parent, h[key].tokens), line + [key];
    InternShape(nodes, TokenPath(h, line), h[key].tokens);
    forall i | 0 <= i < |more| ensures h[more[i]].parent == Above(more, i) {
      if i < |line| { assert h[line[i]].parent == Above(line, i); }
    }
    assert TokenPath(h, more) == TokenPath(h, line) + [h[key].tokens];
    PathIs(h, key, more);
  }

  /** The whole loop over the pending keys, last first. */
  method InternPending(h: History, identity: BlockIdentity, pending: seq<Key>, resolved: map<Key, nat>, next: Option<Key>,
                       ghost start: Key)
    returns (after: map<Key, nat>)
    requires identity.Valid() && Climbed(h, start, pending, next) && Resolved(h, identity.nodes, resolved)
    requires next.None? || next.value in resolved
    modifies identity`nodes
    ensures identity.Valid() && Extends(old(identity.nodes), identity.nodes)
    ensures Resolved(h, identity.nodes, after) && after.Keys == resolved.Keys + set k | k in pending
  {
    hide Interned, Extends, Resolved, Descending, Lineage, Walk;
    after := resolved;
    var parent := if next.None? then 0 else resolved[next.value];
    ghost var line := DescendStart(h, identity.nodes, resolved, next);
    ExtendsSelf(identity.nodes);
    var i := |pending|;
    while i > 0
      invariant 0 <= i <= |pending| && identity.Valid() && Extends(old(identity.nodes), identity.nodes)
      invariant Resolved(h, identity.nodes, after) && after.Keys == resolved.Keys + set k | k in pending[i..]
      invariant Descending(h, identity.nodes, line, parent)
      invariant (if line == [] then None else Some(line[|line| - 1])) == if i < |pending| then Some(pending[i]) else next
    {
      i := i - 1;
      var key := pending[i];
      var node := (parent, h[key].tokens);
      ghost var before := identity.nodes;
      assert h[key].parent == Upward(pending, next, i);
      DescendStep(h, before, line, parent, key);
      if node !in identity.nodes { identity.nodes := identity.nodes[node := |identity.nodes| + 1]; }
      ExtendsMore(old(identity.nodes), before, identity.nodes);
      ResolvedStable(h, before, identity.nodes, after);
      ResolvedInsert(h, identity.nodes, after, key, identity.nodes[node]);
      after := after[key := identity.nodes[node]];
      parent := identity.nodes[node];
      line := line + [key];
      assert pending[i..] == [key] + pending[i + 1..];
    }
    assert pending[0..] == pending;
  }

  lemma ExtendsSelf(nodes: Nodes)
    ensures Extends(nodes, nodes)
  {
  }

  lemma ExtendsMore(first: Nodes, before: Nodes, nodes: Nodes)
    requires Extends(first, before) && Extends(before, nodes)
    ensures Extends(first, nodes)
  {
  }

  lemma ResolvedInsert(h: History, nodes: Nodes, resolved: map<Key, nat>, key: Key, id: nat)
    requires Resolved(h, nodes, resolved) && Rooted(h, key) && Walk(nodes, PathOf(h, key)) == Some(id)
    ensures Resolved(h, nodes, resolved[key := id])
  {
  }

  /** Resolve one key: climb until the root or a resolved ancestor, then intern the way back. */
  method ResolveKey(h: History, identity: BlockIdentity, resolved: map<Key, nat>, start: Key)
    returns (after: map<Key, nat>, error: Option<string>)
    requires identity.Valid() && Resolved(h, identity.nodes, resolved)
    modifies identity`nodes
    ensures identity.Valid() && Extends(old(identity.nodes), identity.nodes) && Resolved(h, identity.nodes, after)
    ensures error.None? <==> Rooted(h, start)
    ensures error.None? ==> start in after && (forall k :: k in resolved ==> k in after)
    ensures error.Some? ==> after == resolved && start !in resolved
  {
    hide Interned, Resolved, Rooted, Climbed, ValidTokens;
    var pending: seq<Key>, seen: set<Key>, next := [], {}, Some(start);
    ClimbNone(h, start);
    ExtendsSelf(identity.nodes);
    ResolvedRooted(h, identity.nodes, resolved);
    while next.Some? && next.value !in resolved
      invariant Climbed(h, start, pending, next) && seen == (set k | k in pending) && seen <= h.Keys
      invariant identity.nodes == old(identity.nodes)
      invariant pending == [] ==> next == Some(start)
      invariant pending != [] ==> pending[0] == start
      decreases h.Keys - seen
    {
      var key := next.value;
      if key in seen || key !in h {
        ClimbFails(h, start, pending, key);
        return resolved, Some("cycle_or_missing_parent");
      }
      seen := seen + {key};
      if !ValidTokens(h[key].tokens) {
        ClimbFails(h, start, pending, key);
        return resolved, Some("invalid_block_tokens");
      }
      ClimbStep(h, start, pending, key);
      pending := pending + [key];
      next := h[key].parent;
    }
    after := InternPending(h, identity, pending, resolved, next, start);
    ResolvedRooted(h, identity.nodes, after);
    error := None;
  }

  lemma ClimbNone(h: History, start: Key)
    ensures Climbed(h, start, [], Some(start))
  {
  }

  lemma ResolvedRooted(h: History, nodes: Nodes, resolved: map<Key, nat>)
    requires Resolved(h, nodes, resolved)
    ensures forall k :: k in resolved ==> Rooted(h, k)
  {
  }

  /** Resolve every key of the history, in the order given.  Whatever the order, exactly the
      rooted keys are resolved, each to the id its token path leads to. */
  method ResolveBlocks(h: History, identity: BlockIdentity, order: seq<Key>)
    returns (resolved: map<Key, nat>, unresolved: map<Key, string>)
    requires identity.Valid() && (set k | k in order) == h.Keys
    modifies identity`nodes
    ensures identity.Valid() && Extends(old(identity.nodes), identity.nodes)
    ensures forall k :: k in resolved <==> Rooted(h, k)
    ensures Resolved(h, identity.nodes, resolved)
    ensures unresolved.Keys == h.Keys - resolved.Keys
  {
    hide Interned, Rooted, Extends, Walk;
    resolved, unresolved := map[], map[];
    ExtendsSelf(identity.nodes);
    for i := 0 to |order|
      invariant identity.Valid() && Extends(old(identity.nodes), identity.nodes)
      invariant Resolved(h, identity.nodes, resolved)
      invariant forall j :: 0 <= j < i ==> (order[j] in resolved <==> Rooted(h, order[j]))
      invariant forall k :: k in unresolved <==> k in order[..i] && !Rooted(h, k)
    {
      ghost var before := identity.nodes;
      var error;
      resolved, error := ResolveKey(h, identity, resolved, order[i]);
      ExtendsMore(old(identity.nodes), before, identity.nodes);
      if error.Some? { unresolved := unresolved[order[i] := error.value]; }
      assert order[..i + 1] == order[..i] + [order[i]];
      ResolvedRooted(h, identity.nodes, resolved);
    }
    ResolvedRooted(h, identity.nodes, resolved);
    forall k | Rooted(h, k) ensures k in resolved {
      RootedPresent(h, k);
      assert k in order;
    }
    assert order[..|order|] == order;
    forall k ensures k in unresolved <==> k in h && k !in resolved { assert k in h <==> k in order; }
  }

  lemma RootedPresent(h: History, k: Key)
    requires Rooted(h, k)
    ensures k in h
  {
    var ks :| LineOf(h, k, ks);
  }

  /******* Published entries against inputs *******/

  function Flat(path: Path): seq<int> {
    if path == [] then [] else path[0] + Flat(path[1..])
  }

  /** The tokens a rooted key stands for. */
  ghost function TokensOf(h: History, k: Key): seq<int>
    requires Rooted(h, k)
  {
    Flat(PathOf(h, k))
  }

  ghost predicate Whole(path: Path) { forall b :: b in path ==> |b| == 16 }

  /** Whole blocks survive concatenation, so a resolved key has the id that its tokens would get as
      an input. */
  lemma {:induction false} ChunksOfFlat(path: Path)
    requires Whole(path)
    ensures Chunks(Flat(path), 16) == path
  {
    if path != [] {
      assert path[0] in path;
      ChunksOfFlat(path[1..]);
      var t := Flat(path);
      assert t[..16] == path[0] && t[16..] == Flat(path[1..]);
    }
  }

  lemma {:induction false} FlatBegins(path: Path, tokens: seq<int>)
    requires Whole(path)
    ensures Begins(path, Chunks(tokens, 16)) <==> Flat(path) <= tokens
    decreases |path|
  {
    if path != [] {
      assert path[0] in path;
      var rest := path[1..];
      assert path == [path[0]] + rest;
      if |tokens| >= 16 {
        FlatBegins(rest, tokens[16..]);
        SplitBegins([path[0]], rest, [tokens[..16]], Chunks(tokens[16..], 16));
        assert tokens == tokens[..16] + tokens[16..];
        SplitBegins(path[0], Flat(rest), tokens[..16], tokens[16..]);
      }
    }
  }

  lemma SplitBegins<T>(a: seq<T>, b: seq<T>, x: seq<T>, y: seq<T>)
    requires |a| == |x|
    ensures a + b <= x + y <==> a == x && b <= y
  {
    if a + b <= x + y {
      assert (a + b)[..|a|] == a && (x + y)[..|a|] == x;
      assert forall i :: 0 <= i < |b| ==> b[i] == (a + b)[|a| + i] && y[i] == (x + y)[|a| + i];
    }
  }

  lemma RootedWhole(h: History, k: Key)
    requires Rooted(h, k)
    ensures PathOf(h, k) != [] && Whole(PathOf(h, k))
  {
    var ks :| LineOf(h, k, ks);
    PathIs(h, k, ks);
  }

  /** The id of a resolved key is the one that interning its concatenated tokens gives. */
  lemma ResolvedLikeInput(h: History, nodes: Nodes, k: Key)
    requires Rooted(h, k)
    ensures Walk(nodes, Chunks(TokensOf(h, k), 16)) == Walk(nodes, PathOf(h, k))
  {
    RootedWhole(h, k);
    ChunksOfFlat(PathOf(h, k));
  }

  /** Some input starts with the tokens of `k`. */
  ghost predicate Prefixed(h: History, k: Key, inputs: seq<seq<int>>)
    requires Rooted(h, k)
  {
    exists i :: 0 <= i < |inputs| && TokensOf(h, k) <= inputs[i]
  }

  lemma HeldMeansPrefixed(h: History, k: Key, inputs: seq<seq<int>>)
    requires Rooted(h, k)
    ensures PathOf(h, k) in Held(inputs, 16) <==> Prefixed(h, k, inputs)
  {
    hide Rooted, PathOf, Held, Chunks, Flat;
    var p := PathOf(h, k);
    RootedWhole(h, k);
    HeldMember(inputs, p, 16);
    forall i | 0 <= i < |inputs| ensures p in Prefixes(Chunks(inputs[i], 16)) <==> TokensOf(h, k) <= inputs[i] {
      PrefixMember(p, Chunks(inputs[i], 16));
      FlatBegins(p, inputs[i]);
    }
  }

  lemma IdMeansPrefixed(h: History, nodes: Nodes, k: Key, id: nat, ids: set<nat>, inputs: seq<seq<int>>)
    requires Interned(nodes) && Rooted(h, k) && Walk(nodes, PathOf(h, k)) == Some(id) && Stands(nodes, ids, inputs, 16)
    ensures id in ids <==> Prefixed(h, k, inputs)
  {
    hide Rooted, PathOf, Held, Walk, Interned, Prefixed;
    ImageMember(nodes, Held(inputs, 16), PathOf(h, k));
    HeldMeansPrefixed(h, k, inputs);
  }

  /******* Classification *******/

  datatype Counts = Counts(shared: nat, realOnly: nat, warmupOnly: nat, other: nat, unresolved: nat)

  datatype Class = Shared | RealOnly | WarmupOnly | Other | Unresolved

  /** Where an entry belongs, in terms of tokens alone. */
  ghost function ClassOf(h: History, k: Key, reals: seq<seq<int>>, warms: seq<seq<int>>): Class {
    if !Rooted(h, k) then Unresolved
    else if Prefixed(h, k, reals) then (if Prefixed(h, k, warms) then Shared else RealOnly)
    else if Prefixed(h, k, warms) then WarmupOnly
    else Other
  }

  ghost function InClass(h: History, keys: set<Key>, reals: seq<seq<int>>, warms: seq<seq<int>>, c: Class): set<Key> {
    set k | k in keys && ClassOf(h, k, reals, warms) == c
  }

  ghost predicate Counted(h: History, keys: set<Key>, reals: seq<seq<int>>, warms: seq<seq<int>>, n: Counts) {
    && n.shared == |InClass(h, keys, reals, warms, Shared)|
    && n.realOnly == |InClass(h, keys, reals, warms, RealOnly)|
    && n.warmupOnly == |InClass(h, keys, reals, warms, WarmupOnly)|
    && n.other == |InClass(h, keys, reals, warms, Other)|
    && n.unresolved == |InClass(h, keys, reals, warms, Unresolved)|
  }

  function Tick(n: Counts, c: Class): Counts {
    match c
    case Shared => n.(shared := n.shared + 1)
    case RealOnly => n.(realOnly := n.realOnly + 1)
    case WarmupOnly => n.(warmupOnly := n.warmupOnly + 1)
    case Other => n.(other := n.other + 1)
    case Unresolved => n.(unresolved := n.unresolved + 1)
  }

  function Total(n: Counts): nat { n.shared + n.realOnly + n.warmupOnly + n.other + n.unresolved }

  lemma ClassStep(h: History, keys: set<Key>, k: Key, reals: seq<seq<int>>, warms: seq<seq<int>>, c: Class)
    requires k !in keys
    ensures |InClass(h, keys + {k}, reals, warms, c)|
         == |InClass(h, keys, reals, warms, c)| + if ClassOf(h, k, reals, warms) == c then 1 else 0
  {
    hide ClassOf;
    var before, after := InClass(h, keys, reals, warms, c), InClass(h, keys + {k}, reals, warms, c);
    if ClassOf(h, k, reals, warms) == c {
      assert after == before + {k};
    } else {
      assert after == before;
    }
  }

  lemma CountedStep(h: History, keys: set<Key>, k: Key, reals: seq<seq<int>>, warms: seq<seq<int>>, n: Counts)
    requires k !in keys && Counted(h, keys, reals, warms, n)
    ensures Counted(h, keys + {k}, reals, warms, Tick(n, ClassOf(h, k, reals, warms)))
  {
    hide ClassOf, InClass;
    ClassStep(h, keys, k, reals, warms, Shared);
    ClassStep(h, keys, k, reals, warms, RealOnly);
    ClassStep(h, keys, k, reals, warms, WarmupOnly);
    ClassStep(h, keys, k, reals, warms, Other);
    ClassStep(h, keys, k, reals, warms, Unresolved);
  }

  lemma CountedNone(h: History, reals: seq<seq<int>>, warms: seq<seq<int>>)
    ensures Counted(h, {}, reals, warms, Counts(0, 0, 0, 0, 0))
  {
    forall c ensures InClass(h, {}, reals, warms, c) == {} { }
  }

  /** The classes partition the entries. */
  lemma CountedTotal(h: History, keys: set<Key>, reals: seq<seq<int>>, warms: seq<seq<int>>, n: Counts)
    requires Counted(h, keys, reals, warms, n)
    ensures Total(n) == |keys|
  {
    hide ClassOf;
    var a, b := InClass(h, keys, reals, warms, Shared), InClass(h, keys, reals, warms, RealOnly);
    var c := InClass(h, keys, reals, warms, WarmupOnly);
    var d, e := InClass(h, keys, reals, warms, Other), InClass(h, keys, reals, warms, Unresolved);
    forall k | k in keys ensures k in a + b + c + d + e {
      match ClassOf(h, k, reals, warms) {
        case Shared => case RealOnly => case WarmupOnly => case Other => case Unresolved =>
      }
    }
    assert keys == a + b + c + d + e;
    UnionOfFive(a, b, c, d, e);
  }

  lemma UnionOfFive<T>(a: set<T>, b: set<T>, c: set<T>, d: set<T>, e: set<T>)
    requires a !! b !! c !! d !! e
    ensures |a + b + c + d + e| == |a| + |b| + |c| + |d| + |e|
  {
  }

  lemma NoneUnresolved(h: History, keys: set<Key>, reals: seq<seq<int>>, warms: seq<seq<int>>, n: Counts)
    requires Counted(h, keys, reals, warms, n)
    ensures n.unresolved == 0 <==> forall k :: k in keys ==> Rooted(h, k)
  {
    hide Rooted, Prefixed;
    var e := InClass(h, keys, reals, warms, Unresolved);
    if n.unresolved == 0 {
      assert e == {};
      forall k | k in keys ensures Rooted(h, k) { assert k !in e; }
    }
    if forall k :: k in keys ==> Rooted(h, k) { assert e == {}; }
  }

  lemma ClassByIds(h: History, nodes: Nodes, resolved: map<Key, nat>, k: Key, seen: set<nat>, warm: set<nat>,
                   reals: seq<seq<int>>, warms: seq<seq<int>>)
    requires Interned(nodes) && Resolved(h, nodes, resolved) && (k in resolved <==> Rooted(h, k))
    requires Stands(nodes, seen, reals, 16) && Stands(nodes, warm, warms, 16)
    ensures ClassOf(h, k, reals, warms) ==
              if k !in resolved then Unresolved
              else if resolved[k] in seen then (if resolved[k] in warm then Shared else RealOnly)
              else if resolved[k] in warm then WarmupOnly else Other
  {
    hide Rooted, Interned, Walk, Stands, Prefixed;
    if k in resolved {
      IdMeansPrefixed(h, nodes, k, resolved[k], seen, reals);
      IdMeansPrefixed(h, nodes, k, resolved[k], warm, warms);
    }
  }

  /** Count each published entry in its class. */
  method CountClasses(keys: set<Key>, resolved: map<Key, nat>, seen: set<nat>, warm: set<nat>, ghost h: History,
                      ghost nodes: Nodes, ghost reals: seq<seq<int>>, ghost warms: seq<seq<int>>)
    returns (counts: Counts)
    requires Interned(nodes) && Resolved(h, nodes, resolved) && forall k :: k in resolved <==> Rooted(h, k)
    requires Stands(nodes, seen, reals, 16) && Stands(nodes, warm, warms, 16)
    ensures Counted(h, keys, reals, warms, counts)
  {
    hide Interned, Stands, Counted, Rooted, ClassOf, Tick, Resolved;
    counts := Counts(0, 0, 0, 0, 0);
    var todo := keys;
    CountedNone(h, reals, warms);
    ghost var done: set<Key> := {};
    while todo != {}
      invariant done + todo == keys && done !! todo && Counted(h, done, reals, warms, counts)
      decreases |todo|
    {
      var k :| k in todo;
      CountedStep(h, done, k, reals, warms, counts);
      ClassByIds(h, nodes, resolved, k, seen, warm, reals, warms);
      var kind;
      if k !in resolved {
        kind := Unresolved;
      } else if resolved[k] in seen && resolved[k] in warm {
        kind := Shared;
      } else if resolved[k] in seen {
        kind := RealOnly;
      } else if resolved[k] in warm {
        kind := WarmupOnly;
      } else {
        kind := Other;
      }
      counts := Tick(counts, kind);
      todo, done := todo - {k}, done + {k};
    }
    assert done == keys;
  }

  /** Resolve the history and classify the published entries; the counts partition the entries,
      so the consistency check of the report cannot fire.  An attributable result has no entry of
      unknown ancestry. */
  method Classify(ledger: View, identity: BlockIdentity, order: seq<Key>, seen: set<nat>, warm: set<nat>,
                  ghost reals: seq<seq<int>>, ghost warms: seq<seq<int>>)
    returns (counts: Counts, attributable: bool)
    requires identity.Valid() && (set k | k in order) == ledger.history.Keys
    requires Stands(identity.nodes, seen, reals, 16) && Stands(identity.nodes, warm, warms, 16)
    modifies identity`nodes
    ensures identity.Valid() && Extends(old(identity.nodes), identity.nodes)
    ensures Counted(ledger.history, ledger.blocks.Keys, reals, warms, counts)
    ensures Total(counts) == |ledger.blocks|
    ensures attributable <==> ledger.complete && forall k :: k in ledger.blocks ==> Rooted(ledger.history, k)
  {
    hide Interned, Stands, Counted, Rooted, ClassOf, Extends, Walk, Total, Tick, Resolved;
    var h := ledger.history;
    var resolved, _ := ResolveBlocks(h, identity, order);
    StandsStable(old(identity.nodes), identity.nodes, seen, reals, 16);
    StandsStable(old(identity.nodes), identity.nodes, warm, warms, 16);
    var keys := ledger.blocks.Keys;
    counts := CountClasses(keys, resolved, seen, warm, h, identity.nodes, reals, warms);
    CountedTotal(h, keys, reals, warms, counts);
    NoneUnresolved(h, keys, reals, warms, counts);
    attributable := ledger.complete && counts.unresolved == 0;
  }
}
