/** Conservative credit for prepared prefixes: an upper bound on what earlier foreground requests
    can have left in the cache, and the cache hits above it that a preparation explains. */
module PreparationCredit {
  import opened Numbers
  import opened Wrappers
  import opened BlockTrie

  type Id = string

  datatype Entry = Entry(prompt: seq<int>, salt: string, at: int)

  /** Output choices are keyed by the text "0", the number 0, or something else. */
  datatype Choice = TextZero | NumberZero | OtherChoice
  datatype Terminal = Terminal(finished: bool, reported: bool, outputs: map<Choice, seq<int>>, at: int, cached: Option<int>)

  function Aligned(n: nat): nat { n / 16 * 16 }

  /** The reported output tokens; `Failure` when there is a second choice, `None` when unreported. */
  function Generated(t: Terminal): Result<Option<seq<int>>> {
    if OtherChoice in t.outputs then Failure("The pilot requires exactly one output choice")
    else if !t.reported then Success(None)
    else if TextZero in t.outputs then Success(Some(t.outputs[TextZero]))
    else if NumberZero in t.outputs then Success(Some(t.outputs[NumberZero]))
    else Success(Some([]))
  }

  predicate SecondChoice(t: Terminal) { OtherChoice in t.outputs }

  /** `out` is the output that the terminal reports for choice 0, under its text key if it has one. */
  predicate Reports(t: Terminal, out: seq<int>) {
    && t.reported && !SecondChoice(t)
    && (TextZero in t.outputs ==> out == t.outputs[TextZero])
    && (TextZero !in t.outputs && NumberZero in t.outputs ==> out == t.outputs[NumberZero])
    && (TextZero !in t.outputs && NumberZero !in t.outputs ==> out == [])
  }

  lemma GeneratedMeans(t: Terminal)
    ensures Generated(t).Failure? <==> SecondChoice(t)
    ensures Generated(t) == Success(None) <==> !SecondChoice(t) && !t.reported
    ensures Generated(t).Success? && Generated(t).value.Some? ==> Reports(t, Generated(t).value.value)
    ensures t.reported && !SecondChoice(t) ==> Generated(t).Success? && Generated(t).value.Some?
  {
  }

  lemma ReportsOne(t: Terminal, a: seq<int>, b: seq<int>)
    requires Reports(t, a) && Reports(t, b)
    ensures a == b
  {
  }

  /******* The foreground ceiling *******/

  datatype Backend = Backend(entries: map<Id, Entry>, results: map<Id, Terminal>, firstOutput: map<Id, int>)

  /** A foreground request of the same cache identity that entered before the target's first output. */
  predicate Rival(b: Backend, normal: set<Id>, id: Id, other: Id) {
    && other in normal && other != id && id in b.entries && other in b.entries && id in b.firstOutput
    && b.entries[other].salt == b.entries[id].salt && b.entries[other].at < b.firstOutput[id]
  }

  /** `shown` is the rival's prompt and the output it reports. */
  ghost predicate Shows(b: Backend, other: Id, shown: seq<int>) {
    && other in b.entries && other in b.results
    && exists out :: Reports(b.results[other], out) && shown == b.entries[other].prompt + out
  }

  lemma ShowsOne(b: Backend, other: Id, x: seq<int>, y: seq<int>)
    requires Shows(b, other, x) && Shows(b, other, y)
    ensures x == y
  {
    hide Reports;
    var a :| Reports(b.results[other], a) && x == b.entries[other].prompt + a;
    var c :| Reports(b.results[other], c) && y == b.entries[other].prompt + c;
    ReportsOne(b.results[other], a, c);
  }

  /** Tokens a rival may in truth have had: its prompt and whatever follows, but if it reported its output then
      all that is shown, and nothing more if it finished. */
  ghost predicate Possible(b: Backend, other: Id, tokens: seq<int>)
    requires other in b.entries
  {
    && b.entries[other].prompt <= tokens
    && forall shown :: Shows(b, other, shown) ==> shown <= tokens && (b.results[other].finished ==> tokens == shown)
  }

  /** A rival whose contribution cannot be bounded: no reported output, or cut off while it still
      agreed with the target. */
  ghost predicate Unbounded(b: Backend, id: Id, other: Id)
    requires id in b.entries && other in b.entries
  {
    || other !in b.results
    || !b.results[other].reported
    || (!b.results[other].finished && exists shown :: Shows(b, other, shown) && shown < b.entries[id].prompt)
  }

  predicate TwoChoices(b: Backend, other: Id) { other in b.results && SecondChoice(b.results[other]) }

  /** A known divergence, or a shown prefix as long as the target, bounds what hidden tokens can add. */
  lemma HiddenTokensBounded(target: seq<int>, shown: seq<int>, tokens: seq<int>)
    requires shown <= tokens && !(shown < target)
    ensures Lcp(target, tokens) == Lcp(target, shown)
  {
    var n := Lcp(target, shown);
    LcpLong(target, shown, n);
    assert tokens[..n] == shown[..n];
    assert n == |shown| ==> target[..n] == shown;
    assert n < |shown| ==> tokens[n] == shown[n];
    LcpUnique(target, tokens, n);
  }

  /** The rival is known to share `n` tokens in whole blocks. */
  ghost predicate Reaches(b: Backend, normal: set<Id>, id: Id, other: Id, n: nat) {
    && Rival(b, normal, id, other) && !Unbounded(b, id, other)
    && exists shown :: Shows(b, other, shown) && n == Aligned(Lcp(b.entries[id].prompt, shown))
  }

  /** No rival among those looked at shows more than `best`, and all of them can be bounded. */
  ghost predicate Looked(b: Backend, normal: set<Id>, id: Id, todo: set<Id>, best: nat)
    requires id in b.entries
  {
    forall other :: Rival(b, normal, id, other) && other !in todo ==>
      && !Unbounded(b, id, other) && !TwoChoices(b, other)
      && forall shown :: Shows(b, other, shown) ==> Aligned(Lcp(b.entries[id].prompt, shown)) <= best
  }

  /** Scan the foreground requests for the most whole blocks one of them can share with the target.
      When the answer is a number, no rival can share more, whatever it did not report. */
  method ForegroundCeiling(b: Backend, normal: set<Id>, id: Id) returns (r: Result<Option<nat>>)
    requires id in b.entries
    ensures r.Success? && r.value.Some? ==>
              && id in b.firstOutput
              && Bounded(b, normal, id, r.value.value)
              && (r.value.value == 0 || exists other :: Reaches(b, normal, id, other, r.value.value))
    ensures r == Success(None) ==> id !in b.firstOutput || exists other :: Rival(b, normal, id, other) && Unbounded(b, id, other)
    ensures r.Success? && r.value.Some? ==>
              forall other :: Rival(b, normal, id, other) ==> !Unbounded(b, id, other) && !TwoChoices(b, other)
    ensures r.Failure? ==> exists other :: Rival(b, normal, id, other) && TwoChoices(b, other)
  {
    hide Aligned, Lcp, Generated, Reports, Unbounded, Shows, Looked, Reaches, SecondChoice;
    var current := b.entries[id];
    if id !in b.firstOutput { return Success(None); }
    var best: nat := 0;
    var todo := normal;
    LookedNone(b, normal, id);
    while todo != {}
      invariant todo <= normal && Looked(b, normal, id, todo, best)
      invariant best == 0 || exists other :: Reaches(b, normal, id, other, best)
      decreases |todo|
    {
      var other :| other in todo;
      ghost var before := todo;
      todo := todo - {other};
      if other == id || other !in b.entries || b.entries[other].salt != current.salt || b.entries[other].at >= b.firstOutput[id] {
        LookedOther(b, normal, id, before, todo, other, best);
        continue;
      }
      assert Rival(b, normal, id, other);
      if other !in b.results { UnboundedIf(b, id, other); return Success(None); }
      var entry, terminal := b.entries[other], b.results[other];
      var output := Generated(terminal);
      GeneratedMeans(terminal);
      if output.Failure? { assert TwoChoices(b, other); return Failure(output.error); }
      if output.value.None? { UnboundedIf(b, id, other); return Success(None); }
      var candidate := entry.prompt + output.value.value;
      ShownNow(b, other, output.value.value);
      var common := CommonPrefix(current.prompt, candidate);
      CutOff(current.prompt, candidate);
      UnboundedShown(b, id, other, candidate);
      if !terminal.finished && common == |candidate| < |current.prompt| { return Success(None); }
      ReachesNow(b, normal, id, other, candidate);
      LookedMore(b, normal, id, before, todo, other, candidate, best, Max(best, Aligned(common)));
      best := Max(best, Aligned(common));
    }
    LookedAll(b, normal, id, best);
    r := Success(Some(best));
  }

  lemma LookedNone(b: Backend, normal: set<Id>, id: Id)
    requires id in b.entries
    ensures Looked(b, normal, id, normal, 0)
  {
  }

  lemma LookedOther(b: Backend, normal: set<Id>, id: Id, before: set<Id>, todo: set<Id>, other: Id, best: nat)
    requires id in b.entries && Looked(b, normal, id, before, best) && todo == before - {other} && !Rival(b, normal, id, other)
    ensures Looked(b, normal, id, todo, best)
  {
    hide Shows, Unbounded, Lcp, Aligned;
  }

  lemma LookedMore(b: Backend, normal: set<Id>, id: Id, before: set<Id>, todo: set<Id>, other: Id, shown: seq<int>, best: nat, more: nat)
    requires id in b.entries && other in b.entries && Looked(b, normal, id, before, best) && todo == before - {other} && best <= more
    requires !Unbounded(b, id, other) && !TwoChoices(b, other) && Shows(b, other, shown)
    requires Aligned(Lcp(b.entries[id].prompt, shown)) <= more
    ensures Looked(b, normal, id, todo, more)
  {
    hide Shows, Unbounded, Lcp, Aligned, TwoChoices;
    forall x | Rival(b, normal, id, x) && x !in todo
      ensures !Unbounded(b, id, x) && !TwoChoices(b, x)
      ensures forall y :: Shows(b, x, y) ==> Aligned(Lcp(b.entries[id].prompt, y)) <= more
    {
      if x == other {
        forall y | Shows(b, x, y) ensures Aligned(Lcp(b.entries[id].prompt, y)) <= more { ShowsOne(b, other, shown, y); }
      }
    }
  }

  lemma LookedAll(b: Backend, normal: set<Id>, id: Id, best: nat)
    requires id in b.entries && Looked(b, normal, id, {}, best)
    ensures Bounded(b, normal, id, best)
    ensures forall other :: Rival(b, normal, id, other) ==> !Unbounded(b, id, other) && !TwoChoices(b, other)
  {
    hide Shows, Unbounded, Lcp, Aligned, Possible, TwoChoices;
    forall other, tokens | Rival(b, normal, id, other) && Possible(b, other, tokens)
      ensures Aligned(Lcp(b.entries[id].prompt, tokens)) <= best
    {
      var shown := BoundedShows(b, id, other);
      RivalBounded(b, id, other, shown, tokens);
    }
  }

  lemma BoundedShows(b: Backend, id: Id, other: Id) returns (shown: seq<int>)
    requires id in b.entries && other in b.entries && !Unbounded(b, id, other) && !TwoChoices(b, other)
    ensures Shows(b, other, shown)
  {
    var t := b.results[other];
    GeneratedMeans(t);
    shown := b.entries[other].prompt + Generated(t).value.value;
  }

  lemma UnboundedIf(b: Backend, id: Id, other: Id)
    requires id in b.entries && other in b.entries && (other !in b.results || !b.results[other].reported)
    ensures Unbounded(b, id, other)
  {
  }

  lemma ShownNow(b: Backend, other: Id, out: seq<int>)
    requires other in b.entries && other in b.results && Reports(b.results[other], out)
    ensures Shows(b, other, b.entries[other].prompt + out) && b.results[other].reported
  {
  }

  lemma UnboundedShown(b: Backend, id: Id, other: Id, shown: seq<int>)
    requires id in b.entries && other in b.entries && other in b.results && Shows(b, other, shown) && b.results[other].reported
    ensures Unbounded(b, id, other) <==> !b.results[other].finished && shown < b.entries[id].prompt
  {
    hide Shows;
    forall y | Shows(b, other, y) ensures y == shown { ShowsOne(b, other, shown, y); }
  }

  lemma ReachesNow(b: Backend, normal: set<Id>, id: Id, other: Id, shown: seq<int>)
    requires Rival(b, normal, id, other) && !Unbounded(b, id, other) && Shows(b, other, shown)
    ensures Reaches(b, normal, id, other, Aligned(Lcp(b.entries[id].prompt, shown)))
  {
    hide Shows, Unbounded, Lcp, Aligned;
  }

  lemma CutOff(target: seq<int>, candidate: seq<int>)
    ensures Lcp(target, candidate) == |candidate| < |target| <==> candidate < target
  {
    var n := Lcp(target, candidate);
    if n == |candidate| { assert target[..n] == candidate; }
    if candidate < target {
      assert target[..|candidate|] == candidate;
      LcpUnique(target, candidate, |candidate|);
    }
  }

  lemma RivalBounded(b: Backend, id: Id, other: Id, shown: seq<int>, tokens: seq<int>)
    requires id in b.entries && other in b.entries && !Unbounded(b, id, other) && Shows(b, other, shown) && Possible(b, other, tokens)
    ensures Lcp(b.entries[id].prompt, tokens) == Lcp(b.entries[id].prompt, shown)
  {
    hide Lcp, Shows;
    if !b.results[other].finished { HiddenTokensBounded(b.entries[id].prompt, shown, tokens); }
  }

  /******* Preparation credit *******/

  /** A finished preparation of this trial that was over before the request entered. */
  predicate Ready(b: Backend, preps: set<Id>, salt: string, id: Id, prep: Id) {
    && prep in preps && id in b.entries && prep in b.entries && prep in b.results
    && b.entries[prep].salt == salt && b.results[prep].at < b.entries[id].at
  }

  /** The preparation shares `n` tokens in whole blocks with the request. */
  predicate Supplies(b: Backend, preps: set<Id>, salt: string, id: Id, prep: Id, n: nat) {
    Ready(b, preps, salt, id, prep) && n == Aligned(Lcp(b.entries[id].prompt, b.entries[prep].prompt))
  }

  /** The most whole blocks that one ready preparation shares with the request. */
  method MatchingPreparation(b: Backend, preps: set<Id>, salt: string, id: Id) returns (n: nat)
    requires id in b.entries && forall p :: p in preps ==> p in b.entries && p in b.results
    ensures forall p, m: nat :: Supplies(b, preps, salt, id, p, m) ==> m <= n
    ensures n == 0 || exists p :: Supplies(b, preps, salt, id, p, n)
  {
    hide Aligned, Lcp;
    n := 0;
    var todo := preps;
    while todo != {}
      invariant todo <= preps
      invariant forall p, m: nat :: Supplies(b, preps, salt, id, p, m) && p !in todo ==> m <= n
      invariant n == 0 || exists p :: Supplies(b, preps, salt, id, p, n)
      decreases |todo|
    {
      var p :| p in todo;
      todo := todo - {p};
      if b.entries[p].salt == salt && b.results[p].at < b.entries[id].at {
        var common := CommonPrefix(b.entries[id].prompt, b.entries[p].prompt);
        assert Supplies(b, preps, salt, id, p, Aligned(common));
        n := Max(n, Aligned(common));
      }
    }
  }

  datatype Row = Row(id: Id, ceiling: Option<nat>, cached: Option<int>, matching: nat, credit: Option<nat>, above: Option<nat>)

  /** The hits of a request above the foreground ceiling, in whole blocks. */
  function Above(cached: int, ceiling: nat): nat {
    var n := if cached >= 0 then Aligned(cached) else 0;
    if n > ceiling then n - ceiling else 0
  }

  function Credit(cached: nat, matching: nat, ceiling: nat): nat {
    var n := Min(Aligned(cached), matching);
    if n > ceiling then n - ceiling else 0
  }

  lemma AlignedBelow(n: nat)
    ensures Aligned(n) <= n < Aligned(n) + 16 && Aligned(n) % 16 == 0
  {
  }

  lemma LcpAligned(a: seq<int>, b: seq<int>, n: nat)
    requires n <= Aligned(Lcp(a, b))
    ensures n <= |a| && n <= |b| && a[..n] == b[..n]
  {
    AlignedBelow(Lcp(a, b));
    LcpLong(a, b, n);
  }

  /** A row is explained: every foreground rival stops at its ceiling, and the credited tokens above
      it are cache hits that a ready preparation holds. */
  ghost predicate Explained(b: Backend, normal: set<Id>, preps: set<Id>, salt: string, row: Row) {
    && (row.ceiling.Some? ==> row.id in b.entries && Bounded(b, normal, row.id, row.ceiling.value))
    && (row.credit.Some? && row.credit.value > 0 ==>
          && row.ceiling.Some? && row.cached.Some?
          && row.ceiling.value + row.credit.value <= row.cached.value <= |b.entries[row.id].prompt|
          && exists p :: Ready(b, preps, salt, row.id, p)
               && Agree(b.entries[row.id].prompt, b.entries[p].prompt, row.ceiling.value + row.credit.value))
  }

  /** No rival can share more than `n` tokens in whole blocks, whatever it did not report. */
  ghost predicate Bounded(b: Backend, normal: set<Id>, id: Id, n: nat)
    requires id in b.entries
  {
    forall other, tokens :: Rival(b, normal, id, other) && Possible(b, other, tokens) ==>
      Aligned(Lcp(b.entries[id].prompt, tokens)) <= n
  }

  /** A row has what a credit needs: a ceiling and a hit count within the prompt. */
  predicate Creditable(b: Backend, row: Row) {
    row.ceiling.Some? && row.cached.Some? && row.id in b.entries && 0 <= row.cached.value <= |b.entries[row.id].prompt|
  }

  /** `m` tokens are whole blocks among the hits that a ready preparation holds, or none. */
  ghost predicate Supported(b: Backend, preps: set<Id>, salt: string, id: Id, cached: int, m: nat)
    requires id in b.entries
  {
    && m % 16 == 0 && m <= cached
    && (m == 0 || exists p :: Ready(b, preps, salt, id, p) && Agree(b.entries[id].prompt, b.entries[p].prompt, m))
  }

  /** The credit is what the largest supported hit lies above the ceiling. */
  ghost predicate Deserved(b: Backend, preps: set<Id>, salt: string, row: Row)
    requires Creditable(b, row) && row.credit.Some?
  {
    exists m: nat ::
      && Supported(b, preps, salt, row.id, row.cached.value, m)
      && (forall k: nat :: Supported(b, preps, salt, row.id, row.cached.value, k) ==> k <= m)
      && row.credit.value == if m > row.ceiling.value then m - row.ceiling.value else 0
  }

  ghost predicate CeilingTold(b: Backend, normal: set<Id>, id: Id, ceiling: Option<nat>) {
    && (ceiling.Some? ==>
          && id in b.entries && id in b.firstOutput && Bounded(b, normal, id, ceiling.value)
          && (ceiling.value == 0 || exists other :: Reaches(b, normal, id, other, ceiling.value)))
    && (ceiling.None? && id in b.entries && id in b.firstOutput ==>
          exists other :: Rival(b, normal, id, other) && Unbounded(b, id, other))
  }

  ghost predicate MatchingTold(b: Backend, preps: set<Id>, salt: string, id: Id, n: nat) {
    && (forall p, m: nat :: Supplies(b, preps, salt, id, p, m) ==> m <= n)
    && (n == 0 || exists p :: Supplies(b, preps, salt, id, p, n))
  }

  /** The hits in whole blocks above the ceiling, wherever both are known. */
  ghost predicate AboveTold(row: Row) {
    && (row.above.Some? <==> row.cached.Some? && row.ceiling.Some?)
    && (row.above.Some? ==>
          && (row.above.value > 0 ==>
                (row.ceiling.value + row.above.value) % 16 == 0 && row.ceiling.value + row.above.value <= row.cached.value)
          && (forall k: nat :: k % 16 == 0 && k <= row.cached.value ==> k <= row.ceiling.value + row.above.value))
  }

  /** What a row says of its request. */
  ghost predicate Told(b: Backend, normal: set<Id>, preps: set<Id>, salt: string, row: Row) {
    && row.cached == (if row.id in b.results then b.results[row.id].cached else None)
    && CeilingTold(b, normal, row.id, row.ceiling)
    && MatchingTold(b, preps, salt, row.id, row.matching)
    && AboveTold(row)
  }

  ghost predicate Agree(a: seq<int>, b: seq<int>, n: nat) { n <= |a| && n <= |b| && a[..n] == b[..n] }

  /** Preparations that finished with a reported, nonempty output. */
  ghost predicate Completed(b: Backend, id: Id) {
    id in b.results && b.results[id].finished && exists out :: Reports(b.results[id], out) && out != []
  }

  lemma CompletedIf(b: Backend, id: Id)
    requires id in b.results && !SecondChoice(b.results[id])
    ensures var output := Generated(b.results[id]);
            && output.Success?
            && (Completed(b, id) <==> b.results[id].finished && output.value.Some? && output.value.value != [])
  {
    var t := b.results[id];
    GeneratedMeans(t);
    if t.reported {
      forall out | Reports(t, out) ensures out == Generated(t).value.value { ReportsOne(t, out, Generated(t).value.value); }
    }
  }

  method CompletedPreparations(b: Backend, preps: set<Id>) returns (r: Result<set<Id>>)
    ensures r.Success? ==> r.value == set p | p in preps && Completed(b, p)
    ensures r.Failure? ==> exists p :: p in preps && TwoChoices(b, p)
  {
    hide Reports, Generated;
    var done: set<Id>, todo := {}, preps;
    while todo != {}
      invariant todo <= preps && done == set p | p in preps - todo && Completed(b, p)
      decreases |todo|
    {
      var p :| p in todo;
      if p in b.results && b.results[p].finished {
        var output := Generated(b.results[p]);
        GeneratedMeans(b.results[p]);
        if output.Failure? {
          assert TwoChoices(b, p);
          return Failure(output.error);
        }
        CompletedIf(b, p);
        if output.value.Some? && output.value.value != [] { done := done + {p}; }
      }
      todo := todo - {p};
    }
    r := Success(done);
  }

  lemma LcpOfAgreement(a: seq<int>, b: seq<int>, m: nat)
    requires Agree(a, b, m) && m % 16 == 0
    ensures m <= Aligned(Lcp(a, b))
  {
    LcpAtLeast(a, b, m);
    AlignedBelow(Lcp(a, b));
    AlignedLargest(Lcp(a, b), m);
  }

  lemma AlignedLargest(n: nat, m: nat)
    requires m % 16 == 0 && m <= n
    ensures m <= Aligned(n)
  {
  }

  lemma LcpAtLeast(a: seq<int>, b: seq<int>, m: nat)
    requires Agree(a, b, m)
    ensures m <= Lcp(a, b)
  {
    LcpLong(a, b, m);
  }

  lemma SupportedBounded(b: Backend, preps: set<Id>, salt: string, id: Id, cached: nat, matching: nat, k: nat)
    requires id in b.entries && Supported(b, preps, salt, id, cached, k) && MatchingTold(b, preps, salt, id, matching)
    ensures k <= Min(Aligned(cached), matching)
  {
    hide Lcp, Aligned;
    AlignedLargest(cached, k);
    if k > 0 {
      var p :| Ready(b, preps, salt, id, p) && Agree(b.entries[id].prompt, b.entries[p].prompt, k);
      LcpOfAgreement(b.entries[id].prompt, b.entries[p].prompt, k);
      assert Supplies(b, preps, salt, id, p, Aligned(Lcp(b.entries[id].prompt, b.entries[p].prompt)));
    }
  }

  lemma MatchingAligned(b: Backend, preps: set<Id>, salt: string, id: Id, n: nat)
    requires MatchingTold(b, preps, salt, id, n)
    ensures n % 16 == 0
  {
    hide Lcp;
    if n > 0 {
      var p :| Supplies(b, preps, salt, id, p, n);
      AlignedBelow(Lcp(b.entries[id].prompt, b.entries[p].prompt));
    }
  }

  /** The rule's minimum is the largest hit that a ready preparation supports. */
  lemma LargestSupported(b: Backend, preps: set<Id>, salt: string, id: Id, cached: nat, matching: nat)
    requires id in b.entries && MatchingTold(b, preps, salt, id, matching)
    ensures var m := Min(Aligned(cached), matching);
            && Supported(b, preps, salt, id, cached, m)
            && forall k: nat :: Supported(b, preps, salt, id, cached, k) ==> k <= m
  {
    hide Lcp, Aligned, MatchingTold;
    var m := Min(Aligned(cached), matching);
    AlignedBelow(cached);
    MatchingAligned(b, preps, salt, id, matching);
    if m > 0 {
      var p := Supplier(b, preps, salt, id, matching);
      LcpAligned(b.entries[id].prompt, b.entries[p].prompt, m);
      assert Agree(b.entries[id].prompt, b.entries[p].prompt, m);
    }
    forall k: nat | Supported(b, preps, salt, id, cached, k) ensures k <= m {
      SupportedBounded(b, preps, salt, id, cached, matching, k);
    }
  }

  lemma Supplier(b: Backend, preps: set<Id>, salt: string, id: Id, n: nat) returns (p: Id)
    requires MatchingTold(b, preps, salt, id, n) && n > 0
    ensures Ready(b, preps, salt, id, p) && n == Aligned(Lcp(b.entries[id].prompt, b.entries[p].prompt))
  {
    hide Lcp, Aligned;
    p :| Supplies(b, preps, salt, id, p, n);
  }

  lemma CreditDeserved(b: Backend, preps: set<Id>, salt: string, row: Row)
    requires Creditable(b, row) && MatchingTold(b, preps, salt, row.id, row.matching)
    requires row.credit == Some(Credit(row.cached.value, row.matching, row.ceiling.value))
    ensures Deserved(b, preps, salt, row)
  {
    hide Lcp, Aligned, MatchingTold, Supported;
    LargestSupported(b, preps, salt, row.id, row.cached.value, row.matching);
  }

  lemma AboveExact(row: Row)
    requires row.above == if row.cached.Some? && row.ceiling.Some? then Some(Above(row.cached.value, row.ceiling.value)) else None
    ensures AboveTold(row)
  {
    hide Aligned;
    if row.above.Some? {
      var cached, ceiling := row.cached.value, row.ceiling.value;
      if cached >= 0 { AlignedBelow(cached); }
      forall k: nat | k % 16 == 0 && k <= cached ensures k <= ceiling + row.above.value { AlignedLargest(cached, k); }
    }
  }

  lemma CreditExplained(b: Backend, normal: set<Id>, preps: set<Id>, salt: string, row: Row)
    requires row.id in b.entries && row.ceiling.Some? && row.cached.Some? && 0 <= row.cached.value <= |b.entries[row.id].prompt|
    requires row.credit == Some(Credit(row.cached.value, row.matching, row.ceiling.value))
    requires row.matching == 0 || exists p :: Supplies(b, preps, salt, row.id, p, row.matching)
    requires Bounded(b, normal, row.id, row.ceiling.value)
    ensures Explained(b, normal, preps, salt, row)
  {
    hide Lcp, Bounded;
    if row.credit.value > 0 {
      AlignedBelow(row.cached.value);
      var n := row.ceiling.value + row.credit.value;
      var p :| Supplies(b, preps, salt, row.id, p, row.matching);
      LcpAligned(b.entries[row.id].prompt, b.entries[p].prompt, n);
      assert Agree(b.entries[row.id].prompt, b.entries[p].prompt, n);
    }
  }

  /** Without hits above the ceiling there is nothing to credit. */
  lemma CreditBelowAbove(cached: nat, matching: nat, ceiling: nat)
    ensures Credit(cached, matching, ceiling) <= Above(cached, ceiling)
  {
  }

  /** One foreground request's row; `clean` says that no error is known yet.  It is credited exactly when
      clean and creditable, with all it deserves. */
  method RequestRow(b: Backend, normal: set<Id>, preps: set<Id>, salt: string, id: Id, clean: bool) returns (r: Result<Row>)
    requires forall p :: p in preps ==> p in b.results
    ensures r.Success? ==>
              && r.value.id == id && Told(b, normal, preps, salt, r.value) && Explained(b, normal, preps, salt, r.value)
              && (r.value.credit.Some? <==> clean && Creditable(b, r.value))
              && (r.value.credit.Some? ==> Deserved(b, preps, salt, r.value))
              && (r.value.credit.Some? && r.value.credit.value > 0 ==> r.value.above.Some? && r.value.above.value > 0)
    ensures r.Failure? ==> || (exists other :: Rival(b, normal, id, other) && TwoChoices(b, other))
                           || (exists p :: p in preps && p !in b.entries)
  {
    hide Aligned, Lcp, Rival, Possible, Generated, Unbounded, TwoChoices, Reaches, Supplies, Bounded, Deserved, AboveTold, Credit;
    var ceiling: Option<nat>, matching: nat, credit: Option<nat>, above: Option<nat> := None, 0, None, None;
    var cached := if id in b.results then b.results[id].cached else None;
    if id in b.entries {
      var bound := ForegroundCeiling(b, normal, id);
      if bound.Failure? { return Failure(bound.error); }
      ceiling := bound.value;
      if exists p :: p in preps && p !in b.entries { return Failure("KeyError"); }
      matching := MatchingPreparation(b, preps, salt, id);
    } else {
      NoneSupplies(b, preps, salt, id);
    }
    if cached.Some? && ceiling.Some? { above := Some(Above(cached.value, ceiling.value)); }
    if id in b.entries && clean && ceiling.Some? && cached.Some? && 0 <= cached.value <= |b.entries[id].prompt| {
      credit := Some(Credit(cached.value, matching, ceiling.value));
      CreditBelowAbove(cached.value, matching, ceiling.value);
      CreditExplained(b, normal, preps, salt, Row(id, ceiling, cached, matching, credit, above));
      CreditDeserved(b, preps, salt, Row(id, ceiling, cached, matching, credit, above));
    }
    AboveExact(Row(id, ceiling, cached, matching, credit, above));
    r := Success(Row(id, ceiling, cached, matching, credit, above));
  }

  lemma NoneSupplies(b: Backend, preps: set<Id>, salt: string, id: Id)
    requires id !in b.entries
    ensures forall p, m: nat :: !Supplies(b, preps, salt, id, p, m)
  {
  }

  /** The rows of a trial and whether its attribution is valid, which it is exactly when no error was
      known, the captures were flushed and, without hints, no request hit more than its ceiling.  Then
      exactly the creditable rows are credited, each with all it deserves; otherwise none is. */
  method AnalyzeRows(b: Backend, clients: seq<Id>, preps: set<Id>, salt: string, off: bool, errors: seq<string>, flushed: bool)
    returns (r: Result<seq<Row>>, valid: bool)
    ensures r.Success? ==> |r.value| == |clients| && forall i :: 0 <= i < |clients| ==> r.value[i].id == clients[i]
    ensures r.Success? ==> forall row :: row in r.value ==>
              var normal, done := (set id | id in clients), (set p | p in preps && Completed(b, p));
              && Told(b, normal, done, salt, row) && Explained(b, normal, done, salt, row)
              && (row.credit.Some? <==> valid && Creditable(b, row))
              && (row.credit.Some? ==> Deserved(b, done, salt, row))
    ensures r.Success? ==> (valid <==> errors == [] && flushed && (off ==> NoneExceeds(r.value)))
    ensures r.Success? && valid && off ==> forall row :: row in r.value ==> row.credit.None? || row.credit.value == 0
    ensures r.Failure? ==> !valid
  {
    hide Explained, Completed, Told, Deserved, Creditable, NoneExceeds;
    NoRowExceeds();
    valid := false;
    var normal := set id | id in clients;
    var completed := CompletedPreparations(b, preps);
    if completed.Failure? { return Failure(completed.error), false; }
    CompletedHaveResults(b, preps);
    var rows: seq<Row>, found := [], errors;
    for i := 0 to |clients|
      invariant |rows| == i
      invariant found == [] <==> errors == [] && (off ==> NoneExceeds(rows))
      invariant forall j :: 0 <= j < i ==> rows[j].id == clients[j] && Fine(b, normal, completed.value, salt, rows[j])
      invariant found == [] ==> forall j :: 0 <= j < i ==> (rows[j].credit.Some? <==> Creditable(b, rows[j]))
      invariant found == [] && off ==> forall j :: 0 <= j < i ==> rows[j].credit.None? || rows[j].credit.value == 0
    {
      var row := RequestRow(b, normal, completed.value, salt, clients[i], found == []);
      if row.Failure? { return Failure(row.error), false; }
      if off && row.value.above.Some? && row.value.above.value > 0 {
        found := found + ["hint-off cache exceeds foreground-history ceiling"];
      }
      NoneExceedsMore(rows, row.value);
      rows := rows + [row.value];
    }
    if !flushed { found := found + ["A preparation capture did not flush successfully"]; }
    valid := found == [];
    if found != [] {
      ghost var before := rows;
      rows := Withdraw(rows, b, normal, completed.value, salt);
      SameExcess(before, rows);
    }
    r := Success(rows);
  }

  /** The request hit no more than its ceiling, as far as is known. */
  predicate Unexceeded(row: Row) { row.above.None? || row.above.value == 0 }

  predicate NoneExceeds(rows: seq<Row>) { forall i :: 0 <= i < |rows| ==> Unexceeded(rows[i]) }

  lemma NoRowExceeds()
    ensures NoneExceeds([])
  {
  }

  lemma NoneExceedsMore(rows: seq<Row>, row: Row)
    ensures NoneExceeds(rows + [row]) <==> NoneExceeds(rows) && Unexceeded(row)
  {
    var more := rows + [row];
    if NoneExceeds(more) {
      assert more[|rows|] == row;
      forall i | 0 <= i < |rows| ensures Unexceeded(rows[i]) { assert more[i] == rows[i]; }
    }
  }

  lemma SameExcess(rows: seq<Row>, after: seq<Row>)
    requires |after| == |rows| && forall i :: 0 <= i < |rows| ==> after[i] == rows[i].(credit := None)
    ensures NoneExceeds(after) <==> NoneExceeds(rows)
  {
    if NoneExceeds(after) { forall i | 0 <= i < |rows| ensures Unexceeded(rows[i]) { assert Unexceeded(after[i]); } }
  }

  ghost predicate Fine(b: Backend, normal: set<Id>, preps: set<Id>, salt: string, row: Row) {
    && Told(b, normal, preps, salt, row) && Explained(b, normal, preps, salt, row)
    && (row.credit.Some? ==> Creditable(b, row) && Deserved(b, preps, salt, row))
  }

  method Withdraw(rows: seq<Row>, ghost b: Backend, ghost normal: set<Id>, ghost preps: set<Id>, ghost salt: string)
    returns (after: seq<Row>)
    requires forall row :: row in rows ==> Fine(b, normal, preps, salt, row)
    ensures |after| == |rows| && forall i :: 0 <= i < |rows| ==>
              after[i] == rows[i].(credit := None) && Fine(b, normal, preps, salt, after[i])
  {
    hide Fine;
    after := [];
    for i := 0 to |rows|
      invariant |after| == i && forall j :: 0 <= j < i ==>
                  after[j] == rows[j].(credit := None) && Fine(b, normal, preps, salt, after[j])
    {
      assert rows[i] in rows;
      WithdrawnFine(b, normal, preps, salt, rows[i]);
      after := after + [rows[i].(credit := None)];
    }
  }

  lemma WithdrawnFine(b: Backend, normal: set<Id>, preps: set<Id>, salt: string, row: Row)
    requires Fine(b, normal, preps, salt, row)
    ensures Fine(b, normal, preps, salt, row.(credit := None))
  {
    hide CeilingTold, MatchingTold, Bounded;
  }

  lemma CompletedHaveResults(b: Backend, preps: set<Id>)
    ensures forall p :: p in preps && Completed(b, p) ==> p in b.results
  {
  }
}
