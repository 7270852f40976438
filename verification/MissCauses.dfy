/** Attributing compatible-prefix misses: supplied cause ranges are completed to a partition of
    the missed interval, so the cause totals add up to all the tokens that were missed. */
module MissCauses {
  import opened Numbers
  import opened Sorting
  import opened Wrappers

  const CAUSES: set<string> := {"rendering", "reasoning_round_trip", "tool_call_round_trip", "tool_schema_order",
                                "harness_edits", "eviction", "engine_boundary", "other"}

  /** A half-open token range and why it was missed. */
  datatype Cause = Cause(start: int, end: int, cause: string, explanation: string, evidence: seq<string>)

  /** What a supplied entry must carry. */
  predicate Documented(c: Cause) {
    c.cause in CAUSES && c.explanation != "" && (c.cause != "other" ==> c.evidence != [])
  }

  /******* Sorting by start *******/

  predicate StartsFirst(a: Cause, b: Cause) { a.start <= b.start }

  function ByStart(s: seq<Cause>): seq<Cause> { SortBy(s, StartsFirst) }

  lemma StartsFirstTotal()
    ensures TotalOrder(StartsFirst)
  {
  }

  lemma ByStartSorts(s: seq<Cause>)
    ensures SortedBy(ByStart(s), StartsFirst) && Permuted(ByStart(s), s)
  {
    StartsFirstTotal();
    SortBySorts(s, StartsFirst);
  }

  /******* Completing the ranges to a partition *******/

  /** Consecutive nonempty ranges from `lo` to `hi`. */
  ghost predicate Partition(s: seq<Cause>, lo: int, hi: int) {
    if s == [] then lo == hi
    else s[|s| - 1].start < s[|s| - 1].end == hi && Partition(s[..|s| - 1], lo, s[|s| - 1].start)
  }

  lemma PartitionSnoc(s: seq<Cause>, lo: int, mid: int, c: Cause)
    requires Partition(s, lo, mid) && c.start == mid < c.end
    ensures Partition(s + [c], lo, c.end)
  {
    assert (s + [c])[..|s|] == s;
  }

  lemma {:induction false} PartitionGrows(s: seq<Cause>, lo: int, hi: int)
    requires Partition(s, lo, hi)
    ensures lo <= hi
  {
    if s != [] { PartitionGrows(s[..|s| - 1], lo, s[|s| - 1].start); }
  }

  /** Every position of the interval lies in exactly one range. */
  lemma {:induction false} PartitionCovers(s: seq<Cause>, lo: int, hi: int, p: int)
    requires Partition(s, lo, hi) && lo <= p < hi
    ensures exists i :: 0 <= i < |s| && s[i].start <= p < s[i].end
    ensures forall i, j :: 0 <= i < |s| && 0 <= j < |s| && s[i].start <= p < s[i].end && s[j].start <= p < s[j].end ==> i == j
  {
    if s != [] {
      var init, last := s[..|s| - 1], s[|s| - 1];
      if p < last.start { PartitionCovers(init, lo, last.start, p); }
      PartitionBelow(init, lo, last.start);
      assert forall i :: 0 <= i < |init| ==> s[i] == init[i];
      if p >= last.start { assert s[|s| - 1].start <= p < s[|s| - 1].end; }
    }
  }

  lemma {:induction false} PartitionBelow(s: seq<Cause>, lo: int, hi: int)
    requires Partition(s, lo, hi)
    ensures forall i :: 0 <= i < |s| ==> lo <= s[i].start < s[i].end <= hi
  {
    if s != [] {
      var init := s[..|s| - 1];
      PartitionBelow(init, lo, s[|s| - 1].start);
      PartitionGrows(init, lo, s[|s| - 1].start);
      assert forall i :: 0 <= i < |init| ==> s[i] == init[i];
    }
  }

  function Filler(lo: int, hi: int, text: string): Cause { Cause(lo, hi, "other", text, []) }

  /** Where the first `i` entries end. */
  function Cursor(start: int, s: seq<Cause>, i: nat): int
    requires i <= |s|
  {
    if i == 0 then start else s[i - 1].end
  }

  /** Entry `i` starts no earlier than the ones before it end, and fits. */
  predicate Fits(start: int, end: int, s: seq<Cause>, i: nat)
    requires i < |s|
  {
    Cursor(start, s, i) <= s[i].start < s[i].end <= end && Documented(s[i])
  }

  ghost predicate Apart(c: Cause, d: Cause) { c.end <= d.start || d.end <= c.start }

  ghost predicate AllApart(s: seq<Cause>) { forall i, j :: 0 <= i < j < |s| ==> Apart(s[i], s[j]) }

  ghost predicate Inside(start: int, end: int, c: Cause) {
    && start <= c.start < c.end <= end && c.explanation != ""
    && (c.cause == "other"
        || (c.evidence != [] && c.cause in {"rendering", "reasoning_round_trip", "tool_call_round_trip", "tool_schema_order",
                                            "harness_edits", "eviction", "engine_boundary"}))
  }

  /** The supplied entries are documented, nonempty, inside the interval and pairwise disjoint. */
  ghost predicate Consistent(start: int, end: int, supplied: seq<Cause>) {
    AllApart(supplied) && forall c :: c in supplied ==> Inside(start, end, c)
  }

  /******* Disjointness does not depend on the order of the entries *******/

  lemma ApartCons(c: Cause, s: seq<Cause>)
    ensures AllApart([c] + s) <==> AllApart(s) && forall x :: x in s ==> Apart(c, x)
  {
    var t := [c] + s;
    if AllApart(t) {
      forall i, j | 0 <= i < j < |s| ensures Apart(s[i], s[j]) { assert t[i + 1] == s[i] && t[j + 1] == s[j]; }
      forall x | x in s ensures Apart(c, x) {
        var k :| 0 <= k < |s| && s[k] == x;
        assert t[0] == c && t[k + 1] == x;
      }
    }
  }

  lemma {:induction false} ApartInsert(c: Cause, s: seq<Cause>)
    ensures AllApart(Insert(c, s, StartsFirst)) <==> AllApart(s) && forall x :: x in s ==> Apart(c, x)
  {
    hide AllApart;
    if s == [] || c.start <= s[0].start {
      ApartCons(c, s);
    } else {
      var rest := s[1..];
      assert s == [s[0]] + rest;
      ApartInsert(c, rest);
      InsertMembers(c, rest, StartsFirst);
      ApartCons(s[0], rest);
      ApartCons(s[0], Insert(c, rest, StartsFirst));
      assert Apart(c, s[0]) <==> Apart(s[0], c);
    }
  }

  lemma {:induction false} ApartSorted(s: seq<Cause>)
    ensures AllApart(ByStart(s)) <==> AllApart(s)
    ensures forall x :: x in ByStart(s) <==> x in s
  {
    hide AllApart;
    if s != [] {
      assert s == [s[0]] + s[1..];
      ApartSorted(s[1..]);
      InsertMembers(s[0], ByStart(s[1..]), StartsFirst);
      ApartInsert(s[0], ByStart(s[1..]));
      ApartCons(s[0], s[1..]);
    }
  }

  lemma ConsistentSorted(start: int, end: int, supplied: seq<Cause>)
    ensures Consistent(start, end, ByStart(supplied)) <==> Consistent(start, end, supplied)
  {
    ApartSorted(supplied);
  }

  /******* What the scan over the sorted entries checks *******/

  ghost predicate AllFit(start: int, end: int, s: seq<Cause>) { forall k :: 0 <= k < |s| ==> Fits(start, end, s, k) }

  lemma {:induction false} FitsInside(start: int, end: int, s: seq<Cause>, i: nat)
    requires AllFit(start, end, s) && i < |s|
    ensures Inside(start, end, s[i]) && forall j :: 0 <= j < i ==> s[j].end <= s[i].start
    decreases i
  {
    assert Fits(start, end, s, i);
    if i > 0 { FitsInside(start, end, s, i - 1); }
  }

  lemma FitsConsistent(start: int, end: int, s: seq<Cause>)
    requires AllFit(start, end, s)
    ensures Consistent(start, end, s)
  {
    forall i | 0 <= i < |s| ensures Inside(start, end, s[i]) && forall j :: 0 <= j < i ==> s[j].end <= s[i].start {
      FitsInside(start, end, s, i);
    }
  }

  /** Disjoint nonempty ranges in order of their start follow one another. */
  lemma ConsistentFits(start: int, end: int, s: seq<Cause>, i: nat)
    requires SortedBy(s, StartsFirst) && Consistent(start, end, s) && i < |s|
    ensures Fits(start, end, s, i)
  {
    assert s[i] in s;
    if i > 0 { assert s[i - 1] in s && s[i - 1].start <= s[i].start && Apart(s[i - 1], s[i]); }
  }

  /** `result` holds every entry, and whatever else it holds is unattributed filler. */
  ghost predicate Holds(result: seq<Cause>, entries: seq<Cause>, text: string) {
    && multiset(entries) <= multiset(result)
    && forall c :: c in multiset(result) - multiset(entries) ==> c == Filler(c.start, c.end, text)
  }

  /******* Tokens per cause *******/

  function Length(s: seq<Cause>): int {
    if s == [] then 0 else Length(s[..|s| - 1]) + (s[|s| - 1].end - s[|s| - 1].start)
  }

  /** The tokens of the ranges with that cause. */
  function LengthOf(s: seq<Cause>, cause: string): int {
    if s == [] then 0
    else LengthOf(s[..|s| - 1], cause) + if s[|s| - 1].cause == cause then s[|s| - 1].end - s[|s| - 1].start else 0
  }

  lemma LengthSnoc(s: seq<Cause>, c: Cause, cause: string)
    ensures Length(s + [c]) == Length(s) + (c.end - c.start)
    ensures LengthOf(s + [c], cause) == LengthOf(s, cause) + if c.cause == cause then c.end - c.start else 0
  {
    assert (s + [c])[..|s|] == s;
  }

  lemma {:induction false} LengthConcat(s: seq<Cause>, r: seq<Cause>, cause: string)
    ensures Length(s + r) == Length(s) + Length(r) && LengthOf(s + r, cause) == LengthOf(s, cause) + LengthOf(r, cause)
  {
    hide Length, LengthOf;
    if r == [] {
      assert s + r == s;
      NoLength();
    } else {
      var init, last := r[..|r| - 1], r[|r| - 1];
      LengthConcat(s, init, cause);
      assert s + r == s + init + [last] && r == init + [last];
      LengthSnoc(s + init, last, cause);
      LengthSnoc(init, last, cause);
    }
  }

  lemma WithoutOne(s: seq<Cause>, a: seq<Cause>, b: seq<Cause>, c: Cause)
    requires Permuted(s + [c], a + [c] + b)
    ensures Permuted(s, a + b)
  {
    assert multiset(s + [c]) == multiset(s) + multiset{c};
    assert multiset(a + [c] + b) == multiset(a) + multiset{c} + multiset(b);
    assert multiset(s) == multiset(s + [c]) - multiset{c};
  }

  /** The order of the ranges plays no part. */
  lemma {:induction false} LengthPermuted(s: seq<Cause>, r: seq<Cause>, cause: string)
    requires Permuted(s, r)
    ensures Length(s) == Length(r) && LengthOf(s, cause) == LengthOf(r, cause)
    decreases |s|
  {
    if s == [] {
      assert |r| == |multiset(r)| == |multiset(s)|;
    } else {
      var init, last := s[..|s| - 1], s[|s| - 1];
      assert s == init + [last] && last in multiset(s);
      assert last in multiset(r);
      var i :| 0 <= i < |r| && r[i] == last;
      var rest := r[..i] + r[i + 1..];
      assert r == r[..i] + [last] + r[i + 1..];
      WithoutOne(init, r[..i], r[i + 1..], last);
      LengthPermuted(init, rest, cause);
      LengthSnoc(init, last, cause);
      LengthConcat(r[..i] + [last], r[i + 1..], cause);
      LengthSnoc(r[..i], last, cause);
      LengthConcat(r[..i], r[i + 1..], cause);
    }
  }

  /** Each cause keeps its supplied tokens; what is left of the interval counts as "other". */
  ghost predicate Attributed(result: seq<Cause>, supplied: seq<Cause>) {
    forall cause :: LengthOf(result, cause) ==
      LengthOf(supplied, cause) + if cause == "other" then Length(result) - Length(supplied) else 0
  }

  lemma AttributedFiller(result: seq<Cause>, entries: seq<Cause>, lo: int, hi: int, text: string)
    requires Attributed(result, entries)
    ensures Attributed(result + [Filler(lo, hi, text)], entries)
  {
    hide LengthOf, Length;
    forall cause ensures LengthOf(result + [Filler(lo, hi, text)], cause) ==
      LengthOf(entries, cause) + if cause == "other" then Length(result + [Filler(lo, hi, text)]) - Length(entries) else 0
    {
      LengthSnoc(result, Filler(lo, hi, text), cause);
    }
  }

  lemma AttributedEntry(result: seq<Cause>, entries: seq<Cause>, c: Cause)
    requires Attributed(result, entries)
    ensures Attributed(result + [c], entries + [c])
  {
    hide LengthOf, Length;
    forall cause ensures LengthOf(result + [c], cause) ==
      LengthOf(entries + [c], cause) + if cause == "other" then Length(result + [c]) - Length(entries + [c]) else 0
    {
      LengthSnoc(result, c, cause);
      LengthSnoc(entries, c, cause);
    }
  }

  lemma AttributedPermuted(result: seq<Cause>, entries: seq<Cause>, supplied: seq<Cause>)
    requires Attributed(result, entries) && Permuted(entries, supplied)
    ensures Attributed(result, supplied)
  {
    hide LengthOf, Length, Permuted;
    forall cause ensures LengthOf(result, cause) ==
      LengthOf(supplied, cause) + if cause == "other" then Length(result) - Length(supplied) else 0
    {
      LengthPermuted(entries, supplied, cause);
    }
  }

  /** Put unattributed filler between the cursor and `upto`, if there is a gap. */
  method FillGap(result: seq<Cause>, cursor: int, upto: int, text: string, ghost start: int, ghost entries: seq<Cause>)
    returns (more: seq<Cause>)
    requires Partition(result, start, cursor) && Holds(result, entries, text) && Attributed(result, entries)
    ensures Partition(more, start, if upto > cursor then upto else cursor) && Holds(more, entries, text)
    ensures Attributed(more, entries)
    ensures upto <= cursor ==> more == result
  {
    hide Holds, Partition, Attributed;
    more := result;
    if upto > cursor {
      PartitionSnoc(result, start, cursor, Filler(cursor, upto, text));
      HoldsFiller(result, entries, cursor, upto, text);
      AttributedFiller(result, entries, cursor, upto, text);
      more := result + [Filler(cursor, upto, text)];
    }
  }

  /** Complete the supplied ranges with filler, left to right.  The input is rejected exactly when it
      is not consistent; otherwise the result partitions the interval, holds every supplied entry,
      everything else in it is unattributed, and each cause has the tokens it was supplied with. */
  method ResolveCauses(start: int, end: int, supplied: seq<Cause>, text: string) returns (r: Result<seq<Cause>>)
    ensures r.Success? <==> Consistent(start, end, supplied)
    ensures r.Success? && start <= end ==> Partition(r.value, start, end)
    ensures r.Success? && start > end ==> r.value == []
    ensures r.Success? ==> Holds(r.value, supplied, text) && Attributed(r.value, supplied)
  {
    hide Attributed, Consistent, Partition, SortedBy, Fits, Documented, ByStart, Holds, AllFit, FitUpTo, Permuted;
    var entries := ByStart(supplied);
    ByStartSorts(supplied);
    ConsistentSorted(start, end, supplied);
    var result: seq<Cause>, cursor := [], start;
    PartitionNone(start);
    HoldsNone(entries, text);
    NoneAttributed(entries);
    FitNone(start, end, entries);
    for i := 0 to |entries|
      invariant cursor == Cursor(start, entries, i) && (i > 0 ==> cursor <= end)
      invariant FitUpTo(start, end, entries, i)
      invariant Partition(result, start, cursor) && Holds(result, entries[..i], text) && Attributed(result, entries[..i])
      invariant i == 0 ==> result == []
    {
      var entry := entries[i];
      assert entries[..i + 1] == entries[..i] + [entry];
      FitsHere(start, end, entries, i, cursor);
      if !(cursor <= entry.start < entry.end <= end) || !Documented(entry) {
        NotConsistent(start, end, entries, i);
        return Failure("rejected cause ranges");
      }
      result := FillGap(result, cursor, entry.start, text, start, entries[..i]);
      FitNext(start, end, entries, i);
      PartitionSnoc(result, start, entry.start, entry);
      HoldsEntry(result, entries[..i], entry, text);
      AttributedEntry(result, entries[..i], entry);
      result := result + [entry];
      cursor := entry.end;
    }
    assert entries[..|entries|] == entries;
    FitAll(start, end, entries);
    FitsConsistent(start, end, entries);
    FitsNeedRoom(start, end, entries);
    result := FillGap(result, cursor, end, text, start, entries);
    HoldsAll(result, entries, supplied, text);
    AttributedPermuted(result, entries, supplied);
    r := Success(result);
  }

  lemma NoneAttributed(s: seq<Cause>)
    ensures Attributed([], s[..0])
  {
    assert s[..0] == [];
  }

  lemma HoldsNone(s: seq<Cause>, text: string)
    ensures Holds([], s[..0], text)
  {
    assert s[..0] == [];
  }

  lemma FitNone(start: int, end: int, s: seq<Cause>)
    ensures FitUpTo(start, end, s, 0)
  {
  }

  lemma HoldsFiller(result: seq<Cause>, entries: seq<Cause>, lo: int, hi: int, text: string)
    requires Holds(result, entries, text)
    ensures Holds(result + [Filler(lo, hi, text)], entries, text)
  {
    var f := Filler(lo, hi, text);
    assert multiset(result + [f]) - multiset(entries) == (multiset(result) - multiset(entries)) + multiset{f};
  }

  lemma HoldsEntry(result: seq<Cause>, entries: seq<Cause>, c: Cause, text: string)
    requires Holds(result, entries, text)
    ensures Holds(result + [c], entries + [c], text)
  {
    assert multiset(result + [c]) - multiset(entries + [c]) == multiset(result) - multiset(entries);
  }

  lemma HoldsAll(result: seq<Cause>, entries: seq<Cause>, supplied: seq<Cause>, text: string)
    requires Holds(result, entries, text) && Permuted(entries, supplied)
    ensures Holds(result, supplied, text)
  {
  }

  lemma FitsNeedRoom(start: int, end: int, s: seq<Cause>)
    requires AllFit(start, end, s)
    ensures s != [] ==> start < end
  {
    if s != [] { FitsInside(start, end, s, 0); }
  }

  ghost predicate FitUpTo(start: int, end: int, s: seq<Cause>, n: nat)
    requires n <= |s|
  {
    forall k :: 0 <= k < n ==> Fits(start, end, s, k)
  }

  lemma FitNext(start: int, end: int, s: seq<Cause>, n: nat)
    requires n < |s| && FitUpTo(start, end, s, n) && Fits(start, end, s, n)
    ensures FitUpTo(start, end, s, n + 1)
  {
  }

  lemma FitAll(start: int, end: int, s: seq<Cause>)
    requires FitUpTo(start, end, s, |s|)
    ensures AllFit(start, end, s)
  {
  }

  lemma PartitionNone(lo: int)
    ensures Partition([], lo, lo)
  {
  }

  lemma FitsHere(start: int, end: int, s: seq<Cause>, i: nat, cursor: int)
    requires i < |s| && cursor == Cursor(start, s, i)
    ensures Fits(start, end, s, i) <==> cursor <= s[i].start < s[i].end <= end && Documented(s[i])
  {
  }

  lemma NotConsistent(start: int, end: int, s: seq<Cause>, i: nat)
    requires SortedBy(s, StartsFirst) && i < |s| && !Fits(start, end, s, i)
    ensures !Consistent(start, end, s)
  {
    if Consistent(start, end, s) { ConsistentFits(start, end, s, i); }
  }

  /******* Ranking *******/

  lemma {:induction false} PartitionLength(s: seq<Cause>, lo: int, hi: int)
    requires Partition(s, lo, hi)
    ensures Length(s) == hi - lo
  {
    if s != [] { PartitionLength(s[..|s| - 1], lo, s[|s| - 1].start); }
  }

  ghost function MapSum(m: map<string, int>): int {
    if m == map[] then 0
    else var k :| k in m; m[k] + MapSum(m - {k})
  }

  lemma {:induction false} MapSumRemove(m: map<string, int>, k: string)
    requires k in m
    ensures MapSum(m) == m[k] + MapSum(m - {k})
    decreases |m|
  {
    var j :| j in m && MapSum(m) == m[j] + MapSum(m - {j});
    if j != k {
      assert (m - {j}).Keys == m.Keys - {j} && (m - {k}).Keys == m.Keys - {k};
      MapSumRemove(m - {j}, k);
      MapSumRemove(m - {k}, j);
      assert m - {j} - {k} == m - {k} - {j};
    }
  }

  lemma MapSumAdd(m: map<string, int>, k: string, x: int)
    ensures MapSum(m[k := (if k in m then m[k] else 0) + x]) == MapSum(m) + x
  {
    var n := m[k := (if k in m then m[k] else 0) + x];
    MapSumRemove(n, k);
    if k in m {
      MapSumRemove(m, k);
      assert n - {k} == m - {k};
    } else {
      assert n - {k} == m;
    }
  }

  /** Where a request's compatible misses run from and to: cached tokens, and the ideal end. */
  datatype Request = Request(cached: nat, end: nat, supplied: seq<Cause>)

  function Missed(q: Request): nat { if q.end > q.cached then q.end - q.cached else 0 }

  function AllMissed(qs: seq<Request>): nat {
    if qs == [] then 0 else AllMissed(qs[..|qs| - 1]) + Missed(qs[|qs| - 1])
  }

  function Total(totals: map<string, int>, cause: string): int { if cause in totals then totals[cause] else 0 }

  /** Each cause's total rises by the length of its own ranges, and so the sum by all of them. */
  method AddTotals(totals: map<string, int>, misses: seq<Cause>) returns (after: map<string, int>)
    ensures MapSum(after) == MapSum(totals) + Length(misses)
    ensures forall cause :: Total(after, cause) == Total(totals, cause) + LengthOf(misses, cause)
  {
    hide MapSum, LengthOf, Length;
    after := totals;
    NoLength();
    for i := 0 to |misses|
      invariant MapSum(after) == MapSum(totals) + Length(misses[..i])
      invariant forall cause :: Total(after, cause) == Total(totals, cause) + LengthOf(misses[..i], cause)
    {
      var c := misses[i];
      assert misses[..i + 1] == misses[..i] + [c];
      MapSumAdd(after, c.cause, c.end - c.start);
      LengthSnoc(misses[..i], c, c.cause);
      ghost var before := after;
      after := after[c.cause := (if c.cause in after then after[c.cause] else 0) + (c.end - c.start)];
      forall cause ensures Total(after, cause) == Total(totals, cause) + LengthOf(misses[..i + 1], cause) {
        assert Total(before, cause) == Total(totals, cause) + LengthOf(misses[..i], cause);
        LengthSnoc(misses[..i], c, cause);
      }
    }
    assert misses[..|misses|] == misses;
  }

  lemma NoLength()
    ensures Length([]) == 0 && forall cause :: LengthOf([], cause) == 0
  {
  }

  /** The tokens of a request that go to a cause: those supplied for it, and as "other" all the rest. */
  function Share(q: Request, cause: string): int {
    LengthOf(q.supplied, cause) + if cause == "other" then Missed(q) - Length(q.supplied) else 0
  }

  function Shares(qs: seq<Request>, cause: string): int {
    if qs == [] then 0 else Shares(qs[..|qs| - 1], cause) + Share(qs[|qs| - 1], cause)
  }

  lemma SharesSnoc(qs: seq<Request>, q: Request, cause: string)
    ensures Shares(qs + [q], cause) == Shares(qs, cause) + Share(q, cause)
    ensures AllMissed(qs + [q]) == AllMissed(qs) + Missed(q)
  {
    assert (qs + [q])[..|qs|] == qs;
  }

  ghost predicate Ranked(totals: map<string, int>, qs: seq<Request>) {
    MapSum(totals) == AllMissed(qs) && forall cause :: Total(totals, cause) == Shares(qs, cause)
  }

  lemma RankedMore(totals: map<string, int>, after: map<string, int>, qs: seq<Request>, q: Request, misses: seq<Cause>)
    requires Ranked(totals, qs) && Attributed(misses, q.supplied) && Length(misses) == Missed(q)
    requires MapSum(after) == MapSum(totals) + Length(misses)
    requires forall cause :: Total(after, cause) == Total(totals, cause) + LengthOf(misses, cause)
    ensures Ranked(after, qs + [q])
  {
    hide MapSum, LengthOf, Length, Total, Shares, AllMissed;
    SharesSnoc(qs, q, "other");
    forall cause ensures Total(after, cause) == Shares(qs + [q], cause) { SharesSnoc(qs, q, cause); }
  }

  /** The compatible-miss ranking of all usable requests: each cause's total is the tokens supplied for it,
      what no range covers goes to "other", and the totals add up to every token missed. */
  method RankMisses(requests: seq<Request>, text: string) returns (r: Result<map<string, int>>)
    ensures r.Success? <==> forall q :: q in requests ==> Consistent(Min(q.cached, q.end), q.end, q.supplied)
    ensures r.Success? ==> MapSum(r.value) == AllMissed(requests)
    ensures r.Success? ==> forall cause :: Total(r.value, cause) == Shares(requests, cause)
  {
    hide Consistent, Partition, Attributed, Holds, LengthOf, Length, Ranked;
    var totals: map<string, int> := map[];
    EmptySum();
    for i := 0 to |requests|
      invariant forall j :: 0 <= j < i ==>
                  Consistent(Min(requests[j].cached, requests[j].end), requests[j].end, requests[j].supplied)
      invariant Ranked(totals, requests[..i])
    {
      var q := requests[i];
      assert requests[..i + 1] == requests[..i] + [q];
      var misses := ResolveCauses(Min(q.cached, q.end), q.end, q.supplied, text);
      if misses.Failure? {
        assert q in requests;
        return Failure(misses.error);
      }
      PartitionLength(misses.value, Min(q.cached, q.end), q.end);
      var after := AddTotals(totals, misses.value);
      RankedMore(totals, after, requests[..i], q, misses.value);
      totals := after;
    }
    assert requests[..|requests|] == requests;
    RankedMeans(totals, requests);
    r := Success(totals);
  }

  lemma RankedMeans(totals: map<string, int>, qs: seq<Request>)
    requires Ranked(totals, qs)
    ensures MapSum(totals) == AllMissed(qs) && forall cause :: Total(totals, cause) == Shares(qs, cause)
  {
  }

  lemma EmptySum()
    ensures MapSum(map[]) == 0 && Ranked(map[], [])
  {
  }
}
