/** Stable sorting by a total order, as a function on sequences. */
module Sorting {

  ghost predicate TotalOrder<T(!new)>(le: (T, T) -> bool) {
    && (forall a, b :: le(a, b) || le(b, a))
    && (forall a, b, c :: le(a, b) && le(b, c) ==> le(a, c))
  }

  function Insert<T>(x: T, s: seq<T>, le: (T, T) -> bool): seq<T> {
    if s == [] || le(x, s[0]) then [x] + s else [s[0]] + Insert(x, s[1..], le)
  }

  /** Entries that compare equal keep their order. */
  function SortBy<T>(s: seq<T>, le: (T, T) -> bool): seq<T> {
    if s == [] then [] else Insert(s[0], SortBy(s[1..], le), le)
  }

  ghost predicate SortedBy<T(!new)>(s: seq<T>, le: (T, T) -> bool) {
    forall i, j :: 0 <= i < j < |s| ==> le(s[i], s[j])
  }

  ghost predicate Permuted<T>(s: seq<T>, t: seq<T>) { multiset(s) == multiset(t) }

  lemma {:induction false} InsertMembers<T>(x: T, s: seq<T>, le: (T, T) -> bool)
    ensures forall y :: y in Insert(x, s, le) <==> y == x || y in s
  {
    if s != [] && !le(x, s[0]) { InsertMembers(x, s[1..], le); }
  }

  lemma {:induction false} InsertSorts<T(!new)>(x: T, s: seq<T>, le: (T, T) -> bool)
    requires TotalOrder(le) && SortedBy(s, le)
    ensures SortedBy(Insert(x, s, le), le)
  {
    if s == [] {
    } else if le(x, s[0]) {
      forall j | 0 <= j < |s| ensures le(x, s[j]) { assert j > 0 ==> le(s[0], s[j]); }
    } else {
      var rest := Insert(x, s[1..], le);
      InsertSorts(x, s[1..], le);
      InsertMembers(x, s[1..], le);
      assert forall y :: y in s[1..] ==> le(s[0], y);
      forall j | 0 <= j < |rest| ensures le(s[0], rest[j]) { assert rest[j] in rest; }
    }
  }

  lemma {:induction false} InsertKeeps<T>(x: T, s: seq<T>, le: (T, T) -> bool)
    ensures multiset(Insert(x, s, le)) == multiset(s) + multiset{x}
  {
    if s != [] && !le(x, s[0]) {
      InsertKeeps(x, s[1..], le);
      assert s == [s[0]] + s[1..];
    }
  }

  lemma {:induction false} SortBySorts<T(!new)>(s: seq<T>, le: (T, T) -> bool)
    requires TotalOrder(le)
    ensures SortedBy(SortBy(s, le), le) && Permuted(SortBy(s, le), s)
  {
    if s != [] {
      var rest := SortBy(s[1..], le);
      SortBySorts(s[1..], le);
      InsertSorts(s[0], rest, le);
      InsertKeeps(s[0], rest, le);
      assert s == [s[0]] + s[1..];
    }
  }

  lemma PermutedMembers<T>(s: seq<T>, t: seq<T>)
    requires Permuted(s, t)
    ensures forall x :: x in s <==> x in t
  {
    forall x ensures x in s <==> x in t {
      assert x in s <==> x in multiset(s);
      assert x in t <==> x in multiset(t);
    }
  }
}
