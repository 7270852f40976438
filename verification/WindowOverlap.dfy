/** Observed overlap of request windows: merging windows keeps exactly their points, and the
    overlap of a window is the number of its points that other windows cover. */
module WindowOverlap {
  import opened Numbers
  import opened Sorting
  import opened Wrappers

  /** Half-open: from `start` up to, not including, `end`. */
  datatype Window = Window(start: int, end: int)

  predicate In(p: int, w: Window) { w.start <= p < w.end }

  ghost predicate Covered(p: int, windows: seq<Window>) { exists w :: w in windows && In(p, w) }

  /******* Sorting *******/

  predicate LessEq(a: Window, b: Window) { a.start < b.start || (a.start == b.start && a.end <= b.end) }

  lemma LessEqTotal()
    ensures TotalOrder(LessEq)
  {
  }

  lemma PermutedCovers(a: seq<Window>, b: seq<Window>, p: int)
    requires Permuted(a, b)
    ensures Covered(p, a) <==> Covered(p, b)
  {
    PermutedMembers(a, b);
  }

  /******* Merging *******/

  /** Nonempty windows in order, each ending before the next one starts. */
  ghost predicate Separated(s: seq<Window>) {
    && (forall i :: 0 <= i < |s| ==> s[i].start < s[i].end)
    && (forall i, j :: 0 <= i < j < |s| ==> s[i].end < s[j].start)
  }

  /** Extending the last window by one that starts inside it or at its end. */
  lemma ExtendLast(s: seq<Window>, w: Window, done: seq<Window>)
    requires Separated(s) && s != [] && s[|s| - 1].start <= w.start <= s[|s| - 1].end && w.start < w.end
    requires forall p :: Covered(p, s) <==> Covered(p, done)
    ensures var last := s[|s| - 1];
            var t := s[..|s| - 1] + [Window(last.start, Max(w.end, last.end))];
            Separated(t) && forall p :: Covered(p, t) <==> Covered(p, done + [w])
  {
    var last, init := s[|s| - 1], s[..|s| - 1];
    var grown := Window(last.start, Max(w.end, last.end));
    assert s == init + [last];
    forall p ensures Covered(p, init + [grown]) <==> Covered(p, done + [w]) {
      CoveredSnoc(p, init, last);
      CoveredSnoc(p, init, grown);
      CoveredSnoc(p, done, w);
    }
  }

  lemma CoveredSnoc(p: int, s: seq<Window>, w: Window)
    ensures Covered(p, s + [w]) <==> Covered(p, s) || In(p, w)
  {
    assert w in s + [w];
    if Covered(p, s) {
      var x :| x in s && In(p, x);
      assert x in s + [w];
    }
  }

  lemma AppendLater(s: seq<Window>, w: Window, done: seq<Window>)
    requires Separated(s) && w.start < w.end && (s != [] ==> s[|s| - 1].end < w.start)
    requires forall p :: Covered(p, s) <==> Covered(p, done)
    ensures Separated(s + [w]) && forall p :: Covered(p, s + [w]) <==> Covered(p, done + [w])
  {
    forall p ensures Covered(p, s + [w]) <==> Covered(p, done + [w]) {
      CoveredSnoc(p, s, w);
      CoveredSnoc(p, done, w);
    }
  }

  lemma SkipEmpty(s: seq<Window>, w: Window, done: seq<Window>)
    requires w.end <= w.start && forall p :: Covered(p, s) <==> Covered(p, done)
    ensures forall p :: Covered(p, s) <==> Covered(p, done + [w])
  {
    forall p ensures Covered(p, s) <==> Covered(p, done + [w]) { CoveredSnoc(p, done, w); }
  }

  /** Merge windows in order of their start; the result covers exactly the same points. */
  method Union(windows: seq<Window>) returns (merged: seq<Window>)
    ensures Separated(merged)
    ensures forall p :: Covered(p, merged) <==> Covered(p, windows)
  {
    hide Covered, Separated, SortBy, LessEq, SortedBy, Permuted;
    merged := [];
    var sorted := SortBy(windows, LessEq);
    LessEqTotal();
    SortBySorts(windows, LessEq);
    MergeStart(sorted);
    for i := 0 to |sorted|
      invariant Separated(merged) && forall p :: Covered(p, merged) <==> Covered(p, sorted[..i])
      invariant merged != [] && i < |sorted| ==> merged[|merged| - 1].start <= sorted[i].start
    {
      var w := sorted[i];
      assert sorted[..i + 1] == sorted[..i] + [w];
      NextLater(sorted, i);
      if w.end <= w.start {
        SkipEmpty(merged, w, sorted[..i]);
      } else if merged != [] && w.start <= merged[|merged| - 1].end {
        var last := merged[|merged| - 1];
        ExtendLast(merged, w, sorted[..i]);
        merged := merged[..|merged| - 1] + [Window(last.start, Max(w.end, last.end))];
      } else {
        AppendLater(merged, w, sorted[..i]);
        merged := merged + [w];
      }
    }
    assert sorted[..|sorted|] == sorted;
    forall p ensures Covered(p, sorted) <==> Covered(p, windows) { PermutedCovers(sorted, windows, p); }
  }

  lemma NextLater(s: seq<Window>, i: nat)
    requires SortedBy(s, LessEq) && i < |s|
    ensures i + 1 < |s| ==> s[i].start <= s[i + 1].start
  {
    assert i + 1 < |s| ==> LessEq(s[i], s[i + 1]);
  }

  lemma MergeStart(s: seq<Window>)
    ensures Separated([]) && forall p :: Covered(p, []) <==> Covered(p, s[..0])
  {
  }

  /******* Overlap *******/

  function Shared(w: Window, other: Window): nat { Max(0, Min(w.end, other.end) - Max(w.start, other.start)) }

  function SharedSum(w: Window, others: seq<Window>): nat {
    if others == [] then 0 else SharedSum(w, others[..|others| - 1]) + Shared(w, others[|others| - 1])
  }

  ghost function Points(lo: int, hi: int): set<int> { set p | lo <= p < hi && In(p, Window(lo, hi)) }

  lemma {:induction false} PointCount(lo: int, hi: int)
    ensures |Points(lo, hi)| == Max(0, hi - lo)
    decreases hi - lo
  {
    if lo >= hi {
      assert Points(lo, hi) == {};
    } else {
      PointCount(lo, hi - 1);
      assert Points(lo, hi) == Points(lo, hi - 1) + {hi - 1};
    }
  }

  /** The points of `w` that some window covers. */
  ghost function CoveredPoints(w: Window, others: seq<Window>): set<int> {
    set p | w.start <= p < w.end && Covered(p, others)
  }

  /** One more window adds its own points, which no earlier one covers. */
  lemma CoveredStep(w: Window, init: seq<Window>, last: Window)
    requires Separated(init + [last])
    ensures |CoveredPoints(w, init + [last])| == |CoveredPoints(w, init)| + Shared(w, last)
  {
    hide Covered;
    var lo, hi := Max(w.start, last.start), Min(w.end, last.end);
    PointCount(lo, hi);
    forall p
      ensures p in CoveredPoints(w, init + [last]) <==> p in CoveredPoints(w, init) || p in Points(lo, hi)
      ensures p in Points(lo, hi) ==> p !in CoveredPoints(w, init)
    {
      CoveredSnoc(p, init, last);
      EarlierEnds(init, last, p);
    }
    assert CoveredPoints(w, init + [last]) == CoveredPoints(w, init) + Points(lo, hi);
  }

  lemma EarlierEnds(init: seq<Window>, last: Window, p: int)
    requires Separated(init + [last])
    ensures Covered(p, init) ==> p < last.start
  {
    if Covered(p, init) {
      var x :| x in init && In(p, x);
      var i :| 0 <= i < |init| && init[i] == x;
      assert (init + [last])[i] == x && (init + [last])[|init|] == last;
    }
  }

  lemma {:induction false} SharedCounts(w: Window, s: seq<Window>)
    requires Separated(s)
    ensures SharedSum(w, s) == |CoveredPoints(w, s)|
  {
    hide Covered;
    if s == [] {
      CoveredNone(w);
    } else {
      assert s == s[..|s| - 1] + [s[|s| - 1]];
      SharedCounts(w, s[..|s| - 1]);
      CoveredStep(w, s[..|s| - 1], s[|s| - 1]);
    }
  }

  lemma CoveredNone(w: Window)
    ensures CoveredPoints(w, []) == {}
  {
  }

  /** The overlap of a window with others: an absent window has none to report. */
  method Overlap(window: Option<Window>, others: seq<Window>) returns (r: Option<nat>)
    ensures r.Some? <==> window.Some?
    ensures r.Some? ==> r.value == |CoveredPoints(window.value, others)|
  {
    if window.None? { return None; }
    var w := window.value;
    var merged := Union(others);
    var total := 0;
    for i := 0 to |merged|
      invariant total == SharedSum(w, merged[..i])
    {
      assert merged[..i + 1][..i] == merged[..i];
      total := total + Shared(w, merged[i]);
    }
    assert merged[..|merged|] == merged;
    SharedCounts(w, merged);
    assert CoveredPoints(w, merged) == CoveredPoints(w, others);
    r := Some(total);
  }

  /** Only the points that the others cover matter. */
  lemma OverlapByPoints(w: Window, a: seq<Window>, b: seq<Window>)
    requires forall p :: In(p, w) ==> (Covered(p, a) <==> Covered(p, b))
    ensures |CoveredPoints(w, a)| == |CoveredPoints(w, b)|
  {
    forall p ensures p in CoveredPoints(w, a) <==> p in CoveredPoints(w, b) { assert In(p, w) <==> w.start <= p < w.end; }
    assert CoveredPoints(w, a) == CoveredPoints(w, b);
  }

  /** The order of the others does not matter, */
  lemma OverlapReordered(w: Window, a: seq<Window>, b: seq<Window>)
    requires Permuted(a, b)
    ensures |CoveredPoints(w, a)| == |CoveredPoints(w, b)|
  {
    hide Covered, CoveredPoints;
    forall p ensures Covered(p, a) <==> Covered(p, b) { PermutedCovers(a, b, p); }
    OverlapByPoints(w, a, b);
  }

  /** nor does repeating one of them, */
  lemma OverlapRepeated(w: Window, others: seq<Window>, x: Window)
    requires x in others
    ensures |CoveredPoints(w, others + [x])| == |CoveredPoints(w, others)|
  {
    hide CoveredPoints;
    forall p ensures Covered(p, others + [x]) <==> Covered(p, others) { CoveredSnoc(p, others, x); }
    OverlapByPoints(w, others + [x], others);
  }

  lemma SplitCovers(s: seq<Window>, t: seq<Window>, lo: int, mid: int, hi: int, p: int)
    requires lo <= mid <= hi
    ensures Covered(p, s + [Window(lo, hi)] + t) <==> Covered(p, s + [Window(lo, mid), Window(mid, hi)] + t)
  {
    var a, b := s + [Window(lo, hi)] + t, s + [Window(lo, mid), Window(mid, hi)] + t;
    assert Window(lo, hi) in a && Window(lo, mid) in b && Window(mid, hi) in b;
    if Covered(p, a) {
      var w :| w in a && In(p, w);
      assert w == Window(lo, hi) || w in b;
      assert In(p, Window(lo, hi)) ==> In(p, Window(lo, mid)) || In(p, Window(mid, hi));
    }
    if Covered(p, b) {
      var w :| w in b && In(p, w);
      assert w == Window(lo, mid) || w == Window(mid, hi) || w in a;
    }
  }

  /** nor does cutting one of them in two. */
  lemma OverlapSplit(w: Window, s: seq<Window>, t: seq<Window>, lo: int, mid: int, hi: int)
    requires lo <= mid <= hi
    ensures |CoveredPoints(w, s + [Window(lo, hi)] + t)| == |CoveredPoints(w, s + [Window(lo, mid), Window(mid, hi)] + t)|
  {
    hide Covered, CoveredPoints;
    var a, b := s + [Window(lo, hi)] + t, s + [Window(lo, mid), Window(mid, hi)] + t;
    forall p ensures Covered(p, a) <==> Covered(p, b) { SplitCovers(s, t, lo, mid, hi, p); }
    OverlapByPoints(w, a, b);
  }

  /******* The reported fraction *******/

  lemma OverlapBounded(w: Window, others: seq<Window>)
    requires w.start <= w.end
    ensures |CoveredPoints(w, others)| <= w.end - w.start
  {
    PointCount(w.start, w.end);
    SubsetCount(CoveredPoints(w, others), Points(w.start, w.end));
  }

  lemma SubsetCount(a: set<int>, b: set<int>)
    requires a <= b
    ensures |a| <= |b|
  {
    assert b == a + (b - a);
  }

  function Known(windows: seq<Option<Window>>): (r: seq<Window>)
    ensures |r| <= |windows| && forall w :: w in r <==> Some(w) in windows
  {
    if windows == [] then []
    else
      var init, last := Known(windows[..|windows| - 1]), windows[|windows| - 1];
      if last.Some? then init + [last.value] else init
  }

  function Duration(windows: seq<Window>): int {
    if windows == [] then 0
    else Duration(windows[..|windows| - 1]) + (windows[|windows| - 1].end - windows[|windows| - 1].start)
  }

  ghost function Observed(windows: seq<Window>, others: seq<Window>): nat {
    if windows == [] then 0
    else Observed(windows[..|windows| - 1], others) + |CoveredPoints(windows[|windows| - 1], others)|
  }

  lemma {:induction false} ObservedBounded(windows: seq<Window>, others: seq<Window>)
    requires forall w :: w in windows ==> w.start <= w.end
    ensures Observed(windows, others) <= Duration(windows)
  {
    if windows != [] {
      ObservedBounded(windows[..|windows| - 1], others);
      OverlapBounded(windows[|windows| - 1], others);
    }
  }

  /** The summary over the windows that are known: the covered share of their total duration,
      absent when that is zero, and otherwise between 0 and 1. */
  method OverlapFraction(windows: seq<Option<Window>>, background: seq<Option<Window>>)
    returns (fraction: Option<real>, count: nat)
    requires forall w :: w in windows && w.Some? ==> w.value.start <= w.value.end
    ensures count == |Known(windows)|
    ensures fraction.None? <==> Duration(Known(windows)) == 0
    ensures fraction.Some? ==>
              && fraction.value == Observed(Known(windows), Known(background)) as real / Duration(Known(windows)) as real
              && 0.0 <= fraction.value <= 1.0
  {
    hide Known, Duration, Observed, CoveredPoints;
    var others := Known(background);
    var duration, observed := 0, 0;
    count := 0;
    NothingKnown(others);
    assert windows[..0] == [];
    for i := 0 to |windows|
      invariant count == |Known(windows[..i])| && duration == Duration(Known(windows[..i]))
      invariant observed == Observed(Known(windows[..i]), others)
    {
      assert windows[..i + 1] == windows[..i] + [windows[i]];
      KnownSnoc(windows[..i], windows[i], others);
      var value := Overlap(windows[i], others);
      if windows[i].Some? {
        var w := windows[i].value;
        duration, observed, count := duration + (w.end - w.start), observed + value.value, count + 1;
      }
    }
    assert windows[..|windows|] == windows;
    if duration == 0 { return None, count; }
    ObservedBounded(Known(windows), others);
    FractionBounds(observed, duration);
    fraction := Some(observed as real / duration as real);
  }

  lemma NothingKnown(others: seq<Window>)
    ensures Known([]) == [] && Duration([]) == 0 && Observed([], others) == 0
  {
  }

  lemma KnownSnoc(windows: seq<Option<Window>>, w: Option<Window>, others: seq<Window>)
    ensures Known(windows + [w]) == if w.Some? then Known(windows) + [w.value] else Known(windows)
    ensures w.Some? ==> Duration(Known(windows + [w])) == Duration(Known(windows)) + (w.value.end - w.value.start)
    ensures w.Some? ==>
              Observed(Known(windows + [w]), others) == Observed(Known(windows), others) + |CoveredPoints(w.value, others)|
  {
    hide CoveredPoints;
    assert (windows + [w])[..|windows|] == windows;
    if w.Some? { assert (Known(windows) + [w.value])[..|Known(windows)|] == Known(windows); }
  }

  lemma FractionBounds(x: int, y: int)
    requires 0 <= x <= y && y > 0
    ensures 0.0 <= x as real / y as real <= 1.0
  {
  }
}
