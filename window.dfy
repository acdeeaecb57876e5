/** The client-side date filter shared by both services: the inclusive
    window `[start, end]` (either bound may be absent) and the scan of one
    page, newest post first, that stops at the first post older than the
    window's start. Timestamps are milliseconds since the epoch. */
module DateWindow {
  import opened Wrappers

  const MillisPerDay: int := 86_400_000

  datatype Window = Window(start: Option<int>, end: Option<int>)

  /** The bounds the services build from the two date inputs: `startDate`
      at 00:00:00.000Z and `endDate` at 23:59:59.999Z, an empty input giving
      no bound. `dayStart(d)` stands for `new Date(d + 'T00:00:00.000Z')`. */
  function WindowOf(startDate: string, endDate: string, dayStart: string -> int): (w: Window)
    ensures w.start.Some? <==> startDate != ""
    ensures w.end.Some? <==> endDate != ""
    ensures w.start.Some? ==> w.start.value == dayStart(startDate)
    ensures w.end.Some? ==> w.end.value == dayStart(endDate) + MillisPerDay - 1
  {
    Window(if startDate != "" then Some(dayStart(startDate)) else None,
           if endDate != "" then Some(dayStart(endDate) + MillisPerDay - 1) else None)
  }

  predicate AfterStart(w: Window, t: int) { w.start.None? || w.start.value <= t }
  predicate BeforeEnd(w: Window, t: int) { w.end.None? || t <= w.end.value }

  /** `isAfterStart && isBeforeEnd`. */
  predicate InWindow(w: Window, t: int) { AfterStart(w, t) && BeforeEnd(w, t) }

  /** `startFilter && date < startFilter`: the early-stop test. */
  predicate TooOld(w: Window, t: int) { w.start.Some? && t < w.start.value }

  /** The scan of one page: the posts it keeps, and whether it met a post
      older than the start (which stops the pagination). */
  function Scan<T>(items: seq<T>, time: T -> int, w: Window): (seq<T>, bool)
  {
    if items == [] then ([], false)
    else if TooOld(w, time(items[0])) then ([], true)
    else
      var rest := Scan(items[1..], time, w);
      ((if InWindow(w, time(items[0])) then [items[0]] else []) + rest.0, rest.1)
  }

  /** The first position holding a post older than the start, or the length
      of the page when there is none. */
  function StopIndex<T>(items: seq<T>, time: T -> int, w: Window): (k: nat)
    ensures k <= |items|
    ensures forall j :: 0 <= j < k ==> !TooOld(w, time(items[j]))
    ensures k < |items| ==> TooOld(w, time(items[k]))
  {
    if items == [] || TooOld(w, time(items[0])) then 0
    else 1 + StopIndex(items[1..], time, w)
  }

  /** The elements of `items` inside the window, in order. */
  function FilterInWindow<T>(items: seq<T>, time: T -> int, w: Window): seq<T>
  {
    if items == [] then []
    else (if InWindow(w, time(items[0])) then [items[0]] else []) + FilterInWindow(items[1..], time, w)
  }

  /** Keeps the elements whose `mask` entry is true. */
  function Select<T>(items: seq<T>, mask: seq<bool>): seq<T>
    requires |mask| == |items|
  {
    if items == [] then [] else (if mask[0] then [items[0]] else []) + Select(items[1..], mask[1..])
  }

  /** `a` is `b` with some elements left out, in the same order. */
  ghost predicate IsSubsequence<T>(a: seq<T>, b: seq<T>) {
    exists mask: seq<bool> :: |mask| == |b| && Select(b, mask) == a
  }

  lemma {:induction false} SelectConcat<T>(a: seq<T>, ma: seq<bool>, b: seq<T>, mb: seq<bool>)
    requires |ma| == |a| && |mb| == |b|
    ensures Select(a + b, ma + mb) == Select(a, ma) + Select(b, mb)
  {
    if a != [] {
      assert (a + b)[1..] == a[1..] + b;
      assert (ma + mb)[1..] == ma[1..] + mb;
      SelectConcat(a[1..], ma[1..], b, mb);
    } else {
      assert a + b == b && ma + mb == mb;
    }
  }

  /** Subsequences concatenate. */
  lemma SubsequenceConcat<T>(a1: seq<T>, b1: seq<T>, a2: seq<T>, b2: seq<T>)
    requires IsSubsequence(a1, b1) && IsSubsequence(a2, b2)
    ensures IsSubsequence(a1 + a2, b1 + b2)
  {
    var m1: seq<bool> :| |m1| == |b1| && Select(b1, m1) == a1;
    var m2: seq<bool> :| |m2| == |b2| && Select(b2, m2) == a2;
    SelectConcat(b1, m1, b2, m2);
  }

  lemma EmptySubsequence<T>(b: seq<T>)
    ensures IsSubsequence([], b)
  {
    var m := seq(|b|, _ => false);
    SelectNone(b, m);
  }

  lemma {:induction false} SelectNone<T>(b: seq<T>, m: seq<bool>)
    requires |m| == |b| && forall i :: 0 <= i < |m| ==> !m[i]
    ensures Select(b, m) == []
  {
    if b != [] { SelectNone(b[1..], m[1..]); }
  }

  /** What the scan keeps is exactly the in-window posts before the stop
      position: every kept post is in the window, and no in-window post
      before the first too-old one is dropped. The posts after the stop
      position are never examined. */
  lemma {:induction false} ScanKeepsFilteredPrefix<T>(items: seq<T>, time: T -> int, w: Window)
    ensures Scan(items, time, w).0 == FilterInWindow(items[..StopIndex(items, time, w)], time, w)
    ensures Scan(items, time, w).1 <==> StopIndex(items, time, w) < |items|
  {
    if items != [] && !TooOld(w, time(items[0])) {
      ScanKeepsFilteredPrefix(items[1..], time, w);
      var k := StopIndex(items, time, w);
      assert items[..k][1..] == items[1..][..k - 1];
    }
  }

  /** The scan stops exactly when the page holds a post older than the
      start. */
  lemma ScanStopsIffTooOld<T>(items: seq<T>, time: T -> int, w: Window)
    ensures Scan(items, time, w).1 <==> exists j :: 0 <= j < |items| && TooOld(w, time(items[j]))
  {
    ScanKeepsFilteredPrefix(items, time, w);
    var k := StopIndex(items, time, w);
    if k < |items| { assert TooOld(w, time(items[k])); }
  }

  /** Early stop within a page: once a too-old post is met, the posts after
      it have no influence on the scan. */
  lemma {:induction false} ScanIgnoresAfterTooOld<T>(a: seq<T>, x: T, b: seq<T>, time: T -> int, w: Window)
    requires TooOld(w, time(x))
    ensures Scan(a + [x] + b, time, w) == Scan(a + [x], time, w)
  {
    if a == [] {
      assert (a + [x] + b)[0] == x;
      assert (a + [x])[0] == x;
    } else {
      assert (a + [x] + b)[1..] == a[1..] + [x] + b;
      assert (a + [x])[1..] == a[1..] + [x];
      ScanIgnoresAfterTooOld(a[1..], x, b, time, w);
    }
  }

  lemma {:induction false} FilterInWindowSound<T>(items: seq<T>, time: T -> int, w: Window)
    ensures forall x :: x in FilterInWindow(items, time, w) ==> InWindow(w, time(x))
    ensures IsSubsequence(FilterInWindow(items, time, w), items)
  {
    if items == [] {
      EmptySubsequence(items);
    } else {
      FilterInWindowSound(items[1..], time, w);
      var head := if InWindow(w, time(items[0])) then [items[0]] else [];
      assert IsSubsequence(head, [items[0]]) by {
        assert Select([items[0]], [InWindow(w, time(items[0]))]) == head;
      }
      SubsequenceConcat(head, [items[0]], FilterInWindow(items[1..], time, w), items[1..]);
      assert [items[0]] + items[1..] == items;
    }
  }

  /** Every post the scan keeps lies in the window, and the kept posts are a
      subsequence of the page, in upstream order. */
  lemma ScanKeptInWindow<T>(items: seq<T>, time: T -> int, w: Window)
    ensures forall x :: x in Scan(items, time, w).0 ==> InWindow(w, time(x))
    ensures IsSubsequence(Scan(items, time, w).0, items)
  {
    ScanKeepsFilteredPrefix(items, time, w);
    var k := StopIndex(items, time, w);
    FilterInWindowSound(items[..k], time, w);
    EmptySubsequence(items[k..]);
    SubsequenceConcat(Scan(items, time, w).0, items[..k], [], items[k..]);
    assert items[..k] + items[k..] == items;
  }

  /** The posts kept from a list of pages, page by page. */
  function KeptAll<T>(pages: seq<seq<T>>, time: T -> int, w: Window): seq<T> {
    if pages == [] then [] else KeptAll(pages[..|pages| - 1], time, w) + Scan(pages[|pages| - 1], time, w).0
  }

  /** The pages one after the other. */
  function Flatten<T>(pages: seq<seq<T>>): seq<T> {
    if pages == [] then [] else Flatten(pages[..|pages| - 1]) + pages[|pages| - 1]
  }

  lemma KeptAllSnoc<T>(pages: seq<seq<T>>, page: seq<T>, time: T -> int, w: Window)
    ensures KeptAll(pages + [page], time, w) == KeptAll(pages, time, w) + Scan(page, time, w).0
    ensures Flatten(pages + [page]) == Flatten(pages) + page
  {
    assert (pages + [page])[..|pages|] == pages;
  }

  /** Every post kept from a list of pages lies in the window, and the kept
      posts are a subsequence of the pages, in upstream order. */
  lemma {:induction false} KeptAllInWindow<T>(pages: seq<seq<T>>, time: T -> int, w: Window)
    ensures forall x :: x in KeptAll(pages, time, w) ==> InWindow(w, time(x))
    ensures IsSubsequence(KeptAll(pages, time, w), Flatten(pages))
  {
    if pages == [] {
      EmptySubsequence<T>([]);
    } else {
      var init := pages[..|pages| - 1];
      var last := pages[|pages| - 1];
      KeptAllInWindow(init, time, w);
      ScanKeptInWindow(last, time, w);
      SubsequenceConcat(KeptAll(init, time, w), Flatten(init), Scan(last, time, w).0, last);
    }
  }

  /** The loop over one page of posts (`for (const status of page)`), with its
      `shouldStopFetching` flag and its `break`. */
  method ScanPage<T>(items: seq<T>, time: T -> int, w: Window) returns (kept: seq<T>, stop: bool)
    ensures (kept, stop) == Scan(items, time, w)
  {
    kept, stop := [], false;
    var i := 0;
    assert items[0..] == items;
    while i < |items|
      invariant 0 <= i <= |items|
      invariant !stop
      invariant kept + Scan(items[i..], time, w).0 == Scan(items, time, w).0
      invariant Scan(items[i..], time, w).1 == Scan(items, time, w).1
    {
      assert items[i..][0] == items[i];
      if TooOld(w, time(items[i])) {
        stop := true;
        break;
      }
      assert items[i..][1..] == items[i + 1..];
      if InWindow(w, time(items[i])) {
        kept := kept + [items[i]];
      }
      i := i + 1;
    }
    if !stop {
      assert items[i..] == [];
    }
    assert kept == Scan(items, time, w).0;
  }
}
