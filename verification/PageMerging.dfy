/** Merging the ranges of completed pages. */
module PageMerging {
  datatype Page = Page(min: int, max: int)

  predicate Valid(pages: seq<Page>) {
    forall p :: p in pages ==> p.min <= p.max
  }

  predicate Within(p: Page, x: int) {
    p.min <= x <= p.max
  }

  ghost predicate Covered(pages: seq<Page>, x: int) {
    exists p :: p in pages && Within(p, x)
  }

  ghost predicate SameCover(a: seq<Page>, b: seq<Page>) {
    forall x :: Covered(a, x) <==> Covered(b, x)
  }

  /** In order, and with a gap between each two. */
  predicate Separated(pages: seq<Page>) {
    forall i, j :: 0 <= i < j < |pages| ==> pages[i].max + 1 < pages[j].min
  }

  predicate SortedByMin(pages: seq<Page>) {
    forall i, j :: 0 <= i < j < |pages| ==> pages[i].min <= pages[j].min
  }

  /** What merging promises. */
  ghost predicate IsMerge(pages: seq<Page>, merged: seq<Page>) {
    Valid(merged) && Separated(merged) && SameCover(pages, merged)
  }

  // ---------- the method ----------

  method InsertByMin(sorted: seq<Page>, p: Page) returns (inserted: seq<Page>)
    requires SortedByMin(sorted)
    ensures SortedByMin(inserted) && multiset(inserted) == multiset(sorted) + multiset{p}
  {
    var k := 0;
    while k < |sorted| && sorted[k].min <= p.min
      invariant k <= |sorted| && forall i :: 0 <= i < k ==> sorted[i].min <= p.min
    {
      k := k + 1;
    }
    assert sorted == sorted[..k] + sorted[k..];
    inserted := sorted[..k] + [p] + sorted[k..];
  }

  method SortByMin(pages: seq<Page>) returns (sorted: seq<Page>)
    ensures SortedByMin(sorted) && multiset(sorted) == multiset(pages)
  {
    sorted := [];
    for n := 0 to |pages|
      invariant SortedByMin(sorted) && multiset(sorted) == multiset(pages[..n])
    {
      assert pages[..n + 1] == pages[..n] + [pages[n]];
      sorted := InsertByMin(sorted, pages[n]);
    }
    assert pages[..|pages|] == pages;
  }

  lemma SameElementsSameCover(a: seq<Page>, b: seq<Page>)
    requires multiset(a) == multiset(b)
    ensures SameCover(a, b) && (Valid(a) <==> Valid(b))
  {
    assert forall p :: p in a <==> p in multiset(a);
    assert forall p :: p in b <==> p in multiset(b);
  }

  /** What the loop has merged so far. */
  ghost predicate MergedSoFar(done: seq<Page>, merged: seq<Page>) {
    IsMerge(done, merged) && (done != [] ==> merged != [] && merged[|merged| - 1].min <= done[|done| - 1].min)
  }

  lemma CoveredByOneMore(pages: seq<Page>, p: Page, x: int)
    ensures Covered(pages + [p], x) <==> Covered(pages, x) || Within(p, x)
  {
    assert Covered(pages, x) ==> Covered(pages + [p], x);
    if Within(p, x) {
      assert p in pages + [p];
    }
  }

  lemma AppendingMerges(done: seq<Page>, merged: seq<Page>, p: Page)
    requires MergedSoFar(done, merged) && p.min <= p.max
    requires merged == [] || merged[|merged| - 1].max + 1 < p.min
    ensures MergedSoFar(done + [p], merged + [p])
  {
    forall x ensures Covered(done + [p], x) <==> Covered(merged + [p], x) {
      CoveredByOneMore(done, p, x);
      CoveredByOneMore(merged, p, x);
    }
    if merged != [] {
      forall i | 0 <= i < |merged| ensures merged[i].max + 1 < p.min {
        assert merged[|merged| - 1] in merged;
      }
    }
  }

  lemma ExtendingCovers(done: seq<Page>, front: seq<Page>, last: Page, grown: Page, p: Page)
    requires SameCover(done, front + [last])
    requires forall x :: Within(grown, x) <==> Within(last, x) || Within(p, x)
    ensures SameCover(done + [p], front + [grown])
  {
    forall x ensures Covered(done + [p], x) <==> Covered(front + [grown], x) {
      CoveredByOneMore(done, p, x);
      CoveredByOneMore(front, last, x);
      CoveredByOneMore(front, grown, x);
    }
  }

  lemma ExtendingSeparates(front: seq<Page>, last: Page, grown: Page)
    requires Separated(front + [last]) && Valid(front + [last]) && grown.min == last.min <= grown.max
    ensures Separated(front + [grown]) && Valid(front + [grown])
  {
    forall i | 0 <= i < |front| ensures front[i].max + 1 < grown.min && front[i].min <= front[i].max {
      assert (front + [last])[i] == front[i] && (front + [last])[|front|] == last;
      assert front[i] in front + [last];
    }
    forall i, j | 0 <= i < j < |front| ensures front[i].max + 1 < front[j].min {
      assert (front + [last])[i] == front[i] && (front + [last])[j] == front[j];
    }
  }

  /** `p` starts within the last page or right after it, and extends it, or lies within it. */
  lemma ExtendingMerges(done: seq<Page>, merged: seq<Page>, p: Page)
    requires MergedSoFar(done, merged) && p.min <= p.max && merged != []
    requires merged[|merged| - 1].min <= p.min <= merged[|merged| - 1].max + 1
    ensures var last := merged[|merged| - 1];
      MergedSoFar(done + [p], if last.max < p.max then merged[|merged| - 1 := Page(last.min, p.max)] else merged)
  {
    var front, last := merged[..|merged| - 1], merged[|merged| - 1];
    var grown := if last.max < p.max then Page(last.min, p.max) else last;
    assert last in merged && last.min <= last.max;
    assert merged == front + [last];
    assert merged[|merged| - 1 := grown] == front + [grown];
    hide SameCover, Separated, Valid;
    ExtendingCovers(done, front, last, grown, p);
    ExtendingSeparates(front, last, grown);
  }

  /** `[1,2], [3,4], [7,8]` becomes `[1,4], [7,8]`. */
  method MergeImmediateTaskPages(workTaskPages: seq<Page>) returns (pages: seq<Page>)
    requires Valid(workTaskPages)
    ensures IsMerge(workTaskPages, pages)
  {
    var sorted := SortByMin(workTaskPages);
    SameElementsSameCover(workTaskPages, sorted);
    pages := [];
    for n := 0 to |sorted|
      invariant MergedSoFar(sorted[..n], pages)
    {
      var page := sorted[n];
      assert sorted[..n + 1] == sorted[..n] + [page];
      assert page in sorted;
      hide MergedSoFar;
      if |pages| == 0 || pages[|pages| - 1].max + 1 < page.min {
        AppendingMerges(sorted[..n], pages, page);
        pages := pages + [page];
      } else {
        LastStartsEarlier(sorted, n, pages);
        ExtendingMerges(sorted[..n], pages, page);
        if pages[|pages| - 1].max < page.max {
          pages := pages[|pages| - 1 := Page(pages[|pages| - 1].min, page.max)];
        }
      }
    }
    assert sorted[..|sorted|] == sorted;
  }

  lemma NothingMerged(merged: seq<Page>)
    requires MergedSoFar([], merged)
    ensures merged == []
  {
    assert forall x :: !Covered([], x);
    if merged != [] {
      StartsCovered(merged);
    }
  }

  lemma LastStartsEarlier(sorted: seq<Page>, n: nat, pages: seq<Page>)
    requires n < |sorted| && SortedByMin(sorted) && MergedSoFar(sorted[..n], pages) && pages != []
    ensures pages[|pages| - 1].min <= sorted[n].min
  {
    if n == 0 {
      assert sorted[..0] == [];
      NothingMerged(pages);
    }
  }

  // ---------- what a merge is ----------

  lemma FirstIsLeast(pages: seq<Page>, x: int)
    requires Valid(pages) && Separated(pages) && Covered(pages, x)
    ensures pages != [] && pages[0].min <= x
    ensures x > pages[0].max ==> pages[0].max + 1 < x
  {
    var p :| p in pages && Within(p, x);
    var i :| 0 <= i < |pages| && pages[i] == p;
    assert pages[0] in pages;
  }

  lemma StartsCovered(pages: seq<Page>)
    requires Valid(pages) && pages != []
    ensures Covered(pages, pages[0].min) && Covered(pages, pages[0].max)
  {
    assert pages[0] in pages;
    assert Within(pages[0], pages[0].min) && Within(pages[0], pages[0].max);
  }

  /** One list's first page cannot end before the other's. */
  lemma FirstEndsNoEarlier(a: seq<Page>, b: seq<Page>)
    requires Valid(a) && Valid(b) && Separated(a) && Separated(b) && SameCover(a, b)
    requires a != [] && b != [] && a[0].min == b[0].min
    ensures b[0].max <= a[0].max
  {
    if a[0].max < b[0].max {
      assert b[0] in b && Within(b[0], a[0].max + 1);
      assert Covered(b, a[0].max + 1);
      FirstIsLeast(a, a[0].max + 1);
    }
  }

  lemma RestCovered(pages: seq<Page>, x: int)
    requires Valid(pages) && Separated(pages) && pages != []
    ensures Covered(pages[1..], x) <==> Covered(pages, x) && pages[0].max < x
  {
    assert pages == [pages[0]] + pages[1..];
    assert pages[0] in pages;
    if Covered(pages[1..], x) {
      var p :| p in pages[1..] && Within(p, x);
      var i :| 0 <= i < |pages[1..]| && pages[1..][i] == p;
      assert p == pages[i + 1] && p in pages;
    }
    if Covered(pages, x) && pages[0].max < x {
      var p :| p in pages && Within(p, x);
      assert p in pages[1..];
    }
  }

  lemma SameFirst(a: seq<Page>, b: seq<Page>)
    requires Valid(a) && Valid(b) && Separated(a) && Separated(b) && SameCover(a, b) && a != []
    ensures b != [] && a[0] == b[0]
  {
    StartsCovered(a);
    FirstIsLeast(b, a[0].min);
    StartsCovered(b);
    FirstIsLeast(a, b[0].min);
    FirstEndsNoEarlier(a, b);
    FirstEndsNoEarlier(b, a);
  }

  /** Separated ranges are determined by what they cover. */
  lemma {:induction false} CoverDetermines(a: seq<Page>, b: seq<Page>)
    requires Valid(a) && Valid(b) && Separated(a) && Separated(b) && SameCover(a, b)
    ensures a == b
    decreases |a|
  {
    if a == [] {
      if b != [] {
        SameFirst(b, a);
      }
    } else {
      SameFirst(a, b);
      forall x ensures Covered(a[1..], x) <==> Covered(b[1..], x) {
        RestCovered(a, x);
        RestCovered(b, x);
      }
      hide Covered;
      CoverDetermines(a[1..], b[1..]);
      assert a == [a[0]] + a[1..] && b == [b[0]] + b[1..];
    }
  }

  /** Merging gives the same result for any two lists of pages that cover the same, as permutations do. */
  lemma MergeIgnoresOrder(pages: seq<Page>, others: seq<Page>, merged: seq<Page>, mergedOthers: seq<Page>)
    requires IsMerge(pages, merged) && IsMerge(others, mergedOthers)
    ensures multiset(pages) == multiset(others) ==> merged == mergedOthers
    ensures SameCover(pages, others) <==> merged == mergedOthers
  {
    if multiset(pages) == multiset(others) {
      SameElementsSameCover(pages, others);
    }
    if SameCover(pages, others) {
      forall x ensures Covered(merged, x) <==> Covered(mergedOthers, x) {
        assert Covered(pages, x) <==> Covered(others, x);
      }
      CoverDetermines(merged, mergedOthers);
    } else {
      var x :| Covered(pages, x) != Covered(others, x);
      assert Covered(merged, x) != Covered(mergedOthers, x);
    }
  }

  /** Merging once more changes nothing. */
  lemma MergeIsIdempotent(pages: seq<Page>, merged: seq<Page>, again: seq<Page>)
    requires IsMerge(pages, merged) && IsMerge(merged, again)
    ensures again == merged
  {
    CoverDetermines(merged, again);
  }
}
