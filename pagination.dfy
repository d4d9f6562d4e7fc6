/** The pagination bar: the window of page numbers around the current page,
    the standalone first and last page buttons with their ellipses, and the
    Prev and Next buttons. */
module Pagination {
  import opened Optional

  function Max(a: int, b: int): int { if a >= b then a else b }
  function Min(a: int, b: int): int { if a <= b then a else b }

  /** The bar is rendered only when there is more than one page. */
  predicate IsRendered(totalPages: int) { totalPages > 1 }

  function WindowStart(currentPage: int): int { Max(1, currentPage - 2) }
  function WindowEnd(currentPage: int, totalPages: int): int { Min(totalPages, currentPage + 2) }

  /** The consecutive integers from `lo` to `hi`, empty when `lo > hi`. */
  function Range(lo: int, hi: int): (r: seq<int>)
    ensures |r| == if lo <= hi then hi - lo + 1 else 0
    ensures forall k :: 0 <= k < |r| ==> r[k] == lo + k
  {
    seq(if lo <= hi then hi - lo + 1 else 0, k => lo + k)
  }

  /** The page numbers between the optional first and last buttons. */
  function PageWindow(currentPage: int, totalPages: int): seq<int> {
    Range(WindowStart(currentPage), WindowEnd(currentPage, totalPages))
  }

  /** `getPageNumbers`: pushes the pages from the window's start to its end. */
  method GetPageNumbers(currentPage: int, totalPages: int) returns (pages: seq<int>)
    ensures pages == PageWindow(currentPage, totalPages)
  {
    var start := Max(1, currentPage - 2);
    var end := Min(totalPages, currentPage + 2);
    pages := [];
    var i := start;
    while i <= end
      invariant start <= i <= Max(start, end + 1)
      invariant |pages| == i - start
      invariant forall k :: 0 <= k < |pages| ==> pages[k] == start + k
    {
      pages := pages + [i];
      i := i + 1;
    }
  }

  predicate ShowFirstButton(currentPage: int) { currentPage - 2 > 1 }
  predicate ShowLeadingEllipsis(currentPage: int) { currentPage - 2 > 2 }
  predicate ShowLastButton(currentPage: int, totalPages: int) { currentPage + 2 < totalPages }
  predicate ShowTrailingEllipsis(currentPage: int, totalPages: int) { currentPage + 2 < totalPages - 1 }

  /** The window: at most five strictly ascending pages, all real pages, and
      the current page among them whenever it is a real page. */
  lemma WindowShape(currentPage: int, totalPages: int)
    ensures |PageWindow(currentPage, totalPages)| <= 5
    ensures forall p :: p in PageWindow(currentPage, totalPages) ==> 1 <= p <= totalPages
    ensures forall i, j :: 0 <= i < j < |PageWindow(currentPage, totalPages)| ==>
              PageWindow(currentPage, totalPages)[i] < PageWindow(currentPage, totalPages)[j]
    ensures 1 <= currentPage <= totalPages ==> currentPage in PageWindow(currentPage, totalPages)
  {
    var w := PageWindow(currentPage, totalPages);
    if 1 <= currentPage <= totalPages {
      assert w[currentPage - WindowStart(currentPage)] == currentPage;
    }
  }

  /** The standalone "1" button shows exactly when page 1 is not in the
      window, so page 1 is shown once; its ellipsis shows exactly when pages
      lie between 1 and the window. */
  lemma FirstButtonComplementsWindow(currentPage: int, totalPages: int)
    requires 1 <= currentPage && 1 <= totalPages
    ensures ShowFirstButton(currentPage) <==> 1 !in PageWindow(currentPage, totalPages)
    ensures ShowLeadingEllipsis(currentPage) <==>
              ShowFirstButton(currentPage) && WindowStart(currentPage) > 2
  {
    var w := PageWindow(currentPage, totalPages);
    if !ShowFirstButton(currentPage) {
      assert w[0] == 1;
    }
  }

  /** Up to two pages past the last one, the standalone last-page button
      shows exactly when the last page is not in the window; its ellipsis
      shows exactly when pages lie between the window and the last page. */
  lemma LastButtonComplementsWindow(currentPage: int, totalPages: int)
    requires 1 <= currentPage <= totalPages + 2 && 1 <= totalPages
    ensures ShowLastButton(currentPage, totalPages) <==> totalPages !in PageWindow(currentPage, totalPages)
    ensures ShowTrailingEllipsis(currentPage, totalPages) <==>
              ShowLastButton(currentPage, totalPages) && WindowEnd(currentPage, totalPages) < totalPages - 1
  {
    var w := PageWindow(currentPage, totalPages);
    if !ShowLastButton(currentPage, totalPages) {
      assert w[|w| - 1] == totalPages;
    }
  }

  /** A Prev or Next button: whether it is disabled and the page it asks for. */
  datatype StepButton = StepButton(disabled: bool, target: int)

  /** One entry between Prev and Next. */
  datatype Item = PageButton(page: int, isCurrent: bool) | Ellipsis

  datatype Bar = Bar(prev: StepButton, items: seq<Item>, next: StepButton)

  function WindowButtons(currentPage: int, pages: seq<int>): (r: seq<Item>)
    ensures |r| == |pages|
    ensures forall k :: 0 <= k < |r| ==> r[k] == PageButton(pages[k], currentPage == pages[k])
  {
    seq(|pages|, k requires 0 <= k < |pages| => PageButton(pages[k], currentPage == pages[k]))
  }

  /** What the component renders: nothing for at most one page; otherwise
      Prev, the optional "1" and ellipsis, the window, the optional ellipsis
      and last page, and Next. */
  function Render(currentPage: int, totalPages: int): Option<Bar> {
    if !IsRendered(totalPages) then None
    else
      Some(Bar(StepButton(currentPage == 1, currentPage - 1),
               HeadItems(currentPage)
                 + WindowButtons(currentPage, PageWindow(currentPage, totalPages))
                 + TailItems(currentPage, totalPages),
               StepButton(currentPage == totalPages, currentPage + 1)))
  }

  /** The bar is drawn exactly when there are at least two pages. */
  lemma RenderedIffSeveralPages(currentPage: int, totalPages: int)
    ensures Render(currentPage, totalPages).Some? <==> totalPages >= 2
  {
  }

  /** The optional "1" button and the ellipsis after it. */
  function HeadItems(currentPage: int): seq<Item> {
    if ShowFirstButton(currentPage) then
      [PageButton(1, false)] + (if ShowLeadingEllipsis(currentPage) then [Ellipsis] else [])
    else []
  }

  /** The optional ellipsis and the last-page button after it. */
  function TailItems(currentPage: int, totalPages: int): seq<Item> {
    if ShowLastButton(currentPage, totalPages) then
      (if ShowTrailingEllipsis(currentPage, totalPages) then [Ellipsis] else []) + [PageButton(totalPages, false)]
    else []
  }

  /** The page numbers of the page buttons, in order. */
  function Labels(items: seq<Item>): seq<int> {
    if items == [] then []
    else (if items[0].PageButton? then [items[0].page] else []) + Labels(items[1..])
  }

  lemma {:induction false} LabelsAppend(a: seq<Item>, b: seq<Item>)
    ensures Labels(a + b) == Labels(a) + Labels(b)
    decreases |a|
  {
    if a != [] {
      assert (a + b)[0] == a[0];
      assert (a + b)[1..] == a[1..] + b;
      LabelsAppend(a[1..], b);
    } else {
      assert a + b == b;
    }
  }

  lemma {:induction false} LabelsOfWindow(currentPage: int, pages: seq<int>)
    ensures Labels(WindowButtons(currentPage, pages)) == pages
    decreases |pages|
  {
    if pages != [] {
      assert WindowButtons(currentPage, pages)[1..] == WindowButtons(currentPage, pages[1..]);
      LabelsOfWindow(currentPage, pages[1..]);
    }
  }

  predicate StrictlyIncreasing(s: seq<int>) {
    forall i, j :: 0 <= i < j < |s| ==> s[i] < s[j]
  }

  function HeadLabels(currentPage: int): seq<int> {
    if ShowFirstButton(currentPage) then [1] else []
  }

  function TailLabels(currentPage: int, totalPages: int): seq<int> {
    if ShowLastButton(currentPage, totalPages) then [totalPages] else []
  }

  /** The page numbers the bar shows: the optional 1, the window, the
      optional last page. */
  lemma BarLabels(currentPage: int, totalPages: int)
    requires IsRendered(totalPages)
    ensures Labels(Render(currentPage, totalPages).value.items) ==
              HeadLabels(currentPage) + PageWindow(currentPage, totalPages) + TailLabels(currentPage, totalPages)
  {
    var head := HeadItems(currentPage);
    var window := WindowButtons(currentPage, PageWindow(currentPage, totalPages));
    var tail := TailItems(currentPage, totalPages);
    LabelsAppend(head + window, tail);
    LabelsAppend(head, window);
    LabelsOfWindow(currentPage, PageWindow(currentPage, totalPages));
    HeadLabelsOfItems(currentPage);
    TailLabelsOfItems(currentPage, totalPages);
  }

  lemma HeadLabelsOfItems(currentPage: int)
    ensures Labels(HeadItems(currentPage)) == HeadLabels(currentPage)
  {
    if ShowFirstButton(currentPage) {
      var lead: seq<Item> := if ShowLeadingEllipsis(currentPage) then [Ellipsis] else [];
      LabelsAppend([PageButton(1, false)], lead);
      assert Labels(lead) == [];
    }
  }

  lemma TailLabelsOfItems(currentPage: int, totalPages: int)
    ensures Labels(TailItems(currentPage, totalPages)) == TailLabels(currentPage, totalPages)
  {
    if ShowLastButton(currentPage, totalPages) {
      var trail: seq<Item> := if ShowTrailingEllipsis(currentPage, totalPages) then [Ellipsis] else [];
      LabelsAppend(trail, [PageButton(totalPages, false)]);
      assert Labels(trail) == [];
    }
  }

  /** Three ascending runs, each ending below where the next begins, make
      one ascending run. */
  lemma AscendingConcat(h: seq<int>, w: seq<int>, t: seq<int>)
    requires StrictlyIncreasing(h) && StrictlyIncreasing(w) && StrictlyIncreasing(t)
    requires |h| > 0 && |w| > 0 ==> h[|h| - 1] < w[0]
    requires |w| > 0 && |t| > 0 ==> w[|w| - 1] < t[0]
    requires |h| > 0 && |t| > 0 ==> h[|h| - 1] < t[0]
    ensures StrictlyIncreasing(h + w + t)
  {
    var s := h + w + t;
    forall i, j | 0 <= i < j < |s| ensures s[i] < s[j] {
      if i < |h| {
        assert s[i] == h[i] <= h[|h| - 1];
        if j < |h| {
          assert s[j] == h[j];
        } else if j < |h| + |w| {
          assert s[j] == w[j - |h|] >= w[0];
        } else {
          assert s[j] == t[j - |h| - |w|] >= t[0];
        }
      } else if i < |h| + |w| {
        assert s[i] == w[i - |h|];
        if j < |h| + |w| {
          assert s[j] == w[j - |h|];
        } else {
          assert s[i] <= w[|w| - 1];
          assert s[j] == t[j - |h| - |w|] >= t[0];
        }
      } else {
        assert s[i] == t[i - |h| - |w|] && s[j] == t[j - |h| - |w|];
      }
    }
  }

  /** Nothing resets the current page when the list shrinks, so it may lie
      past the last page. Up to two pages past it, the bar still lists page
      1 first and the last page last, every page at most once and in
      ascending order. */
  lemma RenderedBarIsOrdered(currentPage: int, totalPages: int)
    requires 1 <= currentPage <= totalPages + 2 && totalPages > 1
    ensures Render(currentPage, totalPages).Some?
    ensures var labels := Labels(Render(currentPage, totalPages).value.items);
            && |labels| > 0 && labels[0] == 1 && labels[|labels| - 1] == totalPages
            && StrictlyIncreasing(labels)
  {
    var w := PageWindow(currentPage, totalPages);
    var h := HeadLabels(currentPage);
    var t := TailLabels(currentPage, totalPages);
    BarLabels(currentPage, totalPages);
    var lo, hi := WindowStart(currentPage), WindowEnd(currentPage, totalPages);
    assert |w| == hi - lo + 1 > 0;
    assert w[0] == lo && w[|w| - 1] == hi;
    assert StrictlyIncreasing(w);
    AscendingConcat(h, w, t);
    var labels := h + w + t;
    assert labels[0] == 1 by {
      if h == [] { assert labels[0] == w[0]; }
    }
    assert labels[|labels| - 1] == totalPages by {
      if t == [] { assert labels[|labels| - 1] == w[|w| - 1]; }
    }
  }

  /** More than two pages past the last one, the window is empty and the bar
      shows page 1 alone: the last page is neither in the window nor a
      button. */
  lemma FarPastLastPage(currentPage: int, totalPages: int)
    requires currentPage > totalPages + 2 && totalPages > 1
    ensures PageWindow(currentPage, totalPages) == []
    ensures !ShowLastButton(currentPage, totalPages)
    ensures Labels(Render(currentPage, totalPages).value.items) == [1]
  {
    BarLabels(currentPage, totalPages);
  }

  /** Prev is disabled exactly on page 1 and asks for the page before; Next
      is disabled exactly on the last page and asks for the page after, so
      past the last page Next stays enabled and asks for a page further on. */
  lemma StepButtonsOfBar(currentPage: int, totalPages: int)
    requires IsRendered(totalPages)
    ensures Render(currentPage, totalPages).value.prev.disabled <==> currentPage == 1
    ensures Render(currentPage, totalPages).value.prev.target == currentPage - 1
    ensures Render(currentPage, totalPages).value.next.disabled <==> currentPage == totalPages
    ensures Render(currentPage, totalPages).value.next.target == currentPage + 1
    ensures currentPage > totalPages ==>
              !Render(currentPage, totalPages).value.next.disabled
              && Render(currentPage, totalPages).value.next.target > totalPages
  {
  }

  /** On a real page exactly one window button is highlighted, the one for
      the current page; past the last page none is. */
  lemma OneCurrentButton(currentPage: int, totalPages: int)
    requires 1 <= currentPage
    ensures var b := WindowButtons(currentPage, PageWindow(currentPage, totalPages));
            currentPage <= totalPages ==>
              exists k :: 0 <= k < |b| && b[k] == PageButton(currentPage, true)
    ensures var b := WindowButtons(currentPage, PageWindow(currentPage, totalPages));
            forall i, j :: 0 <= i < |b| && 0 <= j < |b| && b[i].isCurrent && b[j].isCurrent ==> i == j
    ensures var b := WindowButtons(currentPage, PageWindow(currentPage, totalPages));
            currentPage > totalPages ==> forall k :: 0 <= k < |b| ==> !b[k].isCurrent
  {
    var w := PageWindow(currentPage, totalPages);
    var b := WindowButtons(currentPage, w);
    WindowShape(currentPage, totalPages);
    if currentPage <= totalPages {
      assert b[currentPage - WindowStart(currentPage)] == PageButton(currentPage, true);
    }
  }
}
