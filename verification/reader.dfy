/**
 * The magazine reader's navigation controller: the condensed pagination
 * strip (`getVisiblePages`), the guard in front of the page-flip engine, the
 * keyboard mapping, the mirroring of `flip` events into `currentPage`, and the
 * disabled / highlighted states of the buttons. The page-flip engine is
 * abstract: the controller only records the commands it sends to it.
 */
module MagazineReader {

  /** One control of the pagination strip: a 1-based page button or a "..." marker. */
  datatype Entry = Page(number: int) | Ellipsis

  /** The window radius `getVisiblePages` uses when the reader calls it. */
  const DefaultDelta := 2

  function Max(a: int, b: int): int { if a >= b then a else b }

  function Min(a: int, b: int): int { if a <= b then a else b }

  /** Page buttons `lo`, `lo + 1`, ..., `hi`; empty when `lo > hi`. */
  function Run(lo: int, hi: int): (r: seq<Entry>)
    ensures |r| == if lo <= hi then hi - lo + 1 else 0
    ensures forall k :: 0 <= k < |r| ==> r[k] == Page(lo + k)
  {
    seq(if lo <= hi then hi - lo + 1 else 0, k => Page(lo + k))
  }

  /** The window grows by one page at its end. */
  lemma RunExtends(lo: int, hi: int)
    requires lo <= hi
    ensures Run(lo, hi) == Run(lo, hi - 1) + [Page(hi)]
  {
  }

  /** `left`: the first page of the window, never before page 2. */
  function WindowStart(current: int, delta: int): int {
    Max(2, current - delta)
  }

  /** `right`: the last page of the window, never after page `total - 1`. */
  function WindowEnd(current: int, total: int, delta: int): int {
    Min(total - 1, current + delta)
  }

  /**
   * The strip for 1-based page `current` of `total`: page 1, a "..." when the
   * window starts after page 2, the window, a "..." when it ends before page
   * `total - 1`, and page `total` when there is more than one page.
   */
  function VisiblePages(current: int, total: int, delta: int): seq<Entry> {
    var left := WindowStart(current, delta);
    var right := WindowEnd(current, total, delta);
    [Page(1)]
      + (if left > 2 then [Ellipsis] else [])
      + Run(left, right)
      + (if right < total - 1 then [Ellipsis] else [])
      + (if total > 1 then [Page(total)] else [])
  }

  /** `getVisiblePages`: pushes the strip onto a list, the window by a counting loop. */
  method GetVisiblePages(current: int, total: int, delta: int) returns (range: seq<Entry>)
    ensures range == VisiblePages(current, total, delta)
  {
    range := [];
    var left := Max(2, current - delta);
    var right := Min(total - 1, current + delta);

    range := range + [Page(1)];
    if left > 2 {
      range := range + [Ellipsis];
    }
    ghost var head := [Page(1)] + (if left > 2 then [Ellipsis] else []);
    assert range == head;

    var i := left;
    while i <= right
      invariant left <= i
      invariant i <= right + 1 || i == left
      invariant range == head + Run(left, i - 1)
    {
      RunExtends(left, i);
      range := range + [Page(i)];
      i := i + 1;
    }
    assert Run(left, i - 1) == Run(left, right) by {
      if left > right {
        assert |Run(left, i - 1)| == 0 == |Run(left, right)|;
      }
    }

    ghost var window := range;
    if right < total - 1 {
      range := range + [Ellipsis];
    }
    assert range == window + (if right < total - 1 then [Ellipsis] else []);
    ghost var marked := range;
    if total > 1 {
      range := range + [Page(total)];
    }
    assert range == marked + (if total > 1 then [Page(total)] else []);
  }

  /**
   * The strip entry by entry: `a` markers after page 1 (0 or 1), then the
   * `w` window pages from `left`, then `b` markers (0 or 1), then the last page
   * when `total > 1`.
   */
  lemma StripLayout(current: int, total: int, delta: int)
    returns (left: int, right: int, a: nat, w: nat, b: nat)
    ensures left == WindowStart(current, delta) && right == WindowEnd(current, total, delta)
    ensures a == (if left > 2 then 1 else 0)
    ensures w == (if left <= right then right - left + 1 else 0)
    ensures b == (if right < total - 1 then 1 else 0)
    ensures |VisiblePages(current, total, delta)| == 1 + a + w + b + (if total > 1 then 1 else 0)
    ensures VisiblePages(current, total, delta)[0] == Page(1)
    ensures a == 1 ==> VisiblePages(current, total, delta)[1] == Ellipsis
    ensures forall i :: 1 + a <= i < 1 + a + w ==> VisiblePages(current, total, delta)[i] == Page(left + (i - 1 - a))
    ensures b == 1 ==> VisiblePages(current, total, delta)[1 + a + w] == Ellipsis
    ensures total > 1 ==> VisiblePages(current, total, delta)[1 + a + w + b] == Page(total)
  {
    left, right := WindowStart(current, delta), WindowEnd(current, total, delta);
    a := if left > 2 then 1 else 0;
    w := if left <= right then right - left + 1 else 0;
    b := if right < total - 1 then 1 else 0;
    var r := VisiblePages(current, total, delta);
    var p0 := [Page(1)] + (if left > 2 then [Ellipsis] else []);
    var p1 := p0 + Run(left, right);
    var p2 := p1 + (if right < total - 1 then [Ellipsis] else []);
    assert r == p2 + (if total > 1 then [Page(total)] else []);
    assert forall k :: 0 <= k < |p0| ==> r[k] == p0[k];
    assert forall i :: 1 + a <= i < 1 + a + w ==> r[i] == p1[i];
  }

  /** The strip always opens with page 1. */
  lemma StripStartsWithFirstPage(current: int, total: int, delta: int)
    ensures |VisiblePages(current, total, delta)| >= 1
    ensures VisiblePages(current, total, delta)[0] == Page(1)
  {
    var _, _, _, _, _ := StripLayout(current, total, delta);
  }

  /** With several pages the strip closes with the last one; a one-page magazine shows just `[1]`. */
  lemma StripEndsWithLastPage(current: int, total: int, delta: int)
    ensures var r := VisiblePages(current, total, delta);
      total > 1 ==> r[|r| - 1] == Page(total)
    ensures total == 1 && current == 1 && delta >= 0 ==> VisiblePages(current, total, delta) == [Page(1)]
  {
    var left, right, a, w, b := StripLayout(current, total, delta);
    if total == 1 && current == 1 && delta >= 0 {
      assert left == 2 && right == 0;
      assert |VisiblePages(current, total, delta)| == 1;
    }
  }

  /**
   * For at least one page, the page numbers of the strip lie in `[1, total]`
   * and strictly increase from left to right, so no page is listed twice.
   */
  lemma StripPagesIncrease(current: int, total: int, delta: int)
    requires total >= 1
    ensures var r := VisiblePages(current, total, delta);
      && (forall i :: 0 <= i < |r| && r[i].Page? ==> 1 <= r[i].number <= total)
      && (forall i, j :: 0 <= i < j < |r| && r[i].Page? && r[j].Page? ==> r[i].number < r[j].number)
  {
    var r := VisiblePages(current, total, delta);
    var left, right, a, w, b := StripLayout(current, total, delta);
    var last := 1 + a + w + b;
    // The page number at each page position: position 0, the window positions, the last position.
    forall i | 0 <= i < |r| && r[i].Page?
      ensures 1 <= r[i].number <= total
      ensures i == 0 ==> r[i].number == 1
      ensures 1 + a <= i < 1 + a + w ==> r[i].number == left + (i - 1 - a)
      ensures i == last ==> r[i].number == total
      ensures i == 0 || (1 + a <= i < 1 + a + w) || (total > 1 && i == last)
    {
      if 1 + a <= i < 1 + a + w {
        assert r[1 + a + (i - 1 - a)] == Page(left + (i - 1 - a));
      }
    }
  }

  /**
   * For at least one page, page `p` is on the strip exactly when it is the
   * first page, the last page, or an inner page within `delta` of `current`.
   */
  lemma StripMembership(current: int, total: int, delta: int, p: int)
    requires total >= 1
    ensures Page(p) in VisiblePages(current, total, delta) <==>
      p == 1 || p == total || (2 <= p <= total - 1 && current - delta <= p <= current + delta)
  {
    var r := VisiblePages(current, total, delta);
    var left, right, a, w, b := StripLayout(current, total, delta);
    if 2 <= p <= total - 1 && current - delta <= p <= current + delta {
      assert r[1 + a + (p - left)] == Page(p);
    } else if p == total && total > 1 {
      assert r[|r| - 1] == Page(p);
    }
    if Page(p) in r {
      var i :| 0 <= i < |r| && r[i] == Page(p);
      if 1 + a <= i < 1 + a + w {
        assert r[1 + a + (i - 1 - a)] == Page(left + (i - 1 - a));
      }
    }
  }

  /** With a non-negative radius, the current page is always on the strip. */
  lemma StripShowsCurrentPage(current: int, total: int, delta: int)
    requires delta >= 0
    requires 1 <= current <= total
    ensures Page(current) in VisiblePages(current, total, delta)
  {
    StripMembership(current, total, delta, current);
  }

  /** The strip has at most two "..." markers. */
  lemma StripHasAtMostTwoEllipses(current: int, total: int, delta: int)
    ensures multiset(VisiblePages(current, total, delta))[Ellipsis] <= 2
  {
    var left, right := WindowStart(current, delta), WindowEnd(current, total, delta);
    var window := Run(left, right);
    assert Ellipsis !in window;
    assert multiset(window)[Ellipsis] == 0;
  }

  /** For a non-negative radius the strip never shows two "..." markers in a row. */
  lemma StripEllipsesNotAdjacent(current: int, total: int, delta: int)
    requires delta >= 0
    ensures var r := VisiblePages(current, total, delta);
      forall i :: 0 <= i < |r| - 1 ==> !(r[i] == Ellipsis && r[i + 1] == Ellipsis)
  {
    var r := VisiblePages(current, total, delta);
    var left, right, a, w, b := StripLayout(current, total, delta);
    forall i | 0 <= i < |r| - 1 ensures !(r[i] == Ellipsis && r[i + 1] == Ellipsis) {
      if a == 1 && b == 1 && i == 1 {
        // Both markers around an empty window would need current - delta > current + delta.
        assert w > 0;
      }
    }
  }

  /**
   * For a valid current page and a non-negative radius, the "..." markers are
   * exactly where pages are skipped: two neighbouring page buttons are
   * consecutive pages, and a marker always sits between two page buttons at
   * least two pages apart.
   */
  lemma StripMarksSkippedPages(current: int, total: int, delta: int)
    requires delta >= 0
    requires 1 <= current <= total
    ensures var r := VisiblePages(current, total, delta);
      forall i :: 0 <= i < |r| - 1 ==>
        && (r[i].Page? && r[i + 1].Page? ==> r[i + 1].number == r[i].number + 1)
        && (r[i + 1] == Ellipsis ==>
              i + 2 < |r| && r[i].Page? && r[i + 2].Page? && r[i + 2].number > r[i].number + 1)
  {
    var r := VisiblePages(current, total, delta);
    var left, right, a, w, b := StripLayout(current, total, delta);
    var c := if total > 1 then 1 else 0;
    assert |r| == 1 + a + w + b + c;
    forall i | 0 <= i < |r| - 1
      ensures r[i].Page? && r[i + 1].Page? ==> r[i + 1].number == r[i].number + 1
      ensures r[i + 1] == Ellipsis ==>
        i + 2 < |r| && r[i].Page? && r[i + 2].Page? && r[i + 2].number > r[i].number + 1
    {
      if a == 1 && i == 0 {
        // The marker after page 1: the window starts after page 2.
        assert left == current - delta && left > 2;
        if w > 0 {
          assert r[2] == r[1 + a + 0];
        } else {
          assert current == total && delta == 0 && b == 0 && c == 1;
        }
      } else if a == 0 && i == 0 {
        assert left == 2;
        if w > 0 {
          assert r[1] == r[1 + a + 0];
        } else {
          assert right < 2;
          if b == 0 {
            assert total <= 2;
          } else {
            assert right == 1 && total >= 3 && c == 1;
          }
        }
      } else if 1 + a <= i < 1 + a + w {
        var k := i - 1 - a;
        assert r[i] == Page(left + k);
        if k + 1 < w {
          assert r[i + 1] == r[1 + a + (k + 1)];
        } else if b == 1 {
          assert right < total - 1 && right >= 2;
          assert r[i + 2] == Page(total);
        } else {
          assert right == total - 1 && c == 1;
        }
      }
    }
  }

  // ---------------------------------------------------------------------
  // Button states

  /** "Trang trước" (previous) is disabled on the first page. */
  predicate PrevDisabled(currentPage: int) {
    currentPage == 0
  }

  /** "Về đầu" (back to the start) is disabled on the first page. */
  predicate RestartDisabled(currentPage: int) {
    currentPage == 0
  }

  /** "Trang sau" (next) is disabled on the last page. */
  predicate NextDisabled(currentPage: int, totalPages: int) {
    currentPage == totalPages - 1
  }

  /** A strip button is drawn highlighted ("default") when it is the current page. */
  predicate IsHighlighted(e: Entry, currentPage: int) {
    e.Page? && e.number - 1 == currentPage
  }

  /** `goToPage` forwards to the engine only for an index of an existing page. */
  predicate GoToAllowed(engineReady: bool, pageIndex: int, totalPages: int) {
    engineReady && 0 <= pageIndex < totalPages
  }

  /** Every page button on the strip jumps to an index `goToPage` accepts. */
  lemma StripButtonsAreInRange(currentPage: int, totalPages: int, delta: int)
    requires totalPages >= 1
    ensures forall e :: e in VisiblePages(currentPage + 1, totalPages, delta) && e.Page? ==>
      GoToAllowed(true, e.number - 1, totalPages)
  {
    StripPagesIncrease(currentPage + 1, totalPages, delta);
  }

  /** A strip that holds the current page and whose page numbers increase highlights exactly one button. */
  lemma HighlightedOnce(r: seq<Entry>, currentPage: int)
    requires Page(currentPage + 1) in r
    requires forall i, j :: 0 <= i < j < |r| && r[i].Page? && r[j].Page? ==> r[i].number < r[j].number
    ensures exists k :: 0 <= k < |r| && IsHighlighted(r[k], currentPage)
    ensures forall k, l ::
      (0 <= k < |r| && 0 <= l < |r| && IsHighlighted(r[k], currentPage) && IsHighlighted(r[l], currentPage))
      ==> k == l
  {
    var k0 :| 0 <= k0 < |r| && r[k0] == Page(currentPage + 1);
    assert IsHighlighted(r[k0], currentPage);
    forall k, l | 0 <= k < |r| && 0 <= l < |r| && IsHighlighted(r[k], currentPage) && IsHighlighted(r[l], currentPage)
      ensures k == l
    {
      assert r[k].number == r[l].number;
    }
  }

  /** For a valid current page, exactly one button of the strip is highlighted. */
  lemma StripHighlightsOneButton(currentPage: int, totalPages: int, delta: int)
    requires delta >= 0
    requires 0 <= currentPage < totalPages
    ensures var r := VisiblePages(currentPage + 1, totalPages, delta);
      && (exists k :: 0 <= k < |r| && IsHighlighted(r[k], currentPage))
      && (forall k, l ::
            (0 <= k < |r| && 0 <= l < |r| && IsHighlighted(r[k], currentPage) && IsHighlighted(r[l], currentPage))
            ==> k == l)
  {
    StripShowsCurrentPage(currentPage + 1, totalPages, delta);
    StripPagesIncrease(currentPage + 1, totalPages, delta);
    HighlightedOnce(VisiblePages(currentPage + 1, totalPages, delta), currentPage);
  }

  /**
   * For a valid current page, "previous" and "back to the start" are disabled
   * exactly when the first strip button is highlighted, and "next" exactly when
   * the last one is.
   */
  lemma DisabledButtonsMatchStrip(currentPage: int, totalPages: int, delta: int)
    requires delta >= 0
    requires 0 <= currentPage < totalPages
    ensures var r := VisiblePages(currentPage + 1, totalPages, delta);
      && (PrevDisabled(currentPage) <==> IsHighlighted(r[0], currentPage))
      && (RestartDisabled(currentPage) <==> IsHighlighted(r[0], currentPage))
      && (NextDisabled(currentPage, totalPages) <==> IsHighlighted(r[|r| - 1], currentPage))
  {
    var r := VisiblePages(currentPage + 1, totalPages, delta);
    var left, right, a, w, b := StripLayout(currentPage + 1, totalPages, delta);
    if totalPages == 1 {
      assert right == 0 && w == 0 && b == 0 && a == 0;
      assert |r| == 1;
    } else {
      StripEndsWithLastPage(currentPage + 1, totalPages, delta);
    }
  }

  // ---------------------------------------------------------------------
  // The controller

  /** A command sent to the page-flip engine. */
  datatype Command = FlipNext | FlipPrev | FlipTo(index: int)

  /** The `data` of a `flip` event raised by the engine. */
  datatype FlipData = Number(value: int) | NotANumber

  /** The page index a `flip` event makes current: its data when numeric, else 0. */
  function FlipTarget(data: FlipData): (index: int)
    ensures data.Number? ==> index == data.value
    ensures data.NotANumber? ==> index == 0
  {
    match data
    case Number(v) => v
    case NotANumber => 0
  }

  /** What a `keydown` sends to the engine: ArrowRight next, ArrowLeft previous, nothing else. */
  function KeyCommands(key: string, engineReady: bool): (cmds: seq<Command>)
    ensures |cmds| <= 1
    ensures cmds != [] <==> engineReady && (key == "ArrowRight" || key == "ArrowLeft")
    ensures cmds == [FlipNext] ==> key == "ArrowRight"
    ensures cmds == [FlipPrev] ==> key == "ArrowLeft"
  {
    if !engineReady then []
    else if key == "ArrowRight" then [FlipNext]
    else if key == "ArrowLeft" then [FlipPrev]
    else []
  }

  class ReaderController {
    /** 0-based index of the page shown, as last reported by a `flip` event. */
    var currentPage: int
    /** Number of pages of the last non-empty page list. */
    var totalPages: int
    /** The page-flip engine has been created (`pageFlip.current` is set). */
    var engineReady: bool
    /** Every command sent to the engine, oldest first. */
    var sent: seq<Command>

    constructor ()
      ensures currentPage == 0 && totalPages == 0
      ensures !engineReady && sent == []
    {
      currentPage, totalPages := 0, 0;
      engineReady, sent := false, [];
    }

    /** A new page list: its length is recorded when it is not empty; `currentPage` is kept. */
    method BindPages(pageCount: nat)
      modifies this`totalPages
      ensures totalPages == if pageCount > 0 then pageCount else old(totalPages)
    {
      if pageCount > 0 {
        totalPages := pageCount;
      }
    }

    /** The delayed initialisation: the engine comes to exist once there are pages and a mounted surface. */
    method InitEngine(surfaceMounted: bool)
      modifies this`engineReady
      ensures engineReady == (old(engineReady) || (totalPages > 0 && surfaceMounted))
    {
      if totalPages > 0 && surfaceMounted {
        engineReady := true;
      }
    }

    method NextPage()
      modifies this`sent
      ensures sent == old(sent) + (if engineReady then [FlipNext] else [])
    {
      if engineReady {
        sent := sent + [FlipNext];
      }
    }

    method PrevPage()
      modifies this`sent
      ensures sent == old(sent) + (if engineReady then [FlipPrev] else [])
    {
      if engineReady {
        sent := sent + [FlipPrev];
      }
    }

    method GoToPage(pageIndex: int)
      modifies this`sent
      ensures sent == old(sent) + (if GoToAllowed(engineReady, pageIndex, totalPages) then [FlipTo(pageIndex)] else [])
    {
      if engineReady && pageIndex >= 0 && pageIndex < totalPages {
        sent := sent + [FlipTo(pageIndex)];
      }
    }

    /** The "back to the start" button. */
    method RestartClicked()
      modifies this`sent
      ensures sent == old(sent) + (if engineReady && totalPages > 0 then [FlipTo(0)] else [])
    {
      GoToPage(0);
    }

    /** A page button of the strip jumps to that page's index. */
    method PageButtonClicked(e: Entry)
      requires e.Page?
      modifies this`sent
      ensures sent == old(sent) + (if GoToAllowed(engineReady, e.number - 1, totalPages) then [FlipTo(e.number - 1)] else [])
    {
      GoToPage(e.number - 1);
    }

    /** The `flip` listener mirrors the engine's page into `currentPage`. */
    method OnFlip(data: FlipData)
      modifies this`currentPage
      ensures currentPage == FlipTarget(data)
    {
      if data.Number? {
        currentPage := data.value;
      } else {
        currentPage := 0;
      }
    }

    /** The window `keydown` listener. */
    method OnKeyDown(key: string)
      modifies this`sent
      ensures sent == old(sent) + KeyCommands(key, engineReady)
    {
      if key == "ArrowRight" {
        NextPage();
      }
      if key == "ArrowLeft" {
        PrevPage();
      }
    }

    /** The strip the reader renders: `getVisiblePages(currentPage + 1, totalPages)`. */
    method PaginationStrip() returns (strip: seq<Entry>)
      ensures strip == VisiblePages(currentPage + 1, totalPages, DefaultDelta)
    {
      strip := GetVisiblePages(currentPage + 1, totalPages, DefaultDelta);
    }
  }
}
