/** The reading view (`StorytimeMode`): the pages in display order and the
    index of the page shown, moved by swipes, arrows and page indicators. */
module StorytimeMode {
  import opened Records
  import opened PageOrder

  /** A user action. An arrow or indicator that is not on screen cannot be
      pressed; pressing it here leaves the state as it is. */
  datatype Gesture = SwipeLeft | SwipeRight | PrevArrow | NextArrow | Indicator(index: int)

  datatype Reader = Reader(pages: seq<Page>, current: int)

  /** The reader as first rendered: sorted pages, first page. */
  function Open(pages: seq<Page>): (r: Reader)
    ensures r.current == 0
    ensures SortedByNumber(r.pages) && multiset(r.pages) == multiset(pages)
    ensures forall n :: WithNumber(r.pages, n) == WithNumber(pages, n)
  {
    assert forall n :: WithNumber(SortByNumber(pages), n) == WithNumber(pages, n) by {
      forall n { SortIsStable(pages, n); }
    }
    Reader(SortByNumber(pages), 0)
  }

  /** The previous arrow is on screen. */
  predicate HasPrev(r: Reader)
  {
    r.current > 0
  }

  /** The next arrow is on screen. */
  predicate HasNext(r: Reader)
  {
    r.current < |r.pages| - 1
  }

  /** The index names a page, or there are no pages and it is the initial 0. */
  predicate InBounds(r: Reader)
  {
    if |r.pages| == 0 then r.current == 0 else 0 <= r.current < |r.pages|
  }

  /** One gesture. Swipes and arrows move by exactly one and only when the
      matching arrow would be shown; an indicator jumps to its page. */
  function Step(r: Reader, g: Gesture): (r': Reader)
    ensures r'.pages == r.pages
    ensures (g.SwipeLeft? || g.NextArrow?) ==> r'.current == if HasNext(r) then r.current + 1 else r.current
    ensures (g.SwipeRight? || g.PrevArrow?) ==> r'.current == if HasPrev(r) then r.current - 1 else r.current
    ensures g.Indicator? && 0 <= g.index < |r.pages| ==> r'.current == g.index
    ensures g.Indicator? && !(0 <= g.index < |r.pages|) ==> r' == r
    ensures InBounds(r) ==> InBounds(r')
  {
    match g
    case SwipeLeft => if r.current < |r.pages| - 1 then r.(current := r.current + 1) else r
    case NextArrow => if HasNext(r) then r.(current := r.current + 1) else r
    case SwipeRight => if r.current > 0 then r.(current := r.current - 1) else r
    case PrevArrow => if HasPrev(r) then r.(current := r.current - 1) else r
    case Indicator(i) => if 0 <= i < |r.pages| then r.(current := i) else r
  }

  /** The reader after a run of gestures, first to last. */
  function Replay(r: Reader, gs: seq<Gesture>): Reader
    decreases |gs|
  {
    if gs == [] then r else Replay(Step(r, gs[0]), gs[1..])
  }

  /** However the user navigates, the index stays on a page (or at 0 when
      there is none) and the pages never change. */
  lemma {:induction false} ReplayStaysInBounds(r: Reader, gs: seq<Gesture>)
    requires InBounds(r)
    ensures InBounds(Replay(r, gs)) && Replay(r, gs).pages == r.pages
    decreases |gs|
  {
    if gs != [] {
      ReplayStaysInBounds(Step(r, gs[0]), gs[1..]);
    }
  }

  /** From a fresh reader, every run of gestures shows a page of the book. */
  lemma OpenedReaderShowsAPage(pages: seq<Page>, gs: seq<Gesture>)
    requires |pages| > 0
    ensures 0 <= Replay(Open(pages), gs).current < |pages|
  {
    ReplayStaysInBounds(Open(pages), gs);
  }

  /** What the view renders. */
  datatype Screen =
    | NoPages
    | Showing(page: Page, prevArrow: bool, nextArrow: bool, indicators: seq<bool>)

  /** The view: the page at the index with its arrows and one indicator per
      page, lit for the page shown; "No pages to display" when the index
      names no page. */
  function ScreenOf(r: Reader): (s: Screen)
    ensures s.NoPages? <==> !(0 <= r.current < |r.pages|)
    ensures s.Showing? ==> (&& s.page == r.pages[r.current]
                            && (s.prevArrow <==> HasPrev(r)) && (s.nextArrow <==> HasNext(r))
                            && |s.indicators| == |r.pages|)
  {
    if 0 <= r.current < |r.pages| then
      Showing(r.pages[r.current], r.current > 0, r.current < |r.pages| - 1,
              seq(|r.pages|, k requires 0 <= k < |r.pages| => k == r.current))
    else NoPages
  }

  /** Exactly one indicator is lit, the one of the page shown. */
  lemma ExactlyOneIndicatorLit(r: Reader)
    requires 0 <= r.current < |r.pages|
    ensures ScreenOf(r).Showing?
    ensures ScreenOf(r).indicators[r.current]
    ensures forall k :: 0 <= k < |r.pages| && ScreenOf(r).indicators[k] ==> k == r.current
  {
  }

  /** An empty book shows "No pages to display", whatever the gestures. */
  lemma EmptyBookShowsNothing(gs: seq<Gesture>)
    ensures ScreenOf(Replay(Open([]), gs)).NoPages?
  {
    ReplayStaysInBounds(Open([]), gs);
  }
}
