/** The breadcrumb bar above a folder: one link for the home page and one per
    path segment, each to the path up to that segment, and the two arrows
    that appear when the bar can scroll. URI decoding is an oracle that may
    fail (`decodeURIComponent` throws on a malformed escape). */
module BreadcrumbNav {
  import opened Wrappers
  import opened Text
  import opened DriveService

  /** Segments longer than this are cut short on narrow screens. */
  const TRUNCATE_OVER := 30

  /** How far one press of an arrow scrolls, in pixels. */
  const SCROLL_STEP := 150

  /** How far from an edge the bar must be for an arrow to show, in pixels. */
  const EDGE_SLACK := 5

  /** One link: its caption and title (the decoded segment), where it goes,
      whether it carries the highlight background, and whether its label may
      be cut short. */
  datatype Crumb = Crumb(caption: string, path: string, highlighted: bool, truncated: bool)

  /** Every label the bar decodes while rendering ("Home" and each segment)
      decodes without throwing. */
  predicate Decodes(segments: seq<string>, decode: Decoder) {
    decode("Home").Some? && forall i :: 0 <= i < |segments| ==> decode(segments[i]).Some?
  }

  /** `renderBreadcrumbItem(segment, index, path)` for a bar of `count`
      segments, once `segment` is known to decode. */
  function Item(segment: string, index: nat, path: string, count: nat, decode: Decoder): Crumb
    requires decode(segment).Some?
  {
    Crumb(decode(segment).value, path, index == count, |segment| > TRUNCATE_OVER)
  }

  /** `breadcrumbItems`: "Home" to "/", then each segment to the path made of
      the segments up to and including it. `decodeURIComponent` runs during
      render with nothing to catch it, so a label that fails to decode makes
      the whole render throw: None. */
  function BreadcrumbItems(segments: seq<string>, decode: Decoder): (items: Option<seq<Crumb>>)
    ensures items.Some? <==> Decodes(segments, decode)
    ensures items.Some? ==> |items.value| == |segments| + 1
  {
    if !Decodes(segments, decode) then None
    else
      Some([Item("Home", 0, "/", |segments|, decode)]
           + seq(|segments|, i requires 0 <= i < |segments| && decode(segments[i]).Some? =>
               Item(segments[i], i + 1, "/" + JoinWith(segments[..i + 1], "/"), |segments|, decode)))
  }

  /** A segment that fails to decode makes the render throw, whatever the
      other segments are. */
  lemma MalformedSegmentThrows(segments: seq<string>, decode: Decoder, k: nat)
    requires k < |segments| && decode(segments[k]).None?
    ensures BreadcrumbItems(segments, decode) == None
  {
  }

  /** The first link is "Home" to "/", highlighted only on the home page. */
  lemma HomeFirst(segments: seq<string>, decode: Decoder)
    requires Decodes(segments, decode)
    ensures BreadcrumbItems(segments, decode).value[0] == Crumb(decode("Home").value, "/", segments == [], false)
  {
  }

  /** Link `k` goes to "/" followed by the first `k` segments joined by "/",
      is labelled with the decoded segment, and is cut short exactly when the
      segment is longer than 30 characters; only the last link is
      highlighted. */
  lemma CrumbAt(segments: seq<string>, decode: Decoder, k: nat)
    requires Decodes(segments, decode) && k <= |segments|
    ensures var c := BreadcrumbItems(segments, decode).value[k];
      && c.path == "/" + JoinWith(segments[..k], "/")
      && (c.highlighted <==> k == |segments|)
      && (k > 0 ==> Some(c.caption) == decode(segments[k - 1]) && (c.truncated <==> |segments[k - 1]| > 30))
  {
    if k == 0 {
      assert segments[..0] == [];
    }
  }

  /** Each link's path is the previous link's path with the next segment
      added, so every link leads to a folder that contains the next one's. */
  lemma PathsExtend(segments: seq<string>, decode: Decoder, i: nat)
    requires Decodes(segments, decode) && i < |segments|
    ensures var items := BreadcrumbItems(segments, decode).value;
      && items[i + 1].path == items[i].path + (if i == 0 then "" else "/") + segments[i]
      && items[i].path <= items[i + 1].path
  {
    var items := BreadcrumbItems(segments, decode).value;
    CrumbAt(segments, decode, i);
    CrumbAt(segments, decode, i + 1);
    assert segments[..i + 1] == segments[..i] + [segments[i]];
    if i == 0 {
      assert JoinWith(segments[..1], "/") == segments[0];
    } else {
      JoinAppend(segments[..i], segments[i], "/");
    }
    assert items[i].path + (if i == 0 then "" else "/") + segments[i]
        == items[i].path + ((if i == 0 then "" else "/") + segments[i]);
  }

  /** When the segments are non-empty and free of "/" (as `PathSegments`
      makes them), following link `k` leads back to exactly the first `k`
      segments, and the last link to the page's own path. */
  lemma CrumbResolves(segments: seq<string>, decode: Decoder, k: nat)
    requires forall i :: 0 <= i < |segments| ==> segments[i] != "" && '/' !in segments[i]
    requires Decodes(segments, decode) && k <= |segments|
    ensures PathSegments(BreadcrumbItems(segments, decode).value[k].path) == segments[..k]
  {
    CrumbAt(segments, decode, k);
    SegmentsOfJoinedPath(segments[..k]);
  }

  /** The bar of a path's own segments: its last link leads to the same
      folder as the path. */
  lemma LastCrumbIsHere(path: string, decode: Decoder)
    requires Decodes(PathSegments(path), decode)
    ensures var segments := PathSegments(path);
      PathSegments(BreadcrumbItems(segments, decode).value[|segments|].path) == segments
  {
    var segments := PathSegments(path);
    CrumbResolves(segments, decode, |segments|);
    assert segments[..|segments|] == segments;
  }

  /** The scroll position of the bar and the widths that bound it. */
  datatype ScrollMetrics = ScrollMetrics(scrollLeft: int, scrollWidth: nat, clientWidth: nat)

  function Abs(x: int): nat {
    if x < 0 then -x else x
  }

  /** `showLeftScroll` as `checkScroll` computes it. */
  predicate ShowLeft(m: ScrollMetrics) {
    m.scrollLeft > EDGE_SLACK
  }

  /** `showRightScroll` as `checkScroll` computes it. */
  predicate ShowRight(m: ScrollMetrics) {
    Abs(m.scrollWidth - m.clientWidth - m.scrollLeft) > EDGE_SLACK
  }

  /** The largest scroll position the browser allows. */
  function MaxScroll(m: ScrollMetrics): nat {
    if m.scrollWidth > m.clientWidth then m.scrollWidth - m.clientWidth else 0
  }

  /** A position as the browser keeps it: between 0 and the largest. */
  function Clamped(m: ScrollMetrics, left: int): (r: int)
    ensures 0 <= r <= MaxScroll(m)
    ensures 0 <= left <= MaxScroll(m) ==> r == left
  {
    if left < 0 then 0 else if left > MaxScroll(m) then MaxScroll(m) else left
  }

  /** `handleScroll(direction)`'s step: left for "left", right otherwise. */
  function ScrollAmount(direction: string): (r: int)
    ensures r == -150 <==> direction == "left"
    ensures r == -150 || r == 150
  {
    if direction == "left" then -SCROLL_STEP else SCROLL_STEP
  }

  /** Within 5 pixels of either edge, the arrow pointing past that edge is
      hidden; farther from both, both arrows show. */
  lemma ArrowsAtEdges(m: ScrollMetrics)
    requires 0 <= m.scrollLeft <= MaxScroll(m)
    ensures m.scrollLeft <= 5 ==> !ShowLeft(m)
    ensures m.scrollLeft >= MaxScroll(m) - 5 && m.scrollWidth >= m.clientWidth ==> !ShowRight(m)
    ensures 5 < m.scrollLeft < MaxScroll(m) - 5 ==> ShowLeft(m) && ShowRight(m)
  {
  }

  /** A press of the right arrow followed by one of the left arrow comes back
      to where the bar was, when it was at least one step from the right edge. */
  lemma ScrollBack(m: ScrollMetrics)
    requires 0 <= m.scrollLeft && m.scrollLeft + 150 <= MaxScroll(m)
    ensures var there := Clamped(m, m.scrollLeft + ScrollAmount("right"));
      Clamped(m, there + ScrollAmount("left")) == m.scrollLeft
  {
  }

  /** The scrolling element the bar is drawn in. */
  class ScrollArea {
    var scrollLeft: int
    const scrollWidth: nat
    const clientWidth: nat

    function Metrics(): ScrollMetrics
      reads this
    {
      ScrollMetrics(scrollLeft, scrollWidth, clientWidth)
    }

    constructor (scrollWidth: nat, clientWidth: nat)
      ensures Metrics() == ScrollMetrics(0, scrollWidth, clientWidth)
    {
      this.scrollLeft := 0;
      this.scrollWidth := scrollWidth;
      this.clientWidth := clientWidth;
    }

    /** `scrollBy({ left: amount })`, as the browser bounds it. */
    method ScrollBy(amount: int)
      modifies this
      ensures scrollLeft == Clamped(old(Metrics()), old(scrollLeft) + amount)
    {
      scrollLeft := Clamped(Metrics(), scrollLeft + amount);
    }

    /** `scrollLeft = scrollWidth`: the bar jumps to its right end. */
    method ScrollToEnd()
      modifies this
      ensures scrollLeft == MaxScroll(old(Metrics()))
    {
      scrollLeft := Clamped(Metrics(), scrollWidth);
    }
  }

  /** The two arrow flags of the bar. */
  class ScrollArrows {
    var showLeftScroll: bool
    var showRightScroll: bool

    constructor ()
      ensures !showLeftScroll && !showRightScroll
    {
      showLeftScroll := false;
      showRightScroll := false;
    }

    /** `checkScroll()`: nothing happens before the element exists. */
    method CheckScroll(area: ScrollArea?)
      modifies this
      ensures area == null ==> showLeftScroll == old(showLeftScroll) && showRightScroll == old(showRightScroll)
      ensures area != null ==> showLeftScroll == ShowLeft(area.Metrics()) && showRightScroll == ShowRight(area.Metrics())
    {
      if area != null {
        var m := area.Metrics();
        showLeftScroll := m.scrollLeft > EDGE_SLACK;
        showRightScroll := Abs(m.scrollWidth - m.clientWidth - m.scrollLeft) > EDGE_SLACK;
      }
    }
  }

  /** `handleScroll(direction)`: one step in that direction, if the element
      exists. */
  method HandleScroll(direction: string, area: ScrollArea?)
    modifies area
    ensures area != null ==> area.scrollLeft == Clamped(old(area.Metrics()), old(area.scrollLeft) + ScrollAmount(direction))
  {
    if area != null {
      area.ScrollBy(if direction == "left" then -SCROLL_STEP else SCROLL_STEP);
    }
  }

  /** After the jump to the right end, the right arrow is hidden, and the
      left arrow shows exactly when the bar overflows by more than 5 pixels. */
  lemma EndHidesRightArrow(m: ScrollMetrics)
    requires m.scrollWidth >= m.clientWidth
    ensures var there := m.(scrollLeft := MaxScroll(m));
      !ShowRight(there) && (ShowLeft(there) <==> m.scrollWidth - m.clientWidth > 5)
  {
  }
}
