/**
The cursor rectangles of a window: floats from the top one down, then the dividers, then the tiled
panes, each without what lies above it (app/App/WindowView.swift).
*/
module CursorRects {
  import opened Rects

  datatype Edge = TopLeft | BottomLeft | TopRight | BottomRight | Left | Right | Top | Bottom

  datatype Cursor = ClosedHand | OpenHand | FrameResize(edge: Edge) | ResizeBar(leftRight: bool) | Mouse(pane: nat)

  datatype Layer = Tiled | Floating(level: int)

  /**
  A pane as the sweep sees it, in the window's coordinates: the padding of its chrome, the cursor
  rectangles of its terminal (none if it has no visible view) and the overlays of its chrome.
  */
  datatype Pane = Pane(id: nat, layer: Layer, frame: Rect, dragged: bool, padding: seq<Rect>, terminal: seq<Rect>,
                       overlays: seq<Rect>)

  datatype Divider = Divider(area: Rect, leftRight: bool)

  type Marked = (Rect, Cursor)

  // ----- what each part of the window offers -----

  function Max0(a: real): real {
    if a >= 0.0 then a else 0.0
  }

  function FloatEdges(r: Rect): seq<(Edge, Rect)> {
    [(TopLeft, Rect(r.MinX(), r.MinY(), 5.0, 5.0)),
     (BottomLeft, Rect(r.MinX(), r.MaxY() - 5.0, 5.0, 5.0)),
     (TopRight, Rect(r.MaxX() - 5.0, r.MinY(), 5.0, 5.0)),
     (BottomRight, Rect(r.MaxX() - 5.0, r.MaxY() - 5.0, 5.0, 5.0)),
     (Left, Rect(r.MinX(), r.MinY() + 5.0, 5.0, Max0(r.Height() - 10.0))),
     (Right, Rect(r.MaxX() - 5.0, r.MinY() + 5.0, 5.0, Max0(r.Height() - 10.0))),
     (Top, Rect(r.MinX() + 5.0, r.MinY(), Max0(r.Width() - 10.0), 5.0)),
     (Bottom, Rect(r.MinX() + 5.0, r.MaxY() - 5.0, Max0(r.Width() - 10.0), 5.0))]
  }

  function EdgeRects(edges: seq<(Edge, Rect)>): seq<Rect> {
    seq(|edges|, i requires 0 <= i < |edges| => edges[i].1)
  }

  function Mark(rects: seq<Rect>, cursor: Cursor): seq<Marked> {
    seq(|rects|, i requires 0 <= i < |rects| => (rects[i], cursor))
  }

  function EdgeOffers(edges: seq<(Edge, Rect)>): seq<Marked> {
    seq(|edges|, i requires 0 <= i < |edges| => (edges[i].1, FrameResize(edges[i].0)))
  }

  /** The terminal's rectangles without the edges and the overlays. */
  function TerminalOffers(terminal: seq<Rect>, cuts: seq<Rect>, pane: nat): seq<Marked> {
    if terminal == [] then []
    else Mark(terminal[0].Subtracting(cuts), Mouse(pane)) + TerminalOffers(terminal[1..], cuts, pane)
  }

  function FloatOffers(p: Pane): seq<Marked> {
    if p.dragged then [(p.frame, ClosedHand)]
    else
      var edges := FloatEdges(p.frame);
      Mark(p.padding, OpenHand) + EdgeOffers(edges) + TerminalOffers(p.terminal, EdgeRects(edges) + p.overlays, p.id)
  }

  function DividerOffers(dividers: seq<Divider>): seq<Marked> {
    seq(|dividers|, i requires 0 <= i < |dividers| => (dividers[i].area, ResizeBar(dividers[i].leftRight)))
  }

  function Areas(dividers: seq<Divider>): seq<Rect> {
    seq(|dividers|, i requires 0 <= i < |dividers| => dividers[i].area)
  }

  function TiledOffers(panes: seq<Pane>, zoomed: bool): seq<Marked> {
    if panes == [] then []
    else
      (if zoomed || panes[0].layer.Tiled? then TerminalOffers(panes[0].terminal, panes[0].overlays, panes[0].id) else [])
      + TiledOffers(panes[1..], zoomed)
  }

  // ----- the floats in their order -----

  function Insert(p: Pane, sorted: seq<Pane>): seq<Pane>
    requires p.layer.Floating? && AllFloat(sorted)
  {
    if sorted == [] || p.layer.level > sorted[0].layer.level then [p] + sorted
    else [sorted[0]] + Insert(p, sorted[1..])
  }

  predicate AllFloat(panes: seq<Pane>) {
    forall i :: 0 <= i < |panes| ==> panes[i].layer.Floating?
  }

  predicate TopFirst(panes: seq<Pane>)
    requires AllFloat(panes)
  {
    forall i, j :: 0 <= i < j < |panes| ==> panes[i].layer.level >= panes[j].layer.level
  }

  /** The floating panes, the highest level first. */
  function Floats(panes: seq<Pane>): (sorted: seq<Pane>)
    ensures AllFloat(sorted)
  {
    if panes == [] then []
    else
      var p, rest := panes[|panes| - 1], Floats(panes[..|panes| - 1]);
      if p.layer.Floating? then InsertKeepsFloats(p, rest); Insert(p, rest) else rest
  }

  lemma {:induction false} InsertKeepsFloats(p: Pane, sorted: seq<Pane>)
    requires p.layer.Floating? && AllFloat(sorted)
    ensures AllFloat(Insert(p, sorted)) && multiset(Insert(p, sorted)) == multiset(sorted) + multiset{p}
  {
    if sorted != [] && p.layer.level <= sorted[0].layer.level {
      InsertKeepsFloats(p, sorted[1..]);
      assert sorted == [sorted[0]] + sorted[1..];
    }
  }

  /** An upper bound on the levels, as an induction can carry it. */
  predicate Under(panes: seq<Pane>, level: int)
    requires AllFloat(panes)
  {
    forall i :: 0 <= i < |panes| ==> panes[i].layer.level <= level
  }

  lemma {:induction false} InsertKeepsOrder(p: Pane, sorted: seq<Pane>, level: int)
    requires p.layer.Floating? && AllFloat(sorted) && TopFirst(sorted)
    requires AllFloat(Insert(p, sorted))
    requires p.layer.level <= level && Under(sorted, level)
    ensures TopFirst(Insert(p, sorted)) && Under(Insert(p, sorted), level)
  {
    if sorted != [] && p.layer.level <= sorted[0].layer.level {
      InsertKeepsFloats(p, sorted[1..]);
      InsertKeepsOrder(p, sorted[1..], sorted[0].layer.level);
    }
  }

  function Higher(a: int, b: int): int {
    if a >= b then a else b
  }

  function OnlyFloating(panes: seq<Pane>): seq<Pane> {
    if panes == [] then []
    else OnlyFloating(panes[..|panes| - 1]) + (if panes[|panes| - 1].layer.Floating? then [panes[|panes| - 1]] else [])
  }

  /** The order holds every floating pane, higher levels first. */
  lemma {:induction false} FloatsAreSorted(panes: seq<Pane>)
    ensures TopFirst(Floats(panes)) && multiset(Floats(panes)) == multiset(OnlyFloating(panes))
  {
    if panes != [] {
      var p, rest := panes[|panes| - 1], panes[..|panes| - 1];
      FloatsAreSorted(rest);
      if p.layer.Floating? {
        InsertKeepsFloats(p, Floats(rest));
        var sorted := Floats(rest);
        var level := if sorted == [] then p.layer.level else Higher(p.layer.level, sorted[0].layer.level);
        InsertKeepsOrder(p, sorted, level);
      }
    }
  }

  // ----- the sweep -----

  /** What one layer offers, and what it covers for the layers below it. */
  datatype Sheet = Sheet(offers: seq<Marked>, blocks: seq<Rect>)

  function FloatSheets(floats: seq<Pane>): seq<Sheet> {
    seq(|floats|, i requires 0 <= i < |floats| => Sheet(FloatOffers(floats[i]), [floats[i].frame]))
  }

  /** The layers from the top. */
  function Sheets(panes: seq<Pane>, dividers: seq<Divider>, zoomed: bool): seq<Sheet> {
    FloatSheets(ShownFloats(panes, zoomed))
    + [Sheet(DividerOffers(dividers), Areas(dividers)), Sheet(TiledOffers(panes, zoomed), [])]
  }

  function Blocks(sheets: seq<Sheet>): seq<Rect> {
    if sheets == [] then [] else Blocks(sheets[..|sheets| - 1]) + sheets[|sheets| - 1].blocks
  }

  function Shown(offer: Marked, bounds: Rect, covered: seq<Rect>): seq<Marked> {
    Mark(offer.0.Intersection(bounds).Subtracting(covered), offer.1)
  }

  function AllShown(offers: seq<Marked>, bounds: Rect, covered: seq<Rect>): seq<Marked> {
    if offers == [] then []
    else AllShown(offers[..|offers| - 1], bounds, covered) + Shown(offers[|offers| - 1], bounds, covered)
  }

  /** What is left of layer `k` below the top line and the layers above it. */
  function SheetShown(sheets: seq<Sheet>, k: nat, bounds: Rect, topLine: Rect): seq<Marked>
    requires k < |sheets|
  {
    AllShown(sheets[k].offers, bounds, [topLine] + Blocks(sheets[..k]))
  }

  function Sweep(sheets: seq<Sheet>, n: nat, bounds: Rect, topLine: Rect): seq<Marked>
    requires n <= |sheets|
  {
    if n == 0 then [] else Sweep(sheets, n - 1, bounds, topLine) + SheetShown(sheets, n - 1, bounds, topLine)
  }

  method Add(result: seq<Marked>, rect: Rect, cursor: Cursor, bounds: Rect, covered: seq<Rect>) returns (more: seq<Marked>)
    ensures more == result + Shown((rect, cursor), bounds, covered)
  {
    more := result + Mark(rect.Intersection(bounds).Subtracting(covered), cursor);
  }

  method AddAll(result: seq<Marked>, offers: seq<Marked>, bounds: Rect, covered: seq<Rect>) returns (more: seq<Marked>)
    ensures more == result + AllShown(offers, bounds, covered)
  {
    more := result;
    for i := 0 to |offers|
      invariant more == result + AllShown(offers[..i], bounds, covered)
    {
      assert offers[..i + 1][..i] == offers[..i];
      more := Add(more, offers[i].0, offers[i].1, bounds, covered);
    }
    assert offers[..|offers|] == offers;
  }

  /** The floats that are shown: none while a pane is zoomed. */
  function ShownFloats(panes: seq<Pane>, zoomed: bool): (floats: seq<Pane>)
    ensures AllFloat(floats)
  {
    if zoomed then [] else Floats(panes)
  }

  /** What layer `k` is: a float, the dividers or the tiled panes. */
  predicate IsSheet(panes: seq<Pane>, dividers: seq<Divider>, zoomed: bool, k: nat, sheet: Sheet) {
    var floats := ShownFloats(panes, zoomed);
    if k < |floats| then sheet == Sheet(FloatOffers(floats[k]), [floats[k].frame])
    else if k == |floats| then sheet == Sheet(DividerOffers(dividers), Areas(dividers))
    else sheet == Sheet(TiledOffers(panes, zoomed), [])
  }

  lemma {:induction false} SheetAt(panes: seq<Pane>, dividers: seq<Divider>, zoomed: bool, k: nat)
    requires k < |Sheets(panes, dividers, zoomed)|
    ensures |Sheets(panes, dividers, zoomed)| == |ShownFloats(panes, zoomed)| + 2
    ensures IsSheet(panes, dividers, zoomed, k, Sheets(panes, dividers, zoomed)[k])
  {
  }

  /** One more layer of the sweep. */
  lemma {:induction false} SweepStep(sheets: seq<Sheet>, k: nat, bounds: Rect, topLine: Rect)
    requires k < |sheets|
    ensures Blocks(sheets[..k + 1]) == Blocks(sheets[..k]) + sheets[k].blocks
    ensures Sweep(sheets, k + 1, bounds, topLine)
            == Sweep(sheets, k, bounds, topLine) + AllShown(sheets[k].offers, bounds, [topLine] + Blocks(sheets[..k]))
  {
    assert sheets[..k + 1][..k] == sheets[..k];
  }

  /** One layer: what it offers is added, and then it covers the layers below. */
  method AddLayer(result: seq<Marked>, covered: seq<Rect>, bounds: Rect, offers: seq<Marked>, blocks: seq<Rect>,
                  ghost sheets: seq<Sheet>, ghost k: nat, ghost topLine: Rect)
    returns (more: seq<Marked>, hidden: seq<Rect>)
    requires k < |sheets| && sheets[k] == Sheet(offers, blocks)
    requires result == Sweep(sheets, k, bounds, topLine) && covered == [topLine] + Blocks(sheets[..k])
    ensures more == Sweep(sheets, k + 1, bounds, topLine) && hidden == [topLine] + Blocks(sheets[..k + 1])
  {
    more := AddAll(result, offers, bounds, covered);
    hidden := covered + blocks;
    SweepStep(sheets, k, bounds, topLine);
  }

  /** No rectangle leaves the window or meets the top line. */
  ghost predicate StaysInside(result: seq<Marked>, bounds: Rect, topLine: Rect) {
    forall i: nat, p: Point :: i < |result| && result[i].0.Contains(p) ==> bounds.Contains(p) && !topLine.Contains(p)
  }

  /** The floats' layers. */
  method AddFloats(floats: seq<Pane>, bounds: Rect, topLine: Rect, ghost sheets: seq<Sheet>)
    returns (result: seq<Marked>, covered: seq<Rect>)
    requires |floats| <= |sheets|
    requires forall i :: 0 <= i < |floats| ==> sheets[i] == Sheet(FloatOffers(floats[i]), [floats[i].frame])
    ensures result == Sweep(sheets, |floats|, bounds, topLine) && covered == [topLine] + Blocks(sheets[..|floats|])
  {
    result, covered := [], [topLine];
    for i := 0 to |floats|
      invariant covered == [topLine] + Blocks(sheets[..i])
      invariant result == Sweep(sheets, i, bounds, topLine)
    {
      result, covered := AddLayer(result, covered, bounds, FloatOffers(floats[i]), [floats[i].frame], sheets, i, topLine);
    }
  }

  /** The sweep with its two accumulators. */
  method PaneCursorRects(panes: seq<Pane>, dividers: seq<Divider>, zoomed: bool, bounds: Rect, topLine: Rect)
    returns (result: seq<Marked>)
    ensures var sheets := Sheets(panes, dividers, zoomed); result == Sweep(sheets, |sheets|, bounds, topLine)
    ensures StaysInside(result, bounds, topLine)
  {
    ghost var sheets := Sheets(panes, dividers, zoomed);
    var floats := ShownFloats(panes, zoomed);
    forall i | 0 <= i < |sheets| ensures IsSheet(panes, dividers, zoomed, i, sheets[i]) {
      SheetAt(panes, dividers, zoomed, i);
    }
    ResultStaysInside(panes, dividers, zoomed, bounds, topLine);
    result := SweepAll(floats, dividers, TiledOffers(panes, zoomed), bounds, topLine, sheets);
  }

  method SweepAll(floats: seq<Pane>, dividers: seq<Divider>, tiled: seq<Marked>, bounds: Rect, topLine: Rect,
                  ghost sheets: seq<Sheet>)
    returns (result: seq<Marked>)
    requires |sheets| == |floats| + 2
    requires forall i :: 0 <= i < |floats| ==> sheets[i] == Sheet(FloatOffers(floats[i]), [floats[i].frame])
    requires sheets[|floats|] == Sheet(DividerOffers(dividers), Areas(dividers)) && sheets[|floats| + 1] == Sheet(tiled, [])
    ensures result == Sweep(sheets, |sheets|, bounds, topLine)
  {
    var covered;
    result, covered := AddFloats(floats, bounds, topLine, sheets);
    var k := |floats|;
    result, covered := AddLayer(result, covered, bounds, DividerOffers(dividers), Areas(dividers), sheets, k, topLine);
    result, covered := AddLayer(result, covered, bounds, tiled, [], sheets, k + 1, topLine);
  }

  // ----- what the sweep shows -----

  function RectsOf(marked: seq<Marked>): seq<Rect> {
    seq(|marked|, i requires 0 <= i < |marked| => marked[i].0)
  }

  /** How often the offers hold a point. */
  function OfferCount(offers: seq<Marked>, p: Point): nat {
    if offers == [] then 0 else OfferCount(offers[..|offers| - 1], p) + One(offers[|offers| - 1].0.Contains(p))
  }

  lemma {:induction false} ShownIsExact(offer: Marked, bounds: Rect, covered: seq<Rect>, p: Point)
    ensures Covers(RectsOf(Shown(offer, bounds, covered)), p)
            == One(offer.0.Contains(p) && bounds.Contains(p) && !AnyContains(covered, p))
  {
    var seen := offer.0.Intersection(bounds);
    SubtractingIsExact(seen, covered, p);
    IntersectionIsExact(offer.0, bounds, p);
    assert RectsOf(Shown(offer, bounds, covered)) == seen.Subtracting(covered);
  }

  lemma {:induction false} AllShownIsExact(offers: seq<Marked>, bounds: Rect, covered: seq<Rect>, p: Point)
    ensures Covers(RectsOf(AllShown(offers, bounds, covered)), p)
            == if bounds.Contains(p) && !AnyContains(covered, p) then OfferCount(offers, p) else 0
  {
    if offers != [] {
      var before, last := offers[..|offers| - 1], offers[|offers| - 1];
      AllShownIsExact(before, bounds, covered, p);
      ShownIsExact(last, bounds, covered, p);
      var a, b := AllShown(before, bounds, covered), Shown(last, bounds, covered);
      assert RectsOf(a + b) == RectsOf(a) + RectsOf(b);
      CoversAppended(RectsOf(a), RectsOf(b), p);
    }
  }

  lemma {:induction false} BlocksHold(sheets: seq<Sheet>, j: nat, block: Rect, p: Point)
    requires j < |sheets| && block in sheets[j].blocks && block.Contains(p)
    ensures AnyContains(Blocks(sheets), p)
  {
    var n := |sheets| - 1;
    var all := Blocks(sheets[..n]) + sheets[n].blocks;
    AnyContainsIs(all, p);
    if j == n {
      var i :| 0 <= i < |sheets[n].blocks| && sheets[n].blocks[i] == block;
      assert all[|Blocks(sheets[..n])| + i].Contains(p);
    } else {
      BlocksHold(sheets[..n], j, block, p);
      AnyContainsIs(Blocks(sheets[..n]), p);
      var i :| 0 <= i < |Blocks(sheets[..n])| && Blocks(sheets[..n])[i].Contains(p);
      assert all[i].Contains(p);
    }
  }

  /**
  A layer shows a point exactly as often as it offers it, if the point is inside the window and no
  layer above and no top line covers it; otherwise not at all.
  */
  lemma {:induction false} LayerShowsWhatIsUncovered(sheets: seq<Sheet>, k: nat, bounds: Rect, topLine: Rect, p: Point)
    requires k < |sheets|
    ensures Covers(RectsOf(SheetShown(sheets, k, bounds, topLine)), p)
            == if bounds.Contains(p) && !topLine.Contains(p) && !AnyContains(Blocks(sheets[..k]), p)
               then OfferCount(sheets[k].offers, p) else 0
  {
    var covered := [topLine] + Blocks(sheets[..k]);
    AllShownIsExact(sheets[k].offers, bounds, covered, p);
    assert covered[1..] == Blocks(sheets[..k]);
  }

  /** No cursor rectangle of a lower layer meets the top line or what a higher layer covers. */
  lemma {:induction false} LowerLayersStayBelow(sheets: seq<Sheet>, j: nat, k: nat, bounds: Rect, topLine: Rect,
                                                i: nat, block: Rect, p: Point)
    requires j < k < |sheets| && block in sheets[j].blocks
    requires i < |SheetShown(sheets, k, bounds, topLine)| && SheetShown(sheets, k, bounds, topLine)[i].0.Contains(p)
    ensures bounds.Contains(p) && !topLine.Contains(p) && !block.Contains(p)
  {
    var shown := SheetShown(sheets, k, bounds, topLine);
    LayerShowsWhatIsUncovered(sheets, k, bounds, topLine, p);
    CoversHolds(RectsOf(shown), i, p);
    if block.Contains(p) {
      assert sheets[..k][j] == sheets[j];
      BlocksHold(sheets[..k], j, block, p);
    }
  }

  /** The layer that a rectangle of the result comes from. */
  lemma {:induction false} LayerOf(sheets: seq<Sheet>, n: nat, bounds: Rect, topLine: Rect, i: nat) returns (k: nat, at: nat)
    requires n <= |sheets| && i < |Sweep(sheets, n, bounds, topLine)|
    ensures k < n && at < |SheetShown(sheets, k, bounds, topLine)|
    ensures Sweep(sheets, n, bounds, topLine)[i] == SheetShown(sheets, k, bounds, topLine)[at]
  {
    var before := Sweep(sheets, n - 1, bounds, topLine);
    if i < |before| {
      k, at := LayerOf(sheets, n - 1, bounds, topLine, i);
    } else {
      k, at := n - 1, i - |before|;
    }
  }

  /** No cursor rectangle of a layer leaves the window or meets the top line. */
  lemma {:induction false} LayerIsInside(sheets: seq<Sheet>, k: nat, bounds: Rect, topLine: Rect, at: nat, p: Point)
    requires k < |sheets| && at < |SheetShown(sheets, k, bounds, topLine)|
    requires SheetShown(sheets, k, bounds, topLine)[at].0.Contains(p)
    ensures bounds.Contains(p) && !topLine.Contains(p)
  {
    LayerShowsWhatIsUncovered(sheets, k, bounds, topLine, p);
    CoversHolds(RectsOf(SheetShown(sheets, k, bounds, topLine)), at, p);
  }

  /**
  Every rectangle of the result, zoomed or not, lies inside the window and outside the top line, and
  belongs to a layer such that nothing which a higher layer covers meets it.
  */
  lemma {:induction false} ResultIsLayered(panes: seq<Pane>, dividers: seq<Divider>, zoomed: bool, bounds: Rect, topLine: Rect,
                                           i: nat, p: Point) returns (k: nat, at: nat)
    requires var sheets := Sheets(panes, dividers, zoomed);
             var result := Sweep(sheets, |sheets|, bounds, topLine);
             i < |result| && result[i].0.Contains(p)
    ensures bounds.Contains(p) && !topLine.Contains(p)
    ensures var sheets := Sheets(panes, dividers, zoomed);
            && k < |sheets| && at < |SheetShown(sheets, k, bounds, topLine)|
            && Sweep(sheets, |sheets|, bounds, topLine)[i] == SheetShown(sheets, k, bounds, topLine)[at]
            && forall j, block :: 0 <= j < k && block in sheets[j].blocks ==> !block.Contains(p)
  {
    var sheets := Sheets(panes, dividers, zoomed);
    k, at := LayerOf(sheets, |sheets|, bounds, topLine, i);
    LayerIsInside(sheets, k, bounds, topLine, at, p);
    forall j, block | 0 <= j < k && block in sheets[j].blocks ensures !block.Contains(p) {
      LowerLayersStayBelow(sheets, j, k, bounds, topLine, at, block, p);
    }
  }

  lemma {:induction false} ResultStaysInside(panes: seq<Pane>, dividers: seq<Divider>, zoomed: bool, bounds: Rect, topLine: Rect)
    ensures var sheets := Sheets(panes, dividers, zoomed); StaysInside(Sweep(sheets, |sheets|, bounds, topLine), bounds, topLine)
  {
    var sheets := Sheets(panes, dividers, zoomed);
    var result := Sweep(sheets, |sheets|, bounds, topLine);
    forall i: nat, p: Point | i < |result| && result[i].0.Contains(p) ensures bounds.Contains(p) && !topLine.Contains(p) {
      var k, at := ResultIsLayered(panes, dividers, zoomed, bounds, topLine, i, p);
    }
  }

  /**
  In the window's terms: a float's cursor rectangles stay out of every float before it in the order,
  the dividers' out of every float, and the tiled panes' out of every float and divider.
  */
  lemma {:induction false} NothingShowsThroughAFloat(panes: seq<Pane>, dividers: seq<Divider>, zoomed: bool, bounds: Rect,
                                                     topLine: Rect, k: nat, i: nat, p: Point)
    requires k < |ShownFloats(panes, zoomed)| + 2
    requires var shown := SheetShown(Sheets(panes, dividers, zoomed), k, bounds, topLine); i < |shown| && shown[i].0.Contains(p)
    ensures bounds.Contains(p) && !topLine.Contains(p)
    ensures forall j :: 0 <= j < k && j < |ShownFloats(panes, zoomed)| ==> !ShownFloats(panes, zoomed)[j].frame.Contains(p)
    ensures k == |ShownFloats(panes, zoomed)| + 1 ==> forall d :: d in dividers ==> !d.area.Contains(p)
  {
    var sheets, floats := Sheets(panes, dividers, zoomed), ShownFloats(panes, zoomed);
    LayerIsInside(sheets, k, bounds, topLine, i, p);
    forall j | 0 <= j < k && j < |floats| ensures !floats[j].frame.Contains(p) {
      SheetAt(panes, dividers, zoomed, j);
      LowerLayersStayBelow(sheets, j, k, bounds, topLine, i, floats[j].frame, p);
    }
    if k == |floats| + 1 {
      forall d | d in dividers ensures !d.area.Contains(p) {
        var x :| 0 <= x < |dividers| && dividers[x] == d;
        assert Areas(dividers)[x] == d.area;
        SheetAt(panes, dividers, zoomed, |floats|);
        LowerLayersStayBelow(sheets, |floats|, k, bounds, topLine, i, d.area, p);
      }
    }
  }

  /** Of two floats, the one with the higher level never has its frame crossed by the other's rectangles. */
  lemma {:induction false} HigherFloatsHideLower(panes: seq<Pane>, dividers: seq<Divider>, bounds: Rect, topLine: Rect,
                                                 j: nat, k: nat, i: nat, p: Point)
    requires j < |Floats(panes)| && k < |Floats(panes)| && Floats(panes)[j].layer.level > Floats(panes)[k].layer.level
    requires var shown := SheetShown(Sheets(panes, dividers, false), k, bounds, topLine); i < |shown| && shown[i].0.Contains(p)
    ensures !Floats(panes)[j].frame.Contains(p)
  {
    FloatsAreSorted(panes);
    assert j < k;
    NothingShowsThroughAFloat(panes, dividers, false, bounds, topLine, k, i, p);
    assert !ShownFloats(panes, false)[j].frame.Contains(p);
  }
}
