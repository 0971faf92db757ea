/**
Which cursor the window shows where (app/App/WindowView.swift): for each layer, each cursor and each
point, how many rectangles with that cursor hold the point, in terms of the panes and the dividers.
*/
module CursorTheorems {
  import opened Rects
  import opened CursorRects

  /** How many rectangles with a cursor hold a point. */
  function CountOf(marked: seq<Marked>, c: Cursor, p: Point): nat {
    if marked == [] then 0 else One(marked[0].1 == c && marked[0].0.Contains(p)) + CountOf(marked[1..], c, p)
  }

  lemma {:induction false} CountAppended(a: seq<Marked>, b: seq<Marked>, c: Cursor, p: Point)
    ensures CountOf(a + b, c, p) == CountOf(a, c, p) + CountOf(b, c, p)
  {
    if a == [] {
      assert a + b == b;
    } else {
      CountAppended(a[1..], b, c, p);
      assert (a + b)[1..] == a[1..] + b;
    }
  }

  lemma {:induction false} MarkCount(rects: seq<Rect>, cursor: Cursor, c: Cursor, p: Point)
    ensures CountOf(Mark(rects, cursor), c, p) == if c == cursor then Covers(rects, p) else 0
  {
    if rects != [] {
      MarkCount(rects[1..], cursor, c, p);
      assert Mark(rects, cursor)[1..] == Mark(rects[1..], cursor);
    }
  }

  lemma {:induction false} ShownCount(offer: Marked, bounds: Rect, covered: seq<Rect>, c: Cursor, p: Point)
    ensures CountOf(Shown(offer, bounds, covered), c, p)
            == if bounds.Contains(p) && !AnyContains(covered, p) then One(offer.1 == c && offer.0.Contains(p)) else 0
  {
    var seen := offer.0.Intersection(bounds);
    MarkCount(seen.Subtracting(covered), offer.1, c, p);
    SubtractingIsExact(seen, covered, p);
    IntersectionIsExact(offer.0, bounds, p);
  }

  lemma {:induction false} AllShownCount(offers: seq<Marked>, bounds: Rect, covered: seq<Rect>, c: Cursor, p: Point)
    ensures CountOf(AllShown(offers, bounds, covered), c, p)
            == if bounds.Contains(p) && !AnyContains(covered, p) then CountOf(offers, c, p) else 0
  {
    if offers != [] {
      var before, last := offers[..|offers| - 1], offers[|offers| - 1];
      AllShownCount(before, bounds, covered, c, p);
      ShownCount(last, bounds, covered, c, p);
      CountAppended(AllShown(before, bounds, covered), Shown(last, bounds, covered), c, p);
      assert offers == before + [last];
      CountAppended(before, [last], c, p);
      assert CountOf([last], c, p) == One(last.1 == c && last.0.Contains(p)) + CountOf([], c, p);
    }
  }

  // ----- the edges of a float -----

  /** The four corners are squares of 5 points, the four sides the strips between them. */
  predicate OnEdge(r: Rect, edge: Edge, p: Point) {
    var left, right := r.MinX() <= p.x < r.MinX() + 5.0, r.MaxX() - 5.0 <= p.x < r.MaxX();
    var top, bottom := r.MinY() <= p.y < r.MinY() + 5.0, r.MaxY() - 5.0 <= p.y < r.MaxY();
    var across, down := r.MinX() + 5.0 <= p.x < r.MaxX() - 5.0, r.MinY() + 5.0 <= p.y < r.MaxY() - 5.0;
    match edge
    case TopLeft => left && top
    case BottomLeft => left && bottom
    case TopRight => right && top
    case BottomRight => right && bottom
    case Left => left && down
    case Right => right && down
    case Top => across && top
    case Bottom => across && bottom
  }

  ghost predicate OnSomeEdge(r: Rect, p: Point) {
    exists e :: OnEdge(r, e, p)
  }

  function Index(edge: Edge): nat {
    match edge
    case TopLeft => 0 case BottomLeft => 1 case TopRight => 2 case BottomRight => 3
    case Left => 4 case Right => 5 case Top => 6 case Bottom => 7
  }

  lemma {:induction false} CornerAt(r: Rect, edge: Edge, p: Point)
    requires Index(edge) < 4
    ensures var at := FloatEdges(r)[Index(edge)]; at.0 == edge && (at.1.Contains(p) <==> OnEdge(r, edge, p))
  {
  }

  lemma {:induction false} SideAt(r: Rect, edge: Edge, p: Point)
    requires Index(edge) >= 4
    ensures var at := FloatEdges(r)[Index(edge)]; at.0 == edge && (at.1.Contains(p) <==> OnEdge(r, edge, p))
  {
  }

  lemma {:induction false} EdgeAt(r: Rect, edge: Edge, p: Point)
    ensures |FloatEdges(r)| == 8
    ensures var at := FloatEdges(r)[Index(edge)]; at.0 == edge && (at.1.Contains(p) <==> OnEdge(r, edge, p))
  {
    if Index(edge) < 4 { CornerAt(r, edge, p); } else { SideAt(r, edge, p); }
  }

  /** The edge rectangle that stands at a place. */
  lemma {:induction false} EdgeHere(r: Rect, i: nat, p: Point)
    requires i < 8
    ensures var (edge, rect) := FloatEdges(r)[i]; Index(edge) == i && (rect.Contains(p) <==> OnEdge(r, edge, p))
  {
    EdgeAt(r, FloatEdges(r)[i].0, p);
  }

  lemma {:induction false} EdgeCount(edges: seq<(Edge, Rect)>, edge: Edge, i: nat, p: Point)
    requires i < |edges| && edges[i].0 == edge && forall j :: 0 <= j < |edges| && j != i ==> edges[j].0 != edge
    ensures CountOf(EdgeOffers(edges), FrameResize(edge), p) == One(edges[i].1.Contains(p))
  {
    assert EdgeOffers(edges)[1..] == EdgeOffers(edges[1..]);
    if i == 0 {
      NoEdgeCount(edges[1..], FrameResize(edge), p);
    } else {
      EdgeCount(edges[1..], edge, i - 1, p);
    }
  }

  lemma {:induction false} NoEdgeCount(edges: seq<(Edge, Rect)>, c: Cursor, p: Point)
    requires forall j :: 0 <= j < |edges| ==> FrameResize(edges[j].0) != c
    ensures CountOf(EdgeOffers(edges), c, p) == 0
  {
    if edges != [] {
      assert EdgeOffers(edges)[1..] == EdgeOffers(edges[1..]);
      NoEdgeCount(edges[1..], c, p);
    }
  }

  lemma {:induction false} EdgesCount(r: Rect, c: Cursor, p: Point)
    ensures CountOf(EdgeOffers(FloatEdges(r)), c, p) == if c.FrameResize? then One(OnEdge(r, c.edge, p)) else 0
  {
    var edges := FloatEdges(r);
    if c.FrameResize? {
      EdgeAt(r, c.edge, p);
      forall j | 0 <= j < 8 && j != Index(c.edge) ensures edges[j].0 != c.edge {
        EdgeHere(r, j, p);
      }
      EdgeCount(edges, c.edge, Index(c.edge), p);
    } else {
      NoEdgeCount(edges, c, p);
    }
  }

  lemma {:induction false} EdgeRectsHold(r: Rect, p: Point)
    ensures AnyContains(EdgeRects(FloatEdges(r)), p) <==> OnSomeEdge(r, p)
  {
    var edges := FloatEdges(r);
    AnyContainsIs(EdgeRects(edges), p);
    if e :| OnEdge(r, e, p) {
      EdgeAt(r, e, p);
      assert EdgeRects(edges)[Index(e)].Contains(p);
    }
    if i :| 0 <= i < 8 && EdgeRects(edges)[i].Contains(p) {
      EdgeHere(r, i, p);
      assert OnEdge(r, edges[i].0, p);
    }
  }

  /** The edges of a frame are inside it exactly if it is at least 5 points wide and high. */
  lemma {:induction false} EdgesAreInsideExactly(r: Rect)
    requires r.Rect?
    ensures (forall e, p :: OnEdge(r, e, p) ==> r.Contains(p)) <==> r.Width() >= 5.0 && r.Height() >= 5.0
  {
    if r.Width() < 5.0 || r.Height() < 5.0 {
      var far := Point(if r.Width() < 5.0 then r.MinX() + 4.0 + r.Width() / 5.0 else r.MinX(),
                       if r.Height() < 5.0 then r.MinY() + 4.0 + r.Height() / 5.0 else r.MinY());
      assert OnEdge(r, TopLeft, far);
    }
  }

  /** No point is on two edges of a frame exactly if it is at least 10 points wide and high. */
  lemma {:induction false} EdgesAreDisjointExactly(r: Rect)
    requires !r.Empty()
    ensures (forall e, f, p :: OnEdge(r, e, p) && OnEdge(r, f, p) ==> e == f) <==> r.Width() >= 10.0 && r.Height() >= 10.0
  {
    var x := if r.Width() < 5.0 then r.MinX() else r.MaxX() - 5.0;
    var y := if r.Height() < 5.0 then r.MinY() else r.MaxY() - 5.0;
    if r.Width() < 10.0 {
      assert OnEdge(r, TopLeft, Point(x, r.MinY())) && OnEdge(r, TopRight, Point(x, r.MinY()));
    } else if r.Height() < 10.0 {
      assert OnEdge(r, TopLeft, Point(r.MinX(), y)) && OnEdge(r, BottomLeft, Point(r.MinX(), y));
    }
  }

  /** Every point of such a frame is on an edge, or at least 5 points from each side. */
  lemma {:induction false} EdgesAreTheBorder(r: Rect, p: Point)
    requires r.Width() >= 10.0 && r.Height() >= 10.0
    ensures OnSomeEdge(r, p) <==>
              && r.Contains(p)
              && !(r.MinX() + 5.0 <= p.x < r.MaxX() - 5.0 && r.MinY() + 5.0 <= p.y < r.MaxY() - 5.0)
  {
    assert OnEdge(r, TopLeft, p) || OnEdge(r, Top, p) || OnEdge(r, TopRight, p) || OnEdge(r, Left, p)
           || OnEdge(r, Right, p) || OnEdge(r, BottomLeft, p) || OnEdge(r, Bottom, p) || OnEdge(r, BottomRight, p)
           <==> OnSomeEdge(r, p) by {
      forall e | OnEdge(r, e, p) ensures Index(e) < 8 {
      }
    }
  }

  // ----- what each layer offers -----

  lemma {:induction false} TerminalCount(terminal: seq<Rect>, cuts: seq<Rect>, pane: nat, c: Cursor, p: Point)
    ensures CountOf(TerminalOffers(terminal, cuts, pane), c, p)
            == if c == Mouse(pane) && !AnyContains(cuts, p) then Covers(terminal, p) else 0
  {
    if terminal != [] {
      var first := Mark(terminal[0].Subtracting(cuts), Mouse(pane));
      CountAppended(first, TerminalOffers(terminal[1..], cuts, pane), c, p);
      MarkCount(terminal[0].Subtracting(cuts), Mouse(pane), c, p);
      SubtractingIsExact(terminal[0], cuts, p);
      TerminalCount(terminal[1..], cuts, pane, c, p);
    }
  }

  /**
  What a float shows at a point: while it is dragged the closed hand on its frame and nothing else;
  otherwise the open hand on its padding, each edge with its name, and on the terminal its mouse
  cursor, except on an edge or an overlay.
  */
  ghost function FloatCount(f: Pane, c: Cursor, p: Point): nat {
    match c
    case ClosedHand => One(f.dragged && f.frame.Contains(p))
    case OpenHand => if f.dragged then 0 else Covers(f.padding, p)
    case FrameResize(edge) => One(!f.dragged && OnEdge(f.frame, edge, p))
    case ResizeBar(_) => 0
    case Mouse(pane) =>
      if f.dragged || pane != f.id || OnSomeEdge(f.frame, p) || AnyContains(f.overlays, p) then 0 else Covers(f.terminal, p)
  }

  lemma {:induction false} AnyAppended(a: seq<Rect>, b: seq<Rect>, p: Point)
    ensures AnyContains(a + b, p) <==> AnyContains(a, p) || AnyContains(b, p)
  {
    if a == [] {
      assert a + b == b;
    } else {
      AnyAppended(a[1..], b, p);
      assert (a + b)[1..] == a[1..] + b;
    }
  }

  lemma {:induction false} FloatOffersAre(f: Pane, c: Cursor, p: Point)
    ensures CountOf(FloatOffers(f), c, p) == FloatCount(f, c, p)
  {
    if f.dragged {
      assert CountOf([(f.frame, ClosedHand)], c, p) == One(ClosedHand == c && f.frame.Contains(p)) + CountOf([], c, p);
    } else {
      var edges := FloatEdges(f.frame);
      var cuts := EdgeRects(edges) + f.overlays;
      var padding, terminal := Mark(f.padding, OpenHand), TerminalOffers(f.terminal, cuts, f.id);
      CountAppended(padding + EdgeOffers(edges), terminal, c, p);
      CountAppended(padding, EdgeOffers(edges), c, p);
      MarkCount(f.padding, OpenHand, c, p);
      EdgesCount(f.frame, c, p);
      TerminalCount(f.terminal, cuts, f.id, c, p);
      AnyAppended(EdgeRects(edges), f.overlays, p);
      EdgeRectsHold(f.frame, p);
    }
  }

  /** The dividers with a direction that hold a point. */
  function DividersAt(dividers: seq<Divider>, leftRight: bool, p: Point): nat {
    if dividers == [] then 0
    else One(dividers[0].leftRight == leftRight && dividers[0].area.Contains(p)) + DividersAt(dividers[1..], leftRight, p)
  }

  lemma {:induction false} DividerOffersAre(dividers: seq<Divider>, c: Cursor, p: Point)
    ensures CountOf(DividerOffers(dividers), c, p) == if c.ResizeBar? then DividersAt(dividers, c.leftRight, p) else 0
  {
    if dividers != [] {
      assert DividerOffers(dividers)[1..] == DividerOffers(dividers[1..]);
      DividerOffersAre(dividers[1..], c, p);
    }
  }

  /** The terminal rectangles of a tiled pane, or of any while one is zoomed, that hold a point on no overlay of it. */
  function TiledAt(panes: seq<Pane>, zoomed: bool, pane: nat, p: Point): nat {
    if panes == [] then 0
    else
      var here := panes[0].id == pane && (zoomed || panes[0].layer == Tiled) && !AnyContains(panes[0].overlays, p);
      (if here then Covers(panes[0].terminal, p) else 0) + TiledAt(panes[1..], zoomed, pane, p)
  }

  lemma {:induction false} TiledOffersAre(panes: seq<Pane>, zoomed: bool, c: Cursor, p: Point)
    ensures CountOf(TiledOffers(panes, zoomed), c, p) == if c.Mouse? then TiledAt(panes, zoomed, c.pane, p) else 0
  {
    if panes != [] {
      var q := panes[0];
      var first := if zoomed || q.layer.Tiled? then TerminalOffers(q.terminal, q.overlays, q.id) else [];
      CountAppended(first, TiledOffers(panes[1..], zoomed), c, p);
      TerminalCount(q.terminal, q.overlays, q.id, c, p);
      TiledOffersAre(panes[1..], zoomed, c, p);
    }
  }

  // ----- what the window shows -----

  /** The first `n` floats leave a point to the layers below them. */
  predicate Below(floats: seq<Pane>, n: nat, p: Point)
    requires n <= |floats|
  {
    forall j :: 0 <= j < n ==> !floats[j].frame.Contains(p)
  }

  /**
  How often each cursor is shown at a point: a float shows its own where no higher float's frame lies,
  the dividers theirs below all floats, and the tiled panes theirs below the dividers.
  */
  ghost function ShownAt(floats: seq<Pane>, n: nat, c: Cursor, p: Point): nat
    requires n <= |floats|
  {
    if n == 0 then 0
    else ShownAt(floats, n - 1, c, p) + if Below(floats, n - 1, p) then FloatCount(floats[n - 1], c, p) else 0
  }

  ghost function WindowShows(panes: seq<Pane>, dividers: seq<Divider>, zoomed: bool, c: Cursor, p: Point): nat {
    var floats := ShownFloats(panes, zoomed);
    ShownAt(floats, |floats|, c, p)
    + if Below(floats, |floats|, p) then LowerShow(panes, dividers, zoomed, c, p) else 0
  }

  /** Below all floats: each divider's cursor has its direction, and where no divider lies the terminals have theirs. */
  function LowerShow(panes: seq<Pane>, dividers: seq<Divider>, zoomed: bool, c: Cursor, p: Point): nat {
    match c
    case ResizeBar(leftRight) => DividersAt(dividers, leftRight, p)
    case Mouse(pane) =>
      if DividersAt(dividers, true, p) + DividersAt(dividers, false, p) > 0 then 0 else TiledAt(panes, zoomed, pane, p)
    case _ => 0
  }

  lemma {:induction false} BlocksOfFloats(sheets: seq<Sheet>, floats: seq<Pane>, n: nat, p: Point)
    requires n <= |floats| <= |sheets|
    requires forall i :: 0 <= i < |floats| ==> sheets[i] == Sheet(FloatOffers(floats[i]), [floats[i].frame])
    ensures AnyContains(Blocks(sheets[..n]), p) <==> !Below(floats, n, p)
  {
    if n > 0 {
      BlocksOfFloats(sheets, floats, n - 1, p);
      assert sheets[..n][..n - 1] == sheets[..n - 1];
      AnyAppended(Blocks(sheets[..n - 1]), [floats[n - 1].frame], p);
      assert AnyContains([floats[n - 1].frame], p) <==> floats[n - 1].frame.Contains(p) || AnyContains([], p);
    }
  }

  lemma {:induction false} SheetCount(sheets: seq<Sheet>, k: nat, bounds: Rect, topLine: Rect, c: Cursor, p: Point)
    requires k < |sheets| && bounds.Contains(p) && !topLine.Contains(p)
    ensures CountOf(Sweep(sheets, k + 1, bounds, topLine), c, p)
            == CountOf(Sweep(sheets, k, bounds, topLine), c, p)
               + if AnyContains(Blocks(sheets[..k]), p) then 0 else CountOf(sheets[k].offers, c, p)
  {
    var covered := [topLine] + Blocks(sheets[..k]);
    CountAppended(Sweep(sheets, k, bounds, topLine), SheetShown(sheets, k, bounds, topLine), c, p);
    AllShownCount(sheets[k].offers, bounds, covered, c, p);
    AnyAppended([topLine], Blocks(sheets[..k]), p);
    assert AnyContains([topLine], p) <==> topLine.Contains(p) || AnyContains([], p);
  }

  lemma {:induction false} FloatsShow(sheets: seq<Sheet>, floats: seq<Pane>, n: nat, bounds: Rect, topLine: Rect,
                                      c: Cursor, p: Point)
    requires n <= |floats| <= |sheets| && bounds.Contains(p) && !topLine.Contains(p)
    requires forall i :: 0 <= i < |floats| ==> sheets[i] == Sheet(FloatOffers(floats[i]), [floats[i].frame])
    ensures CountOf(Sweep(sheets, n, bounds, topLine), c, p) == ShownAt(floats, n, c, p)
  {
    if n > 0 {
      var k := n - 1;
      FloatsShow(sheets, floats, k, bounds, topLine, c, p);
      SheetCount(sheets, k, bounds, topLine, c, p);
      assert sheets[k].offers == FloatOffers(floats[k]);
      BlocksOfFloats(sheets, floats, k, p);
      FloatOffersAre(floats[k], c, p);
    }
  }

  lemma {:induction false} AreasHold(dividers: seq<Divider>, p: Point)
    ensures AnyContains(Areas(dividers), p) <==> DividersAt(dividers, true, p) + DividersAt(dividers, false, p) > 0
  {
    if dividers != [] {
      assert Areas(dividers)[1..] == Areas(dividers[1..]);
      AreasHold(dividers[1..], p);
    }
  }

  lemma {:induction false} LowerLayersShow(sheets: seq<Sheet>, floats: seq<Pane>, dividers: seq<Divider>, tiled: seq<Marked>,
                                           bounds: Rect, topLine: Rect, c: Cursor, p: Point)
    requires |sheets| == |floats| + 2 && bounds.Contains(p) && !topLine.Contains(p)
    requires forall i :: 0 <= i < |floats| ==> sheets[i] == Sheet(FloatOffers(floats[i]), [floats[i].frame])
    requires sheets[|floats|] == Sheet(DividerOffers(dividers), Areas(dividers)) && sheets[|floats| + 1] == Sheet(tiled, [])
    ensures CountOf(Sweep(sheets, |sheets|, bounds, topLine), c, p)
            == ShownAt(floats, |floats|, c, p)
               + (if Below(floats, |floats|, p) then CountOf(DividerOffers(dividers), c, p) else 0)
               + (if Below(floats, |floats|, p) && !AnyContains(Areas(dividers), p) then CountOf(tiled, c, p) else 0)
  {
    var n := |floats|;
    FloatsShow(sheets, floats, n, bounds, topLine, c, p);
    BlocksOfFloats(sheets, floats, n, p);
    SheetCount(sheets, n, bounds, topLine, c, p);
    SheetCount(sheets, n + 1, bounds, topLine, c, p);
    assert sheets[..n + 1][..n] == sheets[..n];
    AnyAppended(Blocks(sheets[..n]), Areas(dividers), p);
  }

  /** At every point inside the window and below the top line, each cursor is shown as often as the window's parts say. */
  lemma {:induction false} CursorsAreExact(panes: seq<Pane>, dividers: seq<Divider>, zoomed: bool, bounds: Rect, topLine: Rect,
                                           c: Cursor, p: Point)
    requires bounds.Contains(p) && !topLine.Contains(p)
    ensures var sheets := Sheets(panes, dividers, zoomed);
            CountOf(Sweep(sheets, |sheets|, bounds, topLine), c, p) == WindowShows(panes, dividers, zoomed, c, p)
  {
    var sheets, floats := Sheets(panes, dividers, zoomed), ShownFloats(panes, zoomed);
    forall i | 0 <= i < |sheets| ensures IsSheet(panes, dividers, zoomed, i, sheets[i]) && |sheets| == |floats| + 2 {
      SheetAt(panes, dividers, zoomed, i);
    }
    LowerLayersShow(sheets, floats, dividers, TiledOffers(panes, zoomed), bounds, topLine, c, p);
    LowerOffersAre(panes, dividers, zoomed, c, p);
  }

  lemma {:induction false} LowerOffersAre(panes: seq<Pane>, dividers: seq<Divider>, zoomed: bool, c: Cursor, p: Point)
    ensures CountOf(DividerOffers(dividers), c, p)
            + (if AnyContains(Areas(dividers), p) then 0 else CountOf(TiledOffers(panes, zoomed), c, p))
            == LowerShow(panes, dividers, zoomed, c, p)
  {
    DividerOffersAre(dividers, c, p);
    TiledOffersAre(panes, zoomed, c, p);
    AreasHold(dividers, p);
  }

  /** A float that is dragged shows the closed hand on its whole visible frame, and no other cursor there. */
  lemma {:induction false} DraggedShowsOnlyTheHand(f: Pane, c: Cursor, p: Point)
    requires f.dragged
    ensures CountOf(FloatOffers(f), c, p) == if c == ClosedHand && f.frame.Contains(p) then 1 else 0
  {
    FloatOffersAre(f, c, p);
  }
}
