/**
Rectangles and the subtraction of cuts from one (app/App/PaneChrome.swift). Coordinates are real
numbers, and a rectangle holds its lower sides and not its upper sides.
*/
module Rects {
  datatype Point = Point(x: real, y: real)

  function Min(a: real, b: real): real {
    if a <= b then a else b
  }

  function Max(a: real, b: real): real {
    if a >= b then a else b
  }

  function Abs(a: real): real {
    if a >= 0.0 then a else -a
  }

  /** A rectangle with any sizes; its sides are read as if they were not negative. */
  datatype Rect = Null | Rect(x: real, y: real, w: real, h: real) {
    function MinX(): real { if Null? then 0.0 else Min(x, x + w) }
    function MaxX(): real { if Null? then 0.0 else Max(x, x + w) }
    function MinY(): real { if Null? then 0.0 else Min(y, y + h) }
    function MaxY(): real { if Null? then 0.0 else Max(y, y + h) }
    function Width(): real { if Null? then 0.0 else Abs(w) }
    function Height(): real { if Null? then 0.0 else Abs(h) }

    predicate Empty() {
      Null? || w == 0.0 || h == 0.0
    }

    predicate Contains(p: Point) {
      Rect? && MinX() <= p.x < MaxX() && MinY() <= p.y < MaxY()
    }

    function Intersection(r: Rect): Rect {
      var left, right := Max(MinX(), r.MinX()), Min(MaxX(), r.MaxX());
      var top, bottom := Max(MinY(), r.MinY()), Min(MaxY(), r.MaxY());
      if Null? || r.Null? || right < left || bottom < top then Null
      else Rect(left, top, right - left, bottom - top)
    }

    function Subtracting(cuts: seq<Rect>): seq<Rect> {
      AllCut(if Null? || Empty() then [] else [this], cuts)
    }
  }

  function NonEmpty(rects: seq<Rect>): seq<Rect> {
    if rects == [] then []
    else (if rects[0].Empty() then [] else [rects[0]]) + NonEmpty(rects[1..])
  }

  /** The parts of a rectangle above, below, left and right of a cut. */
  function Cut(rect: Rect, cut: Rect): seq<Rect> {
    var overlap := rect.Intersection(cut);
    if overlap.Null? || overlap.Empty() then [rect]
    else
      NonEmpty([Rect(rect.MinX(), rect.MinY(), rect.Width(), overlap.MinY() - rect.MinY()),
                Rect(rect.MinX(), overlap.MaxY(), rect.Width(), rect.MaxY() - overlap.MaxY()),
                Rect(rect.MinX(), overlap.MinY(), overlap.MinX() - rect.MinX(), overlap.Height()),
                Rect(overlap.MaxX(), overlap.MinY(), rect.MaxX() - overlap.MaxX(), overlap.Height())])
  }

  function EachCut(rects: seq<Rect>, cut: Rect): seq<Rect> {
    if rects == [] then [] else Cut(rects[0], cut) + EachCut(rects[1..], cut)
  }

  function AllCut(rects: seq<Rect>, cuts: seq<Rect>): seq<Rect>
    decreases |cuts|
  {
    if cuts == [] then rects else AllCut(EachCut(rects, cuts[0]), cuts[1..])
  }

  // ----- exactness -----

  function One(b: bool): nat {
    if b then 1 else 0
  }

  /** How many of the rectangles hold a point. */
  function Covers(rects: seq<Rect>, p: Point): nat {
    if rects == [] then 0 else One(rects[0].Contains(p)) + Covers(rects[1..], p)
  }

  predicate AnyContains(rects: seq<Rect>, p: Point) {
    rects != [] && (rects[0].Contains(p) || AnyContains(rects[1..], p))
  }

  predicate Solid(rects: seq<Rect>) {
    forall i :: 0 <= i < |rects| ==> !rects[i].Empty()
  }

  lemma {:induction false} CoversAppended(a: seq<Rect>, b: seq<Rect>, p: Point)
    ensures Covers(a + b, p) == Covers(a, p) + Covers(b, p)
  {
    if a == [] {
      assert a + b == b;
    } else {
      CoversAppended(a[1..], b, p);
      assert (a + b)[1..] == a[1..] + b;
    }
  }

  lemma {:induction false} NonEmptyCovers(rects: seq<Rect>, p: Point)
    ensures Covers(NonEmpty(rects), p) == Covers(rects, p) && Solid(NonEmpty(rects))
  {
    if rects != [] {
      NonEmptyCovers(rects[1..], p);
      CoversAppended(if rects[0].Empty() then [] else [rects[0]], NonEmpty(rects[1..]), p);
      assert Covers([rects[0]], p) == One(rects[0].Contains(p)) + Covers([], p);
    }
  }

  lemma {:induction false} CoversHead(first: Rect, rest: seq<Rect>, p: Point)
    ensures Covers([first] + rest, p) == One(first.Contains(p)) + Covers(rest, p)
  {
    assert ([first] + rest)[1..] == rest;
  }

  lemma {:induction false} CoversFour(a: Rect, b: Rect, c: Rect, d: Rect, p: Point)
    ensures Covers([a, b, c, d], p) == One(a.Contains(p)) + One(b.Contains(p)) + One(c.Contains(p)) + One(d.Contains(p))
  {
    CoversHead(a, [b, c, d], p);
    CoversHead(b, [c, d], p);
    CoversHead(c, [d], p);
    CoversHead(d, [], p);
    assert [a] + [b, c, d] == [a, b, c, d] && [b] + [c, d] == [b, c, d];
    assert [c] + [d] == [c, d] && [d] + [] == [d];
  }

  /** The four parts hold each point of the rectangle outside the cut once. */
  lemma {:induction false} CutIsExact(rect: Rect, cut: Rect, p: Point)
    requires !rect.Empty()
    ensures Covers(Cut(rect, cut), p) == One(rect.Contains(p) && !cut.Contains(p)) && Solid(Cut(rect, cut))
  {
    var overlap := rect.Intersection(cut);
    if overlap.Null? || overlap.Empty() {
      assert Covers([rect], p) == One(rect.Contains(p)) + Covers([], p);
    } else {
      var a := Rect(rect.MinX(), rect.MinY(), rect.Width(), overlap.MinY() - rect.MinY());
      var b := Rect(rect.MinX(), overlap.MaxY(), rect.Width(), rect.MaxY() - overlap.MaxY());
      var c := Rect(rect.MinX(), overlap.MinY(), overlap.MinX() - rect.MinX(), overlap.Height());
      var d := Rect(overlap.MaxX(), overlap.MinY(), rect.MaxX() - overlap.MaxX(), overlap.Height());
      NonEmptyCovers([a, b, c, d], p);
      CoversFour(a, b, c, d, p);
    }
  }

  lemma {:induction false} EachCutIsExact(rects: seq<Rect>, cut: Rect, p: Point)
    requires Solid(rects)
    ensures Covers(EachCut(rects, cut), p) == (if cut.Contains(p) then 0 else Covers(rects, p))
    ensures Solid(EachCut(rects, cut))
  {
    if rects != [] {
      CutIsExact(rects[0], cut, p);
      EachCutIsExact(rects[1..], cut, p);
      CoversAppended(Cut(rects[0], cut), EachCut(rects[1..], cut), p);
    }
  }

  lemma {:induction false} AllCutIsExact(rects: seq<Rect>, cuts: seq<Rect>, p: Point)
    requires Solid(rects)
    ensures Covers(AllCut(rects, cuts), p) == (if AnyContains(cuts, p) then 0 else Covers(rects, p))
    ensures Solid(AllCut(rects, cuts))
    decreases |cuts|
  {
    if cuts != [] {
      EachCutIsExact(rects, cuts[0], p);
      AllCutIsExact(EachCut(rects, cuts[0]), cuts[1..], p);
    }
  }

  /**
  Subtraction is exact: no rectangle of the result is empty, and a point lies in exactly one of them
  if the receiver holds it and no cut does, and otherwise in none.
  */
  lemma {:induction false} SubtractingIsExact(rect: Rect, cuts: seq<Rect>, p: Point)
    ensures Covers(rect.Subtracting(cuts), p) == One(rect.Contains(p) && !AnyContains(cuts, p))
    ensures Solid(rect.Subtracting(cuts))
  {
    var start := if rect.Empty() then [] else [rect];
    AllCutIsExact(start, cuts, p);
    assert Covers([rect], p) == One(rect.Contains(p)) + Covers([], p);
  }

  lemma {:induction false} CoversHolds(rects: seq<Rect>, i: nat, p: Point)
    requires i < |rects| && rects[i].Contains(p)
    ensures Covers(rects, p) > 0
  {
    if i > 0 {
      CoversHolds(rects[1..], i - 1, p);
    }
  }

  lemma {:induction false} CoversTwice(rects: seq<Rect>, i: nat, j: nat, p: Point)
    requires i < j < |rects| && rects[i].Contains(p) && rects[j].Contains(p)
    ensures Covers(rects, p) >= 2
  {
    if i > 0 {
      CoversTwice(rects[1..], i - 1, j - 1, p);
    } else {
      CoversHolds(rects[1..], j - 1, p);
    }
  }

  /** The rectangles of the result are pairwise disjoint, inside the receiver and outside every cut. */
  lemma {:induction false} SubtractingIsDisjoint(rect: Rect, cuts: seq<Rect>, i: nat, j: nat, p: Point)
    requires i < |rect.Subtracting(cuts)| && rect.Subtracting(cuts)[i].Contains(p)
    ensures rect.Contains(p) && !AnyContains(cuts, p)
    ensures i < j < |rect.Subtracting(cuts)| ==> !rect.Subtracting(cuts)[j].Contains(p)
  {
    var parts := rect.Subtracting(cuts);
    SubtractingIsExact(rect, cuts, p);
    CoversHolds(parts, i, p);
    if i < j < |parts| && parts[j].Contains(p) {
      CoversTwice(parts, i, j, p);
    }
  }

  lemma {:induction false} IntersectionIsExact(a: Rect, b: Rect, p: Point)
    ensures a.Intersection(b).Contains(p) <==> a.Contains(p) && b.Contains(p)
  {
  }

  lemma {:induction false} AnyContainsIs(rects: seq<Rect>, p: Point)
    ensures AnyContains(rects, p) <==> exists i :: 0 <= i < |rects| && rects[i].Contains(p)
  {
    if rects != [] {
      AnyContainsIs(rects[1..], p);
      assert forall i :: 0 < i < |rects| ==> rects[i] == rects[1..][i - 1];
      assert forall i :: 0 <= i < |rects| - 1 ==> rects[1..][i] == rects[i + 1];
    }
  }
}
