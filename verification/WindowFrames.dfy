/**
Where a new window goes (app/App/WindowFrame.swift): its saved frame, moved onto one screen and then
step by step away from the frames of the open windows.
*/
module WindowFrames {
  import opened Sets
  import opened Wrappers

  const STEP := 20.0

  /** A frame of positive size; `y` is its lower side. */
  datatype Frame = Frame(x: real, y: real, w: real, h: real) {
    function MaxX(): real { x + w }
    function MaxY(): real { y + h }

    predicate Positive() { w > 0.0 && h > 0.0 }

    predicate Intersects(f: Frame) {
      x < f.MaxX() && f.x < MaxX() && y < f.MaxY() && f.y < MaxY()
    }

    function Overlap(f: Frame): real {
      if Intersects(f) then (Min(MaxX(), f.MaxX()) - Max(x, f.x)) * (Min(MaxY(), f.MaxY()) - Max(y, f.y)) else 0.0
    }

    predicate Inside(screen: Frame) {
      screen.x <= x && MaxX() <= screen.MaxX() && screen.y <= y && MaxY() <= screen.MaxY()
    }
  }

  function Min(a: real, b: real): real { if a <= b then a else b }
  function Max(a: real, b: real): real { if a >= b then a else b }

  /** Screen `i` shows some of the frame, no other shows more, and no earlier one as much. */
  predicate ShowsMost(screens: seq<Frame>, i: nat, frame: Frame)
    requires i < |screens|
  {
    && screens[i].Intersects(frame)
    && (forall j :: 0 <= j < |screens| && screens[j].Intersects(frame) ==> screens[j].Overlap(frame) <= screens[i].Overlap(frame))
    && (forall j :: 0 <= j < i && screens[j].Intersects(frame) ==> screens[j].Overlap(frame) < screens[i].Overlap(frame))
  }

  /** The screen that shows most of the frame: the first of them, or the main one if none shows any. */
  method Choose(screens: seq<Frame>, main: Frame, frame: Frame) returns (screen: Frame)
    ensures (forall i :: 0 <= i < |screens| ==> !screens[i].Intersects(frame)) ==> screen == main
    ensures (exists i :: 0 <= i < |screens| && screens[i].Intersects(frame)) ==>
              exists i :: 0 <= i < |screens| && screens[i] == screen && ShowsMost(screens, i, frame)
  {
    screen := main;
    var best: Option<nat> := None;
    for i := 0 to |screens|
      invariant best.None? ==> screen == main && forall j :: 0 <= j < i ==> !screens[j].Intersects(frame)
      invariant best.Some? ==> best.value < i && screens[best.value] == screen && ShowsMost(screens[..i], best.value, frame)
    {
      if screens[i].Intersects(frame) && (best.None? || screen.Overlap(frame) < screens[i].Overlap(frame)) {
        best := Some(i);
        screen := screens[i];
      }
    }
    assert screens[..|screens|] == screens;
  }

  /** The saved frame, made no larger than the screen and moved onto it. */
  function Clamped(saved: Frame, screen: Frame): (f: Frame)
    requires saved.Positive() && screen.Positive()
    ensures f.Positive() && f.Inside(screen) && f.w <= saved.w && f.h <= saved.h
    ensures saved.Inside(screen) ==> f == saved
  {
    var w, h := Min(saved.w, screen.w), Min(saved.h, screen.h);
    Frame(Max(screen.x, Min(saved.x, screen.MaxX() - w)), Max(screen.y, Min(saved.y, screen.MaxY() - h)), w, h)
  }

  /** One step right and down, back to the left side and the top where the screen ends. */
  function Next(f: Frame, screen: Frame): Frame {
    var x, y := f.x + STEP, f.y - STEP;
    Frame(if x + f.w > screen.MaxX() then screen.x else x, if y < screen.y then screen.MaxY() - f.h else y, f.w, f.h)
  }

  function Cascade(f: Frame, screen: Frame, n: nat): Frame {
    if n == 0 then f else Next(Cascade(f, screen, n - 1), screen)
  }

  // ----- the screen -----

  function Distance(a: real, b: real): real { if a >= b then a - b else b - a }

  /** No frame on the screen that is no larger than the saved one is larger or, if as large, nearer to it. */
  lemma {:induction false} ClampedIsNearest(saved: Frame, screen: Frame, g: Frame)
    requires saved.Positive() && screen.Positive() && g.Inside(screen) && g.w <= saved.w && g.h <= saved.h
    ensures var f := Clamped(saved, screen);
            && g.w <= f.w && g.h <= f.h
            && (g.w == f.w ==> Distance(f.x, saved.x) <= Distance(g.x, saved.x))
            && (g.h == f.h ==> Distance(f.y, saved.y) <= Distance(g.y, saved.y))
  {
  }

  /** The steps of 20 points that fit into some room. */
  function Fit(room: real): int {
    (room / 20.0).Floor
  }

  /**
  The room that is left after some steps: what there was at first, as long as steps fit into it, and from
  then on again and again what the whole screen has.
  */
  function Left(first: real, all: real, n: nat): real
    requires all >= 0.0
  {
    if n <= Fit(first) then first - 20.0 * (n as real)
    else
      assert all / 20.0 >= 0.0;
      all - 20.0 * (Cycle(n - Fit(first) - 1, Fit(all) + 1) as real)
  }

  /** The remainder of a division. */
  function Cycle(m: nat, p: nat): (r: nat)
    requires p > 0
    ensures r < p
  {
    if m < p then m else Cycle(m - p, p)
  }

  lemma {:induction false} FitIs(room: real, n: int)
    ensures n <= Fit(room) <==> 20.0 * (n as real) <= room
  {
  }

  lemma {:induction false} CycleGrows(m: nat, p: nat)
    requires p > 0
    ensures Cycle(m + 1, p) == if Cycle(m, p) == p - 1 then 0 else Cycle(m, p) + 1
  {
    if m >= p {
      CycleGrows(m - p, p);
    }
  }

  /** One more step takes 20 points of the room, or begins anew. */
  lemma {:induction false} LeftStep(first: real, all: real, n: nat)
    requires first >= 0.0 && all >= 0.0
    ensures Left(first, all, n + 1) == if Left(first, all, n) < 20.0 then all else Left(first, all, n) - 20.0
  {
    FitIs(first, n);
    FitIs(first, n + 1);
    FitIs(all, 0);
    if n > Fit(first) {
      var m := n - Fit(first) - 1;
      CycleGrows(m, Fit(all) + 1);
      FitIs(all, Cycle(m, Fit(all) + 1) + 1);
    }
  }

  /** The room that is left, step by step. */
  function Rest(first: real, all: real, n: nat): real {
    if n == 0 then first
    else
      var before := Rest(first, all, n - 1);
      if before < 20.0 then all else before - 20.0
  }

  lemma {:induction false} RestIsLeft(first: real, all: real, n: nat)
    requires first >= 0.0 && all >= 0.0
    ensures Rest(first, all, n) == Left(first, all, n)
  {
    if n == 0 {
      FitIs(first, 0);
    } else {
      RestIsLeft(first, all, n - 1);
      LeftStep(first, all, n - 1);
    }
  }

  lemma {:induction false} CascadeRests(f: Frame, screen: Frame, n: nat)
    ensures Cascade(f, screen, n) ==
            Frame(screen.MaxX() - f.w - Rest(screen.MaxX() - f.MaxX(), screen.w - f.w, n),
                  screen.y + Rest(f.y - screen.y, screen.h - f.h, n), f.w, f.h)
  {
    if n > 0 {
      CascadeRests(f, screen, n - 1);
    }
  }

  /** Every frame of the cascade, in closed form. */
  lemma {:induction false} CascadeIs(f: Frame, screen: Frame, n: nat)
    requires f.Positive() && f.Inside(screen)
    ensures Cascade(f, screen, n) ==
            Frame(screen.MaxX() - f.w - Left(screen.MaxX() - f.MaxX(), screen.w - f.w, n),
                  screen.y + Left(f.y - screen.y, screen.h - f.h, n), f.w, f.h)
  {
    CascadeRests(f, screen, n);
    RestIsLeft(screen.MaxX() - f.MaxX(), screen.w - f.w, n);
    RestIsLeft(f.y - screen.y, screen.h - f.h, n);
  }

  /** Every frame of the cascade lies on the screen, however often it wraps. */
  lemma {:induction false} CascadeStaysInside(f: Frame, screen: Frame, n: nat)
    requires f.Positive() && f.Inside(screen)
    ensures Cascade(f, screen, n).Inside(screen) && Cascade(f, screen, n).w == f.w && Cascade(f, screen, n).h == f.h
  {
    if n > 0 {
      CascadeStaysInside(f, screen, n - 1);
    }
  }

  // ----- the open frames -----

  /** A repeated frame repeats everything after it. */
  lemma {:induction false} CascadeRepeats(f: Frame, screen: Frame, i: nat, j: nat, n: nat)
    requires i < j && Cascade(f, screen, i) == Cascade(f, screen, j)
    ensures Cascade(f, screen, i + n) == Cascade(f, screen, j + n)
  {
    if n > 0 {
      CascadeRepeats(f, screen, i, j, n - 1);
    }
  }

  function FirstFrames(f: Frame, screen: Frame, n: nat): set<Frame> {
    if n == 0 then {} else FirstFrames(f, screen, n - 1) + {Cascade(f, screen, n - 1)}
  }

  lemma {:induction false} FirstFramesAre(f: Frame, screen: Frame, n: nat, x: Frame) returns (k: nat)
    requires x in FirstFrames(f, screen, n)
    ensures k < n && Cascade(f, screen, k) == x
  {
    if x in FirstFrames(f, screen, n - 1) {
      k := FirstFramesAre(f, screen, n - 1, x);
    } else {
      k := n - 1;
    }
  }

  ghost predicate Distinct(f: Frame, screen: Frame, n: nat) {
    forall i: nat, j: nat :: i < j < n ==> Cascade(f, screen, i) != Cascade(f, screen, j)
  }

  lemma {:induction false} DistinctFill(f: Frame, screen: Frame, n: nat)
    requires Distinct(f, screen, n)
    ensures |FirstFrames(f, screen, n)| == n
  {
    if n > 0 {
      DistinctFill(f, screen, n - 1);
      if Cascade(f, screen, n - 1) in FirstFrames(f, screen, n - 1) {
        var k := FirstFramesAre(f, screen, n - 1, Cascade(f, screen, n - 1));
      }
    }
  }

  /** If the first frames, one more than are open, are all open, two of them are the same. */
  lemma {:induction false} TooManyRepeat(f: Frame, screen: Frame, open: seq<Frame>)
    requires forall k: nat :: k <= |open| ==> Cascade(f, screen, k) in open
    ensures !Distinct(f, screen, |open| + 1)
  {
    var n := |open| + 1;
    if Distinct(f, screen, n) {
      DistinctFill(f, screen, n);
      forall x | x in FirstFrames(f, screen, n) ensures x in open {
        var k := FirstFramesAre(f, screen, n, x);
      }
      SetOfSeqIsNoLarger(open);
      SubsetIsNoLarger(FirstFrames(f, screen, n), set x | x in open);
    }
  }

  /** If the first frames are all open, so is every later one. */
  lemma {:induction false} AllOpen(f: Frame, screen: Frame, open: seq<Frame>, n: nat)
    requires forall k: nat :: k <= |open| ==> Cascade(f, screen, k) in open
    ensures Cascade(f, screen, n) in open
  {
    if n > |open| {
      TooManyRepeat(f, screen, open);
      var i: nat, j: nat :| i < j < |open| + 1 && Cascade(f, screen, i) == Cascade(f, screen, j);
      CascadeRepeats(f, screen, i, j, n - j);
      AllOpen(f, screen, open, i + (n - j));
    }
  }

  /** What `Place` says of its result: it stopped at the first frame that is not open, or after all of them. */
  predicate Stopped(f: Frame, screen: Frame, open: seq<Frame>, steps: nat) {
    && steps <= |open| + 1
    && (forall k :: 0 <= k < steps ==> Cascade(f, screen, k) in open)
    && (steps <= |open| ==> Cascade(f, screen, steps) !in open)
  }

  /**
  The placed frame covers an open window exactly if the first frames of the cascade, one more than
  windows are open, are all open; then every frame that any number of steps leads to is open.
  */
  lemma {:induction false} CollidesExactly(f: Frame, screen: Frame, open: seq<Frame>, steps: nat)
    requires Stopped(f, screen, open, steps)
    ensures Cascade(f, screen, steps) in open <==> forall k: nat :: k <= |open| ==> Cascade(f, screen, k) in open
    ensures Cascade(f, screen, steps) in open ==> forall n: nat :: Cascade(f, screen, n) in open
  {
    if forall k: nat :: k <= |open| ==> Cascade(f, screen, k) in open {
      forall n: nat ensures Cascade(f, screen, n) in open {
        AllOpen(f, screen, open, n);
      }
    }
  }

  /** Distinct first frames leave one free. */
  lemma {:induction false} DistinctFramesAvoid(f: Frame, screen: Frame, open: seq<Frame>, steps: nat)
    requires Stopped(f, screen, open, steps) && Distinct(f, screen, |open| + 1)
    ensures Cascade(f, screen, steps) !in open
  {
    if Cascade(f, screen, steps) in open {
      CollidesExactly(f, screen, open, steps);
      TooManyRepeat(f, screen, open);
    }
  }

  lemma {:induction false} RoomToTheRight(f: Frame, screen: Frame, room: nat, n: nat)
    requires n <= room && f.MaxX() + STEP * (room as real) <= screen.MaxX()
    ensures Cascade(f, screen, n).x == f.x + STEP * (n as real) && Cascade(f, screen, n).w == f.w
  {
    if n > 0 {
      RoomToTheRight(f, screen, room, n - 1);
      assert (n - 1) as real == n as real - 1.0;
      assert STEP * (n as real) <= STEP * (room as real);
    }
  }

  /** With room to the right for as many steps as windows are open, the new window covers none of them. */
  lemma {:induction false} RoomAvoids(f: Frame, screen: Frame, open: seq<Frame>, steps: nat)
    requires Stopped(f, screen, open, steps) && f.MaxX() + STEP * (|open| as real) <= screen.MaxX()
    ensures Cascade(f, screen, steps) !in open
  {
    forall i: nat, j: nat | i < j < |open| + 1 ensures Cascade(f, screen, i) != Cascade(f, screen, j) {
      RoomToTheRight(f, screen, |open|, i);
      RoomToTheRight(f, screen, |open|, j);
    }
    DistinctFramesAvoid(f, screen, open, steps);
  }

  /** A frame as large as the screen has nowhere to go: a second window covers the first. */
  lemma {:induction false} FullScreenCollides(screen: Frame)
    requires screen.Positive()
    ensures forall steps: nat :: Stopped(screen, screen, [screen], steps) ==> Cascade(screen, screen, steps) in [screen]
  {
    assert Next(screen, screen) == screen;
    assert Cascade(screen, screen, 1) == Next(Cascade(screen, screen, 0), screen);
    forall steps: nat | Stopped(screen, screen, [screen], steps) ensures Cascade(screen, screen, steps) in [screen] {
      CollidesExactly(screen, screen, [screen], steps);
    }
  }

  // ----- the placement -----

  /**
  The frame of a new window. With a saved one it is the first frame of the cascade that is not open,
  or, where one more of them than windows are open are all open, the one after those. It lies on the
  screen in any case.
  */
  method Place(saved: Option<Frame>, centered: Frame, screens: seq<Frame>, main: Frame, open: seq<Frame>)
    returns (frame: Frame, ghost screen: Frame, ghost steps: nat)
    requires saved.Some? ==> saved.value.Positive()
    requires main.Positive() && forall i :: 0 <= i < |screens| ==> screens[i].Positive()
    ensures saved.None? ==> frame == centered
    ensures saved.Some? ==>
              && (screen == main || screen in screens) && screen.Positive()
              && var start := Clamped(saved.value, screen);
              && frame == Cascade(start, screen, steps) && Stopped(start, screen, open, steps)
              && frame.Inside(screen)
              && (frame in open <==> forall k: nat :: k <= |open| ==> Cascade(start, screen, k) in open)
  {
    steps := 0;
    if saved.None? {
      screen := main;
      return centered, main, 0;
    }
    var s := Choose(screens, main, saved.value);
    screen := s;
    assert screen == main || screen in screens;
    frame := Clamped(saved.value, s);
    ghost var start := frame;
    for i := 0 to |open| + 1
      invariant steps == i && frame == Cascade(start, screen, i)
      invariant forall k :: 0 <= k < i ==> Cascade(start, screen, k) in open
    {
      if frame !in open {
        break;
      }
      var x, y := frame.x + STEP, frame.y - STEP;
      frame := Frame(x, y, frame.w, frame.h);
      if frame.MaxX() > s.MaxX() {
        frame := frame.(x := s.x);
      }
      if frame.y < s.y {
        frame := frame.(y := s.MaxY() - frame.h);
      }
      steps := steps + 1;
    }
    CascadeStaysInside(start, screen, steps);
    CollidesExactly(start, screen, open, steps);
  }
}
