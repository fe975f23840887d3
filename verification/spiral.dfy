/** The spiral diagram: eight shrinking rectangles, then seven quarter-circle
    arcs stroked as one path. Both loops move a pen (an anchor corner and a
    side length) by their own recurrence, each restarted from the same
    centred square. */
module Spiral {
  import opened Golden
  import opened Canvas

  /** The state both loops update: the anchor (x, y) and the current side. */
  datatype Pen = Pen(x: real, y: real, size: real)

  /** The starting square: 80% of the shorter canvas side, centred on the
      canvas, so it keeps a margin of a tenth of each side. */
  function Start(width: nat, height: nat): (p: Pen)
    ensures p.x + p.size / 2.0 == width as real / 2.0
    ensures p.y + p.size / 2.0 == height as real / 2.0
    ensures p.size <= 0.8 * width as real && p.size <= 0.8 * height as real
    ensures p.size == 0.8 * width as real || p.size == 0.8 * height as real
    ensures 0.1 * width as real <= p.x && p.x + p.size <= 0.9 * width as real
    ensures 0.1 * height as real <= p.y && p.y + p.size <= 0.9 * height as real
  {
    var w, h := width as real, height as real;
    var size := Min(w, h) * 0.8;
    Pen(w / 2.0 - size / 2.0, h / 2.0 - size / 2.0, size)
  }

  // ---------------------------------------------------------------------
  // The rectangle loop

  /** One pass of the rectangle loop's body, at step i: the side shrinks by
      PHI, the anchor moves right by what was cut off, and on even steps it
      also moves down by the new side. */
  function RectStep(p: Pen, i: nat): (q: Pen)
    ensures q.size * PHI == p.size
    ensures q.x + q.size == p.x + p.size
    ensures q.y - p.y == if i % 2 == 0 then q.size else 0.0
  {
    var nextSize := p.size / PHI;
    var x := p.x + p.size - nextSize;
    var size := nextSize;
    var y := if i % 2 == 0 then p.y + size else p.y;
    Pen(x, y, size)
  }

  /** The pen at the start of step i of the rectangle loop. */
  function RectPen(width: nat, height: nat, i: nat): Pen
  {
    if i == 0 then Start(width, height)
    else RectStep(RectPen(width, height, i - 1), i - 1)
  }

  /** The rectangle stroked at step i: as wide as the current side and as
      tall as that side divided by PHI. */
  function RectAt(width: nat, height: nat, i: nat): (c: Command)
    ensures c.Rect? && c.h * PHI == c.w
  {
    var p := RectPen(width, height, i);
    Rect(p.x, p.y, p.size, p.size / PHI)
  }

  /** The first loop of drawGoldenSpiral: exactly eight strokeRect calls,
      rectangle i being RectAt(i). */
  method DrawRectangles(width: nat, height: nat) returns (cmds: seq<Command>)
    ensures |cmds| == 8
    ensures forall i :: 0 <= i < 8 ==> cmds[i] == RectAt(width, height, i)
  {
    var start := Start(width, height);
    var size := start.size;
    var x := start.x;
    var y := start.y;
    cmds := [];
    for i := 0 to 8
      invariant |cmds| == i
      invariant Pen(x, y, size) == RectPen(width, height, i)
      invariant forall k :: 0 <= k < i ==> cmds[k] == RectAt(width, height, k)
    {
      cmds := cmds + [Rect(x, y, size, size / PHI)];
      var nextSize := size / PHI;
      x := x + size - nextSize;
      size := nextSize;
      if i % 2 == 0 {
        y := y + size;
      }
    }
  }

  /** Closed form of the rectangle loop: after i steps the side is
      s0 / PHI^i, and the right edge x + size never moves from the starting
      square's right edge. */
  lemma {:induction false} RectPenClosedForm(width: nat, height: nat, i: nat)
    ensures var s0 := Start(width, height);
      var p := RectPen(width, height, i);
      p.size == Shrink(s0.size, i) && p.x + p.size == s0.x + s0.size
  {
    if i > 0 {
      var s0 := Start(width, height);
      RectPenClosedForm(width, height, i - 1);
      ShrinkStep(s0.size, i - 1);
    }
  }

  /** The shape of the rectangle sequence: rectangle i is s0 / PHI^i wide, all
      rectangles share the starting square's right edge, each next rectangle
      is as wide as this one is tall (so, on a non-empty canvas, strictly
      narrower), and the anchor moves down by the new width on even steps
      only. */
  lemma RectangleSequence(width: nat, height: nat, i: nat)
    ensures var s0 := Start(width, height);
      var r := RectAt(width, height, i);
      var next := RectAt(width, height, i + 1);
      && r.w == Shrink(s0.size, i)
      && r.x + r.w == s0.x + s0.size
      && next.w == r.h
      && (width > 0 && height > 0 ==> 0.0 < next.w < r.w)
      && next.y - r.y == (if i % 2 == 0 then next.w else 0.0)
  {
    var s0 := Start(width, height);
    RectPenClosedForm(width, height, i);
    RectPenClosedForm(width, height, i + 1);
    if width > 0 && height > 0 {
      ShrinkDecreasing(s0.size, i);
    }
  }

  // ---------------------------------------------------------------------
  // The arc loop

  /** The arc appended at step i from pen p: radius side / PHI, a quarter turn
      from quarter i % 4, centred by one of four cases. */
  function ArcOf(p: Pen, i: nat): (c: Command)
    ensures c.Arc? && c.startQuarter == i % 4 && c.endQuarter == c.startQuarter + 1
    ensures c.radius * PHI == p.size
    // the centre lies on the pen's square, or one radius in from it
    ensures i % 4 == 0 ==> c.cx == p.x + p.size && c.cy == p.y + c.radius
    ensures i % 4 == 1 ==> c.cx + c.radius == p.x + p.size && c.cy == p.y
    ensures i % 4 == 2 ==> c.cx == p.x && c.cy == p.y + c.radius
    ensures i % 4 == 3 ==> c.cx == p.x + c.radius && c.cy == p.y + c.radius
  {
    var radius := p.size / PHI;
    var q := i % 4;
    var cx :=
      if q == 0 then p.x + p.size
      else if q == 1 then p.x + p.size - radius
      else if q == 2 then p.x
      else p.x + radius;
    var cy :=
      if q == 0 then p.y + p.size / PHI
      else if q == 1 then p.y
      else if q == 2 then p.y + radius
      else p.y + p.size / PHI;
    Arc(cx, cy, radius, q, q + 1)
  }

  /** One pass of the arc loop's pen update, at step i: the side shrinks by
      PHI; in case 0 only x moves (right, by what was cut off), in case 3
      only y moves (down, by the new side), in cases 1 and 2 the anchor
      stays put. */
  function ArcStep(p: Pen, i: nat): (q: Pen)
    ensures q.size * PHI == p.size
    ensures i % 4 == 1 || i % 4 == 2 ==> q.x == p.x && q.y == p.y
    ensures i % 4 == 0 ==> q.y == p.y && q.x + q.size == p.x + p.size
    ensures i % 4 == 3 ==> q.x == p.x && q.y == p.y + q.size
    ensures p.size > 0.0 && i % 4 == 0 ==> q.x > p.x
    ensures p.size > 0.0 && i % 4 == 3 ==> q.y > p.y
  {
    var nextSize := p.size / PHI;
    var q := i % 4;
    var x := if q == 0 then p.x + p.size - nextSize else p.x;
    var y :=
      if q == 1 then p.y + p.size / PHI - nextSize
      else if q == 3 then p.y + p.size / PHI
      else p.y;
    Pen(x, y, nextSize)
  }

  /** The pen at the start of step i of the arc loop. */
  function ArcPen(width: nat, height: nat, i: nat): Pen
  {
    if i == 0 then Start(width, height)
    else ArcStep(ArcPen(width, height, i - 1), i - 1)
  }

  /** The arc appended at step i. */
  function ArcAt(width: nat, height: nat, i: nat): Command
  {
    ArcOf(ArcPen(width, height, i), i)
  }

  /** The first switch of the arc loop's body: the arc call for step i,
      its centre chosen by i % 4. */
  method PlaceArc(x: real, y: real, size: real, i: nat) returns (arc: Command)
    ensures arc == ArcOf(Pen(x, y, size), i)
  {
    var radius := size / PHI;
    var startQuarter := i % 4;
    var endQuarter := startQuarter + 1;
    var centerX, centerY;
    if i % 4 == 0 {
      centerX, centerY := x + size, y + size / PHI;
    } else if i % 4 == 1 {
      centerX, centerY := x + size - radius, y;
    } else if i % 4 == 2 {
      centerX, centerY := x, y + radius;
    } else {
      centerX, centerY := x + radius, y + size / PHI;
    }
    arc := Arc(centerX, centerY, radius, startQuarter, endQuarter);
  }

  /** The second switch of the arc loop's body and the shrink after it:
      the pen for step i + 1. */
  method MoveArcPen(x: real, y: real, size: real, i: nat)
    returns (x': real, y': real, size': real)
    ensures Pen(x', y', size') == ArcStep(Pen(x, y, size), i)
  {
    x', y' := x, y;
    var nextSize := size / PHI;
    if i % 4 == 0 {
      x' := x + size - nextSize;
    } else if i % 4 == 1 {
      y' := y + size / PHI - nextSize;
    } else if i % 4 == 3 {
      y' := y + size / PHI;
    }
    size' := nextSize;
  }

  /** The second loop of drawGoldenSpiral: exactly seven arc calls, arc i
      being ArcAt(i), together sweeping seven quarter turns. */
  method DrawArcs(width: nat, height: nat) returns (cmds: seq<Command>)
    ensures |cmds| == 7
    ensures forall i :: 0 <= i < 7 ==> cmds[i] == ArcAt(width, height, i)
    ensures Sweep(cmds) == 7
  {
    var start := Start(width, height);
    var size := start.size;
    var x := start.x;
    var y := start.y;
    cmds := [];
    for i := 0 to 7
      invariant |cmds| == i
      invariant Pen(x, y, size) == ArcPen(width, height, i)
      invariant forall k :: 0 <= k < i ==> cmds[k] == ArcAt(width, height, k)
    {
      var arc := PlaceArc(x, y, size, i);
      cmds := cmds + [arc];
      x, y, size := MoveArcPen(x, y, size, i);
    }
    QuarterArcsSweep(cmds);
  }

  /** Arcs of one quarter turn each sweep as many quarter turns as there
      are arcs. */
  lemma {:induction false} QuarterArcsSweep(cmds: seq<Command>)
    requires forall k :: 0 <= k < |cmds| ==>
      cmds[k].Arc? && cmds[k].endQuarter == cmds[k].startQuarter + 1
    ensures Sweep(cmds) == |cmds|
  {
    if cmds != [] {
      QuarterArcsSweep(cmds[..|cmds| - 1]);
    }
  }

  /** Closed form of the arc loop's side: after i steps it is s0 / PHI^i. */
  lemma {:induction false} ArcPenSize(width: nat, height: nat, i: nat)
    ensures ArcPen(width, height, i).size == Shrink(Start(width, height).size, i)
  {
    if i > 0 {
      ArcPenSize(width, height, i - 1);
      ShrinkStep(Start(width, height).size, i - 1);
    }
  }

  /** Arc i has radius s0 / PHI^(i+1), spans one quarter turn from quarter
      i % 4, and on a non-empty canvas the radii strictly decrease. */
  lemma ArcSequence(width: nat, height: nat, i: nat)
    ensures var s0 := Start(width, height).size;
      var a := ArcAt(width, height, i);
      var next := ArcAt(width, height, i + 1);
      && a.radius == Shrink(s0, i + 1)
      && a.startQuarter == i % 4 && a.endQuarter == a.startQuarter + 1
      && (width > 0 && height > 0 ==> 0.0 < next.radius < a.radius)
  {
    var s0 := Start(width, height).size;
    ArcPenSize(width, height, i);
    ArcPenSize(width, height, i + 1);
    ShrinkStep(s0, i);
    ShrinkStep(s0, i + 1);
    if width > 0 && height > 0 {
      ShrinkDecreasing(s0, i + 1);
    }
  }

  // ---------------------------------------------------------------------
  // The whole diagram

  /** The swept angle of a list is the sum over its parts. */
  lemma {:induction false} SweepConcat(a: seq<Command>, b: seq<Command>)
    ensures Sweep(a + b) == Sweep(a) + Sweep(b)
  {
    if b != [] {
      var b' := b[..|b| - 1];
      assert (a + b)[..|a + b| - 1] == a + b';
      SweepConcat(a, b');
    } else {
      assert a + b == a;
    }
  }

  /** drawGoldenSpiral: on a surface that is ready, clear the canvas, stroke
      the eight rectangles, then open one path, append the seven arcs and
      stroke it once; on a missing surface, draw nothing. */
  method DrawGoldenSpiral(surfaceReady: bool, width: nat, height: nat)
    returns (cmds: seq<Command>)
    ensures !surfaceReady ==> cmds == []
    ensures surfaceReady ==> |cmds| == 18
    ensures surfaceReady ==> cmds[0] == Clear(0.0, 0.0, width as real, height as real)
    ensures surfaceReady ==> forall i :: 0 <= i < 8 ==> cmds[1 + i] == RectAt(width, height, i)
    ensures surfaceReady ==> cmds[9] == BeginPath
    ensures surfaceReady ==> forall i :: 0 <= i < 7 ==> cmds[10 + i] == ArcAt(width, height, i)
    // the path is stroked exactly once, after its last arc
    ensures forall k :: 0 <= k < |cmds| && cmds[k].Stroke? ==> k == 17
    ensures surfaceReady ==> cmds[17] == Stroke
    ensures surfaceReady ==> Sweep(cmds) == 7
  {
    if !surfaceReady {
      return [];
    }
    var rects := DrawRectangles(width, height);
    var arcs := DrawArcs(width, height);
    var before := [Clear(0.0, 0.0, width as real, height as real)] + rects + [BeginPath];
    assert Sweep(before) == 0 by {
      assert Sweep(rects) == 0 by {
        RectanglesSweepNothing(rects);
      }
      SweepConcat([Clear(0.0, 0.0, width as real, height as real)], rects);
      SweepConcat([Clear(0.0, 0.0, width as real, height as real)] + rects, [BeginPath]);
      assert Sweep([BeginPath]) == 0 by {
        assert [BeginPath][..0] == [];
      }
      assert Sweep([Clear(0.0, 0.0, width as real, height as real)]) == 0 by {
        assert [Clear(0.0, 0.0, width as real, height as real)][..0] == [];
      }
    }
    cmds := before + arcs + [Stroke];
    SweepConcat(before, arcs);
    SweepConcat(before + arcs, [Stroke]);
    assert [Stroke][..0] == [];
  }

  /** A list of rectangles sweeps no angle. */
  lemma {:induction false} RectanglesSweepNothing(cmds: seq<Command>)
    requires forall k :: 0 <= k < |cmds| ==> cmds[k].Rect?
    ensures Sweep(cmds) == 0
  {
    if cmds != [] {
      RectanglesSweepNothing(cmds[..|cmds| - 1]);
    }
  }
}
