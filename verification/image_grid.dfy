/** The photo-analysis canvas: an uploaded image is scaled into an 800 x 600
    box, blitted, and overlaid with four golden-section lines. */
module ImageGrid {
  import opened Golden
  import opened Canvas

  const MAX_WIDTH: real := 800.0
  const MAX_HEIGHT: real := 600.0

  /** A width and a height in (possibly fractional) pixels. */
  datatype Size = Size(width: real, height: real)

  /** An image's natural dimensions in whole pixels. */
  datatype Image = Image(width: nat, height: nat)

  predicate FitsBox(s: Size)
  {
    s.width <= MAX_WIDTH && s.height <= MAX_HEIGHT
  }

  /** The resize rule: first bring the width down to the box, keeping the
      aspect ratio, then bring the height down the same way. */
  function Fit(natural: Size): (r: Size)
    ensures FitsBox(r)
    ensures FitsBox(natural) ==> r == natural
    ensures !FitsBox(natural) ==> r.width == MAX_WIDTH || r.height == MAX_HEIGHT
    ensures r.width * natural.height == r.height * natural.width
    ensures natural.width > 0.0 && natural.height > 0.0 ==> r.width > 0.0 && r.height > 0.0
  {
    var w1 := natural.width;
    var h1 := natural.height;
    var w2 := if w1 > MAX_WIDTH then MAX_WIDTH else w1;
    var h2 := if w1 > MAX_WIDTH then (h1 * MAX_WIDTH) / w1 else h1;
    assert w1 > MAX_WIDTH ==> w2 * h1 == h2 * w1;
    var w3 := if h2 > MAX_HEIGHT then (w2 * MAX_HEIGHT) / h2 else w2;
    var h3 := if h2 > MAX_HEIGHT then MAX_HEIGHT else h2;
    assert w3 <= MAX_WIDTH && (w1 > 0.0 && h1 > 0.0 ==> w3 > 0.0) by {
      if h2 > MAX_HEIGHT { FitStepBounded(w2, h2); }
    }
    FitAspect(w1, h1, w2, h2, w3, h3);
    Size(w3, h3)
  }

  /** The height step never pushes the width past the box. */
  lemma FitStepBounded(w: real, h: real)
    requires w <= MAX_WIDTH
    requires h > MAX_HEIGHT
    ensures (w * MAX_HEIGHT) / h <= MAX_WIDTH
    ensures w > 0.0 ==> (w * MAX_HEIGHT) / h > 0.0
  {
  }

  /** Both scaling steps keep the aspect ratio, so their composition does. */
  lemma FitAspect(w1: real, h1: real, w2: real, h2: real, w3: real, h3: real)
    requires w2 * h1 == h2 * w1
    requires w1 > MAX_WIDTH ==> h2 * w1 == h1 * MAX_WIDTH
    requires w1 <= MAX_WIDTH ==> w2 == w1 && h2 == h1
    requires h2 > MAX_HEIGHT ==> w3 == (w2 * MAX_HEIGHT) / h2 && h3 == MAX_HEIGHT
    requires h2 <= MAX_HEIGHT ==> w3 == w2 && h3 == h2
    ensures w3 * h1 == h3 * w1
  {
  }

  /** How much the fit rule scales a positive image: not at all if it fits,
      otherwise by the tighter of the two box ratios. */
  function ScaleFactor(natural: Size): (k: real)
    requires natural.width > 0.0 && natural.height > 0.0
  {
    Min(1.0, Min(MAX_WIDTH / natural.width, MAX_HEIGHT / natural.height))
  }

  /** The fit rule is a uniform scaling by ScaleFactor: the result is the
      largest copy of the image, at most its natural size, that fits the box. */
  lemma FitIsUniformScale(natural: Size)
    requires natural.width > 0.0 && natural.height > 0.0
    ensures var k := ScaleFactor(natural);
      0.0 < k <= 1.0 && Fit(natural) == Size(natural.width * k, natural.height * k)
  {
    var w, h := natural.width, natural.height;
    if w <= MAX_WIDTH && h <= MAX_HEIGHT {
      RatioAtLeastOne(MAX_WIDTH, w);
      RatioAtLeastOne(MAX_HEIGHT, h);
    } else if w > MAX_WIDTH && (h * MAX_WIDTH) / w <= MAX_HEIGHT {
      WidthBound(w, h);
    } else if w > MAX_WIDTH {
      WidthThenHeight(w, h);
    } else {
      HeightBound(w, h);
    }
  }

  /** Too wide, but the width step alone fits it: scaled by 800 / w. */
  lemma WidthBound(w: real, h: real)
    requires w > MAX_WIDTH && h > 0.0
    requires (h * MAX_WIDTH) / w <= MAX_HEIGHT
    ensures ScaleFactor(Size(w, h)) == MAX_WIDTH / w < 1.0
    ensures Fit(Size(w, h)) == Size(w * (MAX_WIDTH / w), h * (MAX_WIDTH / w))
  {
    var kw, kh := MAX_WIDTH / w, MAX_HEIGHT / h;
    RatioBelowOne(MAX_WIDTH, w);
    assert (h * MAX_WIDTH) / w == h * kw;
    assert kw <= kh by {
      assert h * kw <= h * kh;
    }
  }

  /** Too wide and, even after the width step, too tall: scaled by 600 / h. */
  lemma WidthThenHeight(w: real, h: real)
    requires w > MAX_WIDTH && h > 0.0
    requires (h * MAX_WIDTH) / w > MAX_HEIGHT
    ensures ScaleFactor(Size(w, h)) == MAX_HEIGHT / h < 1.0
    ensures Fit(Size(w, h)) == Size(w * (MAX_HEIGHT / h), h * (MAX_HEIGHT / h))
  {
  }

  /** Narrow enough but too tall: scaled by 600 / h. */
  lemma HeightBound(w: real, h: real)
    requires 0.0 < w <= MAX_WIDTH && h > MAX_HEIGHT
    ensures ScaleFactor(Size(w, h)) == MAX_HEIGHT / h < 1.0
    ensures Fit(Size(w, h)) == Size(w * (MAX_HEIGHT / h), h * (MAX_HEIGHT / h))
  {
    RatioBelowOne(MAX_HEIGHT, h);
    RatioAtLeastOne(MAX_WIDTH, w);
  }

  lemma RatioAtLeastOne(a: real, b: real)
    requires 0.0 < b <= a
    ensures a / b >= 1.0
  {
  }

  lemma RatioBelowOne(a: real, b: real)
    requires 0.0 < a < b
    ensures 0.0 < a / b < 1.0
  {
    var q := a / b;
    assert q * b == a;
    if q >= 1.0 {
      // then q * b >= b > a
      assert false;
    }
  }

  /** Fitting an already fitted size changes nothing. */
  lemma FitIdempotent(natural: Size)
    ensures Fit(Fit(natural)) == Fit(natural)
  {
  }

  /** The worked example: a 1200 x 800 photo is width-bound and becomes
      800 x 533.33... */
  lemma FitExample()
    ensures 1200.0 > MAX_WIDTH && (800.0 * MAX_WIDTH) / 1200.0 <= MAX_HEIGHT
    ensures Fit(Size(1200.0, 800.0)) == Size(800.0, 1600.0 / 3.0)
  {
  }

  /** The four golden-section lines over a canvas of the given size, in the
      order they are stroked: two horizontal, then two vertical. */
  function GridLines(s: Size): (lines: seq<Command>)
    ensures |lines| == 4 && forall k :: 0 <= k < 4 ==> lines[k].Line?
    // lines 0 and 1 are horizontal and span the full width
    ensures forall k :: 0 <= k < 2 ==>
      lines[k].y0 == lines[k].y1 && lines[k].x0 == 0.0 && lines[k].x1 == s.width
    // lines 2 and 3 are vertical and span the full height
    ensures forall k :: 2 <= k < 4 ==>
      lines[k].x0 == lines[k].x1 && lines[k].y0 == 0.0 && lines[k].y1 == s.height
    // the first of each pair sits at the golden section of its side
    ensures lines[0].y0 * PHI == s.height && lines[2].x0 * PHI == s.width
    // the second of each pair mirrors the first about the centre
    ensures lines[0].y0 + lines[1].y0 == s.height
    ensures lines[2].x0 + lines[3].x0 == s.width
    // on a non-empty canvas the lines are strictly inside it, the golden one
    // past the centre and its mirror before it
    ensures s.height > 0.0 ==> 0.0 < lines[1].y0 < s.height / 2.0 < lines[0].y0 < s.height
    ensures s.width > 0.0 ==> 0.0 < lines[3].x0 < s.width / 2.0 < lines[2].x0 < s.width
  {
    var goldenY := s.height / PHI;
    var goldenX := s.width / PHI;
    GoldenSection(s.height);
    GoldenSection(s.width);
    [ Line(0.0, goldenY, s.width, goldenY),
      Line(0.0, s.height - goldenY, s.width, s.height - goldenY),
      Line(goldenX, 0.0, goldenX, s.height),
      Line(s.width - goldenX, 0.0, s.width - goldenX, s.height) ]
  }

  /** Where the golden section of a positive side falls: past its middle. */
  lemma GoldenSection(side: real)
    ensures (side / PHI) * PHI == side
    ensures side > 0.0 ==> side / 2.0 < side / PHI < side
  {
  }

  /** drawImageWithGrid: on a surface that is ready, resize the canvas to the
      fitted size (whole pixels), blit the image over the fitted size, then
      stroke the four grid lines; on a missing surface, draw nothing. */
  function DrawImageWithGrid(surfaceReady: bool, img: Image): (cmds: seq<Command>)
    ensures !surfaceReady ==> cmds == []
    ensures surfaceReady ==> |cmds| == 6
    ensures surfaceReady ==>
      var fitted := Fit(Size(img.width as real, img.height as real));
      cmds[0] == Resize(fitted.width.Floor, fitted.height.Floor) &&
      cmds[1] == DrawImage(0.0, 0.0, fitted.width, fitted.height) &&
      cmds[2..] == GridLines(fitted)
    // the canvas never grows past the box, whatever the image
    ensures surfaceReady ==> 0 <= cmds[0].width <= 800 && 0 <= cmds[0].height <= 600
    // the blit comes before every line, and there are exactly four lines
    ensures forall k :: 0 <= k < |cmds| && cmds[k].Line? ==> 2 <= k
    ensures forall k :: 2 <= k < |cmds| ==> cmds[k].Line?
  {
    if !surfaceReady then []
    else
      var fitted := Fit(Size(img.width as real, img.height as real));
      assert fitted.width >= 0.0 && fitted.height >= 0.0 by {
        NonNegativeFit(img.width as real, img.height as real);
      }
      [ Resize(fitted.width.Floor, fitted.height.Floor),
        DrawImage(0.0, 0.0, fitted.width, fitted.height) ] + GridLines(fitted)
  }

  /** Images never have negative dimensions, and fitting keeps that. */
  lemma NonNegativeFit(w: real, h: real)
    requires w >= 0.0 && h >= 0.0
    ensures Fit(Size(w, h)).width >= 0.0 && Fit(Size(w, h)).height >= 0.0
  {
  }
}
