/** The annotator `annotate` (app.py:37-61): for each detection it draws the
    box outline, a filled label background on the box's top edge and the label
    text, coloured by confidence, then saves the image over its file. The image
    is a canvas that records the drawing commands issued on it; the pixel
    effects of those commands belong to the image library. */
module Annotation {
  import opened Outcomes
  import Detection

  /** Python's `int()` on a float: truncation toward zero. */
  function Trunc(x: real): (n: int)
    ensures 0.0 <= x ==> n as real <= x < n as real + 1.0
    ensures x < 0.0 ==> n as real - 1.0 < x <= n as real
  {
    if x >= 0.0 then x.Floor else -((-x).Floor)
  }

  /** Half of an integer, truncated toward zero, in integer arithmetic only. */
  function HalfTowardZero(n: int): int
  {
    if n >= 0 then n / 2 else -((-n) / 2)
  }

  /** The list `[x0, y0, x1, y1]` that `rectangle` takes. */
  datatype Rect = Rect(left: int, top: int, right: int, bottom: int)

  datatype Point = Point(x: int, y: int)

  /** An RGB triple. */
  datatype Colour = Colour(red: int, green: int, blue: int)

  /** What `textsize` reports for a label in the fixed font. */
  datatype Extent = Extent(width: nat, height: nat)

  /** The drawing calls `annotate` issues. */
  datatype DrawCommand =
    | Rectangle(corners: Rect, fill: Option<Colour>, outline: Colour, width: nat)
    | Text(anchor: Point, text: string, colour: Colour)

  const White := Colour(255, 255, 255)

  /** The line width of both rectangles. */
  const Stroke: nat := 3

  /** The box corners of app.py:47-54: centre and size are first truncated to
      integers, then each corner is the truncation of centre plus or minus half
      the size. */
  function Box(b: Detection.Bounds): Rect
  {
    var boxWidth := Trunc(b.width);
    var boxHeight := Trunc(b.height);
    var centerX := Trunc(b.centerX);
    var centerY := Trunc(b.centerY);
    Rect(Trunc(centerX as real - boxWidth as real / 2.0),
         Trunc(centerY as real - boxHeight as real / 2.0),
         Trunc(centerX as real + boxWidth as real / 2.0),
         Trunc(centerY as real + boxHeight as real / 2.0))
  }

  /** The outline colour of app.py:56. */
  function BoxColour(confidence: real): Colour
  {
    Colour(Trunc(255.0 * (1.0 - confidence * confidence)), Trunc(255.0 * (confidence * confidence)), 0)
  }

  /** The filled rectangle behind the label (app.py:59): it stands on the box's
      top edge, starts at its left edge, and is the text extent plus 4 in each
      direction. */
  function LabelBackground(box: Rect, e: Extent): (r: Rect)
    ensures r.bottom == box.top && r.left == box.left
    ensures r.right - r.left == e.width + 4 && r.bottom - r.top == e.height + 4
  {
    Rect(box.left, box.top - (e.height + 4), box.left + e.width + 4, box.top)
  }

  /** Where the label text starts (app.py:60). */
  function TextAnchor(box: Rect, e: Extent): Point
  {
    Point(box.left + 2, box.top - (e.height + 2))
  }

  /** The three calls issued for one detection, in order: the unfilled box
      outline in the confidence colour, the label background standing on the
      box's top edge, filled and outlined in that colour and the text extent
      plus 4 in size, and the white label text 2 pixels inside the
      background. */
  function Commands(d: Detection.Record, toFloat: string -> real, textSize: string -> Extent): (cs: seq<DrawCommand>)
    ensures |cs| == 3 && cs[0].Rectangle? && cs[1].Rectangle? && cs[2].Text?
    ensures cs[0].corners == Box(d.bounds) && cs[0].fill == None && cs[0].width == 3
    ensures cs[0].outline == BoxColour(Detection.Float(d.confidence, toFloat))
    ensures cs[1].fill == Some(cs[0].outline) && cs[1].outline == cs[0].outline && cs[1].width == 3
    ensures var bg, e := cs[1].corners, textSize(d.name);
      && bg.bottom == cs[0].corners.top && bg.left == cs[0].corners.left
      && bg.right - bg.left == e.width + 4 && bg.bottom - bg.top == e.height + 4
    ensures var bg, e, at := cs[1].corners, textSize(d.name), cs[2].anchor;
      && at.x - bg.left == 2 && bg.right - (at.x + e.width) == 2
      && at.y - bg.top == 2 && bg.bottom - (at.y + e.height) == 2
    ensures cs[2].text == d.name && cs[2].colour == White
  {
    var box := Box(d.bounds);
    var colour := BoxColour(Detection.Float(d.confidence, toFloat));
    var e := textSize(d.name);
    [Rectangle(box, None, colour, Stroke),
     Rectangle(LabelBackground(box, e), Some(colour), colour, Stroke),
     Text(TextAnchor(box, e), d.name, White)]
  }

  /** The calls issued for a list of detections. */
  function Drawing(ds: seq<Detection.Record>, toFloat: string -> real, textSize: string -> Extent): seq<DrawCommand>
  {
    if ds == [] then [] else Drawing(ds[..|ds| - 1], toFloat, textSize) + Commands(ds[|ds| - 1], toFloat, textSize)
  }

  // ---------------------------------------------------------------------------
  // Geometry

  lemma FloorHalf(n: nat)
    ensures ((n as real) / 2.0).Floor == n / 2
  {
    var q, m := n / 2, n % 2;
    assert n == 2 * q + m;
    assert (n as real) / 2.0 == q as real + (m as real) / 2.0;
  }

  /** Truncating a half-integer toward zero is integer halving toward zero:
      the corners are exact integer arithmetic. */
  lemma TruncHalf(n: int)
    ensures Trunc((n as real) / 2.0) == HalfTowardZero(n)
  {
    if n >= 0 {
      FloorHalf(n);
    } else {
      FloorHalf(-n);
      assert -((n as real) / 2.0) == ((-n) as real) / 2.0;
    }
  }

  /** The corners in integers only: with centre `c` and size `s` (both
      truncated), the low corner is `(2c - s) / 2` and the high one
      `(2c + s) / 2`, halved toward zero. */
  lemma BoxExact(b: Detection.Bounds)
    ensures var cx, cy, w, h := Trunc(b.centerX), Trunc(b.centerY), Trunc(b.width), Trunc(b.height);
      Box(b) == Rect(HalfTowardZero(2 * cx - w), HalfTowardZero(2 * cy - h),
                     HalfTowardZero(2 * cx + w), HalfTowardZero(2 * cy + h))
  {
    var cx, cy, w, h := Trunc(b.centerX), Trunc(b.centerY), Trunc(b.width), Trunc(b.height);
    assert cx as real - w as real / 2.0 == ((2 * cx - w) as real) / 2.0;
    assert cy as real - h as real / 2.0 == ((2 * cy - h) as real) / 2.0;
    assert cx as real + w as real / 2.0 == ((2 * cx + w) as real) / 2.0;
    assert cy as real + h as real / 2.0 == ((2 * cy + h) as real) / 2.0;
    TruncHalf(2 * cx - w);
    TruncHalf(2 * cy - h);
    TruncHalf(2 * cx + w);
    TruncHalf(2 * cy + h);
  }

  /** With a size of at least 0, the truncated centre lies inside the box. */
  lemma BoxContainsCentre(b: Detection.Bounds)
    requires b.width >= 0.0 && b.height >= 0.0
    ensures Box(b).left <= Trunc(b.centerX) <= Box(b).right
    ensures Box(b).top <= Trunc(b.centerY) <= Box(b).bottom
  {
    BoxExact(b);
  }

  /** Along one axis the box spans exactly the truncated size when that size
      is even, and one pixel less when it is odd and the box straddles 0:
      truncation toward zero pulls both corners toward the origin. */
  lemma BoxSpan(c: int, s: int)
    requires s >= 0
    ensures HalfTowardZero(2 * c + s) - HalfTowardZero(2 * c - s) == (if s % 2 == 1 && -s < 2 * c < s then s - 1 else s)
  {
  }

  /** A 200 by 150 box centred at (320, 240) spans (220, 165) to (420, 315);
      a 3 pixel wide box centred at 0 spans only -1 to 1. */
  lemma BoxExamples()
    ensures Box(Detection.Bounds(320.0, 240.0, 200.0, 150.0)) == Rect(220, 165, 420, 315)
    ensures Box(Detection.Bounds(0.0, 0.0, 3.0, 3.0)) == Rect(-1, -1, 1, 1)
  {
    BoxExact(Detection.Bounds(320.0, 240.0, 200.0, 150.0));
    BoxExact(Detection.Bounds(0.0, 0.0, 3.0, 3.0));
  }

  /** The text of extent `e` drawn at the anchor keeps a margin of 2 pixels
      from every edge of its background. */
  lemma TextMargins(box: Rect, e: Extent)
    ensures var bg, at := LabelBackground(box, e), TextAnchor(box, e);
      && at.x - bg.left == 2 && bg.right - (at.x + e.width) == 2
      && at.y - bg.top == 2 && bg.bottom - (at.y + e.height) == 2
  {
  }

  // ---------------------------------------------------------------------------
  // Colour

  lemma SquareInUnit(c: real)
    requires 0.0 <= c <= 1.0
    ensures 0.0 <= c * c <= c <= 1.0
  {
  }

  /** For a confidence in [0, 1] both channels lie in [0, 255], blue is 0,
      and red and green add up to 255 or, after truncating both, 254. */
  lemma ColourInRange(c: real)
    requires 0.0 <= c <= 1.0
    ensures var k := BoxColour(c);
      && 0 <= k.red <= 255 && 0 <= k.green <= 255 && k.blue == 0
      && 254 <= k.red + k.green <= 255
  {
    SquareInUnit(c);
    var sq := c * c;
    var r, g := 255.0 * (1.0 - sq), 255.0 * sq;
    assert r + g == 255.0;
  }

  /** Higher confidence is never redder nor less green. */
  lemma ColourMonotone(c: real, d: real)
    requires 0.0 <= c <= d <= 1.0
    ensures BoxColour(c).green <= BoxColour(d).green
    ensures BoxColour(c).red >= BoxColour(d).red
  {
    SquaresOrdered(c, d);
    SquareInUnit(c);
    SquareInUnit(d);
    TruncMonotone(255.0 * (c * c), 255.0 * (d * d));
    TruncMonotone(255.0 * (1.0 - d * d), 255.0 * (1.0 - c * c));
  }

  lemma SquaresOrdered(c: real, d: real)
    requires 0.0 <= c <= d
    ensures 255.0 * (c * c) <= 255.0 * (d * d)
    ensures 255.0 * (1.0 - d * d) <= 255.0 * (1.0 - c * c)
  {
    assert c * c <= c * d;
    assert c * d <= d * d;
  }

  lemma TruncMonotone(x: real, y: real)
    requires 0.0 <= x <= y
    ensures Trunc(x) <= Trunc(y)
  {
  }

  /** Confidence 0 is pure red, 1 pure green; the channels truncate, so 0.5
      gives (191, 63, 0) rather than a rounded (191, 64, 0). */
  lemma ColourExamples()
    ensures BoxColour(0.0) == Colour(255, 0, 0)
    ensures BoxColour(1.0) == Colour(0, 255, 0)
    ensures BoxColour(0.5) == Colour(191, 63, 0)
  {
    assert 0.5 * 0.5 == 0.25;
  }

  // ---------------------------------------------------------------------------
  // Drawing order

  /** Three calls per detection, in detection order: box outline, label
      background, label text. */
  lemma {:induction false} DrawingLayout(ds: seq<Detection.Record>, toFloat: string -> real, textSize: string -> Extent)
    ensures |Drawing(ds, toFloat, textSize)| == 3 * |ds|
    ensures forall k :: 0 <= k < |ds| ==> Drawing(ds, toFloat, textSize)[3 * k..3 * k + 3] == Commands(ds[k], toFloat, textSize)
  {
    if ds != [] {
      var init := ds[..|ds| - 1];
      DrawingLayout(init, toFloat, textSize);
      var all := Drawing(ds, toFloat, textSize);
      assert all == Drawing(init, toFloat, textSize) + Commands(ds[|ds| - 1], toFloat, textSize);
      forall k | 0 <= k < |ds|
        ensures all[3 * k..3 * k + 3] == Commands(ds[k], toFloat, textSize)
      {
        if k < |ds| - 1 {
          assert all[3 * k..3 * k + 3] == Drawing(init, toFloat, textSize)[3 * k..3 * k + 3];
        }
      }
    }
  }

  /** `detect` only changes confidences into the numbers `float()` makes of
      them, so drawing the normalised list is drawing the engine's list. */
  lemma {:induction false} DrawingNormalised(ds: seq<Detection.Record>, toFloat: string -> real, textSize: string -> Extent)
    ensures Drawing(Detection.Normalised(ds, toFloat), toFloat, textSize) == Drawing(ds, toFloat, textSize)
  {
    if ds != [] {
      DrawingNormalised(ds[..|ds| - 1], toFloat, textSize);
      var n := Detection.Normalised(ds, toFloat);
      assert n[..|n| - 1] == Detection.Normalised(ds[..|ds| - 1], toFloat);
    }
  }

  // ---------------------------------------------------------------------------
  // The image

  /** An opened image: the drawing calls applied to it so far, and what the
      last `save` wrote back to its file. */
  class Canvas {
    var drawn: seq<DrawCommand>
    var saved: Option<seq<DrawCommand>>

    /** `Image.open` followed by `ImageDraw.Draw`. */
    constructor Open()
      ensures drawn == [] && saved == None
    {
      drawn, saved := [], None;
    }

    method DrawRectangle(corners: Rect, fill: Option<Colour>, outline: Colour, width: nat)
      modifies this
      ensures drawn == old(drawn) + [Rectangle(corners, fill, outline, width)]
      ensures saved == old(saved)
    {
      drawn := drawn + [Rectangle(corners, fill, outline, width)];
    }

    method DrawText(anchor: Point, text: string, fill: Colour)
      modifies this
      ensures drawn == old(drawn) + [Text(anchor, text, fill)]
      ensures saved == old(saved)
    {
      drawn := drawn + [Text(anchor, text, fill)];
    }

    method Save()
      modifies this
      ensures drawn == old(drawn) && saved == Some(drawn)
    {
      saved := Some(drawn);
    }
  }

  /** The body of `annotate`'s loop: one detection's box, label background
      and label text. */
  method DrawDetection(img: Canvas, detection: Detection.Record, toFloat: string -> real, textSize: string -> Extent)
    modifies img
    ensures img.drawn == old(img.drawn) + Commands(detection, toFloat, textSize)
    ensures img.saved == old(img.saved)
  {
    var box := Box(detection.bounds);
    var boxColour := BoxColour(Detection.Float(detection.confidence, toFloat));
    img.DrawRectangle(box, None, boxColour, Stroke);
    var extent := textSize(detection.name);
    img.DrawRectangle(LabelBackground(box, extent), Some(boxColour), boxColour, Stroke);
    img.DrawText(TextAnchor(box, extent), detection.name, White);
  }

  /** `annotate`: `r` is the list the engine returned; `detect` normalises it
      in place, then every detection is drawn and the image is saved, also
      when there is nothing to draw. */
  method Annotate(r: array<Detection.Record>, toFloat: string -> real, textSize: string -> Extent) returns (img: Canvas)
    modifies r
    ensures r[..] == Detection.Normalised(old(r[..]), toFloat)
    ensures fresh(img)
    ensures img.drawn == Drawing(r[..], toFloat, textSize)
    ensures img.saved == Some(img.drawn)
  {
    Detection.Detect(r, toFloat);
    img := new Canvas.Open();
    var i := 0;
    while i < r.Length
      invariant 0 <= i <= r.Length
      invariant r[..] == Detection.Normalised(old(r[..]), toFloat)
      invariant img.drawn == Drawing(r[..i], toFloat, textSize)
    {
      DrawDetection(img, r[i], toFloat, textSize);
      assert r[..i + 1][..i] == r[..i];
      i := i + 1;
    }
    assert r[..i] == r[..];
    img.Save();
  }
}
