/** Geometry helpers of the carousel: fitting an image into the viewport without
    upscaling it, and placing it in its slot of the filmstrip.
    JavaScript numbers are modelled as exact reals. */
module Geometry {

  /** Width and height of an image as it is drawn. */
  datatype Dimensions = Dimensions(width: real, height: real)

  /** Top-left corner of an image on the untranslated canvas. */
  datatype Position = Position(x: real, y: real)

  /** `n` is a whole number. */
  predicate IsIntegral(n: real) {
    n == n.Floor as real
  }

  /** `n` is what `Math.round` gives for `x`: the nearest whole number, a half rounded up. */
  predicate NearestInteger(n: real, x: real) {
    IsIntegral(n) && x - 0.5 < n <= x + 0.5
  }

  /** JavaScript's `Math.round`, written as floor(x + 1/2). */
  function Round(x: real): (r: real)
    ensures NearestInteger(r, x)
  {
    (x + 0.5).Floor as real
  }

  /** The floor of `x` is the whole number at or just below it. */
  lemma FloorBounds(x: real)
    ensures x.Floor as real <= x < x.Floor as real + 1.0
  {
  }

  /** A whole number rounds to itself. */
  lemma RoundOfIntegral(n: real)
    requires IsIntegral(n)
    ensures Round(n) == n
  {
    var k := n.Floor;
    var m := (n + 0.5).Floor;
    FloorBounds(n + 0.5);
    assert m as real <= k as real + 0.5 < m as real + 1.0;
    assert m <= k && k <= m;
  }

  /** Rounding never reverses an order. */
  lemma RoundMonotonic(x: real, y: real)
    requires x <= y
    ensures Round(x) <= Round(y)
  {
    var a := (x + 0.5).Floor;
    var b := (y + 0.5).Floor;
    FloorBounds(x + 0.5);
    FloorBounds(y + 0.5);
    assert a as real < (b + 1) as real;
    assert a < b + 1;
  }

  /** `Math.min(maxWidth / width, maxHeight / height)`: the larger factor that still
      fits both axes. */
  function FitScale(originalWidth: real, originalHeight: real, maxWidth: real, maxHeight: real): (s: real)
    requires originalWidth > 0.0 && originalHeight > 0.0
    ensures s <= maxWidth / originalWidth && s <= maxHeight / originalHeight
    ensures s == maxWidth / originalWidth || s == maxHeight / originalHeight
  {
    var widthRatio := maxWidth / originalWidth;
    var heightRatio := maxHeight / originalHeight;
    if widthRatio <= heightRatio then widthRatio else heightRatio
  }

  /** One axis of an image multiplied by the scale factor. Naming the product keeps
      the nonlinear multiplication apart from the rounding in the proofs below, which
      reason about the two in separate helper lemmas. */
  function Scaled(length: real, scale: real): real {
    length * scale
  }

  /** A positive length scaled by a positive factor stays positive. */
  lemma ScaledPositive(length: real, scale: real)
    requires length > 0.0 && scale > 0.0
    ensures Scaled(length, scale) > 0.0
  {
  }

  /** The image needs no scaling: it is strictly smaller than the box on both axes. */
  predicate FitsStrictly(originalWidth: real, originalHeight: real, maxWidth: real, maxHeight: real) {
    originalWidth < maxWidth && originalHeight < maxHeight
  }

  /** Fit an image into a box while keeping its aspect ratio, never upscaling it:
      a strictly smaller image keeps its size, any other is scaled by the smaller of
      the two axis ratios and each axis is rounded independently. */
  function ScaleToFit(originalWidth: real, originalHeight: real, maxWidth: real, maxHeight: real): (r: Dimensions)
    requires originalWidth > 0.0 && originalHeight > 0.0 && maxWidth > 0.0 && maxHeight > 0.0
    ensures 0.0 <= r.width && 0.0 <= r.height
    ensures FitsStrictly(originalWidth, originalHeight, maxWidth, maxHeight) ==>
              r == Dimensions(originalWidth, originalHeight)
    ensures !FitsStrictly(originalWidth, originalHeight, maxWidth, maxHeight) ==>
              var s := FitScale(originalWidth, originalHeight, maxWidth, maxHeight);
              NearestInteger(r.width, Scaled(originalWidth, s)) && NearestInteger(r.height, Scaled(originalHeight, s))
  {
    if FitsStrictly(originalWidth, originalHeight, maxWidth, maxHeight) then
      Dimensions(originalWidth, originalHeight)
    else
      var scale := FitScale(originalWidth, originalHeight, maxWidth, maxHeight);
      ScaledPositive(originalWidth, scale);
      ScaledPositive(originalHeight, scale);
      Dimensions(Round(Scaled(originalWidth, scale)), Round(Scaled(originalHeight, scale)))
  }

  /** Scaling a length by the ratio bound/length gives the bound. */
  lemma CancelRatio(length: real, bound: real)
    requires length > 0.0
    ensures Scaled(length, bound / length) == bound
  {
  }

  /** Scaling a length by a factor at most bound/length gives at most the bound. */
  lemma ScaledAtMost(length: real, scale: real, bound: real)
    requires length > 0.0 && scale <= bound / length
    ensures Scaled(length, scale) <= bound
  {
    assert length * scale <= length * (bound / length);
  }

  /** A positive length divided by itself is one. */
  lemma RatioOfSelf(length: real)
    requires length > 0.0
    ensures length / length == 1.0
  {
  }

  /** Scaling by one changes nothing. */
  lemma ScaledByOne(length: real)
    ensures Scaled(length, 1.0) == length
  {
  }

  /** A natural number is a whole number. */
  lemma NatIsIntegral(n: nat)
    ensures IsIntegral(n as real)
  {
  }

  /** Rounding a value at most a whole-number bound stays at most that bound. */
  lemma RoundAtMost(x: real, bound: nat)
    requires x <= bound as real
    ensures Round(x) <= bound as real
  {
    RoundMonotonic(x, bound as real);
    NatIsIntegral(bound);
    RoundOfIntegral(bound as real);
  }

  /** The scaling branch of ScaleToFit, spelled out. */
  lemma ScaleToFitScaling(w: real, h: real, maxWidth: real, maxHeight: real)
    requires w > 0.0 && h > 0.0 && maxWidth > 0.0 && maxHeight > 0.0
    requires !FitsStrictly(w, h, maxWidth, maxHeight)
    ensures var s := FitScale(w, h, maxWidth, maxHeight);
            ScaleToFit(w, h, maxWidth, maxHeight) == Dimensions(Round(Scaled(w, s)), Round(Scaled(h, s)))
  {
  }

  /** With whole-number bounds, the fitted size never exceeds the box. */
  lemma ScaleToFitWithinBounds(w: real, h: real, maxWidth: nat, maxHeight: nat)
    requires w > 0.0 && h > 0.0 && maxWidth > 0 && maxHeight > 0
    ensures ScaleToFit(w, h, maxWidth as real, maxHeight as real).width <= maxWidth as real
    ensures ScaleToFit(w, h, maxWidth as real, maxHeight as real).height <= maxHeight as real
  {
    var mw, mh := maxWidth as real, maxHeight as real;
    if !FitsStrictly(w, h, mw, mh) {
      var s := FitScale(w, h, mw, mh);
      ScaleToFitScaling(w, h, mw, mh);
      ScaledAtMost(w, s, mw);
      ScaledAtMost(h, s, mh);
      RoundAtMost(Scaled(w, s), maxWidth);
      RoundAtMost(Scaled(h, s), maxHeight);
    }
  }

  /** With whole-number bounds, a scaled image fills the box along at least one axis. */
  lemma ScaleToFitTouchesBound(w: real, h: real, maxWidth: nat, maxHeight: nat)
    requires w > 0.0 && h > 0.0 && maxWidth > 0 && maxHeight > 0
    requires !FitsStrictly(w, h, maxWidth as real, maxHeight as real)
    ensures var r := ScaleToFit(w, h, maxWidth as real, maxHeight as real);
            r.width == maxWidth as real || r.height == maxHeight as real
  {
    var mw, mh := maxWidth as real, maxHeight as real;
    var s := FitScale(w, h, mw, mh);
    ScaleToFitScaling(w, h, mw, mh);
    if s == mw / w {
      CancelRatio(w, mw);
      NatIsIntegral(maxWidth);
      RoundOfIntegral(mw);
    } else {
      CancelRatio(h, mh);
      NatIsIntegral(maxHeight);
      RoundOfIntegral(mh);
    }
  }

  /** An image exactly the size of the box goes through the scaling branch with
      factor 1 and comes back unchanged. */
  lemma ScaleToFitExactFit(maxWidth: nat, maxHeight: nat)
    requires maxWidth > 0 && maxHeight > 0
    ensures !FitsStrictly(maxWidth as real, maxHeight as real, maxWidth as real, maxHeight as real)
    ensures FitScale(maxWidth as real, maxHeight as real, maxWidth as real, maxHeight as real) == 1.0
    ensures ScaleToFit(maxWidth as real, maxHeight as real, maxWidth as real, maxHeight as real)
            == Dimensions(maxWidth as real, maxHeight as real)
  {
    var mw, mh := maxWidth as real, maxHeight as real;
    RatioOfSelf(mw);
    RatioOfSelf(mh);
    ScaleToFitScaling(mw, mh, mw, mh);
    ScaledByOne(mw);
    ScaledByOne(mh);
    NatIsIntegral(maxWidth);
    NatIsIntegral(maxHeight);
    RoundOfIntegral(mw);
    RoundOfIntegral(mh);
  }

  /** A whole-number box that a size fits into, touching it on one side, admits no
      factor but 1. */
  lemma FitScaleOfTouching(a: real, b: real, maxWidth: real, maxHeight: real)
    requires a > 0.0 && b > 0.0 && a <= maxWidth && b <= maxHeight
    requires a == maxWidth || b == maxHeight
    ensures FitScale(a, b, maxWidth, maxHeight) == 1.0
  {
    assert maxWidth / a >= 1.0;
    assert maxHeight / b >= 1.0;
  }

  /** Fitting a fitted (non-degenerate) image again into the same whole-number box
      changes nothing. */
  lemma ScaleToFitIdempotent(w: real, h: real, maxWidth: nat, maxHeight: nat)
    requires w > 0.0 && h > 0.0 && maxWidth > 0 && maxHeight > 0
    requires ScaleToFit(w, h, maxWidth as real, maxHeight as real).width > 0.0
    requires ScaleToFit(w, h, maxWidth as real, maxHeight as real).height > 0.0
    ensures var r := ScaleToFit(w, h, maxWidth as real, maxHeight as real);
            ScaleToFit(r.width, r.height, maxWidth as real, maxHeight as real) == r
  {
    var mw, mh := maxWidth as real, maxHeight as real;
    var r := ScaleToFit(w, h, mw, mh);
    if !FitsStrictly(w, h, mw, mh) {
      ScaleToFitWithinBounds(w, h, maxWidth, maxHeight);
      ScaleToFitTouchesBound(w, h, maxWidth, maxHeight);
      assert !FitsStrictly(r.width, r.height, mw, mh);
      FitScaleOfTouching(r.width, r.height, mw, mh);
      ScaleToFitScaling(r.width, r.height, mw, mh);
      ScaledByOne(r.width);
      ScaledByOne(r.height);
      RoundOfIntegral(r.width);
      RoundOfIntegral(r.height);
    }
  }

  /** The scenarios the repository's tests check. */
  lemma ScaleToFitExamples()
    ensures ScaleToFit(300.0, 200.0, 640.0, 400.0) == Dimensions(300.0, 200.0)
    ensures ScaleToFit(800.0, 200.0, 640.0, 400.0) == Dimensions(640.0, 160.0)
    ensures ScaleToFit(300.0, 500.0, 640.0, 400.0) == Dimensions(240.0, 400.0)
    ensures ScaleToFit(1600.0, 1200.0, 640.0, 400.0) == Dimensions(533.0, 400.0)
    ensures ScaleToFit(640.0, 400.0, 640.0, 400.0) == Dimensions(640.0, 400.0)
  {
    ScaleToFitExactFit(640, 400);
  }

  /** Centre an image in the canvas-sized slot of index `imageIndex`, which starts
      `imageIndex` canvas widths to the right of the origin. */
  function ImagePositionOnCanvas(imageWidth: real, imageHeight: real, imageIndex: int,
                                 canvasWidth: real, canvasHeight: real): (p: Position)
    ensures p.x + imageWidth / 2.0 == canvasWidth * imageIndex as real + canvasWidth / 2.0
    ensures p.y + imageHeight / 2.0 == canvasHeight / 2.0
  {
    var offsetX := canvasWidth * imageIndex as real;
    Position((canvasWidth / 2.0 - imageWidth / 2.0) + offsetX, canvasHeight / 2.0 - imageHeight / 2.0)
  }

  /** The next index sits exactly one canvas width further right, at the same height. */
  lemma PositionStep(imageWidth: real, imageHeight: real, imageIndex: int, canvasWidth: real, canvasHeight: real)
    ensures var p := ImagePositionOnCanvas(imageWidth, imageHeight, imageIndex, canvasWidth, canvasHeight);
            var q := ImagePositionOnCanvas(imageWidth, imageHeight, imageIndex + 1, canvasWidth, canvasHeight);
            q.x == p.x + canvasWidth && q.y == p.y
  {
    assert canvasWidth * (imageIndex + 1) as real == canvasWidth * imageIndex as real + canvasWidth;
  }

  /** The vertical position does not depend on the index. */
  lemma PositionHeightIndependentOfIndex(imageWidth: real, imageHeight: real, i: int, j: int,
                                         canvasWidth: real, canvasHeight: real)
    ensures ImagePositionOnCanvas(imageWidth, imageHeight, i, canvasWidth, canvasHeight).y
            == ImagePositionOnCanvas(imageWidth, imageHeight, j, canvasWidth, canvasHeight).y
  {
  }

  /** On a canvas of positive width, a larger index always lies strictly further right. */
  lemma {:induction false} PositionStrictlyIncreasing(imageWidth: real, imageHeight: real, i: int, j: int,
                                                      canvasWidth: real, canvasHeight: real)
    requires canvasWidth > 0.0 && i < j
    ensures ImagePositionOnCanvas(imageWidth, imageHeight, i, canvasWidth, canvasHeight).x
            < ImagePositionOnCanvas(imageWidth, imageHeight, j, canvasWidth, canvasHeight).x
    decreases j - i
  {
    PositionStep(imageWidth, imageHeight, j - 1, canvasWidth, canvasHeight);
    if i < j - 1 {
      PositionStrictlyIncreasing(imageWidth, imageHeight, i, j - 1, canvasWidth, canvasHeight);
    }
  }

  /** The scenarios the repository's tests check. */
  lemma PositionExamples()
    ensures ImagePositionOnCanvas(200.0, 100.0, 0, 640.0, 400.0) == Position(220.0, 150.0)
    ensures ImagePositionOnCanvas(200.0, 100.0, 1, 640.0, 400.0) == Position(860.0, 150.0)
    ensures ImagePositionOnCanvas(100.0, 50.0, 3, 800.0, 600.0) == Position(350.0 + 2400.0, 275.0)
  {
  }
}
