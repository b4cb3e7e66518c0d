/** Canvas sizing shared by both sketches: a named aspect ratio, optionally flipped,
    is fitted into 80% of the window. Exact reals stand for the browser's doubles. */
module Canvas {

  /** The seven named ratios offered by the aspect-ratio dropdown. */
  datatype AspectRatio = Square | Standard | Widescreen | Photo | Portrait | Mobile | Ultrawide

  datatype Ratio = Ratio(width: int, height: int)

  datatype Size = Size(width: int, height: int)

  /** Fraction of the window the canvas may cover in each direction. */
  const BoxFraction: real := 0.8

  function RatioOf(a: AspectRatio): (r: Ratio)
    ensures r.width > 0 && r.height > 0
  {
    match a
    case Square => Ratio(1, 1)
    case Standard => Ratio(4, 3)
    case Widescreen => Ratio(16, 9)
    case Photo => Ratio(3, 2)
    case Portrait => Ratio(2, 3)
    case Mobile => Ratio(9, 16)
    case Ultrawide => Ratio(21, 9)
  }

  /** The ratio actually fitted: width and height trade places when flipped. */
  function Oriented(a: AspectRatio, flip: bool): (r: Ratio)
    ensures r.width > 0 && r.height > 0
  {
    var r := RatioOf(a);
    if flip then Ratio(r.height, r.width) else r
  }

  function RealMin(a: real, b: real): real { if a <= b then a else b }

  function Transpose(s: Size): Size { Size(s.height, s.width) }

  /** How many ratio units fit: the smaller of the counts across and down. */
  function FitFactor(maxWidth: real, maxHeight: real, rw: real, rh: real): real
    requires rw > 0.0 && rh > 0.0
  {
    RealMin(maxWidth / rw, maxHeight / rh)
  }

  /** The box the canvas must fit in: 80% of the window each way. */
  function BoxWidth(windowWidth: nat): real { windowWidth as real * BoxFraction }

  function BoxHeight(windowHeight: nat): real { windowHeight as real * BoxFraction }

  /** updateCanvasDimensions before any stretch: compare how many ratio units fit across
      and down, and fill the box along the tighter direction, each side floored. */
  function FitToWindow(windowWidth: nat, windowHeight: nat, r: Ratio): (s: Size)
    requires r.width > 0 && r.height > 0
    ensures s.width == BoxWidth(windowWidth).Floor || s.height == BoxHeight(windowHeight).Floor
  {
    FitBox(BoxWidth(windowWidth), BoxHeight(windowHeight), r.width as real, r.height as real)
  }

  function FitBox(maxWidth: real, maxHeight: real, rw: real, rh: real): (s: Size)
    requires rw > 0.0 && rh > 0.0
    ensures s.width == maxWidth.Floor || s.height == maxHeight.Floor
  {
    if maxWidth / rw < maxHeight / rh then
      Size(maxWidth.Floor, (maxWidth * (rh / rw)).Floor)
    else
      Size((maxHeight * (rw / rh)).Floor, maxHeight.Floor)
  }

  /** Fitting a ratio into a box: the canvas is the ratio scaled by the fit factor with
      each side floored; it lies inside the box and reaches the box on one side (up to
      the floor), so no larger rectangle of that ratio fits. */
  lemma FitBoxBounds(maxWidth: real, maxHeight: real, rw: real, rh: real)
    requires maxWidth >= 0.0 && maxHeight >= 0.0 && rw > 0.0 && rh > 0.0
    ensures var k := FitFactor(maxWidth, maxHeight, rw, rh);
            var s := FitBox(maxWidth, maxHeight, rw, rh);
            && s == Size((k * rw).Floor, (k * rh).Floor)
            && 0 <= s.width && s.width as real <= maxWidth
            && 0 <= s.height && s.height as real <= maxHeight
            && (s.width == maxWidth.Floor || s.height == maxHeight.Floor)
  {
    var k := FitFactor(maxWidth, maxHeight, rw, rh);
    FitCase(maxWidth, maxHeight, rw, rh, k);
  }

  /** The arithmetic of one fit: if the width is the tighter direction the canvas spans
      the box's width, else its height; the other side is the ratio's share. */
  lemma FitCase(maxWidth: real, maxHeight: real, rw: real, rh: real, k: real)
    requires maxWidth >= 0.0 && maxHeight >= 0.0 && rw > 0.0 && rh > 0.0
    requires k == RealMin(maxWidth / rw, maxHeight / rh)
    ensures maxWidth / rw < maxHeight / rh ==> k * rw == maxWidth && k * rh == maxWidth * (rh / rw)
    ensures !(maxWidth / rw < maxHeight / rh) ==> k * rh == maxHeight && k * rw == maxHeight * (rw / rh)
    ensures 0.0 <= k * rw <= maxWidth && 0.0 <= k * rh <= maxHeight
  {
    var kw, kh := maxWidth / rw, maxHeight / rh;
    assert kw * rw == maxWidth;
    assert kh * rh == maxHeight;
    assert maxWidth * (rh / rw) == kw * rh;
    assert maxHeight * (rw / rh) == kh * rw;
    assert k <= kw && k <= kh && k >= 0.0;
    MulLe(k, kw, rw);
    MulLe(k, kh, rh);
    MulLe(0.0, k, rw);
    MulLe(0.0, k, rh);
  }

  lemma MulLe(x: real, y: real, c: real)
    requires x <= y && c > 0.0
    ensures x * c <= y * c
  {
  }

  /** For every offered ratio either way round, the window's canvas obeys the box bounds. */
  lemma FitWithinBox(windowWidth: nat, windowHeight: nat, a: AspectRatio, flip: bool)
    ensures var r := Oriented(a, flip);
            var s := FitToWindow(windowWidth, windowHeight, r);
            && 0 <= s.width && s.width as real <= BoxWidth(windowWidth)
            && 0 <= s.height && s.height as real <= BoxHeight(windowHeight)
            && (s.width == BoxWidth(windowWidth).Floor || s.height == BoxHeight(windowHeight).Floor)
  {
    var r := Oriented(a, flip);
    FitBoxBounds(BoxWidth(windowWidth), BoxHeight(windowHeight), r.width as real, r.height as real);
  }

  /** Flipping the orientation is the same as fitting the unflipped ratio into the
      transposed window and transposing the result. */
  lemma FlipTransposes(windowWidth: nat, windowHeight: nat, a: AspectRatio)
    ensures FitToWindow(windowWidth, windowHeight, Oriented(a, true))
         == Transpose(FitToWindow(windowHeight, windowWidth, Oriented(a, false)))
  {
    var r := RatioOf(a);
    var bw, bh := BoxWidth(windowWidth), BoxHeight(windowHeight);
    var rw, rh := r.width as real, r.height as real;
    FitBoxBounds(bw, bh, rh, rw);
    FitBoxBounds(bh, bw, rw, rh);
    FitFactorSymmetric(bw, bh, rh, rw);
  }

  lemma FitFactorSymmetric(maxWidth: real, maxHeight: real, rw: real, rh: real)
    requires rw > 0.0 && rh > 0.0
    ensures FitFactor(maxWidth, maxHeight, rw, rh) == FitFactor(maxHeight, maxWidth, rh, rw)
  {
  }

  /** In a square window, flipping the orientation swaps the canvas's width and height. */
  lemma FlipInSquareWindow(side: nat, a: AspectRatio)
    ensures FitToWindow(side, side, Oriented(a, true))
         == Transpose(FitToWindow(side, side, Oriented(a, false)))
  {
    FlipTransposes(side, side, a);
  }
}
