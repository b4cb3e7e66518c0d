/** The border sketch that renders into a buffer at twice the canvas resolution: its
    layout engine (element counts per edge from a ceiling), the per-element rotation
    and style dispatch, the letterboxing of raster motifs, the stretched canvas fit,
    and the sketch state touched by the animation tick and the redraw. */
module Borders {
  import opened Layout
  import Canvas
  import Animation

  /** The twelve entries of the border-style dropdown. */
  datatype Style =
    | FleurDeLis | Circles | Flowers | Spirals | Ornate | Leaves | Diamonds | Scrolls
    | RepeatingShape | VintageBorder | VintageScroll | Shape13

  /** The control-panel record read by a redraw. */
  datatype Params = Params(
    aspectRatio: Canvas.AspectRatio,
    flipOrientation: bool,
    canvasColor: string,
    borderColor: string,
    borderWidth: int,
    borderStyle: Style,
    elementSize: int,
    elementSpacing: int,
    borderLayers: nat,
    invertColors: bool,
    animate: bool,
    animateSize: bool,
    animateSpacing: bool,
    animateLayers: bool)

  /** The one demand the engine makes of its inputs: a positive step between elements
      (the sliders keep size and spacing far above zero). */
  predicate PositiveStep(p: Params)
  {
    p.elementSize + p.elementSpacing > 0
  }

  /** Resolution factor of the drawing buffer. */
  const Scale: int := 2

  /** Scroll-offset increase per accepted animation frame. */
  const ScrollAdvance: nat := 3

  /** `totalSpacing`: distance between consecutive elements, in buffer pixels. */
  function Step(p: Params): (s: int)
    requires PositiveStep(p)
    ensures s > 0
  {
    (p.elementSize + p.elementSpacing) * Scale
  }

  /** `borderPos`: the inset of a layer, in buffer pixels. */
  function Inset(p: Params, layer: nat): int
  {
    (p.borderWidth + layer * (p.elementSize + p.elementSpacing)) * Scale
  }

  /** `elementCount`: the per-layer placement budget, from the buffer perimeter. */
  function Budget(w: nat, h: nat, p: Params): (b: nat)
    requires PositiveStep(p)
    ensures (b - 1) * Step(p) < 2 * (w + h) * Scale <= b * Step(p)
  {
    CeilDiv(2 * (w + h) * Scale, Step(p))
  }

  /** The scroll displacement applied along every edge. */
  function Offset(p: Params, scrollOffset: nat): (off: int)
    requires PositiveStep(p)
    ensures 0 <= off < Step(p)
    ensures !p.animate ==> off == 0
  {
    if p.animate then scrollOffset % Step(p) else 0
  }

  /** Buffer length of an edge. */
  function EdgeLength(w: nat, h: nat, e: Edge): int
  {
    if e == Top || e == Bottom then w * Scale else h * Scale
  }

  /** How many passes an edge loop makes before the budget is considered: the ceiling
      of the usable run over the step, or none at all when the run is not positive. */
  function FullCount(w: nat, h: nat, p: Params, layer: nat, e: Edge): (n: nat)
    requires PositiveStep(p)
    ensures var len := EdgeLength(w, h, e) - 2 * Inset(p, layer);
            && (len <= 0 ==> n == 0)
            && (len > 0 ==> (n - 1) * Step(p) < len <= n * Step(p))
  {
    Max(0, CeilDiv(EdgeLength(w, h, e) - 2 * Inset(p, layer), Step(p)))
  }

  /** The i-th element of an edge: top and right walk forward from the inset against
      the scroll offset, bottom and left walk back from the far corner with it. */
  function ElementAt(w: nat, h: nat, p: Params, scrollOffset: nat, layer: nat, e: Edge, i: int): (r: Placement)
    requires PositiveStep(p)
    ensures r.edge == e && r.size == p.elementSize * Scale
  {
    var borderPos := Inset(p, layer);
    var totalSpacing := Step(p);
    var offset := Offset(p, scrollOffset);
    var size := p.elementSize * Scale;
    match e
    case Top => Placement(borderPos + (i * totalSpacing) - offset, borderPos, size, Top)
    case Right => Placement(w * Scale - borderPos, borderPos + (i * totalSpacing) - offset, size, Right)
    case Bottom => Placement(w * Scale - borderPos - (i * totalSpacing) + offset, h * Scale - borderPos, size, Bottom)
    case Left => Placement(borderPos, h * Scale - borderPos - (i * totalSpacing) + offset, size, Left)
  }

  /** The first n elements of an edge. */
  function EdgeRun(w: nat, h: nat, p: Params, scrollOffset: nat, layer: nat, e: Edge, n: nat): (r: seq<Placement>)
    requires PositiveStep(p)
    ensures |r| == n
  {
    seq(n, i requires 0 <= i < n => ElementAt(w, h, p, scrollOffset, layer, e, i))
  }

  /** Placements per edge of a layer, the four edges sharing the budget. */
  function LayerQuotas(w: nat, h: nat, p: Params, layer: nat): (q: seq<nat>)
    requires PositiveStep(p)
    ensures |q| == 4
  {
    EdgeQuotas(Budget(w, h, p),
               FullCount(w, h, p, layer, Top), FullCount(w, h, p, layer, Right),
               FullCount(w, h, p, layer, Bottom), FullCount(w, h, p, layer, Left))
  }

  /** The placements of one layer: top, then right, bottom and left. */
  function LayerElements(w: nat, h: nat, p: Params, scrollOffset: nat, layer: nat): (r: seq<Placement>)
    requires PositiveStep(p)
    ensures |r| <= Budget(w, h, p)
  {
    var q := LayerQuotas(w, h, p, layer);
    EdgeRun(w, h, p, scrollOffset, layer, Top, q[0])
      + EdgeRun(w, h, p, scrollOffset, layer, Right, q[1])
      + EdgeRun(w, h, p, scrollOffset, layer, Bottom, q[2])
      + EdgeRun(w, h, p, scrollOffset, layer, Left, q[3])
  }

  /** The placements of the first `layers` layers, innermost last. */
  function BorderElements(w: nat, h: nat, p: Params, scrollOffset: nat, layers: nat): seq<Placement>
    requires PositiveStep(p)
  {
    if layers == 0 then []
    else BorderElements(w, h, p, scrollOffset, layers - 1) + LayerElements(w, h, p, scrollOffset, layers - 1)
  }

  lemma EdgeRunExtend(w: nat, h: nat, p: Params, scrollOffset: nat, layer: nat, e: Edge, n: nat)
    requires PositiveStep(p)
    ensures EdgeRun(w, h, p, scrollOffset, layer, e, n) + [ElementAt(w, h, p, scrollOffset, layer, e, n)]
         == EdgeRun(w, h, p, scrollOffset, layer, e, n + 1)
  {
  }

  /** drawBorderToBuffer: every layer in turn, as the sequence of placements drawn. */
  method DrawBorderToBuffer(w: nat, h: nat, p: Params, scrollOffset: nat) returns (placements: seq<Placement>)
    requires PositiveStep(p)
    ensures placements == BorderElements(w, h, p, scrollOffset, p.borderLayers)
  {
    placements := [];
    var layer := 0;
    while layer < p.borderLayers
      invariant 0 <= layer <= p.borderLayers
      invariant placements == BorderElements(w, h, p, scrollOffset, layer)
    {
      var elements := DrawLayerToBuffer(w, h, p, scrollOffset, layer);
      placements := placements + elements;
      layer := layer + 1;
    }
  }

  /** The body of drawBorderToBuffer's layer loop: the per-layer quantities, then the
      four edge loops, which share one element counter. */
  method DrawLayerToBuffer(w: nat, h: nat, p: Params, scrollOffset: nat, layer: nat) returns (out: seq<Placement>)
    requires PositiveStep(p)
    ensures out == LayerElements(w, h, p, scrollOffset, layer)
  {
    var layerOffset := layer * (p.elementSize + p.elementSpacing);
    var borderPos := (p.borderWidth + layerOffset) * Scale;
    var perimeter := 2 * (w + h) * Scale;
    var totalSpacing := (p.elementSize + p.elementSpacing) * Scale;
    var elementCount := CeilDiv(perimeter, totalSpacing);
    var elementIndex := 0;
    var offset := if p.animate then scrollOffset % totalSpacing else 0;
    var size := p.elementSize * Scale;
    assert borderPos == Inset(p, layer) && elementCount == Budget(w, h, p);
    ghost var q := LayerQuotas(w, h, p, layer);

    var topRun, rightRun, bottomRun, leftRun;
    elementIndex, topRun := EdgeLoop(w, h, p, scrollOffset, layer, Top, borderPos, totalSpacing, offset, size,
                                     elementCount, elementIndex);
    assert elementIndex == q[0];
    elementIndex, rightRun := EdgeLoop(w, h, p, scrollOffset, layer, Right, borderPos, totalSpacing, offset, size,
                                       elementCount, elementIndex);
    assert elementIndex == q[0] + q[1];
    elementIndex, bottomRun := EdgeLoop(w, h, p, scrollOffset, layer, Bottom, borderPos, totalSpacing, offset, size,
                                        elementCount, elementIndex);
    assert elementIndex == q[0] + q[1] + q[2];
    elementIndex, leftRun := EdgeLoop(w, h, p, scrollOffset, layer, Left, borderPos, totalSpacing, offset, size,
                                      elementCount, elementIndex);
    out := topRun + rightRun + bottomRun + leftRun;
  }

  /** One edge loop of drawBorderToBuffer: the edge's count is the ceiling of its usable
      length over the step, and the loop leaves early once the shared counter reaches the
      budget. The four edges differ only in the coordinates they place at. */
  method EdgeLoop(w: nat, h: nat, p: Params, scrollOffset: nat, layer: nat, e: Edge,
                  borderPos: int, totalSpacing: int, offset: int, size: int,
                  elementCount: int, startIndex: int)
    returns (elementIndex: int, run: seq<Placement>)
    requires PositiveStep(p)
    requires borderPos == Inset(p, layer) && totalSpacing == Step(p)
    requires offset == Offset(p, scrollOffset) && size == p.elementSize * Scale
    requires 0 <= startIndex <= elementCount
    ensures var placed := Min(FullCount(w, h, p, layer, e), elementCount - startIndex);
            elementIndex == startIndex + placed
            && run == EdgeRun(w, h, p, scrollOffset, layer, e, placed)
  {
    var elements := CeilDiv(EdgeLength(w, h, e) - 2 * borderPos, totalSpacing);
    elementIndex, run := startIndex, [];
    var i := 0;
    while i < elements
      invariant 0 <= i <= Max(0, elements)
      invariant elementIndex == startIndex + i <= elementCount
      invariant run == EdgeRun(w, h, p, scrollOffset, layer, e, i)
    {
      if elementIndex >= elementCount { break; }
      var placement := match e
        case Top => Placement(borderPos + (i * totalSpacing) - offset, borderPos, size, Top)
        case Right => Placement(w * Scale - borderPos, borderPos + (i * totalSpacing) - offset, size, Right)
        case Bottom => Placement(w * Scale - borderPos - (i * totalSpacing) + offset, h * Scale - borderPos, size, Bottom)
        case Left => Placement(borderPos, h * Scale - borderPos - (i * totalSpacing) + offset, size, Left);
      EdgeRunExtend(w, h, p, scrollOffset, layer, e, i);
      run := run + [placement];
      elementIndex := elementIndex + 1;
      i := i + 1;
    }
  }

  // ---------------------------------------------------------------------------------
  // Properties of the layout

  /** Consecutive layers are one buffer step apart, and layer L sits at twice the
      border width plus L element steps. */
  lemma InsetsAreEvenlySpaced(p: Params, layer: nat)
    requires PositiveStep(p)
    ensures Inset(p, layer + 1) == Inset(p, layer) + Step(p)
    ensures Inset(p, layer) == Scale * p.borderWidth + layer * Step(p)
  {
  }

  /** The budget does not depend on the buffer scale: it is the ceiling of the canvas
      perimeter over the unscaled step. */
  lemma BudgetScaleFree(w: nat, h: nat, p: Params)
    requires PositiveStep(p)
    ensures Budget(w, h, p) == CeilDiv(2 * (w + h), p.elementSize + p.elementSpacing)
  {
    CeilDivScale(2 * (w + h), p.elementSize + p.elementSpacing, Scale);
    assert Scale * (2 * (w + h)) == 2 * (w + h) * Scale;
    assert Scale * (p.elementSize + p.elementSpacing) == Step(p);
  }

  /** A layer places as many elements as its four edges ask for, cut to the budget. */
  lemma LayerSizeWithinBudget(w: nat, h: nat, p: Params, scrollOffset: nat, layer: nat)
    requires PositiveStep(p)
    ensures |LayerElements(w, h, p, scrollOffset, layer)|
         == Min(Budget(w, h, p),
                FullCount(w, h, p, layer, Top) + FullCount(w, h, p, layer, Right)
                + FullCount(w, h, p, layer, Bottom) + FullCount(w, h, p, layer, Left))
    ensures |LayerElements(w, h, p, scrollOffset, layer)| <= Budget(w, h, p)
  {
  }

  /** The whole border holds at most one budget per layer. */
  lemma {:induction false} BorderSizeWithinBudget(w: nat, h: nat, p: Params, scrollOffset: nat, layers: nat)
    requires PositiveStep(p)
    ensures |BorderElements(w, h, p, scrollOffset, layers)| <= layers * Budget(w, h, p)
  {
    if layers > 0 {
      var b := Budget(w, h, p);
      var inner := BorderElements(w, h, p, scrollOffset, layers - 1);
      var last := LayerElements(w, h, p, scrollOffset, layers - 1);
      BorderSizeWithinBudget(w, h, p, scrollOffset, layers - 1);
      LayerSizeWithinBudget(w, h, p, scrollOffset, layers - 1);
      var m := (layers - 1) * b;
      assert |inner| <= m && |last| <= b;
      assert layers * b == m + b;
      assert |inner + last| == |inner| + |last|;
    }
  }

  /** Placements per edge, indexed by the edge. */
  function Placed(w: nat, h: nat, p: Params, layer: nat, e: Edge): nat
    requires PositiveStep(p)
  {
    LayerQuotas(w, h, p, layer)[QuarterTurns(e)]
  }

  /** Only the later edges lose placements to the budget: once an edge is cut short,
      every edge visited after it is empty. */
  lemma OnlyLaterEdgesTruncated(w: nat, h: nat, p: Params, layer: nat, e: Edge, later: Edge)
    requires PositiveStep(p)
    requires QuarterTurns(e) < QuarterTurns(later)
    requires Placed(w, h, p, layer, e) < FullCount(w, h, p, layer, e)
    ensures Placed(w, h, p, layer, later) == 0
  {
    var full := [FullCount(w, h, p, layer, Top), FullCount(w, h, p, layer, Right),
                 FullCount(w, h, p, layer, Bottom), FullCount(w, h, p, layer, Left)];
    assert full[QuarterTurns(e)] == FullCount(w, h, p, layer, e);
  }

  /** An edge whose usable length (its length less both insets) is not positive gets
      no placement. */
  lemma ShortEdgeIsEmpty(w: nat, h: nat, p: Params, layer: nat, e: Edge)
    requires PositiveStep(p)
    requires EdgeLength(w, h, e) - 2 * Inset(p, layer) <= 0
    ensures FullCount(w, h, p, layer, e) == 0
    ensures Placed(w, h, p, layer, e) == 0
  {
  }

  /** Once the inset is at least half a step, each edge's ceiling fits inside its own
      share of the perimeter, so the budget never cuts a layer short: the budget only
      binds for thin borders. */
  lemma BudgetBindsOnlyThinBorders(w: nat, h: nat, p: Params, layer: nat)
    requires PositiveStep(p)
    requires 2 * Inset(p, layer) >= Step(p)
    ensures forall e :: Placed(w, h, p, layer, e) == FullCount(w, h, p, layer, e)
  {
    var s := Step(p);
    forall e
      ensures FullCount(w, h, p, layer, e) * s <= EdgeLength(w, h, e)
    {
      EdgeShareFits(w, h, p, layer, e);
    }
    var top, right := FullCount(w, h, p, layer, Top), FullCount(w, h, p, layer, Right);
    var bottom, left := FullCount(w, h, p, layer, Bottom), FullCount(w, h, p, layer, Left);
    var total := top + right + bottom + left;
    DistributeFour(top, right, bottom, left, s);
    assert total * s <= 2 * (w + h) * Scale;
    var b := Budget(w, h, p);
    assert 2 * (w + h) * Scale <= b * s;
    FactorBound(total, b, s);
    var full := [top, right, bottom, left];
    assert Sum(full) == total by { SumOfFour(full); }
    QuotasUntruncated(b, full);
    forall e ensures Placed(w, h, p, layer, e) == FullCount(w, h, p, layer, e) {
      assert full[QuarterTurns(e)] == FullCount(w, h, p, layer, e);
    }
  }

  lemma DistributeFour(a: int, b: int, c: int, d: int, s: int)
    ensures (a + b + c + d) * s == a * s + b * s + c * s + d * s
  {
  }

  lemma FactorBound(a: int, b: int, s: int)
    requires s > 0 && a * s <= b * s
    ensures a <= b
  {
    if a > b {
      MulStrict(b, a, s);
    }
  }

  /** With an inset of at least half a step, the elements of an edge span no more than
      the edge. */
  lemma EdgeShareFits(w: nat, h: nat, p: Params, layer: nat, e: Edge)
    requires PositiveStep(p)
    requires 2 * Inset(p, layer) >= Step(p)
    ensures FullCount(w, h, p, layer, e) * Step(p) <= EdgeLength(w, h, e)
  {
    var len := EdgeLength(w, h, e) - 2 * Inset(p, layer);
    var c := CeilDiv(len, Step(p));
    if c > 0 {
      assert (c - 1) * Step(p) < len;
      assert c * Step(p) == (c - 1) * Step(p) + Step(p);
    }
  }

  /** Where the k-th placement of a layer comes from: the top run fills the first
      quota, then the right, bottom and left runs follow. */
  lemma LayerElementIndex(w: nat, h: nat, p: Params, scrollOffset: nat, layer: nat, k: int)
    requires PositiveStep(p)
    requires 0 <= k < |LayerElements(w, h, p, scrollOffset, layer)|
    ensures var q := LayerQuotas(w, h, p, layer);
            var s := LayerElements(w, h, p, scrollOffset, layer);
            && (k < q[0] ==> s[k] == ElementAt(w, h, p, scrollOffset, layer, Top, k))
            && (q[0] <= k < q[0] + q[1] ==>
                  s[k] == ElementAt(w, h, p, scrollOffset, layer, Right, k - q[0]))
            && (q[0] + q[1] <= k < q[0] + q[1] + q[2] ==>
                  s[k] == ElementAt(w, h, p, scrollOffset, layer, Bottom, k - q[0] - q[1]))
            && (q[0] + q[1] + q[2] <= k ==>
                  s[k] == ElementAt(w, h, p, scrollOffset, layer, Left, k - q[0] - q[1] - q[2]))
  {
    var q := LayerQuotas(w, h, p, layer);
    var t := EdgeRun(w, h, p, scrollOffset, layer, Top, q[0]);
    var r := EdgeRun(w, h, p, scrollOffset, layer, Right, q[1]);
    var b := EdgeRun(w, h, p, scrollOffset, layer, Bottom, q[2]);
    var l := EdgeRun(w, h, p, scrollOffset, layer, Left, q[3]);
    var s := LayerElements(w, h, p, scrollOffset, layer);
    assert s == ((t + r) + b) + l;
    if k < q[0] {
      assert s[k] == t[k];
    } else if k < q[0] + q[1] {
      assert s[k] == r[k - q[0]];
    } else if k < q[0] + q[1] + q[2] {
      assert s[k] == b[k - q[0] - q[1]];
    } else {
      assert s[k] == l[k - q[0] - q[1] - q[2]];
    }
  }

  /** The edge of the k-th placement of a layer, from the quotas alone. */
  function EdgeOfIndex(q: seq<nat>, k: int): Edge
    requires |q| == 4
  {
    if k < q[0] then Top
    else if k < q[0] + q[1] then Right
    else if k < q[0] + q[1] + q[2] then Bottom
    else Left
  }

  /** A layer lists its placements edge by edge, in the traversal order. */
  lemma EdgesInTraversalOrder(w: nat, h: nat, p: Params, scrollOffset: nat, layer: nat)
    requires PositiveStep(p)
    ensures var s := LayerElements(w, h, p, scrollOffset, layer);
            forall i, j :: 0 <= i < j < |s| ==> QuarterTurns(s[i].edge) <= QuarterTurns(s[j].edge)
  {
    var s := LayerElements(w, h, p, scrollOffset, layer);
    var q := LayerQuotas(w, h, p, layer);
    forall k | 0 <= k < |s| ensures s[k].edge == EdgeOfIndex(q, k) {
      LayerElementIndex(w, h, p, scrollOffset, layer, k);
    }
  }

  /** Where a placement of a layer may lie: on the inset line of its edge, within the
      usable run once the scroll offset is taken back. Top and right runs start at the
      inset and stop short of the far inset; bottom and left runs start at the far inset
      and stay beyond the near one. */
  predicate OnEdge(w: nat, h: nat, p: Params, scrollOffset: nat, layer: nat, pl: Placement)
    requires PositiveStep(p)
  {
    var bp := Inset(p, layer);
    var off := Offset(p, scrollOffset);
    && pl.size == p.elementSize * Scale
    && match pl.edge
       case Top => pl.y == bp && bp <= pl.x + off < w * Scale - bp
       case Right => pl.x == w * Scale - bp && bp <= pl.y + off < h * Scale - bp
       case Bottom => pl.y == h * Scale - bp && bp < pl.x - off <= w * Scale - bp
       case Left => pl.x == bp && bp < pl.y - off <= h * Scale - bp
  }

  /** The elements an edge run can place lie on that edge. */
  lemma ElementOnEdge(w: nat, h: nat, p: Params, scrollOffset: nat, layer: nat, e: Edge, i: int)
    requires PositiveStep(p)
    requires 0 <= i < FullCount(w, h, p, layer, e)
    ensures ElementAt(w, h, p, scrollOffset, layer, e, i).edge == e
    ensures OnEdge(w, h, p, scrollOffset, layer, ElementAt(w, h, p, scrollOffset, layer, e, i))
  {
    var len := EdgeLength(w, h, e) - 2 * Inset(p, layer);
    CeilCountIndices(len, Step(p), i);
    MulMonotone(0, i, Step(p));
  }

  /** Every placement of a layer lies on its edge. */
  lemma PlacementsOnTheirEdge(w: nat, h: nat, p: Params, scrollOffset: nat, layer: nat)
    requires PositiveStep(p)
    ensures var s := LayerElements(w, h, p, scrollOffset, layer);
            forall k :: 0 <= k < |s| ==> OnEdge(w, h, p, scrollOffset, layer, s[k])
  {
    var s := LayerElements(w, h, p, scrollOffset, layer);
    var q := LayerQuotas(w, h, p, layer);
    forall k | 0 <= k < |s| ensures OnEdge(w, h, p, scrollOffset, layer, s[k]) {
      LayerElementIndex(w, h, p, scrollOffset, layer, k);
      if k < q[0] {
        ElementOnEdge(w, h, p, scrollOffset, layer, Top, k);
      } else if k < q[0] + q[1] {
        ElementOnEdge(w, h, p, scrollOffset, layer, Right, k - q[0]);
      } else if k < q[0] + q[1] + q[2] {
        ElementOnEdge(w, h, p, scrollOffset, layer, Bottom, k - q[0] - q[1]);
      } else {
        ElementOnEdge(w, h, p, scrollOffset, layer, Left, k - q[0] - q[1] - q[2]);
      }
    }
  }

  /** The sketch's opening sizes on an 800 by 450 canvas: 19 elements along the top and
      bottom, 10 down each side, all within the budget of 63. */
  lemma WidescreenExample(p: Params)
    requires p.borderWidth == 30 && p.elementSize == 20 && p.elementSpacing == 20
    ensures Budget(800, 450, p) == 63
    ensures FullCount(800, 450, p, 0, Top) == 19 && FullCount(800, 450, p, 0, Bottom) == 19
    ensures FullCount(800, 450, p, 0, Right) == 10 && FullCount(800, 450, p, 0, Left) == 10
    ensures |LayerElements(800, 450, p, 0, 0)| == 58
  {
    assert Inset(p, 0) == 60 && Step(p) == 80;
    assert CeilDiv(1480, 80) == 19 && CeilDiv(780, 80) == 10 && CeilDiv(5000, 80) == 63;
    LayerSizeWithinBudget(800, 450, p, 0, 0);
  }

  /** A thin border of large motifs on a small canvas: each edge asks for one element
      but the budget is two, so the bottom and left edges stay empty. */
  lemma ThinBorderExample(p: Params)
    requires p.borderWidth == 5 && p.elementSize == 120 && p.elementSpacing == 100
    ensures Budget(100, 100, p) == 2
    ensures forall e :: FullCount(100, 100, p, 0, e) == 1
    ensures Placed(100, 100, p, 0, Top) == 1 && Placed(100, 100, p, 0, Right) == 1
    ensures Placed(100, 100, p, 0, Bottom) == 0 && Placed(100, 100, p, 0, Left) == 0
  {
    assert FullCount(100, 100, p, 0, Top) == 1;
    assert FullCount(100, 100, p, 0, Right) == 1;
  }

  // ---------------------------------------------------------------------------------
  // Drawing one element

  /** A loaded raster image. */
  datatype Image = Image(width: int, height: int)

  /** An image file the browser has decoded has positive dimensions. */
  predicate Decoded(img: Option<Image>)
  {
    img.Some? ==> img.value.width > 0 && img.value.height > 0
  }

  /** A drawn rectangle relative to the element's origin. */
  datatype Box = Box(x: real, y: real, width: real, height: real)

  /** Letterboxing of a raster motif into a size-by-size square: take the full width
      unless the height would overflow, then take the full height instead; centre the
      result on the origin. */
  function Letterbox(size: int, img: Image): (b: Box)
    requires img.width > 0 && img.height > 0
    ensures size > 0 ==> 0.0 < b.width <= size as real && 0.0 < b.height <= size as real
    ensures b.width * img.height as real == b.height * img.width as real
    ensures b.width == size as real || b.height == size as real
    ensures b.x == -b.width / 2.0 && b.y == -b.height / 2.0
  {
    var s := size as real;
    var imgAspect := img.width as real / img.height as real;
    var drawHeight := s / imgAspect;
    if drawHeight > s then
      Box(-(s * imgAspect) / 2.0, -s / 2.0, s * imgAspect, s)
    else
      assert size > 0 ==> drawHeight > 0.0 by {
        if size > 0 { assert s / imgAspect > 0.0; }
      }
      Box(-s / 2.0, -drawHeight / 2.0, s, drawHeight)
  }

  /** A raster motif: where it is drawn and the colour it is tinted with. */
  datatype Raster = Raster(box: Box, tint: string)

  /** What one call of the element routine paints: at the placement's origin, turned for
      its edge, in the selected style; raster styles also carry their letterboxed image. */
  datatype Motif = Motif(x: int, y: int, size: int, rotation: Rotation, style: Style, raster: Option<Raster>)

  predicate IsRasterStyle(s: Style)
  {
    s == VintageScroll || s == Shape13
  }

  /** drawBorderElementToBuffer: rotation by edge, then dispatch on the style. The two
      raster styles draw nothing while their image is not loaded. */
  function DrawElement(pl: Placement, p: Params, vintagePNG: Option<Image>, shape13PNG: Option<Image>): (r: Option<Motif>)
    requires Decoded(vintagePNG) && Decoded(shape13PNG)
    ensures r.None? <==> (p.borderStyle == VintageScroll && vintagePNG.None?)
                         || (p.borderStyle == Shape13 && shape13PNG.None?)
    ensures r.Some? ==> && r.value.x == pl.x && r.value.y == pl.y && r.value.size == pl.size
                        && r.value.rotation == ElementRotation(pl.edge, p.animate)
                        && r.value.style == p.borderStyle
                        && (r.value.raster.Some? <==> IsRasterStyle(p.borderStyle))
    ensures r.Some? && r.value.raster.Some? ==>
              r.value.raster.value.tint == Colors(p.invertColors, p.canvasColor, p.borderColor).foreground
  {
    var rotation := ElementRotation(pl.edge, p.animate);
    var tint := if p.invertColors then p.canvasColor else p.borderColor;
    match p.borderStyle
    case VintageScroll =>
      if vintagePNG.None? then None
      else Some(Motif(pl.x, pl.y, pl.size, rotation, VintageScroll, Some(Raster(Letterbox(pl.size, vintagePNG.value), tint))))
    case Shape13 =>
      if shape13PNG.None? then None
      else Some(Motif(pl.x, pl.y, pl.size, rotation, Shape13, Some(Raster(Letterbox(pl.size, shape13PNG.value), tint))))
    case _ => Some(Motif(pl.x, pl.y, pl.size, rotation, p.borderStyle, None))
  }

  /** The motifs a sequence of placements paints, in order. */
  function Render(placements: seq<Placement>, p: Params, vintagePNG: Option<Image>, shape13PNG: Option<Image>): (r: seq<Motif>)
    requires Decoded(vintagePNG) && Decoded(shape13PNG)
    ensures |r| <= |placements|
  {
    if placements == [] then []
    else
      var rest := Render(placements[1..], p, vintagePNG, shape13PNG);
      match DrawElement(placements[0], p, vintagePNG, shape13PNG)
      case None => rest
      case Some(m) => [m] + rest
  }

  /** Every placement paints a motif unless the style is a raster one whose image is
      missing, in which case the whole border is blank; the i-th motif is drawn at the
      i-th placement. */
  lemma {:induction false} RenderPaintsEveryPlacement(placements: seq<Placement>, p: Params,
                                                      vintagePNG: Option<Image>, shape13PNG: Option<Image>)
    requires Decoded(vintagePNG) && Decoded(shape13PNG)
    ensures var r := Render(placements, p, vintagePNG, shape13PNG);
            var blank := (p.borderStyle == VintageScroll && vintagePNG.None?)
                         || (p.borderStyle == Shape13 && shape13PNG.None?);
            && (blank ==> r == [])
            && (!blank ==> |r| == |placements|)
            && (!blank ==> forall i :: 0 <= i < |r| ==> Some(r[i]) == DrawElement(placements[i], p, vintagePNG, shape13PNG))
  {
    if placements != [] {
      RenderPaintsEveryPlacement(placements[1..], p, vintagePNG, shape13PNG);
      var r := Render(placements, p, vintagePNG, shape13PNG);
      var rest := Render(placements[1..], p, vintagePNG, shape13PNG);
      match DrawElement(placements[0], p, vintagePNG, shape13PNG)
      case None =>
      case Some(m) =>
        assert r == [m] + rest;
        forall i | 0 < i < |r|
          ensures Some(r[i]) == DrawElement(placements[i], p, vintagePNG, shape13PNG)
        {
          assert r[i] == rest[i - 1] && placements[i] == placements[1..][i - 1];
        }
    }
  }

  // ---------------------------------------------------------------------------------
  // Canvas size

  /** updateCanvasDimensions of this sketch: the 80% fit, then the height stretched by a
      fifth and floored. The stretched height stays under 96% of the window. */
  function BordersCanvas(windowWidth: nat, windowHeight: nat, a: Canvas.AspectRatio, flip: bool): (s: Canvas.Size)
    ensures var fit := Canvas.FitToWindow(windowWidth, windowHeight, Canvas.Oriented(a, flip));
            && s.width == fit.width
            && s.height as real <= fit.height as real * 1.2 < s.height as real + 1.0
    ensures 0 <= s.width && s.width as real <= Canvas.BoxWidth(windowWidth)
    ensures 0 <= s.height && s.height as real <= windowHeight as real * 0.96
  {
    var fit := Canvas.FitToWindow(windowWidth, windowHeight, Canvas.Oriented(a, flip));
    Canvas.FitWithinBox(windowWidth, windowHeight, a, flip);
    Canvas.Size(fit.width, (fit.height as real * 1.2).Floor)
  }

  // ---------------------------------------------------------------------------------
  // The sketch state

  /** One repaint: the two colours and what the border layers paint, in drawing order. */
  datatype Frame = Frame(palette: Palette, placements: seq<Placement>, motifs: seq<Motif>)

  /** Whether a frame repaints because a size, spacing or layer animation is running. */
  predicate Oscillating(p: Params)
  {
    p.animateSize || p.animateSpacing || p.animateLayers
  }

  /** The gate of draw: it paints when an oscillation runs, a repaint was requested or
      scrolling is on. */
  predicate Repaints(p: Params, needsRedraw: bool)
  {
    Oscillating(p) || needsRedraw || p.animate
  }

  /** With scrolling off the offset is 0, so one layer's placements do not depend on how
      far the border had scrolled. */
  lemma RestingLayerIgnoresScroll(w: nat, h: nat, p: Params, s1: nat, s2: nat, layer: nat)
    requires PositiveStep(p) && !p.animate
    ensures LayerElements(w, h, p, s1, layer) == LayerElements(w, h, p, s2, layer)
  {
    forall e: Edge, n: nat | n <= Budget(w, h, p)
      ensures EdgeRun(w, h, p, s1, layer, e, n) == EdgeRun(w, h, p, s2, layer, e, n)
    {
      forall i | 0 <= i < n
        ensures ElementAt(w, h, p, s1, layer, e, i) == ElementAt(w, h, p, s2, layer, e, i)
      {
      }
    }
  }

  /** Switching Scroll off as toggleAnimation does leaves the last scrolled frame on the
      canvas: once an accepted tick has repainted, no repaint is pending, so with no
      oscillation running draw's gate stays closed, although the outermost layer at rest
      differs from the scrolled one on screen whenever the offset is not 0. */
  lemma ScrollOffLeavesScrolledFrame(w: nat, h: nat, p: Params, scrollOffset: nat)
    requires PositiveStep(p) && p.animate && !Oscillating(p)
    requires Offset(p, scrollOffset) != 0
    requires Budget(w, h, p) > 0 && FullCount(w, h, p, 0, Top) > 0
    ensures !Repaints(p.(animate := false), false)
    ensures LayerElements(w, h, p, scrollOffset, 0) != LayerElements(w, h, p.(animate := false), scrollOffset, 0)
  {
    var rest := p.(animate := false);
    assert FullCount(w, h, rest, 0, Top) == FullCount(w, h, p, 0, Top);
    assert Budget(w, h, rest) == Budget(w, h, p);
    assert LayerQuotas(w, h, p, 0)[0] > 0;
    assert LayerQuotas(w, h, rest, 0)[0] > 0;
    assert LayerElements(w, h, p, scrollOffset, 0)[0] == ElementAt(w, h, p, scrollOffset, 0, Top, 0);
    assert LayerElements(w, h, rest, scrollOffset, 0)[0] == ElementAt(w, h, rest, scrollOffset, 0, Top, 0);
  }

  /** The sketch's module-level state: canvas size, the scroll tick and the two raster
      images, which nothing in the sketch loads. */
  class Sketch {
    var canvasWidth: nat
    var canvasHeight: nat
    var scrollOffset: nat
    var lastDistortionUpdate: real
    var needsRedraw: bool
    var vintagePNG: Option<Image>
    var shape13PNG: Option<Image>

    ghost predicate Valid()
      reads this
    {
      Decoded(vintagePNG) && Decoded(shape13PNG)
    }

    /** The part of the state the animation tick reads and writes. */
    ghost function Ticker(): Animation.Ticker
      reads this
    {
      Animation.Ticker(scrollOffset, lastDistortionUpdate, needsRedraw)
    }

    /** setup, without the control panel: size the canvas, start the tick at rest and
        request the first repaint. */
    constructor(windowWidth: nat, windowHeight: nat, p: Params)
      ensures Valid()
      ensures Canvas.Size(canvasWidth, canvasHeight) == BordersCanvas(windowWidth, windowHeight, p.aspectRatio, p.flipOrientation)
      ensures Ticker() == Animation.Ticker(0, 0.0, true)
      ensures vintagePNG == None && shape13PNG == None
    {
      var s := BordersCanvas(windowWidth, windowHeight, p.aspectRatio, p.flipOrientation);
      canvasWidth, canvasHeight := s.width, s.height;
      scrollOffset, lastDistortionUpdate, needsRedraw := 0, 0.0, true;
      vintagePNG, shape13PNG := None, None;
    }

    /** updateCanvasDimensions. */
    method UpdateCanvasDimensions(windowWidth: nat, windowHeight: nat, p: Params)
      modifies this`canvasWidth, this`canvasHeight
      ensures Canvas.Size(canvasWidth, canvasHeight) == BordersCanvas(windowWidth, windowHeight, p.aspectRatio, p.flipOrientation)
    {
      var ratio := Canvas.RatioOf(p.aspectRatio);
      var ratioWidth, ratioHeight := ratio.width, ratio.height;
      if p.flipOrientation {
        ratioWidth, ratioHeight := ratioHeight, ratioWidth;
      }
      assert Canvas.Ratio(ratioWidth, ratioHeight) == Canvas.Oriented(p.aspectRatio, p.flipOrientation);
      var fit := Canvas.FitToWindow(windowWidth, windowHeight, Canvas.Ratio(ratioWidth, ratioHeight));
      Canvas.FitWithinBox(windowWidth, windowHeight, p.aspectRatio, p.flipOrientation);
      canvasWidth := fit.width;
      canvasHeight := (fit.height as real * 1.2).Floor;
    }

    /** The frame a repaint paints from the current state: the invert-colour palette, the
        specified placements of every layer and the motifs they paint. */
    function Repaint(p: Params): Frame
      requires Valid() && PositiveStep(p)
      reads this
    {
      var placements := BorderElements(canvasWidth, canvasHeight, p, scrollOffset, p.borderLayers);
      Frame(Colors(p.invertColors, p.canvasColor, p.borderColor), placements,
            Render(placements, p, vintagePNG, shape13PNG))
    }

    /** windowResized, and the aspect-ratio and flip controls, which run the same steps:
        refit the canvas, request a repaint and call redraw, which outside setup runs
        draw at once, so the callback ends with the canvas repainted at its new size. */
    method WindowResized(windowWidth: nat, windowHeight: nat, p: Params) returns (frame: Frame)
      requires Valid() && PositiveStep(p)
      modifies this`canvasWidth, this`canvasHeight, this`needsRedraw
      ensures Canvas.Size(canvasWidth, canvasHeight) == BordersCanvas(windowWidth, windowHeight, p.aspectRatio, p.flipOrientation)
      ensures frame == Repaint(p) && !needsRedraw
    {
      UpdateCanvasDimensions(windowWidth, windowHeight, p);
      needsRedraw := true;
      var drawn := Draw(p);
      frame := drawn.value;
    }

    /** The controls for size, spacing, layers, width, style and colours: `p` holds the
        new setting; they request a repaint and call redraw, which repaints at once. */
    method ControlChanged(p: Params) returns (frame: Frame)
      requires Valid() && PositiveStep(p)
      modifies this`needsRedraw
      ensures frame == Repaint(p) && !needsRedraw
    {
      needsRedraw := true;
      var drawn := Draw(p);
      frame := drawn.value;
    }

    /** The three animate toggles: they request a repaint and start or stop p5's draw
        loop, whose frames the model leaves to separate Draw calls. */
    method RequestRedraw()
      modifies this`needsRedraw
      ensures needsRedraw
    {
      needsRedraw := true;
    }

    /** animationLoop: one frame callback, scrolling three buffer pixels per accepted
        frame; an accepted frame requests a repaint and calls redraw, which repaints at
        the new offset before the callback returns. */
    method AnimationLoop(timestamp: real, p: Params) returns (frame: Option<Frame>)
      requires Valid() && PositiveStep(p)
      modifies this`scrollOffset, this`lastDistortionUpdate, this`needsRedraw
      ensures var t := Animation.Tick(old(Ticker()), timestamp, ScrollAdvance);
              scrollOffset == t.scrollOffset && lastDistortionUpdate == t.lastUpdate
      ensures Animation.Due(old(lastDistortionUpdate), timestamp) ==> frame == Some(Repaint(p)) && !needsRedraw
      ensures !Animation.Due(old(lastDistortionUpdate), timestamp) ==> frame.None? && needsRedraw == old(needsRedraw)
    {
      if timestamp - lastDistortionUpdate > Animation.DistortionUpdateInterval {
        scrollOffset := scrollOffset + ScrollAdvance;
        lastDistortionUpdate := timestamp;
        needsRedraw := true;
        frame := Draw(p);
      } else {
        frame := None;
      }
    }

    /** toggleAnimation as written, with `p` holding the new Scroll setting: switching it
        on only schedules the animation loop; switching it off cancels the loop and calls
        redraw without requesting a repaint, so draw paints only if its gate is open
        anyway. */
    method ToggleAnimation(p: Params) returns (frame: Option<Frame>)
      requires Valid() && PositiveStep(p)
      modifies this`needsRedraw
      ensures p.animate ==> frame.None?
      ensures !p.animate ==> (frame.Some? <==> Repaints(p, old(needsRedraw)))
      ensures frame.Some? ==> frame.value == Repaint(p) && !needsRedraw
      ensures frame.None? ==> needsRedraw == old(needsRedraw)
    {
      if p.animate {
        frame := None;
      } else {
        frame := Draw(p);
      }
    }

    /** toggleAnimation as evidently intended: switching Scroll off requests a repaint
        before calling redraw, so the border is repainted at rest. */
    method ToggleAnimationRepainting(p: Params) returns (frame: Option<Frame>)
      requires Valid() && PositiveStep(p)
      modifies this`needsRedraw
      ensures p.animate ==> frame.None? && needsRedraw == old(needsRedraw)
      ensures !p.animate ==> frame == Some(Repaint(p)) && !needsRedraw
      ensures !p.animate ==> forall layer: nat ::
                LayerElements(canvasWidth, canvasHeight, p, scrollOffset, layer)
                == LayerElements(canvasWidth, canvasHeight, p, 0, layer)
    {
      if p.animate {
        frame := None;
      } else {
        needsRedraw := true;
        frame := Draw(p);
        forall layer: nat
          ensures LayerElements(canvasWidth, canvasHeight, p, scrollOffset, layer)
               == LayerElements(canvasWidth, canvasHeight, p, 0, layer)
        {
          RestingLayerIgnoresScroll(canvasWidth, canvasHeight, p, scrollOffset, 0, layer);
        }
      }
    }

    /** draw: repaint when an oscillation runs, a repaint was requested or scrolling is
        on; a repaint fills the background, draws the border layers and clears the
        request. Otherwise nothing is painted and nothing changes. */
    method Draw(p: Params) returns (frame: Option<Frame>)
      requires Valid() && PositiveStep(p)
      modifies this`needsRedraw
      ensures frame.Some? <==> Repaints(p, old(needsRedraw))
      ensures frame.Some? ==>
                && frame.value.palette == Colors(p.invertColors, p.canvasColor, p.borderColor)
                && frame.value.placements == BorderElements(canvasWidth, canvasHeight, p, scrollOffset, p.borderLayers)
                && frame.value.motifs == Render(frame.value.placements, p, vintagePNG, shape13PNG)
                && !needsRedraw
      ensures frame.Some? ==> frame.value == Repaint(p)
      ensures frame.None? ==> needsRedraw == old(needsRedraw)
    {
      var needsUpdate := p.animateSize || p.animateSpacing || p.animateLayers;
      if needsUpdate || needsRedraw || p.animate {
        var bgColor := if p.invertColors then p.borderColor else p.canvasColor;
        var fgColor := if p.invertColors then p.canvasColor else p.borderColor;
        var placements := DrawBorderToBuffer(canvasWidth, canvasHeight, p, scrollOffset);
        var motifs := Render(placements, p, vintagePNG, shape13PNG);
        frame := Some(Frame(Palette(bgColor, fgColor), placements, motifs));
        needsRedraw := false;
      } else {
        frame := None;
      }
    }
  }
}
