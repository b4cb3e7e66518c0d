/** The circles sketch, which draws straight onto the canvas: its layout engine walks
    each edge with a stepping coordinate bounded by the far inset, sharing one
    per-layer element counter; the rotation by edge; the unstretched canvas fit; and
    the sketch state touched by the animation tick and the redraw. */
module Circles {
  import opened Layout
  import Canvas
  import Animation

  /** The eight entries of the border-style dropdown. */
  datatype Style = FleurDeLis | Circles | Flowers | Spirals | Ornate | Leaves | Diamonds | Scrolls

  /** The control-panel record read by a redraw. */
  datatype Params = Params(
    aspectRatio: Canvas.AspectRatio,
    flipOrientation: bool,
    canvasColor: string,
    borderColor: string,
    borderWidth: int,
    borderStyle: Style,
    elementSize: int,
    elementSpacing: int,
    borderLayers: nat,
    invertColors: bool,
    animate: bool)

  /** Every edge walk advances by the step, so it ends only if the step is positive;
      the sliders keep it at least 5 (size from 5, spacing from 0). */
  predicate PositiveStep(p: Params)
  {
    p.elementSize + p.elementSpacing > 0
  }

  /** Scroll-offset increase per accepted animation frame. */
  const ScrollAdvance: nat := 1

  /** `totalSpacing`: distance between consecutive elements. */
  function Step(p: Params): (s: int)
    requires PositiveStep(p)
    ensures s > 0
  {
    p.elementSize + p.elementSpacing
  }

  /** `borderPos`: the inset of a layer. */
  function Inset(p: Params, layer: nat): int
  {
    p.borderWidth + layer * (p.elementSize + p.elementSpacing)
  }

  /** `elementCount`: the per-layer placement budget, from the canvas perimeter. */
  function Budget(w: nat, h: nat, p: Params): (b: nat)
    requires PositiveStep(p)
    ensures (b - 1) * Step(p) < 2 * (w + h) <= b * Step(p)
  {
    CeilDiv(2 * (w + h), Step(p))
  }

  /** The scroll displacement applied along every edge. */
  function Offset(p: Params, scrollOffset: nat): (off: int)
    requires PositiveStep(p)
    ensures 0 <= off < Step(p)
    ensures !p.animate ==> off == 0
  {
    if p.animate then scrollOffset % Step(p) else 0
  }

  /** Top and right walks count up, bottom and left walks count down. */
  predicate Ascending(e: Edge)
  {
    e == Top || e == Right
  }

  /** The first coordinate an edge walk visits. */
  function Start(w: nat, h: nat, p: Params, scrollOffset: nat, layer: nat, e: Edge): (s: int)
    requires PositiveStep(p)
    ensures e == Top || e == Right ==> Inset(p, layer) - Step(p) < s <= Inset(p, layer)
    ensures e == Bottom ==> w - Inset(p, layer) <= s < w - Inset(p, layer) + Step(p)
    ensures e == Left ==> h - Inset(p, layer) <= s < h - Inset(p, layer) + Step(p)
  {
    var bp := Inset(p, layer);
    var off := Offset(p, scrollOffset);
    match e
    case Top => bp - off
    case Right => bp - off
    case Bottom => w - bp + off
    case Left => h - bp + off
  }

  /** The bound an edge walk may reach but not pass. */
  function Limit(w: nat, h: nat, p: Params, layer: nat, e: Edge): (l: int)
    ensures e == Top ==> l == PlaceAt(w, h, p, layer, Right, 0).x
    ensures e == Right ==> l == PlaceAt(w, h, p, layer, Bottom, 0).y
    ensures e == Bottom ==> l == PlaceAt(w, h, p, layer, Left, 0).x
    ensures e == Left ==> l == PlaceAt(w, h, p, layer, Top, 0).y
  {
    var bp := Inset(p, layer);
    match e
    case Top => w - bp
    case Right => h - bp
    case Bottom => bp
    case Left => bp
  }

  /** How many of `lo`, `lo + step`, `lo + 2 step`, ... stay at or below `hi`. */
  function RunLength(lo: int, hi: int, step: int): (n: nat)
    requires step > 0
    ensures lo > hi ==> n == 0
    ensures lo <= hi ==> lo + (n - 1) * step <= hi < lo + n * step
  {
    if lo <= hi then
      var q := (hi - lo) / step;
      assert hi - lo == q * step + (hi - lo) % step;
      q + 1
    else 0
  }

  /** The k-th coordinate of an edge walk. */
  function Coordinate(w: nat, h: nat, p: Params, scrollOffset: nat, layer: nat, e: Edge, k: int): int
    requires PositiveStep(p)
  {
    var start := Start(w, h, p, scrollOffset, layer, e);
    if Ascending(e) then start + k * Step(p) else start - k * Step(p)
  }

  /** How many coordinates a walk visits before it passes its bound, budget aside. */
  function FullCount(w: nat, h: nat, p: Params, scrollOffset: nat, layer: nat, e: Edge): nat
    requires PositiveStep(p)
  {
    var start := Start(w, h, p, scrollOffset, layer, e);
    var limit := Limit(w, h, p, layer, e);
    if Ascending(e) then RunLength(start, limit, Step(p)) else RunLength(limit, start, Step(p))
  }

  /** The placement a walk makes at a coordinate: along the top and bottom the
      coordinate is x, along the sides it is y; the other coordinate is the edge's
      inset line. */
  function PlaceAt(w: nat, h: nat, p: Params, layer: nat, e: Edge, c: int): (pl: Placement)
    ensures pl.edge == e && pl.size == p.elementSize
    ensures e == Top || e == Bottom ==> pl.x == c
    ensures e == Right || e == Left ==> pl.y == c
  {
    var bp := Inset(p, layer);
    match e
    case Top => Placement(c, bp, p.elementSize, Top)
    case Right => Placement(w - bp, c, p.elementSize, Right)
    case Bottom => Placement(c, h - bp, p.elementSize, Bottom)
    case Left => Placement(bp, c, p.elementSize, Left)
  }

  function ElementAt(w: nat, h: nat, p: Params, scrollOffset: nat, layer: nat, e: Edge, k: int): Placement
    requires PositiveStep(p)
  {
    PlaceAt(w, h, p, layer, e, Coordinate(w, h, p, scrollOffset, layer, e, k))
  }

  /** The first n elements of an edge walk. */
  function EdgeRun(w: nat, h: nat, p: Params, scrollOffset: nat, layer: nat, e: Edge, n: nat): (r: seq<Placement>)
    requires PositiveStep(p)
    ensures |r| == n
  {
    seq(n, k requires 0 <= k < n => ElementAt(w, h, p, scrollOffset, layer, e, k))
  }

  /** Placements per edge of a layer, the four edges sharing the budget. */
  function LayerQuotas(w: nat, h: nat, p: Params, scrollOffset: nat, layer: nat): (q: seq<nat>)
    requires PositiveStep(p)
    ensures |q| == 4
  {
    EdgeQuotas(Budget(w, h, p),
               FullCount(w, h, p, scrollOffset, layer, Top), FullCount(w, h, p, scrollOffset, layer, Right),
               FullCount(w, h, p, scrollOffset, layer, Bottom), FullCount(w, h, p, scrollOffset, layer, Left))
  }

  /** The placements of one layer: top, then right, bottom and left. */
  function LayerElements(w: nat, h: nat, p: Params, scrollOffset: nat, layer: nat): (r: seq<Placement>)
    requires PositiveStep(p)
    ensures |r| <= Budget(w, h, p)
  {
    var q := LayerQuotas(w, h, p, scrollOffset, layer);
    EdgeRun(w, h, p, scrollOffset, layer, Top, q[0])
      + EdgeRun(w, h, p, scrollOffset, layer, Right, q[1])
      + EdgeRun(w, h, p, scrollOffset, layer, Bottom, q[2])
      + EdgeRun(w, h, p, scrollOffset, layer, Left, q[3])
  }

  /** The placements of the first `layers` layers, innermost last. */
  function BorderElements(w: nat, h: nat, p: Params, scrollOffset: nat, layers: nat): seq<Placement>
    requires PositiveStep(p)
  {
    if layers == 0 then []
    else BorderElements(w, h, p, scrollOffset, layers - 1) + LayerElements(w, h, p, scrollOffset, layers - 1)
  }

  /** The indices a run length counts are exactly those whose coordinate stays at or
      below the bound. */
  lemma RunLengthIndices(lo: int, hi: int, step: int, k: int)
    requires step > 0 && k >= 0
    ensures k < RunLength(lo, hi, step) <==> lo + k * step <= hi
  {
    if lo <= hi {
      var d := hi - lo;
      var q := d / step;
      assert d == step * q + d % step;
      if k <= q {
        MulMonotone(k, q, step);
      } else {
        MulMonotone(q + 1, k, step);
      }
    } else {
      MulMonotone(0, k, step);
    }
  }

  /** Whether a walk is still inside its bound at the k-th coordinate. */
  predicate InBound(w: nat, h: nat, p: Params, scrollOffset: nat, layer: nat, e: Edge, k: int)
    requires PositiveStep(p)
  {
    var c := Coordinate(w, h, p, scrollOffset, layer, e, k);
    if Ascending(e) then c <= Limit(w, h, p, layer, e) else c >= Limit(w, h, p, layer, e)
  }

  /** A walk visits exactly the indices whose coordinate is inside the bound. */
  lemma FullCountIndices(w: nat, h: nat, p: Params, scrollOffset: nat, layer: nat, e: Edge, k: int)
    requires PositiveStep(p) && k >= 0
    ensures k < FullCount(w, h, p, scrollOffset, layer, e) <==> InBound(w, h, p, scrollOffset, layer, e, k)
  {
    var start := Start(w, h, p, scrollOffset, layer, e);
    var limit := Limit(w, h, p, layer, e);
    if Ascending(e) {
      RunLengthIndices(start, limit, Step(p), k);
    } else {
      RunLengthIndices(limit, start, Step(p), k);
    }
  }

  lemma EdgeRunExtend(w: nat, h: nat, p: Params, scrollOffset: nat, layer: nat, e: Edge, n: nat)
    requires PositiveStep(p)
    ensures EdgeRun(w, h, p, scrollOffset, layer, e, n) + [ElementAt(w, h, p, scrollOffset, layer, e, n)]
         == EdgeRun(w, h, p, scrollOffset, layer, e, n + 1)
  {
  }

  /** drawBorder: every layer in turn, as the sequence of placements drawn. */
  method DrawBorder(w: nat, h: nat, p: Params, scrollOffset: nat) returns (placements: seq<Placement>)
    requires PositiveStep(p)
    ensures placements == BorderElements(w, h, p, scrollOffset, p.borderLayers)
  {
    placements := [];
    var layer := 0;
    while layer < p.borderLayers
      invariant 0 <= layer <= p.borderLayers
      invariant placements == BorderElements(w, h, p, scrollOffset, layer)
    {
      var elements := DrawLayer(w, h, p, scrollOffset, layer);
      assert BorderElements(w, h, p, scrollOffset, layer + 1) == placements + elements;
      placements := placements + elements;
      layer := layer + 1;
    }
  }

  /** The body of drawBorder's layer loop: the per-layer quantities, then the four edge
      walks, which share one element counter. */
  method DrawLayer(w: nat, h: nat, p: Params, scrollOffset: nat, layer: nat) returns (out: seq<Placement>)
    requires PositiveStep(p)
    ensures out == LayerElements(w, h, p, scrollOffset, layer)
  {
    var layerOffset := layer * (p.elementSize + p.elementSpacing);
    var borderPos := p.borderWidth + layerOffset;
    var perimeter := 2 * (w + h);
    var totalSpacing := p.elementSize + p.elementSpacing;
    var elementCount := CeilDiv(perimeter, totalSpacing);
    var elementIndex := 0;
    var offset := if p.animate then scrollOffset % totalSpacing else 0;
    assert borderPos == Inset(p, layer) && elementCount == Budget(w, h, p);
    ghost var q := LayerQuotas(w, h, p, scrollOffset, layer);

    var topRun, rightRun, bottomRun, leftRun;
    elementIndex, topRun := EdgeWalk(w, h, p, scrollOffset, layer, Top,
                                     borderPos - offset, w - borderPos, totalSpacing, elementCount, elementIndex);
    assert elementIndex == q[0];
    elementIndex, rightRun := EdgeWalk(w, h, p, scrollOffset, layer, Right,
                                       borderPos - offset, h - borderPos, totalSpacing, elementCount, elementIndex);
    assert elementIndex == q[0] + q[1];
    elementIndex, bottomRun := EdgeWalk(w, h, p, scrollOffset, layer, Bottom,
                                        w - borderPos + offset, borderPos, totalSpacing, elementCount, elementIndex);
    assert elementIndex == q[0] + q[1] + q[2];
    elementIndex, leftRun := EdgeWalk(w, h, p, scrollOffset, layer, Left,
                                      h - borderPos + offset, borderPos, totalSpacing, elementCount, elementIndex);
    out := topRun + rightRun + bottomRun + leftRun;
  }

  /** One edge walk of drawBorder: step the coordinate from `start` towards `limit`
      while it has not passed it, placing one element per visit, and leave early once
      the shared counter reaches the budget. */
  method EdgeWalk(w: nat, h: nat, p: Params, scrollOffset: nat, layer: nat, e: Edge,
                  start: int, limit: int, totalSpacing: int, elementCount: int, startIndex: int)
    returns (elementIndex: int, run: seq<Placement>)
    requires PositiveStep(p) && totalSpacing == Step(p)
    requires start == Start(w, h, p, scrollOffset, layer, e) && limit == Limit(w, h, p, layer, e)
    requires 0 <= startIndex <= elementCount
    ensures var placed := Min(FullCount(w, h, p, scrollOffset, layer, e), elementCount - startIndex);
            elementIndex == startIndex + placed
            && run == EdgeRun(w, h, p, scrollOffset, layer, e, placed)
  {
    elementIndex, run := startIndex, [];
    var c := start;
    ghost var k := 0;
    FullCountIndices(w, h, p, scrollOffset, layer, e, 0);
    while if Ascending(e) then c <= limit else c >= limit
      invariant 0 <= k <= FullCount(w, h, p, scrollOffset, layer, e)
      invariant c == Coordinate(w, h, p, scrollOffset, layer, e, k)
      invariant InBound(w, h, p, scrollOffset, layer, e, k) <==> k < FullCount(w, h, p, scrollOffset, layer, e)
      invariant elementIndex == startIndex + k <= elementCount
      invariant run == EdgeRun(w, h, p, scrollOffset, layer, e, k)
      decreases if Ascending(e) then limit - c else c - limit
    {
      if elementIndex >= elementCount { break; }
      EdgeRunExtend(w, h, p, scrollOffset, layer, e, k);
      run := run + [PlaceAt(w, h, p, layer, e, c)];
      elementIndex := elementIndex + 1;
      c := if Ascending(e) then c + totalSpacing else c - totalSpacing;
      assert (k + 1) * totalSpacing == k * totalSpacing + totalSpacing;
      k := k + 1;
      FullCountIndices(w, h, p, scrollOffset, layer, e, k);
    }
  }

  // ---------------------------------------------------------------------------------
  // Properties of the layout

  /** Consecutive layers are one step apart. */
  lemma InsetsAreEvenlySpaced(p: Params, layer: nat)
    requires PositiveStep(p)
    ensures Inset(p, layer + 1) == Inset(p, layer) + Step(p)
  {
  }

  /** A layer places as many elements as its four walks reach, cut to the budget. */
  lemma LayerSizeWithinBudget(w: nat, h: nat, p: Params, scrollOffset: nat, layer: nat)
    requires PositiveStep(p)
    ensures |LayerElements(w, h, p, scrollOffset, layer)|
         == Min(Budget(w, h, p),
                FullCount(w, h, p, scrollOffset, layer, Top) + FullCount(w, h, p, scrollOffset, layer, Right)
                + FullCount(w, h, p, scrollOffset, layer, Bottom) + FullCount(w, h, p, scrollOffset, layer, Left))
    ensures |LayerElements(w, h, p, scrollOffset, layer)| <= Budget(w, h, p)
  {
  }

  /** Placements per edge, indexed by the edge. */
  function Placed(w: nat, h: nat, p: Params, scrollOffset: nat, layer: nat, e: Edge): nat
    requires PositiveStep(p)
  {
    LayerQuotas(w, h, p, scrollOffset, layer)[QuarterTurns(e)]
  }

  /** Only the later edges lose placements to the budget. */
  lemma OnlyLaterEdgesTruncated(w: nat, h: nat, p: Params, scrollOffset: nat, layer: nat, e: Edge, later: Edge)
    requires PositiveStep(p)
    requires QuarterTurns(e) < QuarterTurns(later)
    requires Placed(w, h, p, scrollOffset, layer, e) < FullCount(w, h, p, scrollOffset, layer, e)
    ensures Placed(w, h, p, scrollOffset, layer, later) == 0
  {
    var full := [FullCount(w, h, p, scrollOffset, layer, Top), FullCount(w, h, p, scrollOffset, layer, Right),
                 FullCount(w, h, p, scrollOffset, layer, Bottom), FullCount(w, h, p, scrollOffset, layer, Left)];
    assert full[QuarterTurns(e)] == FullCount(w, h, p, scrollOffset, layer, e);
  }

  /** Where the k-th placement of a layer comes from. */
  lemma LayerElementIndex(w: nat, h: nat, p: Params, scrollOffset: nat, layer: nat, k: int)
    requires PositiveStep(p)
    requires 0 <= k < |LayerElements(w, h, p, scrollOffset, layer)|
    ensures var q := LayerQuotas(w, h, p, scrollOffset, layer);
            var s := LayerElements(w, h, p, scrollOffset, layer);
            && (k < q[0] ==> s[k] == ElementAt(w, h, p, scrollOffset, layer, Top, k))
            && (q[0] <= k < q[0] + q[1] ==>
                  s[k] == ElementAt(w, h, p, scrollOffset, layer, Right, k - q[0]))
            && (q[0] + q[1] <= k < q[0] + q[1] + q[2] ==>
                  s[k] == ElementAt(w, h, p, scrollOffset, layer, Bottom, k - q[0] - q[1]))
            && (q[0] + q[1] + q[2] <= k ==>
                  s[k] == ElementAt(w, h, p, scrollOffset, layer, Left, k - q[0] - q[1] - q[2]))
  {
    var q := LayerQuotas(w, h, p, scrollOffset, layer);
    var t := EdgeRun(w, h, p, scrollOffset, layer, Top, q[0]);
    var r := EdgeRun(w, h, p, scrollOffset, layer, Right, q[1]);
    var b := EdgeRun(w, h, p, scrollOffset, layer, Bottom, q[2]);
    var l := EdgeRun(w, h, p, scrollOffset, layer, Left, q[3]);
    var s := LayerElements(w, h, p, scrollOffset, layer);
    assert s == ((t + r) + b) + l;
    if k < q[0] {
      assert s[k] == t[k];
    } else if k < q[0] + q[1] {
      assert s[k] == r[k - q[0]];
    } else if k < q[0] + q[1] + q[2] {
      assert s[k] == b[k - q[0] - q[1]];
    } else {
      assert s[k] == l[k - q[0] - q[1] - q[2]];
    }
  }

  /** The edge of the k-th placement of a layer, from the quotas alone. */
  function EdgeOfIndex(q: seq<nat>, k: int): Edge
    requires |q| == 4
  {
    if k < q[0] then Top
    else if k < q[0] + q[1] then Right
    else if k < q[0] + q[1] + q[2] then Bottom
    else Left
  }

  /** A layer lists its placements edge by edge, in the traversal order. */
  lemma EdgesInTraversalOrder(w: nat, h: nat, p: Params, scrollOffset: nat, layer: nat)
    requires PositiveStep(p)
    ensures var s := LayerElements(w, h, p, scrollOffset, layer);
            forall i, j :: 0 <= i < j < |s| ==> QuarterTurns(s[i].edge) <= QuarterTurns(s[j].edge)
  {
    var s := LayerElements(w, h, p, scrollOffset, layer);
    var q := LayerQuotas(w, h, p, scrollOffset, layer);
    forall k | 0 <= k < |s| ensures s[k].edge == EdgeOfIndex(q, k) {
      LayerElementIndex(w, h, p, scrollOffset, layer, k);
    }
  }

  /** Where a placement of a layer may lie: on the inset line of its edge, between the
      walk's start and its inclusive bound. The top and right walks never pass the far
      inset; the bottom and left walks never pass the near one. */
  predicate OnEdge(w: nat, h: nat, p: Params, scrollOffset: nat, layer: nat, pl: Placement)
    requires PositiveStep(p)
  {
    var bp := Inset(p, layer);
    var off := Offset(p, scrollOffset);
    && pl.size == p.elementSize
    && match pl.edge
       case Top => pl.y == bp && bp - off <= pl.x <= w - bp
       case Right => pl.x == w - bp && bp - off <= pl.y <= h - bp
       case Bottom => pl.y == h - bp && bp <= pl.x <= w - bp + off
       case Left => pl.x == bp && bp <= pl.y <= h - bp + off
  }

  /** The elements a walk reaches lie on its edge. */
  lemma ElementOnEdge(w: nat, h: nat, p: Params, scrollOffset: nat, layer: nat, e: Edge, k: int)
    requires PositiveStep(p)
    requires 0 <= k < FullCount(w, h, p, scrollOffset, layer, e)
    ensures ElementAt(w, h, p, scrollOffset, layer, e, k).edge == e
    ensures OnEdge(w, h, p, scrollOffset, layer, ElementAt(w, h, p, scrollOffset, layer, e, k))
  {
    FullCountIndices(w, h, p, scrollOffset, layer, e, k);
    MulMonotone(0, k, Step(p));
  }

  /** Every placement of a layer lies on its edge. */
  lemma PlacementsOnTheirEdge(w: nat, h: nat, p: Params, scrollOffset: nat, layer: nat)
    requires PositiveStep(p)
    ensures var s := LayerElements(w, h, p, scrollOffset, layer);
            forall k :: 0 <= k < |s| ==> OnEdge(w, h, p, scrollOffset, layer, s[k])
  {
    var s := LayerElements(w, h, p, scrollOffset, layer);
    var q := LayerQuotas(w, h, p, scrollOffset, layer);
    forall k | 0 <= k < |s| ensures OnEdge(w, h, p, scrollOffset, layer, s[k]) {
      LayerElementIndex(w, h, p, scrollOffset, layer, k);
      if k < q[0] {
        ElementOnEdge(w, h, p, scrollOffset, layer, Top, k);
      } else if k < q[0] + q[1] {
        ElementOnEdge(w, h, p, scrollOffset, layer, Right, k - q[0]);
      } else if k < q[0] + q[1] + q[2] {
        ElementOnEdge(w, h, p, scrollOffset, layer, Bottom, k - q[0] - q[1]);
      } else {
        ElementOnEdge(w, h, p, scrollOffset, layer, Left, k - q[0] - q[1] - q[2]);
      }
    }
  }

  /** An inclusive walk over a run of length `len` visits one more coordinate than the
      ceiling count exactly when the step divides the run. */
  lemma InclusiveWalkVersusCeiling(len: int, step: int)
    requires len >= 0 && step > 0
    ensures RunLength(0, len, step) == CeilDiv(len, step) + (if len % step == 0 then 1 else 0)
  {
    var q := len / step;
    assert len == step * q + len % step;
    if len % step == 0 {
      CeilDivUnique(len, step, q);
    } else {
      CeilDivUnique(len, step, q + 1);
    }
  }

  /** Without scrolling, a top walk reaches the far inset inclusively, so on an edge
      whose usable length is a whole number of steps it places one element more than
      the ceiling count the other sketch uses. */
  lemma TopWalkVersusCeiling(w: nat, p: Params, scrollOffset: nat, layer: nat, h: nat)
    requires PositiveStep(p) && !p.animate
    requires w - 2 * Inset(p, layer) >= 0
    ensures var len := w - 2 * Inset(p, layer);
            FullCount(w, h, p, scrollOffset, layer, Top)
            == CeilDiv(len, Step(p)) + (if len % Step(p) == 0 then 1 else 0)
  {
    var bp := Inset(p, layer);
    assert (w - bp - bp) / Step(p) == (w - 2 * bp - 0) / Step(p);
    InclusiveWalkVersusCeiling(w - 2 * bp, Step(p));
  }

  // ---------------------------------------------------------------------------------
  // Drawing one element

  /** What one call of the element routine paints: at the placement's origin, turned
      for its edge, in the selected style. */
  datatype Motif = Motif(x: int, y: int, size: int, rotation: Rotation, style: Style)

  /** drawBorderElement: rotation by edge, then dispatch on the style. */
  function DrawElement(pl: Placement, p: Params): (m: Motif)
    ensures m.x == pl.x && m.y == pl.y && m.size == pl.size && m.style == p.borderStyle
    ensures m.rotation.quarterTurns == QuarterTurns(pl.edge)
    ensures m.rotation.oscillating <==> p.animate
  {
    Motif(pl.x, pl.y, pl.size, ElementRotation(pl.edge, p.animate), p.borderStyle)
  }

  // ---------------------------------------------------------------------------------
  // The sketch state

  /** One repaint: the two colours and what the border layers paint, in drawing order. */
  datatype Frame = Frame(palette: Palette, placements: seq<Placement>, motifs: seq<Motif>)

  /** The gate of draw: it paints when a repaint was requested or scrolling is on. */
  predicate Repaints(p: Params, needsRedraw: bool)
  {
    needsRedraw || p.animate
  }

  /** With scrolling off the offset is 0, so one layer's placements do not depend on how
      far the border had scrolled. */
  lemma RestingLayerIgnoresScroll(w: nat, h: nat, p: Params, s1: nat, s2: nat, layer: nat)
    requires PositiveStep(p) && !p.animate
    ensures LayerElements(w, h, p, s1, layer) == LayerElements(w, h, p, s2, layer)
  {
    assert Offset(p, s1) == Offset(p, s2);
    forall e: Edge
      ensures FullCount(w, h, p, s1, layer, e) == FullCount(w, h, p, s2, layer, e)
      ensures forall n: nat :: EdgeRun(w, h, p, s1, layer, e, n) == EdgeRun(w, h, p, s2, layer, e, n)
    {
      assert Start(w, h, p, s1, layer, e) == Start(w, h, p, s2, layer, e);
      forall n: nat ensures EdgeRun(w, h, p, s1, layer, e, n) == EdgeRun(w, h, p, s2, layer, e, n) {
        forall k | 0 <= k < n
          ensures ElementAt(w, h, p, s1, layer, e, k) == ElementAt(w, h, p, s2, layer, e, k)
        {
          assert Coordinate(w, h, p, s1, layer, e, k) == Coordinate(w, h, p, s2, layer, e, k);
        }
      }
    }
    assert LayerQuotas(w, h, p, s1, layer) == LayerQuotas(w, h, p, s2, layer);
  }

  /** Switching Animate off as toggleAnimation does leaves the last scrolled frame on the
      canvas: once an accepted tick has repainted, no repaint is pending, so draw's gate
      stays closed, although the outermost layer's first element at rest sits elsewhere
      than the scrolled one on screen whenever the offset is not 0. */
  lemma ScrollOffLeavesScrolledFrame(w: nat, h: nat, p: Params, scrollOffset: nat)
    requires PositiveStep(p) && p.animate
    requires Offset(p, scrollOffset) != 0
    requires Budget(w, h, p) > 0
    requires FullCount(w, h, p, scrollOffset, 0, Top) > 0 && FullCount(w, h, p.(animate := false), scrollOffset, 0, Top) > 0
    ensures !Repaints(p.(animate := false), false)
    ensures LayerElements(w, h, p, scrollOffset, 0)[0] != LayerElements(w, h, p.(animate := false), scrollOffset, 0)[0]
  {
    var rest := p.(animate := false);
    assert LayerQuotas(w, h, p, scrollOffset, 0)[0] > 0;
    assert LayerQuotas(w, h, rest, scrollOffset, 0)[0] > 0;
    assert LayerElements(w, h, p, scrollOffset, 0)[0] == ElementAt(w, h, p, scrollOffset, 0, Top, 0);
    assert LayerElements(w, h, rest, scrollOffset, 0)[0] == ElementAt(w, h, rest, scrollOffset, 0, Top, 0);
  }

  /** The sketch's module-level state: canvas size and the scroll tick. */
  class Sketch {
    var canvasWidth: nat
    var canvasHeight: nat
    var scrollOffset: nat
    var lastDistortionUpdate: real
    var needsRedraw: bool

    /** The part of the state the animation tick reads and writes. */
    ghost function Ticker(): Animation.Ticker
      reads this
    {
      Animation.Ticker(scrollOffset, lastDistortionUpdate, needsRedraw)
    }

    /** setup, without the control panel: size the canvas, start the tick at rest and
        request the first repaint. */
    constructor(windowWidth: nat, windowHeight: nat, p: Params)
      ensures Canvas.Size(canvasWidth, canvasHeight)
           == Canvas.FitToWindow(windowWidth, windowHeight, Canvas.Oriented(p.aspectRatio, p.flipOrientation))
      ensures Ticker() == Animation.Ticker(0, 0.0, true)
    {
      var s := Canvas.FitToWindow(windowWidth, windowHeight, Canvas.Oriented(p.aspectRatio, p.flipOrientation));
      Canvas.FitWithinBox(windowWidth, windowHeight, p.aspectRatio, p.flipOrientation);
      canvasWidth, canvasHeight := s.width, s.height;
      scrollOffset, lastDistortionUpdate, needsRedraw := 0, 0.0, true;
    }

    /** updateCanvasDimensions: the 80% fit, with no stretch. */
    method UpdateCanvasDimensions(windowWidth: nat, windowHeight: nat, p: Params)
      modifies this`canvasWidth, this`canvasHeight
      ensures Canvas.Size(canvasWidth, canvasHeight)
           == Canvas.FitToWindow(windowWidth, windowHeight, Canvas.Oriented(p.aspectRatio, p.flipOrientation))
      ensures canvasWidth as real <= Canvas.BoxWidth(windowWidth)
      ensures canvasHeight as real <= Canvas.BoxHeight(windowHeight)
    {
      var ratio := Canvas.RatioOf(p.aspectRatio);
      var ratioWidth, ratioHeight := ratio.width, ratio.height;
      if p.flipOrientation {
        ratioWidth, ratioHeight := ratioHeight, ratioWidth;
      }
      assert Canvas.Ratio(ratioWidth, ratioHeight) == Canvas.Oriented(p.aspectRatio, p.flipOrientation);
      var fit := Canvas.FitToWindow(windowWidth, windowHeight, Canvas.Ratio(ratioWidth, ratioHeight));
      Canvas.FitWithinBox(windowWidth, windowHeight, p.aspectRatio, p.flipOrientation);
      canvasWidth, canvasHeight := fit.width, fit.height;
    }

    /** The frame a repaint paints from the current state: the invert-colour palette, the
        specified placements of every layer and one motif per placement. */
    function Repaint(p: Params): Frame
      requires PositiveStep(p)
      reads this
    {
      var placements := BorderElements(canvasWidth, canvasHeight, p, scrollOffset, p.borderLayers);
      Frame(Colors(p.invertColors, p.canvasColor, p.borderColor), placements,
            seq(|placements|, i requires 0 <= i < |placements| => DrawElement(placements[i], p)))
    }

    /** windowResized, and the aspect-ratio and flip controls, which run the same steps:
        refit the canvas, request a repaint and call redraw, which outside setup runs
        draw at once, so the callback ends with the canvas repainted at its new size. */
    method WindowResized(windowWidth: nat, windowHeight: nat, p: Params) returns (frame: Frame)
      requires PositiveStep(p)
      modifies this`canvasWidth, this`canvasHeight, this`needsRedraw
      ensures Canvas.Size(canvasWidth, canvasHeight)
           == Canvas.FitToWindow(windowWidth, windowHeight, Canvas.Oriented(p.aspectRatio, p.flipOrientation))
      ensures frame == Repaint(p) && !needsRedraw
    {
      UpdateCanvasDimensions(windowWidth, windowHeight, p);
      needsRedraw := true;
      var drawn := Draw(p);
      frame := drawn.value;
    }

    /** The controls for width, style, size, spacing, layers, colours and invert: `p`
        holds the new setting; they request a repaint and call redraw, which repaints at
        once. */
    method ControlChanged(p: Params) returns (frame: Frame)
      requires PositiveStep(p)
      modifies this`needsRedraw
      ensures frame == Repaint(p) && !needsRedraw
    {
      needsRedraw := true;
      var drawn := Draw(p);
      frame := drawn.value;
    }

    /** animationLoop: one frame callback, scrolling one pixel per accepted frame; an
        accepted frame requests a repaint and calls redraw, which repaints at the new
        offset before the callback returns. */
    method AnimationLoop(timestamp: real, p: Params) returns (frame: Option<Frame>)
      requires PositiveStep(p)
      modifies this`scrollOffset, this`lastDistortionUpdate, this`needsRedraw
      ensures var t := Animation.Tick(old(Ticker()), timestamp, ScrollAdvance);
              scrollOffset == t.scrollOffset && lastDistortionUpdate == t.lastUpdate
      ensures Animation.Due(old(lastDistortionUpdate), timestamp) ==> frame == Some(Repaint(p)) && !needsRedraw
      ensures !Animation.Due(old(lastDistortionUpdate), timestamp) ==> frame.None? && needsRedraw == old(needsRedraw)
    {
      if timestamp - lastDistortionUpdate > Animation.DistortionUpdateInterval {
        scrollOffset := scrollOffset + ScrollAdvance;
        lastDistortionUpdate := timestamp;
        needsRedraw := true;
        frame := Draw(p);
      } else {
        frame := None;
      }
    }

    /** toggleAnimation as written, with `p` holding the new Animate setting: switching it
        on only schedules the animation loop; switching it off cancels the loop and calls
        redraw without requesting a repaint, so draw paints only if a repaint was already
        pending. */
    method ToggleAnimation(p: Params) returns (frame: Option<Frame>)
      requires PositiveStep(p)
      modifies this`needsRedraw
      ensures p.animate ==> frame.None?
      ensures !p.animate ==> (frame.Some? <==> Repaints(p, old(needsRedraw)))
      ensures frame.Some? ==> frame.value == Repaint(p) && !needsRedraw
      ensures frame.None? ==> needsRedraw == old(needsRedraw)
    {
      if p.animate {
        frame := None;
      } else {
        frame := Draw(p);
      }
    }

    /** toggleAnimation as evidently intended: switching Animate off requests a repaint
        before calling redraw, so the border is repainted at rest. */
    method ToggleAnimationRepainting(p: Params) returns (frame: Option<Frame>)
      requires PositiveStep(p)
      modifies this`needsRedraw
      ensures p.animate ==> frame.None? && needsRedraw == old(needsRedraw)
      ensures !p.animate ==> frame == Some(Repaint(p)) && !needsRedraw
      ensures !p.animate ==> forall layer: nat ::
                LayerElements(canvasWidth, canvasHeight, p, scrollOffset, layer)
                == LayerElements(canvasWidth, canvasHeight, p, 0, layer)
    {
      if p.animate {
        frame := None;
      } else {
        needsRedraw := true;
        frame := Draw(p);
        forall layer: nat
          ensures LayerElements(canvasWidth, canvasHeight, p, scrollOffset, layer)
               == LayerElements(canvasWidth, canvasHeight, p, 0, layer)
        {
          RestingLayerIgnoresScroll(canvasWidth, canvasHeight, p, scrollOffset, 0, layer);
        }
      }
    }

    /** draw: repaint only when a repaint was requested or scrolling is on; a repaint
        fills the background, draws the border layers and clears the request. */
    method Draw(p: Params) returns (frame: Option<Frame>)
      requires PositiveStep(p)
      modifies this`needsRedraw
      ensures frame.Some? <==> Repaints(p, old(needsRedraw))
      ensures frame.Some? ==>
                && frame.value.palette == Colors(p.invertColors, p.canvasColor, p.borderColor)
                && frame.value.placements == BorderElements(canvasWidth, canvasHeight, p, scrollOffset, p.borderLayers)
                && |frame.value.motifs| == |frame.value.placements|
                && (forall i :: 0 <= i < |frame.value.motifs| ==>
                      frame.value.motifs[i] == DrawElement(frame.value.placements[i], p))
                && !needsRedraw
      ensures frame.Some? ==> frame.value == Repaint(p)
      ensures frame.None? ==> needsRedraw == old(needsRedraw)
    {
      if needsRedraw || p.animate {
        var bgColor := if p.invertColors then p.borderColor else p.canvasColor;
        var fgColor := if p.invertColors then p.canvasColor else p.borderColor;
        var placements := DrawBorder(canvasWidth, canvasHeight, p, scrollOffset);
        var motifs := seq(|placements|, i requires 0 <= i < |placements| => DrawElement(placements[i], p));
        frame := Some(Frame(Palette(bgColor, fgColor), placements, motifs));
        needsRedraw := false;
      } else {
        frame := None;
      }
    }
  }
}
