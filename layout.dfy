/** Vocabulary shared by both border layout engines: the four edges, one motif
    placement, the integer ceiling used for element counts, and the rule by which a
    single per-layer element counter is shared by the four edges in traversal order. */
module Layout {

  datatype Option<T> = None | Some(value: T)

  /** The edges of the canvas, in the order every layer visits them. */
  datatype Edge = Top | Right | Bottom | Left

  const Traversal: seq<Edge> := [Top, Right, Bottom, Left]

  /** One motif instance handed to the renderer: integer origin, motif size and the
      edge it belongs to (which fixes its rotation). */
  datatype Placement = Placement(x: int, y: int, size: int, edge: Edge)

  /** Rotation of a motif: a number of quarter turns fixed by its edge, plus the small
      time-driven oscillation that is layered on only while scrolling is enabled. */
  datatype Rotation = Rotation(quarterTurns: nat, oscillating: bool)

  /** Quarter turns applied for an edge, so that the motif's "up" points outward. */
  function QuarterTurns(e: Edge): (t: nat)
    ensures t < 4
  {
    match e
    case Top => 0
    case Right => 1
    case Bottom => 2
    case Left => 3
  }

  /** The edge a quarter-turn count belongs to: the inverse of QuarterTurns. */
  function EdgeOfTurns(t: nat): (e: Edge)
    requires t < 4
    ensures QuarterTurns(e) == t
  {
    if t == 0 then Top else if t == 1 then Right else if t == 2 then Bottom else Left
  }

  /** The rotation rule: the i-th edge visited is turned i quarter turns, and the
      count determines the edge back. */
  lemma QuarterTurnsFollowTraversal(e: Edge)
    ensures Traversal[QuarterTurns(e)] == e
    ensures EdgeOfTurns(QuarterTurns(e)) == e
  {
  }

  /** The rotation a placement is drawn with. */
  function ElementRotation(e: Edge, animate: bool): (r: Rotation)
    ensures r.quarterTurns == QuarterTurns(e)
    ensures r.oscillating <==> animate
  {
    Rotation(QuarterTurns(e), animate)
  }

  /** Background and foreground colours of a redraw. */
  datatype Palette = Palette(background: string, foreground: string)

  /** The invert-colours rule: inverted, the border colour fills the background and the
      canvas colour draws the motifs; otherwise the other way round. */
  function Colors(invert: bool, canvasColor: string, borderColor: string): (r: Palette)
    ensures {r.background, r.foreground} == {canvasColor, borderColor}
    ensures r.background == (if invert then borderColor else canvasColor)
  {
    if invert then Palette(borderColor, canvasColor) else Palette(canvasColor, borderColor)
  }

  /** Toggling the flag swaps the two roles, so toggling it twice restores the pair. */
  lemma InvertSwapsColors(invert: bool, canvasColor: string, borderColor: string)
    ensures Colors(!invert, canvasColor, borderColor).background == Colors(invert, canvasColor, borderColor).foreground
    ensures Colors(!invert, canvasColor, borderColor).foreground == Colors(invert, canvasColor, borderColor).background
  {
  }

  function Min(a: int, b: int): int { if a <= b then a else b }

  function Max(a: int, b: int): int { if a <= b then b else a }

  /** Integer ceiling of a / b (Math.ceil of the quotient), for a positive divisor. */
  function CeilDiv(a: int, b: int): (q: int)
    requires b > 0
    ensures (q - 1) * b < a <= q * b
    ensures a >= 0 ==> q >= 0
  {
    var d := (-a) / b;
    assert -a == b * d + (-a) % b;
    -d
  }

  /** The ceiling is the unique integer with that bracketing property. */
  lemma CeilDivUnique(a: int, b: int, q: int)
    requires b > 0
    requires (q - 1) * b < a <= q * b
    ensures q == CeilDiv(a, b)
  {
    var c := CeilDiv(a, b);
    if q < c {
      assert q * b <= (c - 1) * b by { MulMonotone(q, c - 1, b); }
    } else if q > c {
      assert c * b <= (q - 1) * b by { MulMonotone(c, q - 1, b); }
    }
  }

  lemma MulMonotone(a: int, c: int, b: int)
    requires a <= c && b > 0
    ensures a * b <= c * b
  {
    assert c * b - a * b == (c - a) * b;
  }

  /** The number of passes of `for (i = 0; i < Math.ceil(len / step); i++)`: exactly the
      indices i whose start i * step still lies inside a run of length len. */
  lemma CeilCountIndices(len: int, step: int, i: int)
    requires step > 0 && i >= 0
    ensures i < Max(0, CeilDiv(len, step)) <==> i * step < len
  {
    var q := CeilDiv(len, step);
    if i < q {
      MulMonotone(i, q - 1, step);
    } else {
      MulMonotone(q, i, step);
    }
  }

  /** Doubling both the run and the step leaves the ceiling unchanged (the 2x buffer
      scale cancels out of every count). */
  lemma CeilDivScale(a: int, b: int, k: int)
    requires b > 0 && k > 0
    ensures CeilDiv(k * a, k * b) == CeilDiv(a, b)
  {
    var q := CeilDiv(a, b);
    assert (q - 1) * (k * b) == k * ((q - 1) * b);
    assert q * (k * b) == k * (q * b);
    MulStrict((q - 1) * b, a, k);
    MulMonotone(a, q * b, k);
    assert k * a <= k * (q * b);
    CeilDivUnique(k * a, k * b, q);
  }

  lemma MulStrict(a: int, c: int, k: int)
    requires a < c && k > 0
    ensures k * a < k * c
  {
    assert k * c - k * a == k * (c - a);
  }

  function Sum(s: seq<nat>): nat
  {
    if s == [] then 0 else s[0] + Sum(s[1..])
  }

  /** How many placements each edge receives when the edges, holding `full` elements
      each, are visited in order and every placement consumes one unit of a shared
      budget (the `elementIndex >= elementCount` break of both engines). */
  function Quotas(budget: nat, full: seq<nat>): (q: seq<nat>)
    ensures |q| == |full|
    ensures forall k {:trigger q[k]} :: 0 <= k < |q| ==> q[k] <= full[k]
  {
    if full == [] then []
    else
      var take := Min(budget, full[0]);
      [take] + Quotas(budget - take, full[1..])
  }

  /** Together the edges place as many elements as they hold, up to the budget. */
  lemma {:induction false} QuotasTotal(budget: nat, full: seq<nat>)
    ensures Sum(Quotas(budget, full)) == Min(budget, Sum(full))
  {
    if full != [] {
      var take := Min(budget, full[0]);
      QuotasTotal(budget - take, full[1..]);
    }
  }

  /** Each edge receives what it holds or the budget left by the earlier edges,
      whichever is smaller. */
  lemma {:induction false} QuotaIsRemainingBudget(budget: nat, full: seq<nat>, i: nat)
    requires i < |full|
    ensures Sum(Quotas(budget, full)[..i]) <= budget
    ensures Quotas(budget, full)[i] == Min(full[i], budget - Sum(Quotas(budget, full)[..i]))
  {
    var q := Quotas(budget, full);
    var take := Min(budget, full[0]);
    if i == 0 {
      assert q[..0] == [];
    } else {
      QuotaIsRemainingBudget(budget - take, full[1..], i - 1);
      assert q[..i] == [take] + Quotas(budget - take, full[1..])[..i - 1];
    }
  }

  /** Truncation happens only at the tail: once an edge is cut short by the budget,
      every later edge receives nothing. */
  lemma {:induction false} QuotasTruncateOnlyLater(budget: nat, full: seq<nat>, i: nat, j: nat)
    requires i < j < |full|
    requires Quotas(budget, full)[i] < full[i]
    ensures Quotas(budget, full)[j] == 0
    decreases |full|
  {
    var q := Quotas(budget, full);
    var take := Min(budget, full[0]);
    var tail := full[1..];
    var rest := Quotas(budget - take, tail);
    assert q == [take] + rest;
    assert q[j] == rest[j - 1];
    if i == 0 {
      assert take == budget;
      ZeroBudget(tail, j - 1);
    } else {
      assert q[i] == rest[i - 1] && full[i] == tail[i - 1];
      QuotasTruncateOnlyLater(budget - take, tail, i - 1, j - 1);
    }
  }

  lemma {:induction false} ZeroBudget(full: seq<nat>, j: nat)
    requires j < |full|
    ensures Quotas(0, full)[j] == 0
  {
    assert Quotas(0, full) == [0] + Quotas(0, full[1..]);
    if j > 0 {
      ZeroBudget(full[1..], j - 1);
    }
  }

  lemma SumOfFour(s: seq<nat>)
    requires |s| == 4
    ensures Sum(s) == s[0] + s[1] + s[2] + s[3]
  {
    assert s[1..][1..][1..][1..] == [];
    assert Sum(s[1..][1..][1..]) == s[3];
    assert Sum(s[1..][1..]) == s[2] + s[3];
    assert Sum(s[1..]) == s[1] + s[2] + s[3];
  }

  /** When the budget covers every edge, no edge is truncated. */
  lemma {:induction false} QuotasUntruncated(budget: nat, full: seq<nat>)
    requires Sum(full) <= budget
    ensures Quotas(budget, full) == full
  {
    if full != [] {
      QuotasUntruncated(budget - full[0], full[1..]);
    }
  }

  lemma PrefixSumsOfFour(q: seq<nat>)
    requires |q| == 4
    ensures Sum(q[..0]) == 0
    ensures Sum(q[..1]) == q[0]
    ensures Sum(q[..2]) == q[0] + q[1]
    ensures Sum(q[..3]) == q[0] + q[1] + q[2]
  {
    SumOfFour(q[..3] + [0]);
    assert q[..3] + [0] == [q[0], q[1], q[2], 0];
    SumOfFour(q[..2] + [0, 0]);
    assert q[..2] + [0, 0] == [q[0], q[1], 0, 0];
    assert q[..0] == [];
    assert q[..1][1..] == [];
    SumAppendZeros(q[..3], [0]);
    SumAppendZeros(q[..2], [0, 0]);
  }

  lemma {:induction false} SumAppendZeros(a: seq<nat>, z: seq<nat>)
    requires forall k :: 0 <= k < |z| ==> z[k] == 0
    ensures Sum(a + z) == Sum(a)
  {
    if a == [] {
      assert a + z == z;
      ZerosSum(z);
    } else {
      assert (a + z)[1..] == a[1..] + z;
      SumAppendZeros(a[1..], z);
    }
  }

  lemma {:induction false} ZerosSum(z: seq<nat>)
    requires forall k :: 0 <= k < |z| ==> z[k] == 0
    ensures Sum(z) == 0
  {
    if z != [] {
      ZerosSum(z[1..]);
    }
  }

  lemma FourEdgeQuotas(budget: nat, full: seq<nat>)
    requires |full| == 4
    ensures var q := Quotas(budget, full);
      && q[0] == Min(full[0], budget)
      && q[1] == Min(full[1], budget - q[0])
      && q[2] == Min(full[2], budget - q[0] - q[1])
      && q[3] == Min(full[3], budget - q[0] - q[1] - q[2])
      && q[0] + q[1] + q[2] + q[3] == Min(budget, full[0] + full[1] + full[2] + full[3])
  {
    var q := Quotas(budget, full);
    QuotasTotal(budget, full);
    SumOfFour(q);
    SumOfFour(full);
    PrefixSumsOfFour(q);
    QuotaIsRemainingBudget(budget, full, 0);
    QuotaIsRemainingBudget(budget, full, 1);
    QuotaIsRemainingBudget(budget, full, 2);
    QuotaIsRemainingBudget(budget, full, 3);
  }

  /** The four-edge case used by a layer: the edges, visited top, right, bottom, left,
      each receive the smaller of what they hold and what the earlier edges left of
      the budget; a truncated edge leaves nothing for the edges after it. */
  function EdgeQuotas(budget: nat, top: nat, right: nat, bottom: nat, left: nat): (q: seq<nat>)
    ensures |q| == 4
    ensures q[0] == Min(top, budget)
    ensures q[1] == Min(right, budget - q[0])
    ensures q[2] == Min(bottom, budget - q[0] - q[1])
    ensures q[3] == Min(left, budget - q[0] - q[1] - q[2])
    ensures q[0] + q[1] + q[2] + q[3] == Min(budget, top + right + bottom + left)
    ensures forall i, j :: 0 <= i < j < 4 && q[i] < [top, right, bottom, left][i] ==> q[j] == 0
  {
    var full := [top, right, bottom, left];
    FourEdgeQuotas(budget, full);
    forall i, j | 0 <= i < j < 4 && Quotas(budget, full)[i] < full[i]
      ensures Quotas(budget, full)[j] == 0
    {
      QuotasTruncateOnlyLater(budget, full, i, j);
    }
    Quotas(budget, full)
  }
}
