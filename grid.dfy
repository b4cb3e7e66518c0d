/** The symmetry grid editor: a square grid of on/off cells edited in place by a pen,
    an eraser and a flood fill, with up to three mirror options applied to every pen
    or eraser stroke. Cells are addressed as (x, y), column first; rows are stored
    top to bottom, so a grid is read as g[y][x]. */
module SymmetryGrid {

  datatype Tool = Pen | Eraser | Fill

  /** The three mirror checkboxes. */
  datatype Symmetry = Symmetry(horizontal: bool, vertical: bool, diagonal: bool)

  /** A cell as (x, y). */
  type Cell = (int, int)

  /** The value of a grid as rows of cells. */
  type Grid = seq<seq<bool>>

  predicate Square(g: Grid)
  {
    forall y :: 0 <= y < |g| ==> |g[y]| == |g|
  }

  predicate InGrid(n: int, c: Cell)
  {
    0 <= c.0 < n && 0 <= c.1 < n
  }

  function At(g: Grid, c: Cell): bool
    requires Square(g) && InGrid(|g|, c)
  {
    g[c.1][c.0]
  }

  /** Two square grids of one size that agree on every cell are equal. */
  lemma GridExt(g: Grid, h: Grid)
    requires Square(g) && Square(h) && |g| == |h|
    requires forall c :: InGrid(|g|, c) ==> At(g, c) == At(h, c)
    ensures g == h
  {
    forall y | 0 <= y < |g| ensures g[y] == h[y] {
      forall x | 0 <= x < |g| ensures g[y][x] == h[y][x] {
        assert At(g, (x, y)) == At(h, (x, y));
      }
    }
  }

  /** An n by n grid with every cell off. */
  function Blank(n: nat): (g: Grid)
    ensures Square(g) && |g| == n
    ensures forall c {:trigger At(g, c)} :: InGrid(n, c) ==> !At(g, c)
  {
    seq(n, y => seq(n, x => false))
  }

  /** The grid with one cell set. */
  function Set(g: Grid, c: Cell, v: bool): (h: Grid)
    requires Square(g) && InGrid(|g|, c)
    ensures Square(h) && |h| == |g|
    ensures forall d {:trigger At(h, d)} :: InGrid(|g|, d) ==> At(h, d) == if d == c then v else At(g, d)
  {
    g[c.1 := g[c.1][c.0 := v]]
  }

  /** The grid with every cell of T (inside the grid) set to v. */
  function Paint(g: Grid, T: set<Cell>, v: bool): (h: Grid)
    requires Square(g)
    ensures Square(h) && |h| == |g|
    ensures forall d {:trigger At(h, d)} :: InGrid(|g|, d) ==> At(h, d) == if d in T then v else At(g, d)
  {
    seq(|g|, y requires 0 <= y < |g| => seq(|g|, x requires 0 <= x < |g| => if (x, y) in T then v else g[y][x]))
  }

  /** Setting one more cell to the painted value paints one more cell. */
  lemma PaintExtend(g: Grid, T: set<Cell>, c: Cell, v: bool)
    requires Square(g) && InGrid(|g|, c)
    ensures Set(Paint(g, T, v), c, v) == Paint(g, T + {c}, v)
  {
    GridExt(Set(Paint(g, T, v), c, v), Paint(g, T + {c}, v));
  }

  // ---------------------------------------------------------------------------------
  // Mirroring

  /** The cells one pen or eraser stroke at (x, y) writes, block by block: the cell
      itself, its row mirror (horizontal), its column mirror (vertical), its point
      reflection through the centre (diagonal), and, with horizontal and vertical
      both on, the row and column mirrors once more. */
  function Targets(n: int, x: int, y: int, sym: Symmetry): (T: set<Cell>)
    ensures (x, y) in T
    ensures forall c :: c in T ==> (c.0 == x || c.0 == n - 1 - x) && (c.1 == y || c.1 == n - 1 - y)
  {
    var mirrorX, mirrorY := n - 1 - x, n - 1 - y;
    {(x, y)}
      + (if sym.horizontal then {(x, mirrorY)} else {})
      + (if sym.vertical then {(mirrorX, y)} else {})
      + (if sym.diagonal then {(mirrorX, mirrorY)} else {})
      + (if sym.horizontal && sym.vertical then {(x, mirrorY), (mirrorX, y)} else {})
  }

  /** What a stroke writes, cell by cell: the combined block adds nothing, so with
      horizontal and vertical on but diagonal off the opposite corner is left alone. */
  lemma TargetsMembers(n: int, x: int, y: int, sym: Symmetry, c: Cell)
    ensures c in Targets(n, x, y, sym) <==>
              || c == (x, y)
              || (sym.horizontal && c == (x, n - 1 - y))
              || (sym.vertical && c == (n - 1 - x, y))
              || (sym.diagonal && c == (n - 1 - x, n - 1 - y))
  {
  }

  /** A stroke inside the grid writes only cells inside the grid. */
  lemma TargetsInGrid(n: int, x: int, y: int, sym: Symmetry)
    requires InGrid(n, (x, y))
    ensures forall c :: c in Targets(n, x, y, sym) ==> InGrid(n, c)
  {
  }

  /** The cells setCell writes, in its order, make up Targets. */
  lemma StrokeWritesTargets(n: int, x: int, y: int, sym: Symmetry, mirrorX: int, mirrorY: int, written: set<Cell>)
    requires mirrorX == n - 1 - x && mirrorY == n - 1 - y
    requires written ==
               {} + {(x, y)}
               + (if sym.horizontal then {(x, mirrorY)} else {})
               + (if sym.vertical then {(mirrorX, y)} else {})
               + (if sym.diagonal then {(mirrorX, mirrorY)} else {})
               + (if sym.horizontal && sym.vertical then {(x, mirrorY)} else {})
               + (if sym.horizontal && sym.vertical then {(mirrorX, y)} else {})
    ensures written == Targets(n, x, y, sym)
  {
  }

  /** The three reflections of the square. */
  datatype Mirror = AcrossRows | AcrossColumns | ThroughCentre

  function Reflect(n: int, m: Mirror, c: Cell): Cell
  {
    match m
    case AcrossRows => (c.0, n - 1 - c.1)
    case AcrossColumns => (n - 1 - c.0, c.1)
    case ThroughCentre => (n - 1 - c.0, n - 1 - c.1)
  }

  /** A cell and its reflection hold the same value. */
  predicate Agrees(g: Grid, m: Mirror, c: Cell)
    requires Square(g) && InGrid(|g|, c)
  {
    InGrid(|g|, Reflect(|g|, m, c)) && At(g, c) == At(g, Reflect(|g|, m, c))
  }

  /** A grid unchanged by a reflection. */
  ghost predicate Symmetric(g: Grid, m: Mirror)
    requires Square(g)
  {
    forall c {:trigger Agrees(g, m, c)} :: InGrid(|g|, c) ==> Agrees(g, m, c)
  }

  predicate ClosedUnder(T: set<Cell>, n: int, m: Mirror)
  {
    forall c :: c in T ==> Reflect(n, m, c) in T
  }

  /** Painting a set that is closed under a reflection keeps a grid symmetric under it. */
  lemma PaintKeepsSymmetry(g: Grid, T: set<Cell>, v: bool, m: Mirror)
    requires Square(g) && Symmetric(g, m) && ClosedUnder(T, |g|, m)
    ensures Symmetric(Paint(g, T, v), m)
  {
    var n := |g|;
    var h := Paint(g, T, v);
    forall c | InGrid(n, c) ensures Agrees(h, m, c) {
      var r := Reflect(n, m, c);
      assert Reflect(n, m, r) == c;
      assert Agrees(g, m, c);
      assert (c in T) == (r in T);
    }
  }

  /** The flag combinations under which a stroke's cells are closed under a reflection:
      its own flag on, and the other two either both on or both off. */
  predicate Keeps(sym: Symmetry, m: Mirror)
  {
    match m
    case AcrossRows => sym.horizontal && sym.vertical == sym.diagonal
    case AcrossColumns => sym.vertical && sym.horizontal == sym.diagonal
    case ThroughCentre => sym.diagonal && sym.horizontal == sym.vertical
  }

  lemma TargetsClosed(n: int, x: int, y: int, sym: Symmetry, m: Mirror)
    requires Keeps(sym, m)
    ensures ClosedUnder(Targets(n, x, y, sym), n, m)
  {
    forall c | c in Targets(n, x, y, sym) ensures Reflect(n, m, c) in Targets(n, x, y, sym) {
      TargetsMembers(n, x, y, sym, c);
      TargetsMembers(n, x, y, sym, Reflect(n, m, c));
    }
  }

  /** Each single flag keeps its own reflection, and all three flags keep all three. */
  lemma FlagsKeepTheirSymmetry(g: Grid, x: int, y: int, sym: Symmetry, v: bool, m: Mirror)
    requires Square(g) && Symmetric(g, m) && Keeps(sym, m)
    ensures Symmetric(Paint(g, Targets(|g|, x, y, sym), v), m)
  {
    TargetsClosed(|g|, x, y, sym, m);
    PaintKeepsSymmetry(g, Targets(|g|, x, y, sym), v, m);
  }

  /** The blank grid of start-up, clearing and resizing is symmetric under every
      reflection, so the property above covers every grid those flags have drawn on. */
  lemma BlankSymmetric(n: nat, m: Mirror)
    ensures Symmetric(Blank(n), m)
  {
  }

  /** With horizontal and vertical on and diagonal off, a stroke off the centre lines
      leaves the opposite corner alone, and its cells are closed under none of the three
      reflections. */
  lemma CornerLeftAlone(g: Grid, x: int, y: int, v: bool)
    requires Square(g) && InGrid(|g|, (x, y))
    requires 2 * x != |g| - 1 && 2 * y != |g| - 1
    ensures var n := |g|;
            var sym := Symmetry(true, true, false);
            && (n - 1 - x, n - 1 - y) !in Targets(n, x, y, sym)
            && At(Paint(g, Targets(n, x, y, sym), v), (n - 1 - x, n - 1 - y)) == At(g, (n - 1 - x, n - 1 - y))
            && forall m :: !ClosedUnder(Targets(n, x, y, sym), n, m)
  {
    var n := |g|;
    var sym := Symmetry(true, true, false);
    var T := Targets(n, x, y, sym);
    TargetsMembers(n, x, y, sym, (n - 1 - x, n - 1 - y));
    forall m ensures !ClosedUnder(T, n, m) {
      var w: Cell := match m
        case AcrossRows => (n - 1 - x, y)
        case AcrossColumns => (x, n - 1 - y)
        case ThroughCentre => (x, y);
      assert w in T && Reflect(n, m, w) == (n - 1 - x, n - 1 - y);
    }
  }

  /** On the blank 2 by 2 grid, a pen stroke at the top-left corner with horizontal and
      vertical on and diagonal off lights three cells and breaks every symmetry the
      blank grid had. */
  lemma TwoByTwoStroke()
    ensures var g := Blank(2);
            var h := Paint(g, Targets(2, 0, 0, Symmetry(true, true, false)), true);
            && (forall m :: Symmetric(g, m))
            && At(h, (0, 0)) && At(h, (0, 1)) && At(h, (1, 0)) && !At(h, (1, 1))
            && (forall m :: !Symmetric(h, m))
  {
    var g := Blank(2);
    var h := Paint(g, Targets(2, 0, 0, Symmetry(true, true, false)), true);
    forall m ensures !Symmetric(h, m) {
      var c: Cell := match m
        case AcrossRows => (1, 0)
        case AcrossColumns => (0, 1)
        case ThroughCentre => (0, 0);
      assert Reflect(2, m, c) == (1, 1);
      assert !Agrees(h, m, c);
    }
  }

  // ---------------------------------------------------------------------------------
  // Flood fill

  /** The four neighbours of a cell, in the order the fill visits them. */
  function Neighbours(c: Cell): (r: seq<Cell>)
    ensures |r| == 4
    ensures r[0] == (c.0 + 1, c.1) && r[1] == (c.0 - 1, c.1) && r[2] == (c.0, c.1 + 1) && r[3] == (c.0, c.1 - 1)
  {
    [(c.0 + 1, c.1), (c.0 - 1, c.1), (c.0, c.1 + 1), (c.0, c.1 - 1)]
  }

  /** A 4-connected walk through in-grid cells whose value is `cur`. */
  predicate IsPath(g: Grid, cur: bool, path: seq<Cell>)
    requires Square(g)
  {
    && |path| > 0
    && (forall i :: 0 <= i < |path| ==> InGrid(|g|, path[i]) && At(g, path[i]) == cur)
    && (forall i :: 0 <= i < |path| - 1 ==> path[i + 1] in Neighbours(path[i]))
  }

  ghost predicate Reachable(g: Grid, cur: bool, a: Cell, b: Cell)
    requires Square(g)
  {
    exists path :: IsPath(g, cur, path) && path[0] == a && path[|path| - 1] == b
  }

  /** The cells 4-connected to the start through cells of the start's value. */
  ghost function Component(g: Grid, start: Cell): (C: set<Cell>)
    requires Square(g) && InGrid(|g|, start)
    ensures start in C
    ensures forall c :: c in C ==> InGrid(|g|, c)
  {
    ReachableSelf(g, At(g, start), start);
    set x, y | 0 <= x < |g| && 0 <= y < |g| && Reachable(g, At(g, start), start, (x, y)) :: (x, y)
  }

  /** The intended effect of fillGrid: nothing when the start already has the new
      state, otherwise the start's component takes the new state. */
  ghost function Flooded(g: Grid, start: Cell, newState: bool): (h: Grid)
    requires Square(g) && InGrid(|g|, start)
    ensures Square(h) && |h| == |g|
    ensures forall d {:trigger At(h, d)} :: InGrid(|g|, d) && At(g, d) == newState ==> At(h, d) == newState
  {
    if At(g, start) == newState then g else Paint(g, Component(g, start), newState)
  }

  /** Cells of the other value than `cur` are untouched (so cells only ever leave `cur`). */
  ghost predicate Shrinks(g0: Grid, g1: Grid, cur: bool)
    requires Square(g0) && Square(g1) && |g0| == |g1|
  {
    forall d {:trigger At(g1, d)} {:trigger At(g0, d)} :: InGrid(|g0|, d) && At(g0, d) != cur ==> At(g1, d) == At(g0, d)
  }

  predicate Changed(g0: Grid, g1: Grid, cur: bool, d: Cell)
    requires Square(g0) && Square(g1) && |g0| == |g1|
  {
    InGrid(|g0|, d) && At(g0, d) == cur && At(g1, d) != cur
  }

  /** No in-grid neighbour of the cell still has the value `cur`. */
  predicate Settled(g: Grid, cur: bool, d: Cell)
    requires Square(g)
  {
    forall k :: 0 <= k < 4 && InGrid(|g|, Neighbours(d)[k]) ==> At(g, Neighbours(d)[k]) != cur
  }

  /** What one call fill(c) achieves, from grid g0 to grid g1: only `cur` cells change;
      the start changes if it is an in-grid `cur` cell; every changed cell has no `cur`
      neighbour left; and every changed cell was reachable from the start. */
  ghost predicate FillStep(g0: Grid, g1: Grid, c: Cell, cur: bool)
  {
    && Square(g0) && Square(g1) && |g0| == |g1|
    && Shrinks(g0, g1, cur)
    && (InGrid(|g0|, c) && At(g0, c) == cur ==> At(g1, c) != cur)
    && (forall d {:trigger Changed(g0, g1, cur, d)} :: Changed(g0, g1, cur, d) ==> Settled(g1, cur, d))
    && (forall d {:trigger Changed(g0, g1, cur, d)} :: Changed(g0, g1, cur, d) ==> Reachable(g0, cur, c, d))
  }

  lemma ShrinksTrans(g0: Grid, g1: Grid, g2: Grid, cur: bool)
    requires Square(g0) && Square(g1) && Square(g2) && |g0| == |g1| == |g2|
    requires Shrinks(g0, g1, cur) && Shrinks(g1, g2, cur)
    ensures Shrinks(g0, g2, cur)
  {
  }

  /** A walk through `cur` cells of a later grid is one through the earlier grid. */
  lemma ReachableEarlier(g0: Grid, g1: Grid, cur: bool, a: Cell, d: Cell)
    requires Square(g0) && Square(g1) && |g0| == |g1| && Shrinks(g0, g1, cur)
    requires Reachable(g1, cur, a, d)
    ensures Reachable(g0, cur, a, d)
  {
    var path :| IsPath(g1, cur, path) && path[0] == a && path[|path| - 1] == d;
    assert IsPath(g0, cur, path);
  }

  /** A walk from a neighbour extends to a walk from a `cur` cell. */
  lemma ReachablePrepend(g: Grid, cur: bool, c: Cell, k: int, d: Cell)
    requires Square(g) && InGrid(|g|, c) && At(g, c) == cur && 0 <= k < 4
    requires Reachable(g, cur, Neighbours(c)[k], d)
    ensures Reachable(g, cur, c, d)
  {
    var path :| IsPath(g, cur, path) && path[0] == Neighbours(c)[k] && path[|path| - 1] == d;
    var longer := [c] + path;
    assert longer[1] == Neighbours(c)[k];
    forall i | 0 <= i < |longer| ensures InGrid(|g|, longer[i]) && At(g, longer[i]) == cur {
      if i > 0 {
        assert longer[i] == path[i - 1];
      }
    }
    forall i | 0 <= i < |longer| - 1 ensures longer[i + 1] in Neighbours(longer[i]) {
      if i > 0 {
        assert longer[i] == path[i - 1] && longer[i + 1] == path[i];
      }
    }
  }

  lemma ReachableSelf(g: Grid, cur: bool, c: Cell)
    requires Square(g) && InGrid(|g|, c) && At(g, c) == cur
    ensures Reachable(g, cur, c, c)
  {
    assert IsPath(g, cur, [c]);
  }

  /** A call that finds no `cur` cell at its start changes nothing. */
  lemma FillStepIdle(g: Grid, c: Cell, cur: bool)
    requires Square(g) && !(InGrid(|g|, c) && At(g, c) == cur)
    ensures FillStep(g, g, c, cur)
  {
  }

  /** A neighbour handed to one inner call is no longer `cur` once the call returns, and
      stays so. */
  lemma StepLeavesOff(gi: Grid, gj: Grid, last: Grid, nb: Cell, cur: bool)
    requires FillStep(gi, gj, nb, cur) && Square(last) && |last| == |gj| && Shrinks(gj, last, cur)
    requires InGrid(|gi|, nb)
    ensures At(last, nb) != cur
  {
    if At(gi, nb) != cur {
      assert At(gj, nb) == At(gi, nb);
    }
  }

  /** A cell changed by one inner call is settled for good and reachable from that call's
      start. */
  lemma ChangedInStep(gi: Grid, gj: Grid, last: Grid, nb: Cell, cur: bool, d: Cell)
    requires FillStep(gi, gj, nb, cur) && Square(last) && |last| == |gj| && Shrinks(gj, last, cur)
    requires Changed(gi, gj, cur, d)
    ensures Settled(last, cur, d) && Reachable(gi, cur, nb, d)
  {
    assert Settled(gj, cur, d);
    forall k | 0 <= k < 4 && InGrid(|last|, Neighbours(d)[k]) ensures At(last, Neighbours(d)[k]) != cur {
      assert At(gj, Neighbours(d)[k]) != cur;
    }
  }

  /** Part way through one recursion step at c: the start is flipped and the first k
      neighbours have been filled, taking the grid from g0 to h. */
  ghost predicate Partial(g0: Grid, c: Cell, cur: bool, h: Grid, k: int)
  {
    && Square(g0) && InGrid(|g0|, c) && At(g0, c) == cur && Square(h) && |h| == |g0|
    && Shrinks(g0, h, cur)
    && At(h, c) != cur
    && CurCells(h, cur) < CurCells(g0, cur)
    && (forall j :: 0 <= j < k && j < 4 && InGrid(|h|, Neighbours(c)[j]) ==> At(h, Neighbours(c)[j]) != cur)
    && (forall d {:trigger Changed(g0, h, cur, d)} :: Changed(g0, h, cur, d) && d != c ==> Settled(h, cur, d))
    && (forall d {:trigger Changed(g0, h, cur, d)} :: Changed(g0, h, cur, d) ==> Reachable(g0, cur, c, d))
  }

  /** Flipping the start begins a recursion step. */
  lemma PartialStart(g0: Grid, c: Cell, cur: bool)
    requires Square(g0) && InGrid(|g0|, c) && At(g0, c) == cur
    ensures Partial(g0, c, cur, Set(g0, c, !cur), 0)
  {
    var a := Set(g0, c, !cur);
    FlipShrinksCurCells(g0, c, cur);
    forall d | Changed(g0, a, cur, d) ensures Reachable(g0, cur, c, d) {
      ReachableSelf(g0, cur, c);
    }
  }

  /** A cell changed so far stays settled and reachable after the next inner call. */
  lemma PartialStepCell(g0: Grid, c: Cell, cur: bool, h: Grid, h': Grid, k: int, nb: Cell, d: Cell)
    requires Partial(g0, c, cur, h, k) && 0 <= k < 4 && nb == Neighbours(c)[k]
    requires FillStep(h, h', nb, cur) && Shrinks(g0, h', cur)
    requires Changed(g0, h', cur, d)
    ensures d != c ==> Settled(h', cur, d)
    ensures Reachable(g0, cur, c, d)
  {
    if At(h, d) != cur {
      assert Changed(g0, h, cur, d);
      if d != c {
        assert Settled(h, cur, d);
        forall j | 0 <= j < 4 && InGrid(|h'|, Neighbours(d)[j]) ensures At(h', Neighbours(d)[j]) != cur {
          assert At(h, Neighbours(d)[j]) != cur;
        }
      }
    } else {
      ChangedInStep(h, h', h', nb, cur, d);
      ReachableEarlier(g0, h, cur, nb, d);
      ReachablePrepend(g0, cur, c, k, d);
    }
  }

  /** The next inner call of a recursion step. */
  lemma PartialStep(g0: Grid, c: Cell, cur: bool, h: Grid, h': Grid, k: int, nb: Cell)
    requires Partial(g0, c, cur, h, k) && 0 <= k < 4 && nb == Neighbours(c)[k]
    requires FillStep(h, h', nb, cur)
    ensures Partial(g0, c, cur, h', k + 1)
  {
    ShrinksTrans(g0, h, h', cur);
    ShrinksCurCells(h, h', cur);
    forall j | 0 <= j < k + 1 && j < 4 && InGrid(|h'|, Neighbours(c)[j]) ensures At(h', Neighbours(c)[j]) != cur {
      if j == k {
        StepLeavesOff(h, h', h', nb, cur);
      } else {
        assert At(h, Neighbours(c)[j]) != cur;
      }
    }
    forall d | Changed(g0, h', cur, d)
      ensures (d != c ==> Settled(h', cur, d)) && Reachable(g0, cur, c, d)
    {
      PartialStepCell(g0, c, cur, h, h', k, nb, d);
    }
  }

  /** With all four neighbours filled, the recursion step has done one call's work. */
  lemma PartialDone(g0: Grid, c: Cell, cur: bool, h: Grid)
    requires Partial(g0, c, cur, h, 4)
    ensures FillStep(g0, h, c, cur)
  {
    assert Settled(h, cur, c);
  }

  /** Along a walk from the start, every cell is changed by a completed fill. */
  lemma {:induction false} WalkIsChanged(g: Grid, h: Grid, start: Cell, cur: bool, path: seq<Cell>, i: nat)
    requires FillStep(g, h, start, cur)
    requires IsPath(g, cur, path) && path[0] == start && i < |path|
    ensures At(h, path[i]) != cur
  {
    if i > 0 {
      WalkIsChanged(g, h, start, cur, path, i - 1);
      var prev := path[i - 1];
      assert Changed(g, h, cur, prev);
      assert Settled(h, cur, prev);
      var k :| 0 <= k < 4 && Neighbours(prev)[k] == path[i];
    }
  }

  /** A completed fill from a `cur` start flips exactly the start's component. */
  lemma FillIsFlood(g: Grid, h: Grid, start: Cell, cur: bool)
    requires FillStep(g, h, start, cur)
    requires InGrid(|g|, start) && At(g, start) == cur
    ensures h == Flooded(g, start, !cur)
  {
    var comp := Component(g, start);
    forall d | InGrid(|g|, d) ensures At(h, d) == if d in comp then !cur else At(g, d) {
      if Reachable(g, cur, start, d) {
        var path :| IsPath(g, cur, path) && path[0] == start && path[|path| - 1] == d;
        WalkIsChanged(g, h, start, cur, path, |path| - 1);
        assert d in comp;
      } else {
        assert d !in comp;
        if At(h, d) != At(g, d) {
          assert Changed(g, h, cur, d);
        }
      }
    }
    GridExt(h, Paint(g, comp, !cur));
  }

  /** A fill always flips the clicked cell. */
  lemma FloodFlipsStart(g: Grid, start: Cell, newState: bool)
    requires Square(g) && InGrid(|g|, start)
    ensures At(Flooded(g, start, newState), start) == newState
  {
    if At(g, start) != newState {
      ReachableSelf(g, At(g, start), start);
      assert start in Component(g, start);
    }
  }

  /** The in-grid cells holding a value: the measure the fill recursion shrinks. */
  ghost function CurCells(g: Grid, cur: bool): set<Cell>
    requires Square(g)
  {
    set x, y | 0 <= x < |g| && 0 <= y < |g| && g[y][x] == cur :: (x, y)
  }

  lemma ShrinksCurCells(g0: Grid, g1: Grid, cur: bool)
    requires Square(g0) && Square(g1) && |g0| == |g1| && Shrinks(g0, g1, cur)
    ensures CurCells(g1, cur) <= CurCells(g0, cur)
  {
    forall c | c in CurCells(g1, cur) ensures c in CurCells(g0, cur) {
      assert At(g1, c) == cur;
    }
  }

  lemma FlipShrinksCurCells(g: Grid, c: Cell, cur: bool)
    requires Square(g) && InGrid(|g|, c) && At(g, c) == cur
    ensures CurCells(Set(g, c, !cur), cur) < CurCells(g, cur)
  {
    ShrinksCurCells(g, Set(g, c, !cur), cur);
    assert c in CurCells(g, cur);
    assert c !in CurCells(Set(g, c, !cur), cur);
  }

  // ---------------------------------------------------------------------------------
  // The editor

  /** The editor's state: the grid size, the rows of cells, and the selected tool. */
  class GridEditor {
    var gridSize: nat
    var gridState: Grid
    var currentTool: Tool

    ghost predicate Valid()
      reads this
    {
      Square(gridState) && |gridState| == gridSize
    }

    /** Start-up: a 10 by 10 blank grid with the pen selected. */
    constructor()
      ensures Valid() && gridSize == 10 && currentTool == Pen
      ensures gridState == Blank(10)
    {
      gridSize := 10;
      currentTool := Pen;
      gridState := Blank(10);
    }

    /** initializeGridState: a blank grid of the current size. */
    method InitializeGridState()
      modifies this`gridState
      ensures Valid() && gridState == Blank(gridSize)
    {
      gridState := Blank(gridSize);
    }

    /** The clear tool. */
    method Clear()
      modifies this`gridState
      ensures Valid() && gridState == Blank(gridSize)
    {
      InitializeGridState();
    }

    /** The grid-size slider: a new size and a blank grid of it. */
    method SetGridSize(size: nat)
      modifies this`gridSize, this`gridState
      ensures Valid() && gridSize == size && gridState == Blank(size)
    {
      gridSize := size;
      InitializeGridState();
    }

    /** setActiveTool. */
    method SetActiveTool(tool: Tool)
      modifies this`currentTool
      ensures currentTool == tool
    {
      currentTool := tool;
    }

    /** setCell: write the cell, then each enabled mirror block in turn. */
    method SetCell(x: int, y: int, state: bool, sym: Symmetry)
      requires Valid() && InGrid(gridSize, (x, y))
      modifies this`gridState
      ensures Valid()
      ensures gridState == Paint(old(gridState), Targets(gridSize, x, y, sym), state)
    {
      ghost var g := gridState;
      var mirrorX, mirrorY := gridSize - 1 - x, gridSize - 1 - y;
      GridExt(g, Paint(g, {}, state));
      PaintIf(true, x, y, state, g, {});
      ghost var w0 := {} + {(x, y)};
      PaintIf(sym.horizontal, x, mirrorY, state, g, w0);
      ghost var w1 := w0 + (if sym.horizontal then {(x, mirrorY)} else {});
      PaintIf(sym.vertical, mirrorX, y, state, g, w1);
      ghost var w2 := w1 + (if sym.vertical then {(mirrorX, y)} else {});
      PaintIf(sym.diagonal, mirrorX, mirrorY, state, g, w2);
      ghost var w3 := w2 + (if sym.diagonal then {(mirrorX, mirrorY)} else {});
      PaintIf(sym.horizontal && sym.vertical, x, mirrorY, state, g, w3);
      ghost var w4 := w3 + (if sym.horizontal && sym.vertical then {(x, mirrorY)} else {});
      PaintIf(sym.horizontal && sym.vertical, mirrorX, y, state, g, w4);
      ghost var w5 := w4 + (if sym.horizontal && sym.vertical then {(mirrorX, y)} else {});
      StrokeWritesTargets(gridSize, x, y, sym, mirrorX, mirrorY, w5);
    }

    /** One guarded block of setCell: when its checkbox is on, write the cell, taking the
        grid from g painted on T to g painted on T and the cell. */
    method PaintIf(on: bool, x: int, y: int, state: bool, ghost g: Grid, ghost T: set<Cell>)
      requires Valid() && InGrid(gridSize, (x, y)) && Square(g) && |g| == gridSize
      requires gridState == Paint(g, T, state)
      modifies this`gridState
      ensures Valid() && gridState == Paint(g, T + (if on then {(x, y)} else {}), state)
    {
      if on {
        PaintExtend(g, T, (x, y), state);
        gridState := gridState[y := gridState[y][x := state]];
        assert gridState == Set(Paint(g, T, state), (x, y), state);
      } else {
        assert T + {} == T;
      }
    }

    /** The inner fill of fillGrid: stop outside the grid or at a cell that is not of
        the state being replaced; otherwise flip it and fill right, left, down, up. */
    method FillFrom(x: int, y: int, currentState: bool, newState: bool)
      requires Valid() && newState != currentState
      modifies this`gridState
      ensures Valid()
      ensures FillStep(old(gridState), gridState, (x, y), currentState)
      ensures !(InGrid(gridSize, (x, y)) && At(old(gridState), (x, y)) == currentState) ==>
                gridState == old(gridState)
      decreases CurCells(gridState, currentState)
    {
      ghost var g0 := gridState;
      if x < 0 || x >= gridSize || y < 0 || y >= gridSize {
        FillStepIdle(g0, (x, y), currentState);
        return;
      }
      if gridState[y][x] != currentState {
        FillStepIdle(g0, (x, y), currentState);
        return;
      }
      gridState := gridState[y := gridState[y][x := newState]];
      assert gridState == Set(g0, (x, y), !currentState);
      ghost var c := (x, y);
      PartialStart(g0, c, currentState);
      ghost var h := gridState;
      FillFrom(x + 1, y, currentState, newState);
      PartialStep(g0, c, currentState, h, gridState, 0, (x + 1, y));
      h := gridState;
      FillFrom(x - 1, y, currentState, newState);
      PartialStep(g0, c, currentState, h, gridState, 1, (x - 1, y));
      h := gridState;
      FillFrom(x, y + 1, currentState, newState);
      PartialStep(g0, c, currentState, h, gridState, 2, (x, y + 1));
      h := gridState;
      FillFrom(x, y - 1, currentState, newState);
      PartialStep(g0, c, currentState, h, gridState, 3, (x, y - 1));
      PartialDone(g0, c, currentState, gridState);
    }

    /** fillGrid: flood the clicked cell's component with the new state, or do nothing
        when the clicked cell already has it. */
    method FillGrid(x: int, y: int, newState: bool)
      requires Valid() && InGrid(gridSize, (x, y))
      modifies this`gridState
      ensures Valid()
      ensures gridState == Flooded(old(gridState), (x, y), newState)
    {
      var currentState := gridState[y][x];
      if currentState == newState {
        return;
      }
      ghost var g := gridState;
      FillFrom(x, y, currentState, newState);
      FillIsFlood(g, gridState, (x, y), currentState);
    }

    /** handleCellClick: pen and eraser stroke with the mirrors, fill floods with the
        opposite of the clicked cell. */
    method HandleCellClick(x: int, y: int, sym: Symmetry)
      requires Valid() && InGrid(gridSize, (x, y))
      modifies this`gridState
      ensures Valid()
      ensures currentTool == Pen ==> gridState == Paint(old(gridState), Targets(gridSize, x, y, sym), true)
      ensures currentTool == Eraser ==> gridState == Paint(old(gridState), Targets(gridSize, x, y, sym), false)
      ensures currentTool == Fill ==>
                gridState == Flooded(old(gridState), (x, y), !At(old(gridState), (x, y)))
    {
      if currentTool == Pen {
        SetCell(x, y, true, sym);
      } else if currentTool == Eraser {
        SetCell(x, y, false, sym);
      } else if currentTool == Fill {
        FillGrid(x, y, !gridState[y][x]);
      }
    }

    /** handleCellHover: with the left button held, pen and eraser stroke as on a click;
        otherwise, and for the fill tool, nothing changes. */
    method HandleCellHover(x: int, y: int, buttons: int, sym: Symmetry)
      requires Valid() && InGrid(gridSize, (x, y))
      modifies this`gridState
      ensures Valid()
      ensures buttons == 1 && currentTool == Pen ==>
                gridState == Paint(old(gridState), Targets(gridSize, x, y, sym), true)
      ensures buttons == 1 && currentTool == Eraser ==>
                gridState == Paint(old(gridState), Targets(gridSize, x, y, sym), false)
      ensures buttons != 1 || currentTool == Fill ==> gridState == old(gridState)
    {
      if buttons != 1 {
        return;
      }
      if currentTool == Pen {
        SetCell(x, y, true, sym);
      } else if currentTool == Eraser {
        SetCell(x, y, false, sym);
      }
    }
  }
}
