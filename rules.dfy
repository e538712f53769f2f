/** The rules of rules.py: the steepest-difference redistribution of
    FlowRule, the uniform rain of RainFallClosed and the periodic rain of
    RainBurst. A rule evolves a cell that holds its canvases by name, the
    four neighbour views of each canvas and the flat index maps through
    which inflow is gathered; the rules update the named canvas in place. */
module Rules {
  import opened Arith
  import opened GridOps
  import opened CellSpaces

  /** One 2-D canvas: a sequence of rows. */
  type Grid = seq<seq<real>>

  datatype Result<T> = Success(value: T) | Failure(error: string)

  /** The cell a rule evolves: canvases by name (arrays the rules update in
      place), the neighbour views of each canvas by name (direction, row,
      column) and imap_unshifted. */
  class Cell {
    var canvases: map<string, array2<real>>
    var shiftedCanvases: map<string, seq<Grid>>
    var imapUnshifted: seq<seq<seq<int>>>
  }

  /** The current contents of a 2-D array. */
  function GridOf(a: array2<real>): (g: Grid)
    reads a
    ensures HasShape(g, a.Length0, a.Length1)
  {
    seq(a.Length0, r requires 0 <= r < a.Length0 reads a =>
      seq(a.Length1, c requires 0 <= c < a.Length1 reads a => a[r, c]))
  }

  /** Four grids (one per direction) of h rows and w columns. */
  predicate IsViews<T>(v: seq<seq<seq<T>>>, h: nat, w: nat)
  {
    |v| == 4 && forall d :: 0 <= d < 4 ==> HasShape(v[d], h, w)
  }

  // ---------------------------------------------------------------------
  // FlowRule as functions of the terrain, its views and the index maps

  /** diffs = height_local - height_shifted: the height of each cell minus
      that of its neighbour, per direction. */
  function Diffs(g: Grid, sh: seq<Grid>, h: nat, w: nat): (v: seq<Grid>)
    requires HasShape(g, h, w) && IsViews(sh, h, w)
    ensures IsViews(v, h, w)
  {
    seq(4, d requires 0 <= d < 4 => seq(h, r requires 0 <= r < h => seq(w, c requires 0 <= c < w =>
      g[r][c] - sh[d][r][c])))
  }

  function Max(a: real, b: real): real
  {
    if a >= b then a else b
  }

  /** diffs.max(axis=0) at (r, c). */
  function MaxDiff(v: seq<Grid>, h: nat, w: nat, r: nat, c: nat): real
    requires IsViews(v, h, w) && r < h && c < w
  {
    Max(Max(Max(v[0][r][c], v[1][r][c]), v[2][r][c]), v[3][r][c])
  }

  /** diffs[diffs < diffs.max(axis=0)] = 0: every entry below the maximum
      of its cell becomes 0. */
  function Retained(v: seq<Grid>, h: nat, w: nat): (t: seq<Grid>)
    requires IsViews(v, h, w)
    ensures IsViews(t, h, w)
  {
    seq(4, d requires 0 <= d < 4 => seq(h, r requires 0 <= r < h => seq(w, c requires 0 <= c < w =>
      if v[d][r][c] < MaxDiff(v, h, w, r, c) then 0.0 else v[d][r][c])))
  }

  /** diffs * flow_factor. */
  function Scale(v: seq<Grid>, k: real, h: nat, w: nat): (t: seq<Grid>)
    requires IsViews(v, h, w)
    ensures IsViews(t, h, w)
  {
    seq(4, d requires 0 <= d < 4 => seq(h, r requires 0 <= r < h => seq(w, c requires 0 <= c < w =>
      v[d][r][c] * k)))
  }

  /** The outflow of FlowRule.evolve: per direction, the retained height
      difference times the flow factor. */
  function Outflow(g: Grid, sh: seq<Grid>, flowFactor: real, h: nat, w: nat): (out: seq<Grid>)
    requires HasShape(g, h, w) && IsViews(sh, h, w)
    ensures IsViews(out, h, w)
  {
    Scale(Retained(Diffs(g, sh, h, w), h, w), flowFactor, h, w)
  }

  /** np.pad(g, pad_width=1, mode="constant", constant_values=0). */
  function PadZero(g: Grid, h: nat, w: nat): (p: Grid)
    requires HasShape(g, h, w)
    ensures HasShape(p, h + 2, w + 2)
  {
    seq(h + 2, R requires 0 <= R < h + 2 => seq(w + 2, C requires 0 <= C < w + 2 =>
      if 1 <= R <= h && 1 <= C <= w then g[R - 1][C - 1] else 0.0))
  }

  /** p.flat[k] for a grid whose rows have w + 2 cells. A negative index,
      which numpy counts from the end, and an index past the end, which numpy
      rejects, both read 0 here; the engine's maps make neither. */
  function FlatRead(p: Grid, k: int, w: nat): real
  {
    var row, col := k / (w + 2), k % (w + 2);
    if 0 <= row < |p| && col < |p[row]| then p[row][col] else 0.0
  }

  /** One pass of _calc_flows' loop: the zero-padded outflow o read at the
      flat indices ii. */
  function GatherOne(o: Grid, ii: seq<seq<int>>, h: nat, w: nat): (t: Grid)
    requires HasShape(o, h, w) && HasShape(ii, h, w)
    ensures HasShape(t, h, w)
  {
    var p := PadZero(o, h, w);
    seq(h, r requires 0 <= r < h => seq(w, c requires 0 <= c < w => FlatRead(p, ii[r][c], w)))
  }

  /** shifted_landslide of _calc_flows: view d gathers the outflow of
      direction d through imap_unshifted[d]. */
  function Gathered(out: seq<Grid>, m: seq<seq<seq<int>>>, h: nat, w: nat): (t: seq<Grid>)
    requires IsViews(out, h, w) && IsViews(m, h, w)
    ensures IsViews(t, h, w)
  {
    seq(4, d requires 0 <= d < 4 => GatherOne(out[d], m[d], h, w))
  }

  /** v.sum(axis=0): the four directions summed per cell. */
  function SumAxis0(v: seq<Grid>, h: nat, w: nat): (s: Grid)
    requires IsViews(v, h, w)
    ensures HasShape(s, h, w)
  {
    seq(h, r requires 0 <= r < h => seq(w, c requires 0 <= c < w =>
      v[0][r][c] + v[1][r][c] + v[2][r][c] + v[3][r][c]))
  }

  function GridAdd(a: Grid, b: Grid, h: nat, w: nat): (u: Grid)
    requires HasShape(a, h, w) && HasShape(b, h, w)
    ensures HasShape(u, h, w)
  {
    seq(h, r requires 0 <= r < h => seq(w, c requires 0 <= c < w => a[r][c] + b[r][c]))
  }

  function GridSub(a: Grid, b: Grid, h: nat, w: nat): (u: Grid)
    requires HasShape(a, h, w) && HasShape(b, h, w)
    ensures HasShape(u, h, w)
  {
    seq(h, r requires 0 <= r < h => seq(w, c requires 0 <= c < w => a[r][c] - b[r][c]))
  }

  /** calc_flows on a grid: subtract every cell's total outflow, then add
      what _calc_flows gathers for it. */
  function Redistribute(g: Grid, out: seq<Grid>, m: seq<seq<seq<int>>>, h: nat, w: nat): (u: Grid)
    requires HasShape(g, h, w) && IsViews(out, h, w) && IsViews(m, h, w)
    ensures HasShape(u, h, w)
  {
    GridAdd(GridSub(g, SumAxis0(out, h, w), h, w), SumAxis0(Gathered(out, m, h, w), h, w), h, w)
  }

  /** The terrain after FlowRule.evolve. */
  function FlowStep(g: Grid, sh: seq<Grid>, m: seq<seq<seq<int>>>, flowFactor: real, h: nat, w: nat): (u: Grid)
    requires HasShape(g, h, w) && IsViews(sh, h, w) && IsViews(m, h, w)
    ensures HasShape(u, h, w)
  {
    Redistribute(g, Outflow(g, sh, flowFactor, h, w), m, h, w)
  }

  // ---------------------------------------------------------------------
  // FlowRule

  /** A flow factor the constructor accepts: below 1, with no lower bound. */
  type Factor = x: real | x < 1.0 witness 0.0

  /** A flow rule on the "terrain" canvas. */
  datatype FlowRule = FlowRule(flowFactor: Factor)
  {
    const key: string := "terrain"
    const layers: seq<string> := ["terrain"]

    /** evolve (rules.py:19-33): moves the scaled steepest height difference
        of every cell to its neighbour, in place on the terrain array, and
        returns the cell's own canvases. */
    method Evolve(cell: Cell) returns (resdict: map<string, array2<real>>)
      requires key in cell.canvases && key in cell.shiftedCanvases
      requires IsViews(cell.shiftedCanvases[key], cell.canvases[key].Length0, cell.canvases[key].Length1)
      requires IsViews(cell.imapUnshifted, cell.canvases[key].Length0, cell.canvases[key].Length1)
      modifies cell.canvases[key]
      ensures resdict == cell.canvases
      ensures GridOf(cell.canvases[key]) ==
        FlowStep(old(GridOf(cell.canvases[key])), cell.shiftedCanvases[key], cell.imapUnshifted, flowFactor,
                 cell.canvases[key].Length0, cell.canvases[key].Length1)
      ensures forall k :: k in cell.canvases && cell.canvases[k] != cell.canvases[key] ==>
        unchanged(cell.canvases[k])
    {
      var heightLocal := cell.canvases[key];
      var heightShifted := cell.shiftedCanvases[key];
      var h, w := heightLocal.Length0, heightLocal.Length1;
      var diffs := Retained(Diffs(GridOf(heightLocal), heightShifted, h, w), h, w);
      var outflow := Scale(diffs, flowFactor, h, w);
      var _ := CalcFlows(heightLocal, outflow, cell);
      resdict := cell.canvases;
      resdict := resdict[key := heightLocal];
    }

    /** calc_flows (rules.py:45-48): subtracts the total outflow of every
        cell from vmap in place, then adds the inflow _calc_flows gathers. */
    method CalcFlows(vmap: array2<real>, outflow: seq<Grid>, cell: Cell) returns (res: array2<real>)
      requires IsViews(outflow, vmap.Length0, vmap.Length1)
      requires IsViews(cell.imapUnshifted, vmap.Length0, vmap.Length1)
      modifies vmap
      ensures res == vmap
      ensures GridOf(vmap) == Redistribute(old(GridOf(vmap)), outflow, cell.imapUnshifted, vmap.Length0, vmap.Length1)
    {
      var h, w := vmap.Length0, vmap.Length1;
      SubInPlace(vmap, SumAxis0(outflow, h, w));
      var plus := CalcFlowsInflow(vmap, outflow, cell);
      AddInPlace(vmap, plus);
      res := vmap;
    }

    /** _calc_flows (rules.py:35-43): for every direction, pads that
        direction's outflow with zeros, reads it at imap_unshifted, and sums
        the four results. */
    method CalcFlowsInflow(vmap: array2<real>, outflow: seq<Grid>, cell: Cell) returns (inflow: Grid)
      requires IsViews(outflow, vmap.Length0, vmap.Length1)
      requires IsViews(cell.imapUnshifted, vmap.Length0, vmap.Length1)
      ensures inflow == SumAxis0(Gathered(outflow, cell.imapUnshifted, vmap.Length0, vmap.Length1), vmap.Length0, vmap.Length1)
    {
      var h, w := vmap.Length0, vmap.Length1;
      var shiftedLandslide: seq<Grid> := [];
      for i := 0 to 4
        invariant shiftedLandslide == Gathered(outflow, cell.imapUnshifted, h, w)[..i]
      {
        var ii := cell.imapUnshifted[i];
        var tmp := PadZero(outflow[i], h, w);
        var gathered := seq(h, r requires 0 <= r < h => seq(w, c requires 0 <= c < w => FlatRead(tmp, ii[r][c], w)));
        assert gathered == GatherOne(outflow[i], ii, h, w);
        shiftedLandslide := shiftedLandslide + [gathered];
      }
      assert shiftedLandslide == Gathered(outflow, cell.imapUnshifted, h, w);
      inflow := SumAxis0(shiftedLandslide, h, w);
    }
  }

  /** vmap -= b, in place. */
  method SubInPlace(vmap: array2<real>, b: Grid)
    requires HasShape(b, vmap.Length0, vmap.Length1)
    modifies vmap
    ensures GridOf(vmap) == GridSub(old(GridOf(vmap)), b, vmap.Length0, vmap.Length1)
  {
    var h, w := vmap.Length0, vmap.Length1;
    ghost var u := GridSub(GridOf(vmap), b, h, w);
    forall r, c | 0 <= r < h && 0 <= c < w {
      vmap[r, c] := vmap[r, c] - b[r][c];
    }
    forall r | 0 <= r < h ensures GridOf(vmap)[r] == u[r] {
      assert |GridOf(vmap)[r]| == |u[r]| == w;
    }
  }

  /** vmap += b, in place. */
  method AddInPlace(vmap: array2<real>, b: Grid)
    requires HasShape(b, vmap.Length0, vmap.Length1)
    modifies vmap
    ensures GridOf(vmap) == GridAdd(old(GridOf(vmap)), b, vmap.Length0, vmap.Length1)
  {
    var h, w := vmap.Length0, vmap.Length1;
    ghost var u := GridAdd(GridOf(vmap), b, h, w);
    forall r, c | 0 <= r < h && 0 <= c < w {
      vmap[r, c] := vmap[r, c] + b[r][c];
    }
    forall r | 0 <= r < h ensures GridOf(vmap)[r] == u[r] {
      assert |GridOf(vmap)[r]| == |u[r]| == w;
    }
  }

  /** __init__ (rules.py:15-17): a flow factor of 1 or more raises
      ValueError; there is no lower bound. */
  function NewFlowRule(flowFactor: real := 0.5): (r: Result<FlowRule>)
    ensures r.Failure? <==> flowFactor >= 1.0
    ensures r.Success? ==> r.value.flowFactor == flowFactor && r.value.layers == ["terrain"]
  {
    if flowFactor >= 1.0 then Failure("flow_factor must be less than 1") else Success(FlowRule(flowFactor))
  }

  // ---------------------------------------------------------------------
  // Properties of the flow rule

  /** Only the steepest directions keep their difference: an entry survives
      exactly when it equals the maximum over the four directions of its
      cell, ties all survive, and the maximum is one of the four. */
  lemma RetainedSteepest(v: seq<Grid>, h: nat, w: nat, d: nat, r: nat, c: nat)
    requires IsViews(v, h, w) && d < 4 && r < h && c < w
    ensures Retained(v, h, w)[d][r][c] == if v[d][r][c] == MaxDiff(v, h, w, r, c) then v[d][r][c] else 0.0
    ensures forall d' :: 0 <= d' < 4 ==> v[d'][r][c] <= MaxDiff(v, h, w, r, c)
    ensures exists d' :: 0 <= d' < 4 && v[d'][r][c] == MaxDiff(v, h, w, r, c)
  {
    var m := MaxDiff(v, h, w, r, c);
    assert v[0][r][c] <= m && v[1][r][c] <= m && v[2][r][c] <= m && v[3][r][c] <= m;
    if v[3][r][c] == m {
    } else if v[2][r][c] == m {
    } else if v[1][r][c] == m {
    } else {
      assert v[0][r][c] == m;
    }
  }

  /** Negative differences are kept: in a pit, lower than all four views,
      the maximum difference is negative and some direction keeps it. */
  lemma PitKeepsNegative(g: Grid, sh: seq<Grid>, h: nat, w: nat, r: nat, c: nat)
    requires HasShape(g, h, w) && IsViews(sh, h, w) && r < h && c < w
    requires forall d :: 0 <= d < 4 ==> g[r][c] < sh[d][r][c]
    ensures var v := Diffs(g, sh, h, w);
      MaxDiff(v, h, w, r, c) < 0.0 &&
      exists d :: 0 <= d < 4 && Retained(v, h, w)[d][r][c] == MaxDiff(v, h, w, r, c)
  {
    var v := Diffs(g, sh, h, w);
    var m := MaxDiff(v, h, w, r, c);
    assert v[0][r][c] < 0.0 && v[1][r][c] < 0.0 && v[2][r][c] < 0.0 && v[3][r][c] < 0.0;
    RetainedSteepest(v, h, w, 0, r, c);
    var d :| 0 <= d < 4 && v[d][r][c] == m;
    RetainedSteepest(v, h, w, d, r, c);
  }

  /** With a positive flow factor a pit has a negative outflow: it draws
      terrain in from its lowest neighbour instead of sending any out. */
  lemma PitDrawsIn(g: Grid, sh: seq<Grid>, flowFactor: real, h: nat, w: nat, r: nat, c: nat)
    requires HasShape(g, h, w) && IsViews(sh, h, w) && r < h && c < w && flowFactor > 0.0
    requires forall d :: 0 <= d < 4 ==> g[r][c] < sh[d][r][c]
    ensures exists d :: 0 <= d < 4 && Outflow(g, sh, flowFactor, h, w)[d][r][c] < 0.0
  {
    var v := Diffs(g, sh, h, w);
    var m := MaxDiff(v, h, w, r, c);
    PitKeepsNegative(g, sh, h, w, r, c);
    var d :| 0 <= d < 4 && Retained(v, h, w)[d][r][c] == m;
    var out := Outflow(g, sh, flowFactor, h, w);
    assert out == Scale(Retained(v, h, w), flowFactor, h, w);
    assert out[d][r][c] == m * flowFactor;
    assert m * flowFactor < 0.0;
  }

  /** imap_unshifted as the engine builds it: view d addresses, for cell
      (r, c), the padded cell of its opposite neighbour. */
  predicate UnshiftedMapsOk(m: seq<seq<seq<int>>>, h: nat, w: nat)
  {
    IsViews(m, h, w) &&
    forall d, r, c :: 0 <= d < 4 && 0 <= r < h && 0 <= c < w ==>
      m[d][r][c] == PaddedNeighbourIndex(h, w, Opposite(d), r, c)
  }

  /** The maps of _make_indexes are the maps the flow rule needs. */
  lemma EngineMapsFeedRules(h: nat, w: nat)
    ensures UnshiftedMapsOk(UnshiftedIndexMaps(ShiftedIndexMaps(h, w)), h, w)
  {
    var sm := ShiftedIndexMaps(h, w);
    var um := UnshiftedIndexMaps(sm);
    forall d | 0 <= d < 4 ensures HasShape(um[d], h, w) {
      assert um[d] == sm[Opposite(d)];
    }
    forall d, r, c | 0 <= d < 4 && 0 <= r < h && 0 <= c < w
      ensures um[d][r][c] == PaddedNeighbourIndex(h, w, Opposite(d), r, c)
    {
      UnshiftedIndexFormula(h, w, d, r, c);
    }
  }

  /** Through the engine's maps, _calc_flows gathers for cell (r, c) and
      direction d what its opposite neighbour sends in direction d, and 0
      where that neighbour lies outside the canvas: it is calc_unshifted of
      the outflow. */
  lemma GatherReadsOpposite(out: seq<Grid>, m: seq<seq<seq<int>>>, h: nat, w: nat, d: nat, r: nat, c: nat)
    requires IsViews(out, h, w) && UnshiftedMapsOk(m, h, w) && d < 4 && r < h && c < w
    ensures IsRect(out[d]) && IsRect(out[0]) && |out[0]| == h && Width(out[0]) == w
    ensures Gathered(out, m, h, w)[d][r][c] == NeighbourOr(out[d], Opposite(d), r, c, 0.0)
    ensures Gathered(out, m, h, w)[d][r][c] == CalcUnshifted(out, 0.0)[d][r][c]
  {
    ShapeWidth(out[d], h, w);
    ShapeWidth(out[0], h, w);
    var o := Opposite(d);
    var R, C := r + 1 + DRow(o), c + 1 + DCol(o);
    assert 0 <= R < h + 2 && 0 <= C < w + 2;
    var p := PadZero(out[d], h, w);
    assert m[d][r][c] == R * (w + 2) + C;
    FlatDecode(R, C, w + 2);
    var inside := 1 <= R <= h && 1 <= C <= w;
    assert p[R][C] == if inside then out[d][R - 1][C - 1] else 0.0;
    assert NeighbourOr(out[d], o, r, c, 0.0) == if inside then out[d][R - 1][C - 1] else 0.0;
    assert Gathered(out, m, h, w)[d][r][c] == FlatRead(p, R * (w + 2) + C, w) == p[R][C];
    CalcUnshiftedAt(out, 0.0, d, r, c);
  }

  /** Shifting a grid down one row, with zeros in the first row, loses the
      last row from the total. */
  lemma SumShiftDown(o: Grid, t: Grid, h: nat, w: nat)
    requires HasShape(o, h, w) && HasShape(t, h, w) && h >= 1
    requires forall r, c :: 0 <= r < h && 0 <= c < w ==> t[r][c] == if r >= 1 then o[r - 1][c] else 0.0
    ensures SumGrid(t) == SumGrid(o) - SumRow(o[h - 1])
  {
    assert t == [t[0]] + t[1..];
    SumGridAppend([t[0]], t[1..]);
    SumRowConst(t[0], 0.0);
    assert [t[0]][..0] == [];
    forall i | 0 <= i < h - 1 ensures t[1..][i] == o[..h - 1][i] {
      assert |t[i + 1]| == |o[i]| == w;
    }
    assert t[1..] == o[..h - 1];
  }

  /** Shifting a grid up one row, with zeros in the last row, loses the
      first row from the total. */
  lemma SumShiftUp(o: Grid, t: Grid, h: nat, w: nat)
    requires HasShape(o, h, w) && HasShape(t, h, w) && h >= 1
    requires forall r, c :: 0 <= r < h && 0 <= c < w ==> t[r][c] == if r + 1 < h then o[r + 1][c] else 0.0
    ensures SumGrid(t) == SumGrid(o) - SumRow(o[0])
  {
    SumRowConst(t[h - 1], 0.0);
    forall i | 0 <= i < h - 1 ensures t[..h - 1][i] == o[1..][i] {
      assert |t[i]| == |o[i + 1]| == w;
    }
    assert t[..h - 1] == o[1..];
    assert o == [o[0]] + o[1..];
    SumGridAppend([o[0]], o[1..]);
    assert [o[0]][..0] == [];
  }

  /** A row shifted right by one, with 0 in front, loses its last entry. */
  lemma SumRowShiftRight(a: seq<real>, b: seq<real>)
    requires |a| == |b| >= 1 && b[0] == 0.0
    requires forall i :: 1 <= i < |b| ==> b[i] == a[i - 1]
    ensures SumRow(b) == SumRow(a) - a[|a| - 1]
  {
    assert b == [b[0]] + a[..|a| - 1];
    SumRowAppend([b[0]], a[..|a| - 1]);
    assert [b[0]][..0] == [];
  }

  /** A row shifted left by one, with 0 at the end, loses its first entry. */
  lemma SumRowShiftLeft(a: seq<real>, b: seq<real>)
    requires |a| == |b| >= 1 && b[|b| - 1] == 0.0
    requires forall i :: 0 <= i < |b| - 1 ==> b[i] == a[i + 1]
    ensures SumRow(b) == SumRow(a) - a[0]
  {
    assert b[..|b| - 1] == a[1..];
    assert a == [a[0]] + a[1..];
    SumRowAppend([a[0]], a[1..]);
    assert [a[0]][..0] == [];
  }

  /** Shifting a grid right one column, with zeros in the first column,
      loses the last column from the total. */
  lemma SumShiftRight(o: Grid, t: Grid, h: nat, w: nat)
    requires HasShape(o, h, w) && HasShape(t, h, w) && w >= 1
    requires forall r, c :: 0 <= r < h && 0 <= c < w ==> t[r][c] == if c >= 1 then o[r][c - 1] else 0.0
    ensures SumGrid(t) == SumGrid(o) - SumCol(o, w - 1)
  {
    var x := seq(h, r requires 0 <= r < h => o[r][w - 1]);
    forall r | 0 <= r < h ensures SumRow(t[r]) == SumRow(o[r]) - x[r] {
      SumRowShiftRight(o[r], t[r]);
    }
    SumGridMinusColumn(t, o, x);
    SumColAsRow(o, w - 1, x);
  }

  /** Shifting a grid left one column, with zeros in the last column, loses
      the first column from the total. */
  lemma SumShiftLeft(o: Grid, t: Grid, h: nat, w: nat)
    requires HasShape(o, h, w) && HasShape(t, h, w) && w >= 1
    requires forall r, c :: 0 <= r < h && 0 <= c < w ==> t[r][c] == if c + 1 < w then o[r][c + 1] else 0.0
    ensures SumGrid(t) == SumGrid(o) - SumCol(o, 0)
  {
    var x := seq(h, r requires 0 <= r < h => o[r][0]);
    forall r | 0 <= r < h ensures SumRow(t[r]) == SumRow(o[r]) - x[r] {
      SumRowShiftLeft(o[r], t[r]);
    }
    SumGridMinusColumn(t, o, x);
    SumColAsRow(o, 0, x);
  }

  /** What the grid o sends in direction d over the edge of the canvas: its
      last row for 0, first row for 1, last column for 2, first column for 3. */
  function EdgeSum(o: Grid, d: nat, h: nat, w: nat): real
    requires HasShape(o, h, w) && h >= 1 && w >= 1
  {
    if d == 0 then SumRow(o[h - 1])
    else if d == 1 then SumRow(o[0])
    else if d == 2 then SumCol(o, w - 1)
    else SumCol(o, 0)
  }

  /** Everything the outflow sends over the edges of the canvas. */
  function EdgeOutflow(out: seq<Grid>, h: nat, w: nat): real
    requires IsViews(out, h, w) && h >= 1 && w >= 1
  {
    EdgeSum(out[0], 0, h, w) + EdgeSum(out[1], 1, h, w) + EdgeSum(out[2], 2, h, w) + EdgeSum(out[3], 3, h, w)
  }

  /** The inflow gathered from direction d totals that direction's outflow
      less what crosses the edge. */
  lemma GatheredTotal(out: seq<Grid>, m: seq<seq<seq<int>>>, h: nat, w: nat, d: nat)
    requires IsViews(out, h, w) && UnshiftedMapsOk(m, h, w) && h >= 1 && w >= 1 && d < 4
    ensures SumGrid(Gathered(out, m, h, w)[d]) == SumGrid(out[d]) - EdgeSum(out[d], d, h, w)
  {
    var t := Gathered(out, m, h, w)[d];
    var o := out[d];
    forall r, c | 0 <= r < h && 0 <= c < w ensures t[r][c] == NeighbourOr(o, Opposite(d), r, c, 0.0) {
      GatherReadsOpposite(out, m, h, w, d, r, c);
    }
    ShapeWidth(o, h, w);
    if d == 0 {
      SumShiftDown(o, t, h, w);
    } else if d == 1 {
      SumShiftUp(o, t, h, w);
    } else if d == 2 {
      SumShiftRight(o, t, h, w);
    } else {
      SumShiftLeft(o, t, h, w);
    }
  }

  /** The total of the four directions summed per cell is the sum of the
      four totals. */
  lemma SumAxis0Total(v: seq<Grid>, h: nat, w: nat)
    requires IsViews(v, h, w)
    ensures SumGrid(SumAxis0(v, h, w)) == SumGrid(v[0]) + SumGrid(v[1]) + SumGrid(v[2]) + SumGrid(v[3])
  {
    var a := GridAdd(v[0], v[1], h, w);
    var b := GridAdd(a, v[2], h, w);
    SumGridAdd(a, v[0], v[1]);
    SumGridAdd(b, a, v[2]);
    SumGridAdd(SumAxis0(v, h, w), b, v[3]);
  }

  /** calc_flows changes the total by exactly what the outflow sends over
      the edges of the canvas: everything else moves from cell to cell. */
  lemma RedistributeTotal(g: Grid, out: seq<Grid>, m: seq<seq<seq<int>>>, h: nat, w: nat)
    requires HasShape(g, h, w) && IsViews(out, h, w) && UnshiftedMapsOk(m, h, w) && h >= 1 && w >= 1
    ensures SumGrid(Redistribute(g, out, m, h, w)) == SumGrid(g) - EdgeOutflow(out, h, w)
  {
    var minus := SumAxis0(out, h, w);
    var gath := Gathered(out, m, h, w);
    var plus := SumAxis0(gath, h, w);
    var a := GridSub(g, minus, h, w);
    SumGridSub(a, g, minus);
    SumGridAdd(Redistribute(g, out, m, h, w), a, plus);
    SumAxis0Total(out, h, w);
    SumAxis0Total(gath, h, w);
    GatheredTotal(out, m, h, w, 0);
    GatheredTotal(out, m, h, w, 1);
    GatheredTotal(out, m, h, w, 2);
    GatheredTotal(out, m, h, w, 3);
  }

  /** Neighbour views as edge padding makes them: the d-neighbour clamped
      into the canvas, so an edge cell sees itself beyond the edge. */
  predicate EdgeViews(g: Grid, sh: seq<Grid>, h: nat, w: nat)
    requires HasShape(g, h, w) && IsViews(sh, h, w) && h >= 1 && w >= 1
  {
    forall d, r, c :: 0 <= d < 4 && 0 <= r < h && 0 <= c < w ==>
      sh[d][r][c] == g[Clamp(r + DRow(d), h)][Clamp(c + DCol(d), w)]
  }

  /** With edge-padded views nothing flows outward over an edge: the
      outward difference of an edge cell is 0, so its outflow is 0. */
  lemma EdgeViewsOutwardZero(g: Grid, sh: seq<Grid>, flowFactor: real, h: nat, w: nat, d: nat, r: nat, c: nat)
    requires HasShape(g, h, w) && IsViews(sh, h, w) && h >= 1 && w >= 1 && EdgeViews(g, sh, h, w)
    requires d < 4 && r < h && c < w && UnshiftEdge(Opposite(d), r, c, h, w)
    ensures Outflow(g, sh, flowFactor, h, w)[d][r][c] == 0.0
  {
    var v := Diffs(g, sh, h, w);
    assert sh[d][r][c] == g[r][c];
    assert v[d][r][c] == 0.0;
    assert Retained(v, h, w)[d][r][c] == 0.0;
  }

  /** A grid that is 0 on the edge direction d points over sends nothing
      over it. */
  lemma EdgeSumZero(o: Grid, d: nat, h: nat, w: nat)
    requires HasShape(o, h, w) && h >= 1 && w >= 1 && d < 4
    requires forall r, c :: 0 <= r < h && 0 <= c < w && UnshiftEdge(Opposite(d), r, c, h, w) ==> o[r][c] == 0.0
    ensures EdgeSum(o, d, h, w) == 0.0
  {
    if d == 0 {
      var last := o[h - 1];
      forall c | 0 <= c < w ensures last[c] == 0.0 {
        assert UnshiftEdge(Opposite(d), h - 1, c, h, w);
      }
      SumRowConst(last, 0.0);
    } else if d == 1 {
      var first := o[0];
      forall c | 0 <= c < w ensures first[c] == 0.0 {
        assert UnshiftEdge(Opposite(d), 0, c, h, w);
      }
      SumRowConst(first, 0.0);
    } else {
      var c := if d == 2 then w - 1 else 0;
      forall r | 0 <= r < h ensures o[r][c] == 0.0 {
        assert UnshiftEdge(Opposite(d), r, c, h, w);
      }
      var z := seq(h, r requires 0 <= r < h => 0.0);
      SumColAsRow(o, c, z);
      SumRowConst(z, 0.0);
    }
  }

  /** With edge-padded views the outflow of direction d is 0 on the edge it
      points over. */
  lemma EdgeViewsEdgeZero(g: Grid, sh: seq<Grid>, flowFactor: real, h: nat, w: nat, d: nat)
    requires HasShape(g, h, w) && IsViews(sh, h, w) && h >= 1 && w >= 1 && EdgeViews(g, sh, h, w) && d < 4
    ensures EdgeSum(Outflow(g, sh, flowFactor, h, w)[d], d, h, w) == 0.0
  {
    var o := Outflow(g, sh, flowFactor, h, w)[d];
    forall r, c | 0 <= r < h && 0 <= c < w && UnshiftEdge(Opposite(d), r, c, h, w) ensures o[r][c] == 0.0 {
      EdgeViewsOutwardZero(g, sh, flowFactor, h, w, d, r, c);
    }
    EdgeSumZero(o, d, h, w);
  }

  /** With edge-padded views the edge outflow is 0. */
  lemma EdgeViewsNoEdgeOutflow(g: Grid, sh: seq<Grid>, flowFactor: real, h: nat, w: nat)
    requires HasShape(g, h, w) && IsViews(sh, h, w) && h >= 1 && w >= 1 && EdgeViews(g, sh, h, w)
    ensures EdgeOutflow(Outflow(g, sh, flowFactor, h, w), h, w) == 0.0
  {
    EdgeViewsEdgeZero(g, sh, flowFactor, h, w, 0);
    EdgeViewsEdgeZero(g, sh, flowFactor, h, w, 1);
    EdgeViewsEdgeZero(g, sh, flowFactor, h, w, 2);
    EdgeViewsEdgeZero(g, sh, flowFactor, h, w, 3);
  }

  /** The flow rule's conservation claim (rules.py:7-8): in general the
      total terrain falls by exactly the edge outflow, and with the
      edge-padded views of the engine the total is unchanged. */
  lemma FlowStepConserves(g: Grid, sh: seq<Grid>, m: seq<seq<seq<int>>>, flowFactor: real, h: nat, w: nat)
    requires HasShape(g, h, w) && IsViews(sh, h, w) && UnshiftedMapsOk(m, h, w) && h >= 1 && w >= 1
    ensures SumGrid(FlowStep(g, sh, m, flowFactor, h, w)) == SumGrid(g) - EdgeOutflow(Outflow(g, sh, flowFactor, h, w), h, w)
    ensures EdgeViews(g, sh, h, w) ==> SumGrid(FlowStep(g, sh, m, flowFactor, h, w)) == SumGrid(g)
  {
    RedistributeTotal(g, Outflow(g, sh, flowFactor, h, w), m, h, w);
    if EdgeViews(g, sh, h, w) {
      EdgeViewsNoEdgeOutflow(g, sh, flowFactor, h, w);
    }
  }

  /** Layer j of a stacked canvas as a grid. */
  function LayerOf(s: Stack, j: nat, h: nat, w: nat): (g: Grid)
    requires IsStack(s, h, w, j + 1) || (exists l :: j < l && IsStack(s, h, w, l))
    ensures HasShape(g, h, w)
  {
    seq(h, r requires 0 <= r < h => seq(w, c requires 0 <= c < w => s[r][c][j]))
  }

  /** Layer j of the views shift computes, as grids per direction. */
  function ShiftViewsOf(s: Stack, j: nat, h: nat, w: nat): (v: seq<Grid>)
    ensures IsViews(v, h, w)
  {
    seq(4, d requires 0 <= d < 4 => seq(h, r requires 0 <= r < h => seq(w, c requires 0 <= c < w =>
      ClampedAt(s, d, r, c, j))))
  }

  /** The views the engine's shift computes are edge-padded views, so a
      flow rule fed by them conserves the terrain. */
  lemma EngineViewsAreEdgeViews(s: Stack, j: nat, h: nat, w: nat, l: nat)
    requires IsStack(s, h, w, l) && h >= 1 && w >= 1 && j < l
    ensures EdgeViews(LayerOf(s, j, h, w), ShiftViewsOf(s, j, h, w), h, w)
  {
    var g := LayerOf(s, j, h, w);
    var v := ShiftViewsOf(s, j, h, w);
    forall d, r, c | 0 <= d < 4 && 0 <= r < h && 0 <= c < w
      ensures v[d][r][c] == g[Clamp(r + DRow(d), h)][Clamp(c + DCol(d), w)]
    {
      assert Width(s) == w;
    }
  }

  // ---------------------------------------------------------------------
  // Rain

  /** water_local += np.ones(shape) * net_water / darea: the same share of
      net_water on every cell. On a canvas with no cells the rain map is
      empty and nothing changes. */
  function AddRain(g: Grid, netWater: real, h: nat, w: nat): (u: Grid)
    requires HasShape(g, h, w)
    ensures HasShape(u, h, w)
  {
    if h * w == 0 then g
    else seq(h, r requires 0 <= r < h => seq(w, c requires 0 <= c < w => g[r][c] + netWater / ((h * w) as real)))
  }

  /** A grid of h rows of w entries all equal to x totals h * w * x. */
  lemma {:induction false} SumGridConst(g: Grid, x: real, h: nat, w: nat)
    requires HasShape(g, h, w)
    requires forall r, c :: 0 <= r < h && 0 <= c < w ==> g[r][c] == x
    ensures SumGrid(g) == ((h * w) as real) * x
  {
    if h > 0 {
      SumGridConst(g[..h - 1], x, h - 1, w);
      SumRowConst(g[h - 1], x);
      assert (h * w) as real == ((h - 1) * w) as real + w as real;
    }
  }

  /** Rain adds the same share net_water / (H * W) to every cell. */
  lemma AddRainShare(g: Grid, netWater: real, h: nat, w: nat)
    requires HasShape(g, h, w) && h * w > 0
    ensures forall r, c :: 0 <= r < h && 0 <= c < w ==>
      AddRain(g, netWater, h, w)[r][c] - g[r][c] == netWater / ((h * w) as real)
  {
  }

  /** Rain raises the total water by exactly net_water. */
  lemma AddRainTotal(g: Grid, netWater: real, h: nat, w: nat)
    requires HasShape(g, h, w) && h * w > 0
    ensures SumGrid(AddRain(g, netWater, h, w)) == SumGrid(g) + netWater
  {
    var x := netWater / ((h * w) as real);
    var rain := seq(h, r requires 0 <= r < h => seq(w, c requires 0 <= c < w => x));
    RainMapTotal(rain, netWater, h, w);
    SumGridAdd(AddRain(g, netWater, h, w), g, rain);
  }

  /** np.ones(shape) * net_water / darea totals net_water. */
  lemma RainMapTotal(rain: Grid, netWater: real, h: nat, w: nat)
    requires HasShape(rain, h, w) && h * w > 0
    requires forall r, c :: 0 <= r < h && 0 <= c < w ==> rain[r][c] == netWater / ((h * w) as real)
    ensures SumGrid(rain) == netWater
  {
    SumGridConst(rain, netWater / ((h * w) as real), h, w);
  }

  /** Adds the rain share to every entry of the array, in place. */
  method RainInPlace(waterLocal: array2<real>, netWater: real)
    modifies waterLocal
    ensures GridOf(waterLocal) == AddRain(old(GridOf(waterLocal)), netWater, waterLocal.Length0, waterLocal.Length1)
  {
    var h, w := waterLocal.Length0, waterLocal.Length1;
    ghost var g0 := GridOf(waterLocal);
    var darea := h * w;
    if darea != 0 {
      var share := netWater / (darea as real);
      forall r, c | 0 <= r < h && 0 <= c < w {
        waterLocal[r, c] := waterLocal[r, c] + share;
      }
      ghost var u := AddRain(g0, netWater, h, w);
      forall r | 0 <= r < h ensures GridOf(waterLocal)[r] == u[r] {
        assert |GridOf(waterLocal)[r]| == |u[r]| == w;
      }
    }
  }

  /** Rain of net_water per step on the "water" canvas. The seed, fraction
      and evaporation options are never read by evolve. */
  datatype RainFallClosed = RainFallClosed(netWater: real := 100000.0)
  {
    const key: string := "water"
    const layers: seq<string> := ["water"]

    /** evolve (rules.py:64-74): adds net_water / (H * W) to every water
        cell in place and returns the cell's own canvases. */
    method Evolve(cell: Cell) returns (resdict: map<string, array2<real>>)
      requires key in cell.canvases
      modifies cell.canvases[key]
      ensures resdict == cell.canvases
      ensures GridOf(cell.canvases[key]) ==
        AddRain(old(GridOf(cell.canvases[key])), netWater, cell.canvases[key].Length0, cell.canvases[key].Length1)
      ensures forall k :: k in cell.canvases && cell.canvases[k] != cell.canvases[key] ==>
        unchanged(cell.canvases[k])
    {
      var waterLocal := cell.canvases[key];
      RainInPlace(waterLocal, netWater);
      resdict := cell.canvases;
      resdict := resdict[key := waterLocal];
    }
  }

  /** Rain of net_water on the "water" canvas every burst_step calls of
      evolve, counted by step. */
  class RainBurst {
    const netWater: real
    const burstStep: int
    var step: int
    /** How many calls of evolve have rained. */
    ghost var bursts: nat
    const key: string := "water"
    const layers: seq<string> := ["water"]

    /** step counts the calls made so far and bursts those among them that
        rained. */
    ghost predicate Valid()
      reads this`step, this`bursts
    {
      step >= 0 && (burstStep != 0 ==> bursts == CountMultiples(step, burstStep))
    }

    /** __init__ (rules.py:78-88): the counter starts at 0. */
    constructor (netWater: real := 100000.0, burstStep: int := 40)
      ensures Valid() && this.netWater == netWater && this.burstStep == burstStep
      ensures step == 0 && bursts == 0
    {
      this.netWater := netWater;
      this.burstStep := burstStep;
      step := 0;
      bursts := 0;
    }

    /** evolve (rules.py:90-103): rains when step % burst_step == 0, then
        advances step. A burst_step of 0 fails the modulus. */
    method Evolve(cell: Cell) returns (resdict: map<string, array2<real>>)
      requires Valid() && burstStep != 0 && key in cell.canvases
      modifies this`step, this`bursts, cell.canvases[key]
      ensures Valid() && step == old(step) + 1
      ensures bursts == old(bursts) + if old(step) % burstStep == 0 then 1 else 0
      ensures resdict == cell.canvases
      ensures GridOf(cell.canvases[key]) ==
        if old(step) % burstStep == 0
        then AddRain(old(GridOf(cell.canvases[key])), netWater, cell.canvases[key].Length0, cell.canvases[key].Length1)
        else old(GridOf(cell.canvases[key]))
      ensures forall k :: k in cell.canvases && cell.canvases[k] != cell.canvases[key] ==>
        unchanged(cell.canvases[k])
    {
      resdict := cell.canvases;
      if step % burstStep == 0 {
        var waterLocal := cell.canvases[key];
        RainInPlace(waterLocal, netWater);
        resdict := resdict[key := waterLocal];
        bursts := bursts + 1;
      }
      step := step + 1;
    }

    /** After n calls of evolve from construction (step == n) with a
        positive burst_step, it has rained ceil(n / burst_step) times. */
    lemma BurstCount()
      requires Valid() && burstStep > 0
      ensures bursts == (step + burstStep - 1) / burstStep
    {
      CountMultiplesCeil(step, burstStep);
    }
  }
}
