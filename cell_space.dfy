/** The cellular-automaton engine of flow.py: a stacked canvas of H rows, W
    columns and L layers, its edge-padded copy, the flat index maps that
    address the four neighbours of every cell in the padded grid, and the
    loop that applies the rules and keeps snapshots. */
module CellSpaces {
  import opened Arith
  import opened GridOps

  /** A rule as the engine sees it: the residual canvas its evolve returns
      for the current canvas. */
  type Rule = Stack -> Stack

  /** np.arange(h * w).reshape(h, w). */
  function IndexGrid(h: nat, w: nat): (g: seq<seq<int>>)
    ensures HasShape(g, h, w)
  {
    seq(h, r requires 0 <= r < h => seq(w, c requires 0 <= c < w => r * w + c))
  }

  /** imap_shifted (flow.py:90): the centre cut of every neighbour view of
      the padded index grid. */
  function ShiftedIndexMaps(h: nat, w: nat): (m: seq<seq<seq<int>>>)
    ensures |m| == 4 && forall d :: 0 <= d < 4 ==> HasShape(m[d], h, w)
  {
    var p := IndexGrid(h + 2, w + 2);
    ShapeWidth(p, h + 2, w + 2);
    var v := CalcShifted(p, 0);
    seq(4, d requires 0 <= d < 4 => CenterCut(v[d]))
  }

  /** imap_unshifted (flow.py:91-96): the shifted maps in the order [1, 0, 3, 2]. */
  function UnshiftedIndexMaps(s: seq<seq<seq<int>>>): (u: seq<seq<seq<int>>>)
    requires |s| == 4
    ensures |u| == 4 && forall d :: 0 <= d < 4 ==> u[d] == s[Opposite(d)]
  {
    [s[1], s[0], s[3], s[2]]
  }

  /** Flat index, in the (h+2)-by-(w+2) padded grid, of the d-neighbour of
      the padded cell (r + 1, c + 1). */
  function PaddedNeighbourIndex(h: nat, w: nat, d: nat, r: nat, c: nat): int
  {
    (r + 1 + DRow(d)) * (w + 2) + (c + 1 + DCol(d))
  }

  /** imap_shifted[d][r][c] is the flat padded index of the d-neighbour of
      the padded cell (r + 1, c + 1), and that index addresses the padded grid. */
  lemma ShiftedIndexFormula(h: nat, w: nat, d: nat, r: nat, c: nat)
    requires d < 4 && r < h && c < w
    ensures ShiftedIndexMaps(h, w)[d][r][c] == PaddedNeighbourIndex(h, w, d, r, c)
    ensures 0 <= PaddedNeighbourIndex(h, w, d, r, c) < (h + 2) * (w + 2)
  {
    var p := IndexGrid(h + 2, w + 2);
    ShapeWidth(p, h + 2, w + 2);
    var R, C := r + 1 + DRow(d), c + 1 + DCol(d);
    assert 0 <= R < h + 2 && 0 <= C < w + 2;
    var m := ShiftedIndexMaps(h, w);
    var cut := CenterCut(CalcShifted(p, 0)[d]);
    assert m[d] == cut;
    CenterCutShiftedAt(p, 0, d, r, c);
    assert p[R] == seq(w + 2, c' requires 0 <= c' < w + 2 => R * (w + 2) + c');
    assert p[R][C] == R * (w + 2) + C;
    PaddedNeighbourIndexBound(h, w, d, r, c);
  }

  lemma PaddedNeighbourIndexBound(h: nat, w: nat, d: nat, r: nat, c: nat)
    requires d < 4 && r < h && c < w
    ensures 0 <= PaddedNeighbourIndex(h, w, d, r, c) < (h + 2) * (w + 2)
  {
    FlatIndexBound(r + 1 + DRow(d), c + 1 + DCol(d), h + 2, w + 2);
  }

  /** imap_unshifted[d] is imap_shifted of the opposite direction: it holds
      the flat padded index of the opposite neighbour. */
  lemma UnshiftedIndexFormula(h: nat, w: nat, d: nat, r: nat, c: nat)
    requires d < 4 && r < h && c < w
    ensures UnshiftedIndexMaps(ShiftedIndexMaps(h, w))[d] == ShiftedIndexMaps(h, w)[Opposite(d)]
    ensures UnshiftedIndexMaps(ShiftedIndexMaps(h, w))[d][r][c] == PaddedNeighbourIndex(h, w, Opposite(d), r, c)
  {
    ShiftedIndexFormula(h, w, Opposite(d), r, c);
  }

  /** padded[:, :, j].flat[k]: entry k, in row-major order, of layer j of
      a padded canvas p whose rows have w + 2 cells. A negative index, which
      numpy counts from the end, and an index past the end, which numpy
      rejects, both read 0 here; PaddedNeighbourIndexBound shows that the
      engine makes neither. */
  function LayerFlat(p: Stack, j: nat, k: int, w: nat): real
  {
    var row, col := k / (w + 2), k % (w + 2);
    if 0 <= row < |p| && col < |p[row]| && j < |p[row][col]| then p[row][col][j] else 0.0
  }

  /** Layer j of the d-neighbour of (r, c), clamped into the canvas: the cell
      itself where the neighbour would lie outside. */
  function ClampedAt(s: Stack, d: nat, r: nat, c: nat, j: nat): real
  {
    if |s| == 0 || Width(s) == 0 then 0.0
    else
      var r', c' := Clamp(r + DRow(d), |s|), Clamp(c + DCol(d), Width(s));
      if c' < |s[r']| && j < |s[r'][c']| then s[r'][c'][j] else 0.0
  }

  /** Reading layer j of the padded canvas at the flat index of the
      d-neighbour of (r + 1, c + 1) gives the d-neighbour of (r, c) clamped
      into the domain. */
  lemma PaddedReadIsClampedNeighbour(s: Stack, d: nat, r: nat, c: nat, j: nat)
    requires Paddable(s) && d < 4 && r < |s| && c < Width(s) && j < Layers(s)
    ensures LayerFlat(Pad(s), j, PaddedNeighbourIndex(|s|, Width(s), d, r, c), Width(s)) ==
      s[Clamp(r + DRow(d), |s|)][Clamp(c + DCol(d), Width(s))][j] == ClampedAt(s, d, r, c, j)
  {
    var h, w, l := |s|, Width(s), Layers(s);
    var p := Pad(s);
    var R, C := r + 1 + DRow(d), c + 1 + DCol(d);
    assert 0 <= R < h + 2 && 0 <= C < w + 2;
    assert p[R][C] == s[Clamp(R - 1, h)][Clamp(C - 1, w)];
    assert |p[R][C]| == l;
    FlatDecode(R, C, w + 2);
  }

  /** With edge padding, an edge cell's outward view is its own value: the
      last row for direction 0, the first row for 1, the last column for 2
      and the first column for 3. */
  lemma ShiftOutwardIsOwnValue(s: Stack, d: nat, r: nat, c: nat, j: nat)
    requires Paddable(s) && d < 4 && r < |s| && c < Width(s) && j < Layers(s)
    requires UnshiftEdge(Opposite(d), r, c, |s|, Width(s))
    ensures LayerFlat(Pad(s), j, PaddedNeighbourIndex(|s|, Width(s), d, r, c), Width(s)) == s[r][c][j]
  {
    PaddedReadIsClampedNeighbour(s, d, r, c, j);
  }

  /** A canvas of zeros: np.zeros(shape). */
  function Zeros(h: nat, w: nat, l: nat): (z: Stack)
    ensures IsStack(z, h, w, l)
  {
    seq(h, r requires 0 <= r < h => seq(w, c requires 0 <= c < w => seq(l, j requires 0 <= j < l => 0.0)))
  }

  /** Element-wise sum of two canvases of the same shape. */
  function AddStack(a: Stack, b: Stack, h: nat, w: nat, l: nat): (u: Stack)
    requires IsStack(a, h, w, l) && IsStack(b, h, w, l)
    ensures IsStack(u, h, w, l)
  {
    seq(h, r requires 0 <= r < h => seq(w, c requires 0 <= c < w =>
      seq(l, j requires 0 <= j < l => a[r][c][j] + b[r][c][j])))
  }

  /** Every rule returns a canvas of the shape it is given. */
  ghost predicate KeepsShape(rules: seq<Rule>, h: nat, w: nat, l: nat)
  {
    forall k, s :: 0 <= k < |rules| && IsStack(s, h, w, l) ==> IsStack(rules[k](s), h, w, l)
  }

  /** The outputs of the rules for canvas s, summed from zeros in rule order. */
  function SumOutputs(rules: seq<Rule>, s: Stack, h: nat, w: nat, l: nat): (u: Stack)
    requires KeepsShape(rules, h, w, l) && IsStack(s, h, w, l)
    ensures IsStack(u, h, w, l)
  {
    if |rules| == 0 then Zeros(h, w, l)
    else AddStack(SumOutputs(rules[..|rules| - 1], s, h, w, l), rules[|rules| - 1](s), h, w, l)
  }

  /** The values rule by rule at one entry. */
  function OutputsAt(rules: seq<Rule>, s: Stack, r: nat, c: nat, j: nat, h: nat, w: nat, l: nat): (x: seq<real>)
    requires KeepsShape(rules, h, w, l) && IsStack(s, h, w, l) && r < h && c < w && j < l
    ensures |x| == |rules|
  {
    seq(|rules|, k requires 0 <= k < |rules| => rules[k](s)[r][c][j])
  }

  /** Each entry of the new canvas is the sum, over the rules, of that entry
      of the rules' outputs. */
  lemma {:induction false} SumOutputsAt(rules: seq<Rule>, s: Stack, r: nat, c: nat, j: nat, h: nat, w: nat, l: nat)
    requires KeepsShape(rules, h, w, l) && IsStack(s, h, w, l) && r < h && c < w && j < l
    ensures SumOutputs(rules, s, h, w, l)[r][c][j] == SumRow(OutputsAt(rules, s, r, c, j, h, w, l))
  {
    if |rules| > 0 {
      var n := |rules| - 1;
      SumOutputsAt(rules[..n], s, r, c, j, h, w, l);
      assert OutputsAt(rules, s, r, c, j, h, w, l)[..n] == OutputsAt(rules[..n], s, r, c, j, h, w, l);
    }
  }

  /** With a single rule the new canvas is that rule's output. */
  lemma SumOutputsSingle(f: Rule, s: Stack, h: nat, w: nat, l: nat)
    requires KeepsShape([f], h, w, l) && IsStack(s, h, w, l)
    ensures SumOutputs([f], s, h, w, l) == f(s)
  {
    assert [f][..0] == [];
    assert IsStack([f][0](s), h, w, l);
    AddZerosLeft(f(s), h, w, l);
  }

  /** Zeros are the left unit of the element-wise sum. */
  lemma AddZerosLeft(b: Stack, h: nat, w: nat, l: nat)
    requires IsStack(b, h, w, l)
    ensures AddStack(Zeros(h, w, l), b, h, w, l) == b
  {
    var u := AddStack(Zeros(h, w, l), b, h, w, l);
    forall r | 0 <= r < h ensures u[r] == b[r] {
      forall c | 0 <= c < w ensures u[r][c] == b[r][c] {
        assert |u[r][c]| == |b[r][c]| == l;
      }
    }
  }

  /** The canvas after n steps. */
  function Run(rules: seq<Rule>, s: Stack, n: nat, h: nat, w: nat, l: nat): (u: Stack)
    requires KeepsShape(rules, h, w, l) && IsStack(s, h, w, l)
    ensures IsStack(u, h, w, l)
  {
    if n == 0 then s else SumOutputs(rules, Run(rules, s, n - 1, h, w, l), h, w, l)
  }

  /** Whether flow saves after step i: `i % savestep == 0` on numpy
      integers, where a modulus by zero yields 0. */
  predicate SaveAfter(i: int, savestep: int)
  {
    savestep == 0 || i % savestep == 0
  }

  /** maps after flow(n, savestep) from canvas s: the starting canvas, then
      the canvas after step i + 1 for every step i that saves. */
  function Snapshots(rules: seq<Rule>, s: Stack, n: nat, savestep: int, h: nat, w: nat, l: nat): (m: seq<Stack>)
    requires KeepsShape(rules, h, w, l) && IsStack(s, h, w, l)
    ensures |m| >= 1 && m[0] == s
  {
    if n == 0 then [s]
    else
      var saved := if SaveAfter(n - 1, savestep) then [Run(rules, s, n, h, w, l)] else [];
      Snapshots(rules, s, n - 1, savestep, h, w, l) + saved
  }

  /** One more step extends the snapshots by the canvas it reaches, when it saves. */
  lemma SnapshotsNext(rules: seq<Rule>, s: Stack, i: nat, savestep: int, h: nat, w: nat, l: nat)
    requires KeepsShape(rules, h, w, l) && IsStack(s, h, w, l)
    ensures Run(rules, s, i + 1, h, w, l) == SumOutputs(rules, Run(rules, s, i, h, w, l), h, w, l)
    ensures Snapshots(rules, s, i + 1, savestep, h, w, l) == Snapshots(rules, s, i, savestep, h, w, l) +
      (if SaveAfter(i, savestep) then [Run(rules, s, i + 1, h, w, l)] else [])
  {
  }

  /** The number of steps among the first n that save. */
  function SaveCount(n: nat, savestep: int): nat
  {
    if savestep == 0 then n else CountMultiples(n, savestep)
  }

  /** flow keeps the starting canvas and one canvas per saving step; the
      first snapshot is the start and the last saving step's canvas is the
      last. */
  lemma {:induction false} SnapshotsShape(rules: seq<Rule>, s: Stack, n: nat, savestep: int, h: nat, w: nat, l: nat)
    requires KeepsShape(rules, h, w, l) && IsStack(s, h, w, l)
    ensures var m := Snapshots(rules, s, n, savestep, h, w, l);
      |m| == 1 + SaveCount(n, savestep) && m[0] == s &&
      (n > 0 && SaveAfter(n - 1, savestep) ==> m[|m| - 1] == Run(rules, s, n, h, w, l))
  {
    if n > 0 {
      SnapshotsShape(rules, s, n - 1, savestep, h, w, l);
    }
  }

  /** For a positive period the snapshot count is 1 + ceil(nstep / savestep). */
  lemma SnapshotCount(rules: seq<Rule>, s: Stack, n: nat, savestep: int, h: nat, w: nat, l: nat)
    requires KeepsShape(rules, h, w, l) && IsStack(s, h, w, l) && savestep > 0
    ensures |Snapshots(rules, s, n, savestep, h, w, l)| == 1 + (n + savestep - 1) / savestep
  {
    SnapshotsShape(rules, s, n, savestep, h, w, l);
    CountMultiplesCeil(n, savestep);
  }

  /** flow(10, 5) keeps three canvases: the start, after step 0 and after step 5. */
  lemma SnapshotCountTenByFive(rules: seq<Rule>, s: Stack, h: nat, w: nat, l: nat)
    requires KeepsShape(rules, h, w, l) && IsStack(s, h, w, l)
    ensures |Snapshots(rules, s, 10, 5, h, w, l)| == 3
  {
    SnapshotCount(rules, s, 10, 5, h, w, l);
  }

  /** Flat index, in the (h+2)-by-(w+2) padded grid, of the padded cell
      (r + 1, c + 1) that holds cell (r, c) of the canvas. */
  function PaddedIndex(w: nat, r: nat, c: nat): int
  {
    (r + 1) * (w + 2) + (c + 1)
  }

  /** The index maps as _make_indexes leaves them for an h-by-w canvas. */
  predicate IndexMapsOk(h: nat, w: nat, imapGrid: seq<seq<int>>, imapPadded: seq<seq<int>>,
                        imapCenter: seq<seq<int>>, imapShifted: seq<seq<seq<int>>>,
                        imapUnshifted: seq<seq<seq<int>>>)
  {
    HasShape(imapGrid, h, w) && HasShape(imapPadded, h + 2, w + 2) && HasShape(imapCenter, h, w) &&
    (forall r, c :: 0 <= r < h && 0 <= c < w ==> imapGrid[r][c] == r * w + c) &&
    (forall r, c :: 0 <= r < h + 2 && 0 <= c < w + 2 ==> imapPadded[r][c] == r * (w + 2) + c) &&
    (forall r, c :: 0 <= r < h && 0 <= c < w ==> imapCenter[r][c] == PaddedIndex(w, r, c)) &&
    |imapShifted| == 4 && |imapUnshifted| == 4 &&
    (forall d :: 0 <= d < 4 ==> HasShape(imapShifted[d], h, w)) &&
    (forall d, r, c :: 0 <= d < 4 && 0 <= r < h && 0 <= c < w ==>
      imapShifted[d][r][c] == PaddedNeighbourIndex(h, w, d, r, c)) &&
    (forall d :: 0 <= d < 4 ==> imapUnshifted[d] == imapShifted[Opposite(d)])
  }

  /** The centre cut of the padded index grid holds the flat padded index
      of every canvas cell. */
  lemma CenterIndexFormula(h: nat, w: nat)
    ensures var m := CenterCut(IndexGrid(h + 2, w + 2));
      HasShape(m, h, w) && forall r, c :: 0 <= r < h && 0 <= c < w ==> m[r][c] == PaddedIndex(w, r, c)
  {
    var p := IndexGrid(h + 2, w + 2);
    var m := CenterCut(p);
    forall r, c | 0 <= r < h && 0 <= c < w ensures m[r][c] == PaddedIndex(w, r, c) {
      assert m[r] == Interior(p[r + 1]);
      assert p[r + 1] == seq(w + 2, c' requires 0 <= c' < w + 2 => (r + 1) * (w + 2) + c');
    }
  }

  /** _make_indexes (flow.py:84-96): the flat index grids of the canvas and
      of the padded canvas, the centre of the latter, the centre cuts of the
      four neighbour views of the padded index grid, and those four maps in
      the order [1, 0, 3, 2]. The maps pair each cell with the flat padded
      index of itself and of each of its neighbours, and each direction with
      its opposite. */
  lemma MakeIndexes(h: nat, w: nat)
    ensures var sm := ShiftedIndexMaps(h, w);
      IndexMapsOk(h, w, IndexGrid(h, w), IndexGrid(h + 2, w + 2), CenterCut(IndexGrid(h + 2, w + 2)),
                  sm, UnshiftedIndexMaps(sm))
  {
    CenterIndexFormula(h, w);
    forall d, r, c | 0 <= d < 4 && 0 <= r < h && 0 <= c < w
      ensures ShiftedIndexMaps(h, w)[d][r][c] == PaddedNeighbourIndex(h, w, d, r, c)
    {
      ShiftedIndexFormula(h, w, d, r, c);
    }
  }

  /** The engine. The shape fields and the index maps are fixed at
      construction. */
  class CellSpace {
    var canvas: Stack
    const layers: seq<string>
    const rules: seq<Rule>
    var paddedCanvas: Stack
    const shapeCanvas: (nat, nat, nat)
    const shapeCanvasPadded: (nat, nat, nat)
    /** The index maps of _make_indexes, fixed by the canvas shape; imap is
        the flat index grid of the canvas. */
    const imapCanvas: seq<seq<int>> := IndexGrid(shapeCanvas.0, shapeCanvas.1)
    const imapPadded: seq<seq<int>> := IndexGrid(shapeCanvas.0 + 2, shapeCanvas.1 + 2)
    const imapCenter: seq<seq<int>> := CenterCut(imapPadded)
    const imapShifted: seq<seq<seq<int>>> := ShiftedIndexMaps(shapeCanvas.0, shapeCanvas.1)
    const imapUnshifted: seq<seq<seq<int>>> := UnshiftedIndexMaps(imapShifted)
    /** The views the constructor computes. */
    var shiftedCanvases: array4<real>
    /** The views step computes; step stores them under this second name and
        leaves shiftedCanvases as the constructor set them. Null until the
        first step. */
    var shiftedCanvas: array4?<real>
    var maps: seq<Stack>

    /** The canvas fits the shape recorded at construction, and the padded
        canvas is its padding. */
    predicate Valid()
      reads this`canvas, this`paddedCanvas
    {
      var h, w, l := shapeCanvas.0, shapeCanvas.1, shapeCanvas.2;
      h >= 1 && w >= 1 && l >= 1 && IsStack(canvas, h, w, l) && paddedCanvas == Pad(canvas)
    }

    /** The views hold, at [d, r, c, j], layer j of the d-neighbour of (r, c)
        clamped into the canvas. */
    predicate ViewsOf(v: array4<real>, s: Stack)
      reads v
    {
      var h, w, l := shapeCanvas.0, shapeCanvas.1, shapeCanvas.2;
      v.Length0 == 4 && v.Length1 == h && v.Length2 == w && v.Length3 == l &&
      forall d, r, c, j :: 0 <= d < 4 && 0 <= r < h && 0 <= c < w && 0 <= j < l ==>
        v[d, r, c, j] == ClampedAt(s, d, r, c, j)
    }

    /** __init__ (flow.py:66-82). numpy's edge padding fails on an empty
        axis, so the initial canvas has at least one row, column and layer. */
    constructor (initialMaps: Stack, layers: seq<string>, rules: seq<Rule>)
      requires Paddable(initialMaps)
      ensures Valid()
      ensures canvas == initialMaps && this.layers == layers && this.rules == rules
      ensures shapeCanvas == (|initialMaps|, Width(initialMaps), Layers(initialMaps))
      ensures shapeCanvasPadded == (shapeCanvas.0 + 2, shapeCanvas.1 + 2, shapeCanvas.2)
      ensures maps == [] && shiftedCanvas == null && fresh(shiftedCanvases)
      ensures ViewsOf(shiftedCanvases, initialMaps)
    {
      canvas := initialMaps;
      this.layers := layers;
      this.rules := rules;
      var p := Pad(initialMaps);
      paddedCanvas := p;
      var h, w := |initialMaps|, Width(initialMaps);
      shapeCanvas := (h, w, Layers(initialMaps));
      assert |p[0]| == w + 2 && |p[0][0]| == Layers(initialMaps);
      shapeCanvasPadded := (|p|, Width(p), Layers(p));
      new;
      shiftedCanvases := Shift();
      shiftedCanvas := null;
      ResetMaps();
    }

    /** The index maps of every engine have the layout of _make_indexes for
        its canvas shape. */
    lemma IndexesLayout()
      ensures IndexMapsOk(shapeCanvas.0, shapeCanvas.1, imapCanvas, imapPadded, imapCenter, imapShifted, imapUnshifted)
    {
      MakeIndexes(shapeCanvas.0, shapeCanvas.1);
    }

    /** reset_maps (flow.py:98-99). */
    method ResetMaps()
      modifies this`maps
      ensures maps == []
    {
      maps := [];
    }

    /** update_maps (flow.py:101-102): appends the current canvas. */
    method UpdateMaps()
      modifies this`maps
      ensures maps == old(maps) + [canvas]
    {
      maps := maps + [canvas];
    }

    /** shift (flow.py:104-110): a fresh (4, H, W, L) array whose view d,
        layer j, reads layer j of the padded canvas at imap_shifted[d]; that
        is the d-neighbour clamped into the domain. */
    method Shift() returns (sc: array4<real>)
      requires Valid()
      ensures fresh(sc) && ViewsOf(sc, canvas)
    {
      var h, w, l := shapeCanvas.0, shapeCanvas.1, shapeCanvas.2;
      sc := new real[4, h, w, l]((d, r, c, j) => 0.0);
      for i := 0 to 4
        invariant forall d, r, c, j :: 0 <= d < i && 0 <= r < h && 0 <= c < w && 0 <= j < l ==>
          sc[d, r, c, j] == ClampedAt(canvas, d, r, c, j)
      {
        for j := 0 to l
          invariant forall d, r, c, j' :: 0 <= d < i && 0 <= r < h && 0 <= c < w && 0 <= j' < l ==>
            sc[d, r, c, j'] == ClampedAt(canvas, d, r, c, j')
          invariant forall r, c, j' :: 0 <= r < h && 0 <= c < w && 0 <= j' < j ==>
            sc[i, r, c, j'] == ClampedAt(canvas, i, r, c, j')
        {
          ShiftLayer(sc, i, j);
        }
      }
    }

    /** One assignment of shift's loop: layer j of view i is layer j of the
        padded canvas read at imap_shifted[i]. */
    method ShiftLayer(sc: array4<real>, i: nat, j: nat)
      requires Valid() && i < 4 && j < shapeCanvas.2
      requires sc.Length0 == 4 && sc.Length1 == shapeCanvas.0 && sc.Length2 == shapeCanvas.1 &&
        sc.Length3 == shapeCanvas.2
      modifies sc
      ensures forall r, c :: 0 <= r < shapeCanvas.0 && 0 <= c < shapeCanvas.1 ==>
        sc[i, r, c, j] == ClampedAt(canvas, i, r, c, j)
      ensures forall d, r, c, j' ::
        0 <= d < 4 && 0 <= r < shapeCanvas.0 && 0 <= c < shapeCanvas.1 && 0 <= j' < shapeCanvas.2 && (d != i || j' != j)
        ==> sc[d, r, c, j'] == old(sc[d, r, c, j'])
    {
      var h, w := shapeCanvas.0, shapeCanvas.1;
      var ii := imapShifted[i];
      assert HasShape(ii, h, w);
      forall r, c | 0 <= r < h && 0 <= c < w {
        sc[i, r, c, j] := LayerFlat(paddedCanvas, j, ii[r][c], w);
      }
      forall r, c | 0 <= r < h && 0 <= c < w
        ensures sc[i, r, c, j] == ClampedAt(canvas, i, r, c, j)
      {
        ShiftedIndexFormula(h, w, i, r, c);
        PaddedReadIsClampedNeighbour(canvas, i, r, c, j);
      }
    }

    /** The loop of step (flow.py:118-120): from zeros, adds the output of
        every rule for the current canvas, in rule order. */
    method AccumulateRules() returns (newCanvas: Stack)
      requires Valid() && KeepsShape(rules, shapeCanvas.0, shapeCanvas.1, shapeCanvas.2)
      ensures newCanvas == SumOutputs(rules, canvas, shapeCanvas.0, shapeCanvas.1, shapeCanvas.2)
    {
      var h, w, l := shapeCanvas.0, shapeCanvas.1, shapeCanvas.2;
      newCanvas := Zeros(h, w, l);
      for k := 0 to |rules|
        invariant newCanvas == SumOutputs(rules[..k], canvas, h, w, l)
      {
        assert rules[..k + 1][..k] == rules[..k];
        newCanvas := AddStack(newCanvas, rules[k](canvas), h, w, l);
      }
      assert rules[..|rules|] == rules;
    }

    /** step (flow.py:112-124): the new canvas is the sum of the rules'
        outputs from zeros, in rule order; the padded canvas follows it, and
        the recomputed views go to shiftedCanvas. */
    method Step()
      requires Valid() && KeepsShape(rules, shapeCanvas.0, shapeCanvas.1, shapeCanvas.2)
      modifies this`canvas, this`paddedCanvas, this`shiftedCanvas
      ensures Valid()
      ensures canvas == SumOutputs(rules, old(canvas), shapeCanvas.0, shapeCanvas.1, shapeCanvas.2)
      ensures shiftedCanvas != null && fresh(shiftedCanvas) && ViewsOf(shiftedCanvas, canvas)
    {
      var newCanvas := AccumulateRules();
      SetCanvas(newCanvas);
      var sc := Shift();
      shiftedCanvas := sc;
    }

    /** The assignments of step (flow.py:122-123): the new canvas and its
        padding. */
    method SetCanvas(newCanvas: Stack)
      requires IsStack(newCanvas, shapeCanvas.0, shapeCanvas.1, shapeCanvas.2) && Valid()
      modifies this`canvas, this`paddedCanvas
      ensures Valid() && canvas == newCanvas
    {
      canvas := newCanvas;
      paddedCanvas := Pad(canvas);
    }

    /** The views step stored last are those of the current canvas. */
    predicate ViewsCurrent()
      reads this`shiftedCanvas, this`canvas, shiftedCanvas
    {
      shiftedCanvas != null && ViewsOf(shiftedCanvas, canvas)
    }

    /** flow (flow.py:126-135): clears maps, keeps the starting canvas, then
        runs nstep steps (none when nstep is negative) and keeps the canvas
        after step i whenever i % savestep == 0. After at least one step the
        views of step belong to the final canvas. */
    method Flow(nstep: int := 100, savestep: int := 5)
      requires Valid() && KeepsShape(rules, shapeCanvas.0, shapeCanvas.1, shapeCanvas.2)
      modifies this`canvas, this`paddedCanvas, this`shiftedCanvas, this`maps
      ensures Valid()
      ensures var n := if nstep < 0 then 0 else nstep;
        canvas == Run(rules, old(canvas), n, shapeCanvas.0, shapeCanvas.1, shapeCanvas.2) &&
        maps == Snapshots(rules, old(canvas), n, savestep, shapeCanvas.0, shapeCanvas.1, shapeCanvas.2)
      ensures nstep <= 0 ==> shiftedCanvas == old(shiftedCanvas)
      ensures nstep > 0 ==> shiftedCanvas != null && fresh(shiftedCanvas) && ViewsCurrent()
    {
      var start := canvas;
      assert IsStack(start, shapeCanvas.0, shapeCanvas.1, shapeCanvas.2);
      var n: nat := if nstep < 0 then 0 else nstep;
      ResetMaps();
      UpdateMaps();
      StepMany(start, n, savestep);
    }

    /** The first k passes of flow's loop, from the start canvas with only
        the start saved. */
    method StepMany(ghost start: Stack, k: nat, savestep: int)
      requires KeepsShape(rules, shapeCanvas.0, shapeCanvas.1, shapeCanvas.2) && Valid()
      requires canvas == start && maps == [start]
      modifies this`canvas, this`paddedCanvas, this`shiftedCanvas, this`maps
      ensures Valid()
      ensures canvas == Run(rules, start, k, shapeCanvas.0, shapeCanvas.1, shapeCanvas.2)
      ensures maps == Snapshots(rules, start, k, savestep, shapeCanvas.0, shapeCanvas.1, shapeCanvas.2)
      ensures k == 0 ==> shiftedCanvas == old(shiftedCanvas)
      ensures k > 0 ==> shiftedCanvas != null && fresh(shiftedCanvas) && ViewsCurrent()
    {
      var h, w, l := shapeCanvas.0, shapeCanvas.1, shapeCanvas.2;
      for i := 0 to k
        invariant Valid()
        invariant canvas == Run(rules, start, i, h, w, l)
        invariant maps == Snapshots(rules, start, i, savestep, h, w, l)
        invariant i == 0 ==> shiftedCanvas == old(shiftedCanvas)
        invariant i > 0 ==> shiftedCanvas != null && fresh(shiftedCanvas) && ViewsCurrent()
      {
        StepAndSave(start, i, savestep);
      }
    }

    /** One pass of flow's loop: step i, then the snapshot when i % savestep == 0. */
    method StepAndSave(ghost start: Stack, i: nat, savestep: int)
      requires KeepsShape(rules, shapeCanvas.0, shapeCanvas.1, shapeCanvas.2) && Valid()
      requires IsStack(start, shapeCanvas.0, shapeCanvas.1, shapeCanvas.2)
      requires canvas == Run(rules, start, i, shapeCanvas.0, shapeCanvas.1, shapeCanvas.2)
      requires maps == Snapshots(rules, start, i, savestep, shapeCanvas.0, shapeCanvas.1, shapeCanvas.2)
      modifies this`canvas, this`paddedCanvas, this`shiftedCanvas, this`maps
      ensures Valid()
      ensures canvas == Run(rules, start, i + 1, shapeCanvas.0, shapeCanvas.1, shapeCanvas.2)
      ensures maps == Snapshots(rules, start, i + 1, savestep, shapeCanvas.0, shapeCanvas.1, shapeCanvas.2)
      ensures shiftedCanvas != null && fresh(shiftedCanvas) && ViewsCurrent()
    {
      var h, w, l := shapeCanvas.0, shapeCanvas.1, shapeCanvas.2;
      Step();
      if SaveAfter(i, savestep) {
        UpdateMaps();
      }
      SnapshotsNext(rules, start, i, savestep, h, w, l);
    }
  }
}
