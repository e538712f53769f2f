/** The grid operations of flow.py: edge-replicating padding of a stacked
    canvas, cutting the centre back out, overwriting the border of one layer,
    and the four directional neighbour views with their inverse.

    A 2-D grid is a sequence of rows. A stacked canvas (H rows, W columns,
    L layers) is a grid whose cells are the vectors of the L layer values. */
module GridOps {
  import opened Arith

  type Stack = seq<seq<seq<real>>>

  /** Number of columns of a grid (that of its first row). */
  function Width<T>(g: seq<seq<T>>): nat
  {
    if |g| == 0 then 0 else |g[0]|
  }

  /** g has h rows of w cells each. */
  predicate HasShape<T>(g: seq<seq<T>>, h: nat, w: nat)
  {
    |g| == h && forall r :: 0 <= r < h ==> |g[r]| == w
  }

  /** g is rectangular, as every numpy array is. */
  predicate IsRect<T>(g: seq<seq<T>>)
  {
    HasShape(g, |g|, Width(g))
  }

  /** s is a stacked canvas of shape (h, w, l). */
  predicate IsStack(s: Stack, h: nat, w: nat, l: nat)
  {
    HasShape(s, h, w) && forall r, c :: 0 <= r < h && 0 <= c < w ==> |s[r][c]| == l
  }

  /** Number of layers of a stacked canvas (that of its first cell). */
  function Layers(s: Stack): nat
  {
    if |s| == 0 || |s[0]| == 0 then 0 else |s[0][0]|
  }

  /** A stacked canvas with at least one row, column and layer: numpy's
      "edge" padding cannot extend an empty axis. */
  predicate Paddable(s: Stack)
  {
    |s| >= 1 && Width(s) >= 1 && Layers(s) >= 1 && IsStack(s, |s|, Width(s), Layers(s))
  }

  /** The nearest index to i inside [0, n). */
  function Clamp(i: int, n: nat): (k: nat)
    requires n >= 1
    ensures k < n
    ensures 0 <= i < n ==> k == i
    ensures i < 0 ==> k == 0
    ensures i >= n ==> k == n - 1
  {
    if i < 0 then 0 else if i >= n then n - 1 else i
  }

  /** numpy "edge" padding of one axis by one element on each side. */
  function EdgeExtend<T>(s: seq<T>): (e: seq<T>)
    requires |s| >= 1
    ensures |e| == |s| + 2
  {
    [s[0]] + s + [s[|s| - 1]]
  }

  /** The layer axis padded and then sliced back with [1:-1]. */
  function PadThenSliceLayers(v: seq<real>): (u: seq<real>)
    requires |v| >= 1
    ensures u == v
  {
    EdgeExtend(v)[1..|v| + 1]
  }

  /** numpy "edge" padding of one axis: every position of the extended
      sequence holds the nearest element of s. */
  lemma EdgeExtendNearest<T>(s: seq<T>)
    requires |s| >= 1
    ensures forall i :: 0 <= i < |s| + 2 ==> EdgeExtend(s)[i] == s[Clamp(i - 1, |s|)]
  {
    var e := EdgeExtend(s);
    forall i | 0 <= i < |s| + 2 ensures e[i] == s[Clamp(i - 1, |s|)] {
      if 0 < i <= |s| {
        assert e[i] == s[i - 1];
      }
    }
  }

  /** One padded row: the row's cells with the first and last repeated. */
  function PadRow(row: seq<seq<real>>): (e: seq<seq<real>>)
    requires |row| >= 1 && forall c :: 0 <= c < |row| ==> |row[c]| >= 1
    ensures |e| == |row| + 2
    ensures forall c :: 0 <= c < |row| + 2 ==> e[c] == row[Clamp(c - 1, |row|)]
  {
    var cells := seq(|row|, c requires 0 <= c < |row| => PadThenSliceLayers(row[c]));
    assert cells == row;
    EdgeExtendNearest(row);
    EdgeExtend(cells)
  }

  /** pad (flow.py:5-7): np.pad(arr, 1, mode="edge")[:, :, 1:-1]. Every
      cell of the (H+2, W+2, L) result holds the layer vector of the nearest
      cell of the domain; the layer axis itself is not padded. */
  function Pad(s: Stack): (p: Stack)
    requires Paddable(s)
    ensures IsStack(p, |s| + 2, Width(s) + 2, Layers(s))
    ensures forall r, c :: 0 <= r < |s| + 2 && 0 <= c < Width(s) + 2 ==>
      p[r][c] == s[Clamp(r - 1, |s|)][Clamp(c - 1, Width(s))]
  {
    var h, w, l := |s|, Width(s), Layers(s);
    var rows := seq(h, r requires 0 <= r < h => PadRow(s[r]));
    EdgeExtendNearest(rows);
    var p := EdgeExtend(rows);
    NearestIsStack(s, p);
    p
  }

  /** A grid whose every cell is the layer vector of the nearest cell of s
      has the padded shape. */
  lemma NearestIsStack(s: Stack, p: Stack)
    requires Paddable(s)
    requires |p| == |s| + 2
    requires forall r :: 0 <= r < |s| + 2 ==> p[r] == PadRow(s[Clamp(r - 1, |s|)])
    ensures IsStack(p, |s| + 2, Width(s) + 2, Layers(s))
    ensures forall r, c :: 0 <= r < |s| + 2 && 0 <= c < Width(s) + 2 ==>
      p[r][c] == s[Clamp(r - 1, |s|)][Clamp(c - 1, Width(s))]
  {
    var h, w, l := |s|, Width(s), Layers(s);
    forall r | 0 <= r < h + 2
      ensures |p[r]| == w + 2
      ensures forall c :: 0 <= c < w + 2 ==> p[r][c] == s[Clamp(r - 1, h)][Clamp(c - 1, w)] && |p[r][c]| == l
    {
      var k := Clamp(r - 1, h);
      assert |s[k]| == w;
    }
  }

  /** arr[1:-1] on one axis: empty below two elements. */
  function Interior<T>(s: seq<T>): (t: seq<T>)
    ensures |t| == if |s| >= 2 then |s| - 2 else 0
    ensures forall i :: 0 <= i < |t| ==> t[i] == s[i + 1]
  {
    if |s| < 2 then [] else s[1..|s| - 1]
  }

  /** center_cut (flow.py:12-13): arr[1:-1, 1:-1], for grids of any cell type. */
  function CenterCut<T>(g: seq<seq<T>>): (m: seq<seq<T>>)
    ensures |m| == if |g| >= 2 then |g| - 2 else 0
    ensures forall i :: 0 <= i < |m| ==> m[i] == Interior(g[i + 1])
  {
    if |g| < 2 then [] else seq(|g| - 2, i requires 0 <= i < |g| - 2 => Interior(g[i + 1]))
  }

  /** center_cut inverts pad: cutting the padded canvas gives the canvas back. */
  lemma CenterCutPad(s: Stack)
    requires Paddable(s)
    ensures CenterCut(Pad(s)) == s
  {
    var h, w := |s|, Width(s);
    var p, m := Pad(s), CenterCut(Pad(s));
    assert |m| == h;
    forall r | 0 <= r < h ensures m[r] == s[r] {
      CenterCutPadRow(s, p, m, r);
    }
  }

  lemma CenterCutPadRow(s: Stack, p: Stack, m: Stack, r: nat)
    requires Paddable(s) && p == Pad(s) && m == CenterCut(p) && r < |s|
    ensures |m| == |s| && m[r] == s[r]
  {
    var h, w := |s|, Width(s);
    assert |p[r + 1]| == w + 2;
    assert m[r] == Interior(p[r + 1]);
    assert |s[r]| == w;
    forall c | 0 <= c < w ensures m[r][c] == s[r][c] {
      assert m[r][c] == p[r + 1][c + 1];
      assert p[r + 1][c + 1] == s[Clamp(r, h)][Clamp(c, w)];
    }
  }

  /** Cells that null_edges overwrites: the slices [:depth] and [-depth:] of
      both axes. A slice [-0:] covers the whole axis, so depth 0 selects
      every row and column; a depth larger than the axis selects all of it. */
  function TailStart(n: nat, depth: nat): nat
  {
    if depth == 0 || depth >= n then 0 else n - depth
  }

  predicate InBorder(r: nat, c: nat, h: nat, w: nat, depth: nat)
  {
    r < depth || c < depth || c >= TailStart(w, depth) || r >= TailStart(h, depth)
  }

  /** The border null_edges selects is the depth-wide frame of the grid for
      depth >= 1, and the whole grid for depth == 0. */
  lemma InBorderFrame(r: nat, c: nat, h: nat, w: nat, depth: nat)
    requires r < h && c < w
    ensures InBorder(r, c, h, w, depth) <==>
      depth == 0 || r < depth || r + depth >= h || c < depth || c + depth >= w
  {
  }

  /** The layer that index `axis` selects on an axis of length n: Python
      counts a negative index from the end. */
  function AxisIndex(axis: int, n: nat): (k: nat)
    requires -(n as int) <= axis < n
    ensures k < n
    ensures axis >= 0 ==> k == axis
    ensures axis < 0 ==> k + (-axis) == n
  {
    if axis < 0 then axis + n else axis
  }

  /** null_edges (flow.py:15-20): sets the border of layer `axis` (of width
      `depth`) to `value` in place and returns the same array; interior cells
      and all other layers keep their values. A negative `axis` counts from
      the last layer. */
  method NullEdges(arr: array3<real>, axis: int, depth: nat := 1, value: real := 0.0) returns (res: array3<real>)
    requires -arr.Length2 <= axis < arr.Length2
    modifies arr
    ensures res == arr
    ensures forall r, c, j :: 0 <= r < arr.Length0 && 0 <= c < arr.Length1 && 0 <= j < arr.Length2 ==>
      arr[r, c, j] == if j == AxisIndex(axis, arr.Length2) && InBorder(r, c, arr.Length0, arr.Length1, depth) then value else old(arr[r, c, j])
  {
    var h, w := arr.Length0, arr.Length1;
    var k := AxisIndex(axis, arr.Length2);
    forall r, c | 0 <= r < h && r < depth && 0 <= c < w {
      arr[r, c, k] := value;
    }
    forall r, c | 0 <= r < h && 0 <= c < w && c < depth {
      arr[r, c, k] := value;
    }
    forall r, c | 0 <= r < h && TailStart(w, depth) <= c < w {
      arr[r, c, k] := value;
    }
    forall r, c | TailStart(h, depth) <= r < h && 0 <= c < w {
      arr[r, c, k] := value;
    }
    res := arr;
  }

  /** Row offset of direction d: 0 is row+1, 1 is row-1, 2 is col+1, 3 is col-1. */
  function DRow(d: nat): int
  {
    if d == 0 then 1 else if d == 1 then -1 else 0
  }

  function DCol(d: nat): int
  {
    if d == 2 then 1 else if d == 3 then -1 else 0
  }

  /** The direction pointing the other way: 0 and 1, 2 and 3 are opposite. */
  function Opposite(d: nat): nat
  {
    if d == 0 then 1 else if d == 1 then 0 else if d == 2 then 3 else 2
  }

  /** The d-neighbour of (r, c) in g, or `zero` when it lies outside g. */
  function NeighbourOr<T>(g: seq<seq<T>>, d: nat, r: int, c: int, zero: T): T
    requires IsRect(g)
  {
    var r', c' := r + DRow(d), c + DCol(d);
    if 0 <= r' < |g| && 0 <= c' < Width(g) then g[r'][c'] else zero
  }

  /** A grid of shape (h, w) with h >= 1 has width w. */
  lemma ShapeWidth<T>(g: seq<seq<T>>, h: nat, w: nat)
    requires HasShape(g, h, w)
    ensures IsRect(g) && (h >= 1 ==> Width(g) == w)
  {
  }

  /** np.roll(g, k, axis=0): row r of the result is row (r - k) mod h. */
  function RollRows<T>(g: seq<seq<T>>, k: int): (t: seq<seq<T>>)
    requires IsRect(g)
    ensures HasShape(t, |g|, Width(g))
  {
    seq(|g|, r requires 0 <= r < |g| => g[(r - k) % |g|])
  }

  /** np.roll(g, k, axis=1): column c of the result is column (c - k) mod w. */
  function RollCols<T>(g: seq<seq<T>>, k: int): (t: seq<seq<T>>)
    requires IsRect(g)
    ensures HasShape(t, |g|, Width(g))
  {
    seq(|g|, r requires 0 <= r < |g| =>
      seq(Width(g), c requires 0 <= c < Width(g) => g[r][(c - k) % Width(g)]))
  }

  /** tmp[lo:hi, :] = zero. */
  function ZeroRows<T>(g: seq<seq<T>>, lo: int, hi: int, zero: T): (t: seq<seq<T>>)
    requires IsRect(g)
    ensures HasShape(t, |g|, Width(g))
  {
    seq(|g|, r requires 0 <= r < |g| =>
      seq(Width(g), c requires 0 <= c < Width(g) => if lo <= r < hi then zero else g[r][c]))
  }

  /** tmp[:, lo:hi] = zero. */
  function ZeroCols<T>(g: seq<seq<T>>, lo: int, hi: int, zero: T): (t: seq<seq<T>>)
    requires IsRect(g)
    ensures HasShape(t, |g|, Width(g))
  {
    seq(|g|, r requires 0 <= r < |g| =>
      seq(Width(g), c requires 0 <= c < Width(g) => if lo <= c < hi then zero else g[r][c]))
  }

  /** calc_shifted (flow.py:22-41): roll by one step in each of the four
      directions and zero the row or column that wrapped around. */
  function CalcShifted<T>(g: seq<seq<T>>, zero: T): (v: seq<seq<seq<T>>>)
    requires IsRect(g)
    ensures |v| == 4 && forall d :: 0 <= d < 4 ==> HasShape(v[d], |g|, Width(g))
  {
    var h, w := |g|, Width(g);
    [ ZeroRows(RollRows(g, -1), h - 1, h, zero),
      ZeroRows(RollRows(g, 1), 0, 1, zero),
      ZeroCols(RollCols(g, -1), w - 1, w, zero),
      ZeroCols(RollCols(g, 1), 0, 1, zero) ]
  }

  lemma ModSmall(x: int, n: int)
    requires 0 <= x < n
    ensures x % n == x
  {
    DivModUnique(x, n, 0, x);
  }

  /** Cell (r, c) of view d of calc_shifted holds the d-neighbour of (r, c):
      g[r+1][c], g[r-1][c], g[r][c+1], g[r][c-1], and zero where that
      neighbour lies beyond the last row, the first row, the last column or
      the first column. */
  lemma CalcShiftedNeighbours<T>(g: seq<seq<T>>, zero: T)
    requires IsRect(g)
    ensures forall d, r, c :: 0 <= d < 4 && 0 <= r < |g| && 0 <= c < Width(g) ==>
      CalcShifted(g, zero)[d][r][c] == NeighbourOr(g, d, r, c, zero)
  {
    forall d, r, c | 0 <= d < 4 && 0 <= r < |g| && 0 <= c < Width(g) {
      CalcShiftedAt(g, zero, d, r, c);
    }
  }

  lemma CalcShiftedAt<T>(g: seq<seq<T>>, zero: T, d: nat, r: nat, c: nat)
    requires IsRect(g) && d < 4 && r < |g| && c < Width(g)
    ensures CalcShifted(g, zero)[d][r][c] == NeighbourOr(g, d, r, c, zero)
  {
    var h, w := |g|, Width(g);
    if d == 0 && r + 1 < h {
      ModSmall(r + 1, h);
    } else if d == 1 && r >= 1 {
      ModSmall(r - 1, h);
    } else if d == 2 && c + 1 < w {
      ModSmall(c + 1, w);
    } else if d == 3 && c >= 1 {
      ModSmall(c - 1, w);
    }
  }

  /** calc_unshifted (flow.py:43-62): rolls every view back by one step the
      other way and zeros the row or column that wrapped around. */
  function CalcUnshifted<T>(m: seq<seq<seq<T>>>, zero: T): (u: seq<seq<seq<T>>>)
    requires |m| == 4 && forall d :: 0 <= d < 4 ==> HasShape(m[d], |m[0]|, Width(m[0]))
    ensures |u| == 4 && forall d :: 0 <= d < 4 ==> HasShape(u[d], |m[0]|, Width(m[0]))
  {
    var h, w := |m[0]|, Width(m[0]);
    ShapeWidth(m[0], h, w);
    ShapeWidth(m[1], h, w);
    ShapeWidth(m[2], h, w);
    ShapeWidth(m[3], h, w);
    [ ZeroRows(RollRows(m[0], 1), 0, 1, zero),
      ZeroRows(RollRows(m[1], -1), h - 1, h, zero),
      ZeroCols(RollCols(m[2], 1), 0, 1, zero),
      ZeroCols(RollCols(m[3], -1), w - 1, w, zero) ]
  }

  /** View d of calc_unshifted takes each cell from the opposite neighbour:
      it scatters what a cell holds, addressed to its d-neighbour, into that
      neighbour's frame, with zero where nothing can arrive from the domain. */
  lemma CalcUnshiftedFromOpposite<T>(m: seq<seq<seq<T>>>, zero: T)
    requires |m| == 4 && forall d :: 0 <= d < 4 ==> HasShape(m[d], |m[0]|, Width(m[0]))
    ensures forall d, r, c :: 0 <= d < 4 && 0 <= r < |m[0]| && 0 <= c < Width(m[0]) ==>
      CalcUnshifted(m, zero)[d][r][c] == NeighbourOr(m[d], Opposite(d), r, c, zero)
  {
    forall d, r, c | 0 <= d < 4 && 0 <= r < |m[0]| && 0 <= c < Width(m[0]) {
      CalcUnshiftedAt(m, zero, d, r, c);
    }
  }

  lemma CalcUnshiftedAt<T>(m: seq<seq<seq<T>>>, zero: T, d: nat, r: nat, c: nat)
    requires |m| == 4 && forall d :: 0 <= d < 4 ==> HasShape(m[d], |m[0]|, Width(m[0]))
    requires d < 4 && r < |m[0]| && c < Width(m[0])
    ensures CalcUnshifted(m, zero)[d][r][c] == NeighbourOr(m[d], Opposite(d), r, c, zero)
  {
    var h, w := |m[0]|, Width(m[0]);
    ShapeWidth(m[d], h, w);
    if d == 0 && r >= 1 {
      ModSmall(r - 1, h);
    } else if d == 1 && r + 1 < h {
      ModSmall(r + 1, h);
    } else if d == 2 && c >= 1 {
      ModSmall(c - 1, w);
    } else if d == 3 && c + 1 < w {
      ModSmall(c + 1, w);
    }
  }

  /** The edge that calc_unshifted zeros for direction d: the first row for
      0, the last row for 1, the first column for 2, the last column for 3. */
  predicate UnshiftEdge(d: nat, r: nat, c: nat, h: nat, w: nat)
  {
    (d == 0 && r == 0) || (d == 1 && r + 1 == h) || (d == 2 && c == 0) || (d == 3 && c + 1 == w)
  }

  /** calc_unshifted undoes calc_shifted everywhere but on one zeroed edge per
      direction. */
  lemma UnshiftShift<T>(g: seq<seq<T>>, zero: T)
    requires IsRect(g)
    ensures var u := CalcUnshifted(CalcShifted(g, zero), zero);
      forall d, r, c :: 0 <= d < 4 && 0 <= r < |g| && 0 <= c < Width(g) ==>
        u[d][r][c] == if UnshiftEdge(d, r, c, |g|, Width(g)) then zero else g[r][c]
  {
    var v := CalcShifted(g, zero);
    CalcShiftedNeighbours(g, zero);
    ShapeWidth(v[0], |g|, Width(g));
    forall d, r, c | 0 <= d < 4 && 0 <= r < |g| && 0 <= c < Width(g) {
      UnshiftNeighboursAt(g, v, zero, d, r, c);
    }
  }

  /** Any four views holding the neighbours of g (as calc_shifted builds
      them) are taken back to g by calc_unshifted, off the zeroed edge. */
  lemma UnshiftNeighboursAt<T>(g: seq<seq<T>>, m: seq<seq<seq<T>>>, zero: T, d: nat, r: nat, c: nat)
    requires IsRect(g) && |m| == 4 && forall d :: 0 <= d < 4 ==> HasShape(m[d], |m[0]|, Width(m[0]))
    requires |m[0]| == |g| && Width(m[0]) == Width(g)
    requires forall d, r, c :: 0 <= d < 4 && 0 <= r < |m[d]| && 0 <= c < |m[d][r]| ==>
      m[d][r][c] == NeighbourOr(g, d, r, c, zero)
    requires d < 4 && r < |g| && c < Width(g)
    ensures CalcUnshifted(m, zero)[d][r][c] ==
      if UnshiftEdge(d, r, c, |g|, Width(g)) then zero else g[r][c]
  {
    var h, w := |g|, Width(g);
    ShapeWidth(m[0], h, w);
    CalcUnshiftedAt(m, zero, d, r, c);
    if d == 0 && r >= 1 {
      assert m[0][r - 1][c] == NeighbourOr(g, 0, r - 1, c, zero);
    } else if d == 1 && r + 1 < h {
      assert m[1][r + 1][c] == NeighbourOr(g, 1, r + 1, c, zero);
    } else if d == 2 && c >= 1 {
      assert m[2][r][c - 1] == NeighbourOr(g, 2, r, c - 1, zero);
    } else if d == 3 && c + 1 < w {
      assert m[3][r][c + 1] == NeighbourOr(g, 3, r, c + 1, zero);
    }
  }

  /** The centre cut of view d of calc_shifted holds, at (r, c), the
      d-neighbour of the interior cell (r + 1, c + 1), which always lies in g. */
  lemma CenterCutShiftedAt<T>(g: seq<seq<T>>, zero: T, d: nat, r: nat, c: nat)
    requires IsRect(g) && d < 4 && r + 2 < |g| && c + 2 < Width(g)
    ensures CenterCut(CalcShifted(g, zero)[d])[r][c] == g[r + 1 + DRow(d)][c + 1 + DCol(d)]
  {
    var v := CalcShifted(g, zero);
    CalcShiftedAt(g, zero, d, r + 1, c + 1);
    assert CenterCut(v[d])[r] == Interior(v[d][r + 1]);
  }
}
