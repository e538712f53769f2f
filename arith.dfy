/** Arithmetic shared by the grid engine and the rules: Euclidean division
    facts for flat (row-major) indices, sums of rows and grids of reals, and
    the number of multiples of a period below a bound (the cadence of
    snapshots and of rain bursts). */
module Arith {

  /** The quotient and remainder of x by n are unique. */
  lemma DivModUnique(x: int, n: int, q: int, m: int)
    requires n > 0 && 0 <= m < n && x == q * n + m
    ensures x / n == q && x % n == m
  {
    var q', m' := x / n, x % n;
    assert x == q' * n + m';
    assert (q - q') * n == m' - m;
    if q > q' {
      MulAtLeast(q - q', n);
      assert false;
    } else if q < q' {
      MulAtLeast(q' - q, n);
      assert false;
    }
  }

  lemma MulAtLeast(a: int, n: int)
    requires a >= 1 && n > 0
    ensures a * n >= n
  {
    assert a * n == (a - 1) * n + n;
    MulNonNeg(a - 1, n);
  }

  lemma MulNonNeg(a: int, n: int)
    requires a >= 0 && n >= 0
    ensures a * n >= 0
  {
  }

  /** A row-major index a * w + b of a cell (a, b) of an h-by-w grid lies in [0, h * w). */
  lemma FlatIndexBound(a: int, b: int, h: int, w: int)
    requires 0 <= a < h && 0 <= b < w
    ensures 0 <= a * w + b < h * w
  {
    MulNonNeg(a, w);
    assert a * w + b < (a + 1) * w;
    MulNonNeg(h - (a + 1), w);
    assert h * w == (a + 1) * w + (h - (a + 1)) * w;
  }

  /** Decoding the row-major index of (a, b) gives back (a, b). */
  lemma FlatDecode(a: int, b: int, w: int)
    requires 0 <= b < w
    ensures (a * w + b) / w == a && (a * w + b) % w == b
  {
    DivModUnique(a * w + b, w, a, b);
  }

  /** Sum of a row, accumulated from the front. */
  function SumRow(s: seq<real>): real
  {
    if |s| == 0 then 0.0 else SumRow(s[..|s| - 1]) + s[|s| - 1]
  }

  /** Sum of a grid, row by row. */
  function SumGrid(g: seq<seq<real>>): real
  {
    if |g| == 0 then 0.0 else SumGrid(g[..|g| - 1]) + SumRow(g[|g| - 1])
  }

  /** Sum of column c of a grid. */
  function SumCol(g: seq<seq<real>>, c: nat): real
    requires forall r :: 0 <= r < |g| ==> c < |g[r]|
  {
    if |g| == 0 then 0.0 else SumCol(g[..|g| - 1], c) + g[|g| - 1][c]
  }

  lemma {:induction false} SumRowAppend(a: seq<real>, b: seq<real>)
    ensures SumRow(a + b) == SumRow(a) + SumRow(b)
  {
    if |b| == 0 {
      assert a + b == a;
    } else {
      assert (a + b)[..|a + b| - 1] == a + b[..|b| - 1];
      SumRowAppend(a, b[..|b| - 1]);
    }
  }

  lemma {:induction false} SumGridAppend(a: seq<seq<real>>, b: seq<seq<real>>)
    ensures SumGrid(a + b) == SumGrid(a) + SumGrid(b)
  {
    if |b| == 0 {
      assert a + b == a;
    } else {
      assert (a + b)[..|a + b| - 1] == a + b[..|b| - 1];
      SumGridAppend(a, b[..|b| - 1]);
    }
  }

  /** A row whose every entry is x sums to |s| * x. */
  lemma {:induction false} SumRowConst(s: seq<real>, x: real)
    requires forall i :: 0 <= i < |s| ==> s[i] == x
    ensures SumRow(s) == (|s| as real) * x
  {
    if |s| > 0 {
      SumRowConst(s[..|s| - 1], x);
    }
  }

  /** Entry-wise u = a + b gives SumRow(u) = SumRow(a) + SumRow(b). */
  lemma {:induction false} SumRowAdd(u: seq<real>, a: seq<real>, b: seq<real>)
    requires |u| == |a| == |b|
    requires forall i :: 0 <= i < |u| ==> u[i] == a[i] + b[i]
    ensures SumRow(u) == SumRow(a) + SumRow(b)
  {
    if |u| > 0 {
      SumRowAdd(u[..|u| - 1], a[..|a| - 1], b[..|b| - 1]);
    }
  }

  /** Entry-wise u = a - b gives SumRow(u) = SumRow(a) - SumRow(b). */
  lemma {:induction false} SumRowSub(u: seq<real>, a: seq<real>, b: seq<real>)
    requires |u| == |a| == |b|
    requires forall i :: 0 <= i < |u| ==> u[i] == a[i] - b[i]
    ensures SumRow(u) == SumRow(a) - SumRow(b)
  {
    if |u| > 0 {
      SumRowSub(u[..|u| - 1], a[..|a| - 1], b[..|b| - 1]);
    }
  }

  /** Per-row relation SumRow(u[r]) = SumRow(a[r]) + SumRow(b[r]) adds up over the rows. */
  lemma {:induction false} SumGridRowsAdd(u: seq<seq<real>>, a: seq<seq<real>>, b: seq<seq<real>>)
    requires |u| == |a| == |b|
    requires forall r :: 0 <= r < |u| ==> SumRow(u[r]) == SumRow(a[r]) + SumRow(b[r])
    ensures SumGrid(u) == SumGrid(a) + SumGrid(b)
  {
    if |u| > 0 {
      var n := |u| - 1;
      SumGridRowsAdd(u[..n], a[..n], b[..n]);
    }
  }

  /** Per-row relation SumRow(u[r]) = SumRow(a[r]) - SumRow(b[r]) adds up over the rows. */
  lemma {:induction false} SumGridRowsSub(u: seq<seq<real>>, a: seq<seq<real>>, b: seq<seq<real>>)
    requires |u| == |a| == |b|
    requires forall r :: 0 <= r < |u| ==> SumRow(u[r]) == SumRow(a[r]) - SumRow(b[r])
    ensures SumGrid(u) == SumGrid(a) - SumGrid(b)
  {
    if |u| > 0 {
      var n := |u| - 1;
      SumGridRowsSub(u[..n], a[..n], b[..n]);
    }
  }

  /** Per-row relation SumRow(u[r]) = SumRow(a[r]) - x[r] gives SumGrid(u) = SumGrid(a) - SumRow(x). */
  lemma {:induction false} SumGridMinusColumn(u: seq<seq<real>>, a: seq<seq<real>>, x: seq<real>)
    requires |u| == |a| == |x|
    requires forall r :: 0 <= r < |u| ==> SumRow(u[r]) == SumRow(a[r]) - x[r]
    ensures SumGrid(u) == SumGrid(a) - SumRow(x)
  {
    if |u| > 0 {
      var n := |u| - 1;
      SumGridMinusColumn(u[..n], a[..n], x[..n]);
    }
  }

  /** The column sum is the row sum of the column read out as a sequence. */
  lemma {:induction false} SumColAsRow(g: seq<seq<real>>, c: nat, x: seq<real>)
    requires forall r :: 0 <= r < |g| ==> c < |g[r]|
    requires |x| == |g| && forall r :: 0 <= r < |g| ==> x[r] == g[r][c]
    ensures SumCol(g, c) == SumRow(x)
  {
    if |g| > 0 {
      SumColAsRow(g[..|g| - 1], c, x[..|x| - 1]);
    }
  }

  /** Entry-wise u = a + b over equally shaped grids sums up. */
  lemma SumGridAdd(u: seq<seq<real>>, a: seq<seq<real>>, b: seq<seq<real>>)
    requires |u| == |a| == |b|
    requires forall r :: 0 <= r < |u| ==> |u[r]| == |a[r]| == |b[r]|
    requires forall r, c :: 0 <= r < |u| && 0 <= c < |u[r]| ==> u[r][c] == a[r][c] + b[r][c]
    ensures SumGrid(u) == SumGrid(a) + SumGrid(b)
  {
    forall r | 0 <= r < |u| ensures SumRow(u[r]) == SumRow(a[r]) + SumRow(b[r]) {
      SumRowAdd(u[r], a[r], b[r]);
    }
    SumGridRowsAdd(u, a, b);
  }

  /** Entry-wise u = a - b over equally shaped grids sums up. */
  lemma SumGridSub(u: seq<seq<real>>, a: seq<seq<real>>, b: seq<seq<real>>)
    requires |u| == |a| == |b|
    requires forall r :: 0 <= r < |u| ==> |u[r]| == |a[r]| == |b[r]|
    requires forall r, c :: 0 <= r < |u| && 0 <= c < |u[r]| ==> u[r][c] == a[r][c] - b[r][c]
    ensures SumGrid(u) == SumGrid(a) - SumGrid(b)
  {
    forall r | 0 <= r < |u| ensures SumRow(u[r]) == SumRow(a[r]) - SumRow(b[r]) {
      SumRowSub(u[r], a[r], b[r]);
    }
    SumGridRowsSub(u, a, b);
  }

  /** The number of i in [0, n) with i % p == 0: how often a step counter
      that starts at 0 hits a multiple of the period p in n steps. */
  function CountMultiples(n: nat, p: int): nat
    requires p != 0
  {
    if n == 0 then 0 else CountMultiples(n - 1, p) + (if (n - 1) % p == 0 then 1 else 0)
  }

  /** For a positive period p, n steps hit ceil(n / p) multiples of p. */
  lemma {:induction false} CountMultiplesCeil(n: nat, p: int)
    requires p > 0
    ensures CountMultiples(n, p) == (n + p - 1) / p
  {
    if n > 0 {
      CountMultiplesCeil(n - 1, p);
      CeilStep(n - 1, p);
    }
  }

  /** ceil((k + 1) / p) exceeds ceil(k / p) by one exactly when k is a multiple of p. */
  lemma CeilStep(k: nat, p: int)
    requires p > 0
    ensures (k + p) / p == (k + p - 1) / p + (if k % p == 0 then 1 else 0)
  {
    var q, m := k / p, k % p;
    assert k == q * p + m;
    assert (q + 1) * p == q * p + p;
    if m == 0 {
      DivModUnique(k + p - 1, p, q, p - 1);
      DivModUnique(k + p, p, q + 1, 0);
    } else {
      DivModUnique(k + p - 1, p, q + 1, m - 1);
      DivModUnique(k + p, p, q + 1, m);
    }
  }
}
