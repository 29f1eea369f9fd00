/** Four-dimensional sample arrays and the numpy operations the loaders
    apply to them: scaling, concatenation along the channel axis, the axis
    permutation `(0, 3, 2, 1)`, taking one index of an axis, and the
    C-order reshape of each channel's samples into one row. */
module Tensors {
  import opened Base
  import opened Seqs

  datatype Shape = Shape(d0: nat, d1: nat, d2: nat, d3: nat)

  predicate InShape(s: Shape, a: nat, b: nat, c: nat, d: nat) {
    a < s.d0 && b < s.d1 && c < s.d2 && d < s.d3
  }

  predicate Is3<T>(g: seq<seq<seq<T>>>, n0: nat, n1: nat, n2: nat) {
    |g| == n0 && forall a :: 0 <= a < n0 ==> Rectangular(g[a], n1, n2)
  }

  /** A numpy array of rank four: its shape and its samples, nested in
      axis order. */
  datatype Array4 = Array4(shape: Shape, cells: seq<seq<seq<seq<real>>>>)

  predicate WellShaped(x: Array4) {
    |x.cells| == x.shape.d0 &&
    forall a :: 0 <= a < x.shape.d0 ==> Is3(x.cells[a], x.shape.d1, x.shape.d2, x.shape.d3)
  }

  type Tensor = x: Array4 | WellShaped(x) witness Array4(Shape(0, 0, 0, 0), [])

  /** The sample at `(a, b, c, d)`, or 0 outside the shape. */
  function Get(x: Tensor, a: nat, b: nat, c: nat, d: nat): real {
    if InShape(x.shape, a, b, c, d) then x.cells[a][b][c][d] else 0.0
  }

  /** The array of the given shape whose sample at every index is `f` of
      that index. */
  function Build(s: Shape, f: (nat, nat, nat, nat) -> real): (x: Tensor)
    ensures x.shape == s
    ensures forall a: nat, b: nat, c: nat, d: nat :: InShape(s, a, b, c, d) ==> Get(x, a, b, c, d) == f(a, b, c, d)
  {
    var cells := seq(s.d0, a requires 0 <= a < s.d0 => Plane(s, f, a));
    var x := Array4(s, cells);
    assert WellShaped(x) by {
      forall a | 0 <= a < s.d0
        ensures Is3(cells[a], s.d1, s.d2, s.d3)
      {
        assert cells[a] == Plane(s, f, a);
      }
    }
    x
  }

  /** The samples of `Build(s, f)` for channel `a`. */
  function Plane(s: Shape, f: (nat, nat, nat, nat) -> real, a: nat): (g: seq<seq<seq<real>>>)
    ensures Is3(g, s.d1, s.d2, s.d3)
    ensures forall b: nat, c: nat, d: nat :: b < s.d1 && c < s.d2 && d < s.d3 ==> g[b][c][d] == f(a, b, c, d)
  {
    seq(s.d1, b requires 0 <= b < s.d1 => Line(s, f, a, b))
  }

  function Line(s: Shape, f: (nat, nat, nat, nat) -> real, a: nat, b: nat): (g: seq<seq<real>>)
    ensures Rectangular(g, s.d2, s.d3)
    ensures forall c: nat, d: nat :: c < s.d2 && d < s.d3 ==> g[c][d] == f(a, b, c, d)
  {
    seq(s.d2, c requires 0 <= c < s.d2 => seq(s.d3, d requires 0 <= d < s.d3 => f(a, b, c, d)))
  }

  /** Two arrays of one shape with the same samples are the same array. */
  lemma Extensional(x: Tensor, y: Tensor)
    requires x.shape == y.shape
    requires forall a: nat, b: nat, c: nat, d: nat :: InShape(x.shape, a, b, c, d) ==> Get(x, a, b, c, d) == Get(y, a, b, c, d)
    ensures x == y
  {
    var s := x.shape;
    forall a | 0 <= a < s.d0
      ensures x.cells[a] == y.cells[a]
    {
      forall b | 0 <= b < s.d1
        ensures x.cells[a][b] == y.cells[a][b]
      {
        forall c | 0 <= c < s.d2
          ensures x.cells[a][b][c] == y.cells[a][b][c]
        {
          forall d | 0 <= d < s.d3
            ensures x.cells[a][b][c][d] == y.cells[a][b][c][d]
          {
            assert Get(x, a, b, c, d) == Get(y, a, b, c, d);
          }
        }
      }
    }
  }

  /** `x * k`, elementwise. */
  function Scale(x: Tensor, k: real): (y: Tensor)
    ensures y.shape == x.shape
    ensures forall a: nat, b: nat, c: nat, d: nat :: InShape(x.shape, a, b, c, d) ==> Get(y, a, b, c, d) == Get(x, a, b, c, d) * k
  {
    Build(x.shape, (a: nat, b: nat, c: nat, d: nat) => Get(x, a, b, c, d) * k)
  }

  /** `np.zeros(s)`. */
  function Zeros(s: Shape): (z: Tensor)
    ensures z.shape == s
    ensures forall a: nat, b: nat, c: nat, d: nat :: InShape(s, a, b, c, d) ==> Get(z, a, b, c, d) == 0.0
  {
    Build(s, (a: nat, b: nat, c: nat, d: nat) => 0.0)
  }

  /** `np.concatenate((x, y), axis=0)`: the channels of `y` follow those of
      `x`. */
  function Concat0(x: Tensor, y: Tensor): (z: Tensor)
    requires x.shape.d1 == y.shape.d1 && x.shape.d2 == y.shape.d2 && x.shape.d3 == y.shape.d3
    ensures z.shape == Shape(x.shape.d0 + y.shape.d0, x.shape.d1, x.shape.d2, x.shape.d3)
    ensures forall a: nat, b: nat, c: nat, d: nat :: InShape(z.shape, a, b, c, d) ==>
      Get(z, a, b, c, d) == if a < x.shape.d0 then Get(x, a, b, c, d) else Get(y, a - x.shape.d0, b, c, d)
  {
    var n := x.shape.d0;
    Build(Shape(n + y.shape.d0, x.shape.d1, x.shape.d2, x.shape.d3),
      (a: nat, b: nat, c: nat, d: nat) => if a < n then Get(x, a, b, c, d) else Get(y, a - n, b, c, d))
  }

  function Permuted(s: Shape): Shape {
    Shape(s.d0, s.d3, s.d2, s.d1)
  }

  /** `np.transpose(x, (0, 3, 2, 1))`: axes 1 and 3 swap places. */
  function Transpose0321(x: Tensor): (y: Tensor)
    ensures y.shape == Permuted(x.shape)
    ensures forall a: nat, b: nat, c: nat, d: nat :: InShape(y.shape, a, b, c, d) ==> Get(y, a, b, c, d) == Get(x, a, d, c, b)
  {
    Build(Permuted(x.shape), (a: nat, b: nat, c: nat, d: nat) => Get(x, a, d, c, b))
  }

  /** The permutation `(0, 3, 2, 1)` is its own inverse: applying it twice
      gives back the array. */
  lemma TransposeTwice(x: Tensor)
    ensures Transpose0321(Transpose0321(x)) == x
  {
    var y := Transpose0321(Transpose0321(x));
    assert y.shape == x.shape;
    forall a: nat, b: nat, c: nat, d: nat | InShape(x.shape, a, b, c, d)
      ensures Get(y, a, b, c, d) == Get(x, a, b, c, d)
    {
      assert InShape(Transpose0321(x).shape, a, d, c, b);
    }
    Extensional(y, x);
  }

  /** `x[:, i, ...]`: the index `i` of axis 1, a (d0, d2, d3) array. */
  function Slice1(x: Tensor, i: nat): (g: seq<seq<seq<real>>>)
    requires i < x.shape.d1
    ensures Is3(g, x.shape.d0, x.shape.d2, x.shape.d3)
    ensures forall a: nat, c: nat, d: nat :: InShape(x.shape, a, i, c, d) ==> g[a][c][d] == Get(x, a, i, c, d)
  {
    seq(x.shape.d0, a requires 0 <= a < x.shape.d0 => Section1(x, i, a))
  }

  /** Channel `a` of `x[:, i, ...]`. */
  function Section1(x: Tensor, i: nat, a: nat): (p: seq<seq<real>>)
    ensures Rectangular(p, x.shape.d2, x.shape.d3)
    ensures forall c: nat, d: nat :: c < x.shape.d2 && d < x.shape.d3 ==> p[c][d] == Get(x, a, i, c, d)
  {
    seq(x.shape.d2, c requires 0 <= c < x.shape.d2 =>
      seq(x.shape.d3, d requires 0 <= d < x.shape.d3 => Get(x, a, i, c, d)))
  }

  /** `x[..., i, :]`: the index `i` of axis 2, a (d0, d1, d3) array. */
  function Slice2(x: Tensor, i: nat): (g: seq<seq<seq<real>>>)
    requires i < x.shape.d2
    ensures Is3(g, x.shape.d0, x.shape.d1, x.shape.d3)
    ensures forall a: nat, b: nat, d: nat :: InShape(x.shape, a, b, i, d) ==> g[a][b][d] == Get(x, a, b, i, d)
  {
    seq(x.shape.d0, a requires 0 <= a < x.shape.d0 => Section2(x, i, a))
  }

  /** Channel `a` of `x[..., i, :]`. */
  function Section2(x: Tensor, i: nat, a: nat): (p: seq<seq<real>>)
    ensures Rectangular(p, x.shape.d1, x.shape.d3)
    ensures forall b: nat, d: nat :: b < x.shape.d1 && d < x.shape.d3 ==> p[b][d] == Get(x, a, b, i, d)
  {
    seq(x.shape.d1, b requires 0 <= b < x.shape.d1 =>
      seq(x.shape.d3, d requires 0 <= d < x.shape.d3 => Get(x, a, b, i, d)))
  }

  /** `np.reshape(g, (n0, -1))` of a (n0, n1, n2) array: each row is the
      concatenation of its n1 pieces of length n2. */
  function Rows(g: seq<seq<seq<real>>>): seq<seq<real>> {
    seq(|g|, a requires 0 <= a < |g| => Flatten(g[a]))
  }

  /** The reshaped array has `n0` rows of `n1 * n2` columns. */
  lemma RowsShape(g: seq<seq<seq<real>>>, n0: nat, n1: nat, n2: nat)
    requires Is3(g, n0, n1, n2)
    ensures Rectangular(Rows(g), n0, n1 * n2)
  {
    var r := Rows(g);
    var w := n1 * n2;
    assert |r| == n0;
    forall a | 0 <= a < n0
      ensures |r[a]| == w
    {
      RowLength(g, n0, n1, n2, a);
    }
  }

  lemma RowLength(g: seq<seq<seq<real>>>, n0: nat, n1: nat, n2: nat, a: nat)
    requires Is3(g, n0, n1, n2) && a < n0
    ensures |Rows(g)[a]| == n1 * n2
  {
    assert Rows(g)[a] == Flatten(g[a]);
    FlattenLength(g[a], n1, n2);
  }

  lemma RowElement(g: seq<seq<seq<real>>>, n0: nat, n1: nat, n2: nat, a: nat, c: nat, t: nat)
    requires Is3(g, n0, n1, n2) && a < n0 && c < n1 && t < n2
    ensures Column(c, t, n2) < |Rows(g)[a]|
    ensures Rows(g)[a][Column(c, t, n2)] == g[a][c][t]
  {
    assert Rows(g)[a] == Flatten(g[a]);
    FlattenElement(g[a], n1, n2, c, t);
  }

  /** A numpy array of rank two. The shape is kept apart from the cells
      because an array with no rows still has a number of columns. */
  datatype Matrix = Matrix(rows: nat, cols: nat, cells: seq<seq<real>>)

  predicate Proper(m: Matrix) {
    Rectangular(m.cells, m.rows, m.cols)
  }

  /** The entry at `(i, j)`, or 0 outside the shape. */
  function At(m: Matrix, i: nat, j: nat): real
    requires Proper(m)
  {
    if i < m.rows && j < m.cols then m.cells[i][j] else 0.0
  }

  /** `x[:, np.newaxis]`: a one-dimensional array as a single column. */
  function ColumnVector(x: seq<real>): (m: Matrix)
    ensures Proper(m) && m.rows == |x| && m.cols == 1
    ensures forall i: nat :: i < |x| ==> At(m, i, 0) == x[i]
  {
    Matrix(|x|, 1, seq(|x|, i requires 0 <= i < |x| => [x[i]]))
  }

  /** A one-dimensional array as `np.tile` sees it: a single row. */
  function RowVector(x: seq<real>): (m: Matrix)
    ensures Proper(m) && m.rows == 1 && m.cols == |x|
    ensures forall j: nat :: j < |x| ==> At(m, 0, j) == x[j]
  {
    Matrix(1, |x|, [x])
  }

  /** `np.tile(m, (r0, r1))`: `r0` by `r1` copies of `m` side by side.
      Copy `(q, p)` holds entry `(i, j)` of `m` at `(q * rows + i, p * cols
      + j)`. */
  function Tile(m: Matrix, r0: nat, r1: nat): (t: Matrix)
    requires Proper(m)
    ensures Proper(t) && t.rows == m.rows * r0 && t.cols == m.cols * r1
    ensures forall q: nat, i: nat, p: nat, j: nat :: q < r0 && i < m.rows && p < r1 && j < m.cols ==>
      At(t, Column(q, i, m.rows), Column(p, j, m.cols)) == At(m, i, j)
  {
    var rows, cols := m.rows * r0, m.cols * r1;
    var t := Matrix(rows, cols, seq(rows, a requires 0 <= a < rows =>
      seq(cols, b requires 0 <= b < cols => TileEntry(m, a, b))));
    forall q: nat, i: nat, p: nat, j: nat | q < r0 && i < m.rows && p < r1 && j < m.cols
      ensures At(t, Column(q, i, m.rows), Column(p, j, m.cols)) == At(m, i, j)
    {
      TileCopy(m, r0, r1, q, i, p, j);
    }
    t
  }

  /** Entry `(a, b)` of a tiling: the entry of `m` at `(a mod rows, b mod
      cols)`. */
  function TileEntry(m: Matrix, a: nat, b: nat): real
    requires Proper(m)
  {
    if m.rows == 0 || m.cols == 0 then 0.0 else At(m, a % m.rows, b % m.cols)
  }

  lemma TileCopy(m: Matrix, r0: nat, r1: nat, q: nat, i: nat, p: nat, j: nat)
    requires Proper(m)
    requires q < r0 && i < m.rows && p < r1 && j < m.cols
    ensures Column(q, i, m.rows) < m.rows * r0 && Column(p, j, m.cols) < m.cols * r1
    ensures TileEntry(m, Column(q, i, m.rows), Column(p, j, m.cols)) == At(m, i, j)
  {
    ColumnBound(q, i, r0, m.rows);
    ColumnBound(p, j, r1, m.cols);
    ModMultiple(i, q, m.rows);
    ModMultiple(j, p, m.cols);
    assert Column(q, i, m.rows) == i + q * m.rows;
    assert Column(p, j, m.cols) == j + p * m.cols;
  }

  /** Whether an array of shape `(g.rows, g.cols)` broadcasts to shape `(n0,
      n1)`: each axis has the same length or length 1. */
  predicate Broadcasts(g: Matrix, n0: nat, n1: nat) {
    (g.rows == n0 || g.rows == 1) && (g.cols == n1 || g.cols == 1)
  }

  /** The entry of `g` that broadcasting puts at `(c, d)`. */
  function Broadcast(g: Matrix, c: nat, d: nat): real
    requires Proper(g)
  {
    At(g, if g.rows == 1 then 0 else c, if g.cols == 1 then 0 else d)
  }

  /** `x[a, b] = g`: the plane at index `a` of axis 0 and `b` of axis 1
      takes the values of `g`, broadcast to the plane's shape. An index
      past the end is numpy's `IndexError`; a `g` that does not broadcast
      is its `ValueError`. */
  function SetPlane(x: Tensor, a: nat, b: nat, g: Matrix): (r: Result<Tensor, LoadError>)
    requires Proper(g)
    ensures r.Err? <==> a >= x.shape.d0 || b >= x.shape.d1 || !Broadcasts(g, x.shape.d2, x.shape.d3)
    ensures r.Err? ==> r.error == if a >= x.shape.d0 || b >= x.shape.d1 then IndexOutOfRange else BroadcastMismatch
    ensures r.Ok? ==> r.value.shape == x.shape
    ensures r.Ok? ==> forall a': nat, b': nat, c: nat, d: nat :: InShape(x.shape, a', b', c, d) ==>
      Get(r.value, a', b', c, d) == if a' == a && b' == b then Broadcast(g, c, d) else Get(x, a', b', c, d)
  {
    if a >= x.shape.d0 || b >= x.shape.d1 then Err(IndexOutOfRange)
    else if !Broadcasts(g, x.shape.d2, x.shape.d3) then Err(BroadcastMismatch)
    else Ok(Build(x.shape, (a': nat, b': nat, c: nat, d: nat) =>
      if a' == a && b' == b then Broadcast(g, c, d) else Get(x, a', b', c, d)))
  }
}
