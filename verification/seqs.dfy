/** Sequence operations the dataset code borrows from Python lists and
    numpy: `list.insert`, deletion of positions, C-order reshape and
    flatten, 2-D transpose, `np.roll`, and building a dict key by key. */
module Seqs {

  function Min(a: int, b: int): int {
    if a <= b then a else b
  }

  predicate Distinct<T(==)>(s: seq<T>) {
    forall i, j :: 0 <= i < j < |s| ==> s[i] != s[j]
  }

  function RemoveAt<T>(s: seq<T>, i: nat): (r: seq<T>)
    requires i < |s|
    ensures |r| == |s| - 1
  {
    s[..i] + s[i + 1..]
  }

  /** Python's `s.insert(i, x)` for a non-negative index: an index past the
      end appends. The new element sits at `Min(i, |s|)`, and taking it out
      again gives back `s`. */
  function Insert<T>(s: seq<T>, i: nat, x: T): (r: seq<T>)
    ensures |r| == |s| + 1
    ensures r[Min(i, |s|)] == x
    ensures RemoveAt(r, Min(i, |s|)) == s
  {
    if i <= |s| then
      var r := s[..i] + [x] + s[i..];
      assert RemoveAt(r, i) == s;
      r
    else
      var r := s + [x];
      assert RemoveAt(r, |s|) == s;
      r
  }

  /** The elements of `s` whose positions, counting the first one as `base`,
      are not in `drop`, in their original order. */
  function WithoutFrom<T>(s: seq<T>, drop: set<int>, base: int): (r: seq<T>)
    ensures |r| <= |s|
    decreases |s|
  {
    if s == [] then []
    else (if base in drop then [] else [s[0]]) + WithoutFrom(s[1..], drop, base + 1)
  }

  /** `s` with the positions in `drop` deleted all at once. */
  function Without<T>(s: seq<T>, drop: set<int>): seq<T> {
    WithoutFrom(s, drop, 0)
  }

  /** Deleting positions that lie outside `s` changes nothing. */
  lemma {:induction false} WithoutUntouched<T>(s: seq<T>, drop: set<int>, base: int)
    requires forall p :: p in drop ==> p < base || base + |s| <= p
    ensures WithoutFrom(s, drop, base) == s
    decreases |s|
  {
    if s != [] {
      WithoutUntouched(s[1..], drop, base + 1);
      assert [s[0]] + s[1..] == s;
    }
  }

  /** Deleting a set of positions is deleting its highest position first and
      then the rest. */
  lemma {:induction false} WithoutHighest<T>(s: seq<T>, p: int, drop: set<int>, base: int)
    requires base <= p < base + |s|
    requires forall q :: q in drop ==> q < p
    ensures WithoutFrom(s, drop + {p}, base) == WithoutFrom(RemoveAt(s, p - base), drop, base)
    decreases |s|
  {
    if p == base {
      WithoutUntouched(s[1..], drop + {p}, base + 1);
      WithoutUntouched(s[1..], drop, base);
      assert RemoveAt(s, 0) == s[1..];
    } else {
      var t := RemoveAt(s, p - base);
      assert t[0] == s[0];
      assert t[1..] == RemoveAt(s[1..], p - base - 1);
      WithoutHighest(s[1..], p, drop, base + 1);
    }
  }

  /** Concatenation of the rows of a matrix: numpy's C-order
      `reshape(-1)`. */
  function Flatten<T>(rows: seq<seq<T>>): seq<T>
    decreases |rows|
  {
    if rows == [] then [] else rows[0] + Flatten(rows[1..])
  }

  /** The column of element `(c, t)` once rows of width `w` are laid end to
      end. */
  function Column(c: nat, t: nat, w: nat): nat {
    c * w + t
  }

  predicate Rectangular<T>(rows: seq<seq<T>>, n: nat, w: nat) {
    |rows| == n && forall c :: 0 <= c < n ==> |rows[c]| == w
  }

  lemma {:induction false} FlattenLength<T>(rows: seq<seq<T>>, n: nat, w: nat)
    requires Rectangular(rows, n, w)
    ensures |Flatten(rows)| == n * w
    decreases n
  {
    if n > 0 {
      assert Rectangular(rows[1..], n - 1, w);
      FlattenLength(rows[1..], n - 1, w);
      assert n * w == w + (n - 1) * w;
    }
  }

  /** In the flattening of `n` rows of width `w`, element `t` of row `c`
      lands at `Column(c, t, w)`. */
  lemma {:induction false} FlattenElement<T>(rows: seq<seq<T>>, n: nat, w: nat, c: nat, t: nat)
    requires Rectangular(rows, n, w)
    requires c < n && t < w
    ensures Column(c, t, w) < |Flatten(rows)|
    ensures Flatten(rows)[Column(c, t, w)] == rows[c][t]
    decreases c
  {
    FlattenLength(rows, n, w);
    ColumnBound(c, t, n, w);
    if c > 0 {
      assert Rectangular(rows[1..], n - 1, w);
      FlattenElement(rows[1..], n - 1, w, c - 1, t);
      assert Column(c, t, w) == w + Column(c - 1, t, w);
      assert rows[1..][c - 1] == rows[c];
    }
  }

  lemma FlattenAt<T>(rows: seq<seq<T>>, n: nat, w: nat)
    requires Rectangular(rows, n, w)
    ensures |Flatten(rows)| == n * w
    ensures forall c, t :: 0 <= c < n && 0 <= t < w ==>
      Column(c, t, w) < n * w && Flatten(rows)[Column(c, t, w)] == rows[c][t]
  {
    FlattenLength(rows, n, w);
    forall c, t | 0 <= c < n && 0 <= t < w
      ensures Column(c, t, w) < n * w && Flatten(rows)[Column(c, t, w)] == rows[c][t]
    {
      FlattenElement(rows, n, w, c, t);
    }
  }

  /** Every column below `n * w` belongs to exactly one `(row, offset)`:
      row `k / w`, offset `k % w`. */
  lemma ColumnSplit(k: nat, n: nat, w: nat)
    requires k < n * w
    ensures w > 0 && k / w < n && k % w < w && Column(k / w, k % w, w) == k
  {
    if w == 0 {
      assert false;
    }
    assert k == (k / w) * w + k % w;
  }

  /** `n` numbers from `start` in steps of `step`: numpy's `arange` once
      its element count is known. */
  function Arange(start: int, n: nat, step: int): (r: seq<int>)
    ensures |r| == n
    ensures forall k :: 0 <= k < n ==> r[k] == start + step * k
  {
    seq(n, k requires 0 <= k < n => start + step * k)
  }

  /** numpy's C-order `reshape((rows, cols))` of a flat sequence. */
  function Reshape<T>(s: seq<T>, rows: nat, cols: nat): (m: seq<seq<T>>)
    requires |s| == rows * cols
    ensures Rectangular(m, rows, cols)
    ensures Flatten(m) == s
  {
    var m := seq(rows, i requires 0 <= i < rows =>
      seq(cols, j requires 0 <= j < cols => s[RowMajor(i, j, rows, cols)]));
    ReshapeFlattens(s, rows, cols, m);
    m
  }

  function RowMajor(i: nat, j: nat, rows: nat, cols: nat): (k: nat)
    requires i < rows && j < cols
    ensures k < rows * cols
  {
    ColumnBound(i, j, rows, cols);
    Column(i, j, cols)
  }

  lemma ColumnBound(i: nat, j: nat, rows: nat, cols: nat)
    requires i < rows && j < cols
    ensures Column(i, j, cols) < rows * cols
  {
    assert i * cols + j < (i + 1) * cols;
    assert (i + 1) * cols <= rows * cols;
  }

  lemma ReshapeFlattens<T>(s: seq<T>, rows: nat, cols: nat, m: seq<seq<T>>)
    requires |s| == rows * cols
    requires Rectangular(m, rows, cols)
    requires forall i, j :: 0 <= i < rows && 0 <= j < cols ==> m[i][j] == s[RowMajor(i, j, rows, cols)]
    ensures Flatten(m) == s
  {
    FlattenAt(m, rows, cols);
    var f := Flatten(m);
    forall k | 0 <= k < |s|
      ensures f[k] == s[k]
    {
      ColumnSplit(k, rows, cols);
    }
  }

  /** The transpose (numpy's `.T`) of a `rows` x `cols` matrix. */
  function Transpose<T>(m: seq<seq<T>>, rows: nat, cols: nat): (t: seq<seq<T>>)
    requires Rectangular(m, rows, cols)
    ensures Rectangular(t, cols, rows)
    ensures forall j, i :: 0 <= j < cols && 0 <= i < rows ==> t[j][i] == m[i][j]
  {
    seq(cols, j requires 0 <= j < cols => seq(rows, i requires 0 <= i < rows => m[i][j]))
  }

  /** `np.roll(s, shift)`: every element moves `shift` places to the right,
      wrapping around; a negative shift moves to the left. */
  function Roll<T>(s: seq<T>, shift: int): (r: seq<T>)
    requires |s| > 0
    ensures |r| == |s|
  {
    seq(|s|, k requires 0 <= k < |s| => s[(k - shift) % |s|])
  }

  /** Rolling by `shift` and then by `-shift` gives back the original
      sequence. */
  lemma RollBack<T>(s: seq<T>, shift: int)
    requires |s| > 0
    ensures Roll(Roll(s, shift), -shift) == s
  {
    var n := |s|;
    var r := Roll(s, shift);
    var b := Roll(r, -shift);
    forall k | 0 <= k < n
      ensures b[k] == s[k]
    {
      var j := (k + shift) % n;
      assert b[k] == r[j];
      ModSum(k, shift, n);
      assert (j - shift) % n == k;
    }
  }

  lemma ModSum(k: int, shift: int, n: int)
    requires 0 <= k < n
    ensures ((k + shift) % n - shift) % n == k
  {
    var q := (k + shift) / n;
    assert (k + shift) % n - shift == k - q * n;
    ModMultiple(k, -q, n);
  }

  lemma ModMultiple(k: int, q: int, n: int)
    requires 0 <= k < n
    ensures (k + q * n) % n == k
  {
    var x := k + q * n;
    var d := x / n;
    var e := q - d;
    assert x == d * n + x % n;
    assert e * n == x % n - k;
    if e >= 1 {
      MulAtLeast(e, n);
    } else if e <= -1 {
      MulAtLeast(-e, n);
    }
  }

  lemma MulAtLeast(e: int, n: int)
    requires e >= 1 && n > 0
    ensures e * n >= n
  {
    assert e * n == n + (e - 1) * n;
  }

  /** A sequence without repeats holds each of its elements once. */
  lemma {:induction false} DistinctCounts<T>(s: seq<T>)
    requires Distinct(s)
    ensures forall x :: multiset(s)[x] == if x in s then 1 else 0
    decreases |s|
  {
    if s != [] {
      var t := s[1..];
      assert Distinct(t) by {
        forall i, j | 0 <= i < j < |t|
          ensures t[i] != t[j]
        {
          assert t[i] == s[i + 1] && t[j] == s[j + 1];
        }
      }
      DistinctCounts(t);
      assert s == [s[0]] + t;
      assert s[0] !in t by {
        forall j | 0 <= j < |t|
          ensures t[j] != s[0]
        {
          assert t[j] == s[j + 1];
        }
      }
      assert multiset(s) == multiset{s[0]} + multiset(t);
    }
  }

  /** Two sequences without repeats and with the same elements are
      permutations of each other. */
  lemma DistinctPermutation<T>(a: seq<T>, b: seq<T>)
    requires Distinct(a) && Distinct(b)
    requires forall x :: x in a <==> x in b
    ensures multiset(a) == multiset(b)
  {
    DistinctCounts(a);
    DistinctCounts(b);
    assert forall x :: multiset(a)[x] == multiset(b)[x];
  }

  /** A dictionary filled key by key, as by
      `d = dict(); for k, v in zip(keys, vals): d[k] = v`. With distinct
      keys it has one entry per key, holding that key's value. */
  function Tabulate<K(==, !new), V>(keys: seq<K>, vals: seq<V>): (m: map<K, V>)
    requires |keys| == |vals|
    requires Distinct(keys)
    ensures forall k :: k in m <==> k in keys
    ensures |m| == |keys|
    ensures forall i :: 0 <= i < |keys| ==> m[keys[i]] == vals[i]
    decreases |keys|
  {
    if keys == [] then map[]
    else
      var n := |keys| - 1;
      var m := Tabulate(keys[..n], vals[..n]);
      var r := m[keys[n] := vals[n]];
      TabulateExtend(keys, vals, m, r);
      r
  }

  /** Adding the last key's entry to the dictionary of the other keys gives
      the dictionary of all of them. */
  lemma TabulateExtend<K(!new), V>(keys: seq<K>, vals: seq<V>, m: map<K, V>, r: map<K, V>)
    requires |keys| == |vals| > 0 && Distinct(keys)
    requires var n := |keys| - 1;
      && (forall k :: k in m <==> k in keys[..n])
      && |m| == n
      && (forall i :: 0 <= i < n ==> m[keys[..n][i]] == vals[..n][i])
    requires r == m[keys[|keys| - 1] := vals[|keys| - 1]]
    ensures forall k :: k in r <==> k in keys
    ensures |r| == |keys|
    ensures forall i :: 0 <= i < |keys| ==> r[keys[i]] == vals[i]
  {
    var n := |keys| - 1;
    TabulateStep(keys, keys[..n], m);
    forall i | 0 <= i < n
      ensures r[keys[i]] == vals[i]
    {
      assert keys[..n][i] == keys[i] && vals[..n][i] == vals[i];
      assert keys[i] != keys[n];
    }
  }

  lemma TabulateStep<K(!new), V>(keys: seq<K>, front: seq<K>, m: map<K, V>)
    requires Distinct(keys) && |keys| > 0 && front == keys[..|keys| - 1]
    requires forall k :: k in m <==> k in front
    ensures Distinct(front)
    ensures keys[|keys| - 1] !in m
    ensures forall k :: k in keys <==> k in front || k == keys[|keys| - 1]
  {
    var n := |keys| - 1;
    assert forall i :: 0 <= i < n ==> front[i] == keys[i];
    assert keys == front + [keys[n]];
  }

  /** The dictionary `{key: v}`. */
  function Single<K, V>(key: K, v: V): (m: map<K, V>)
    ensures m.Keys == {key} && m[key] == v
  {
    map[key := v]
  }
}
