/**
 * Three-axis numpy arrays as values, the two axis layouts, and the in-place
 * buffer operations the augmentation transforms perform on a copy of their input.
 */
module Grids {

  /** The name of a numpy dtype ("uint8", "float32", ...). */
  type DType = string

  /** A numpy array of three axes: its dtype, its shape (d0, d1, d2) and its elements. */
  datatype Tensor = Tensor(dtype: DType, d0: nat, d1: nat, d2: nat, cells: seq<seq<seq<real>>>)
  {
    predicate Valid() {
      && |cells| == d0
      && (forall i :: 0 <= i < d0 ==> |cells[i]| == d1)
      && (forall i, j :: 0 <= i < d0 && 0 <= j < d1 ==> |cells[i][j]| == d2)
    }
  }

  /** A tensor whose elements fill its shape exactly. */
  type Grid = t: Tensor | t.Valid() witness Tensor("float32", 0, 0, 0, [])

  /** One spatial plane, indexed [row][col]. */
  type Plane = seq<seq<real>>

  predicate InBounds(g: Grid, i: int, j: int, k: int) {
    0 <= i < g.d0 && 0 <= j < g.d1 && 0 <= k < g.d2
  }

  /** The element at [i, j, k]; 0.0 outside the shape, so that specifications can stay total. */
  function At(g: Grid, i: int, j: int, k: int): real {
    if InBounds(g, i, j, k) then g.cells[i][j][k] else 0.0
  }

  predicate SameShape(g: Grid, h: Grid) {
    g.d0 == h.d0 && g.d1 == h.d1 && g.d2 == h.d2
  }

  // ---------------------------------------------------------------------------
  // The two layouts: channel-last [row, col, channel] and channel-first [channel, row, col]

  function Channels(g: Grid, channelLast: bool): nat { if channelLast then g.d2 else g.d0 }
  function Height(g: Grid, channelLast: bool): nat { if channelLast then g.d0 else g.d1 }
  function Width(g: Grid, channelLast: bool): nat { if channelLast then g.d1 else g.d2 }

  /** The channel, row and column of the element at [i, j, k] in the given layout. */
  function ChannelOf(channelLast: bool, i: int, j: int, k: int): int { if channelLast then k else i }
  function RowOf(channelLast: bool, i: int, j: int, k: int): int { if channelLast then i else j }
  function ColOf(channelLast: bool, i: int, j: int, k: int): int { if channelLast then j else k }

  /** The element of channel c at (row, col). */
  function AtChannel(g: Grid, channelLast: bool, c: int, row: int, col: int): real {
    if channelLast then At(g, row, col, c) else At(g, c, row, col)
  }

  /** Channel c of g as a plane (x[:, :, c] channel-last, x[c] channel-first). */
  function PlaneOf(g: Grid, c: int, channelLast: bool): (p: Plane)
    ensures |p| == Height(g, channelLast)
    ensures forall r :: 0 <= r < |p| ==> |p[r]| == Width(g, channelLast)
    ensures forall r, s :: 0 <= r < |p| && 0 <= s < |p[r]| ==> p[r][s] == AtChannel(g, channelLast, c, r, s)
  {
    seq(Height(g, channelLast), r => seq(Width(g, channelLast), s => AtChannel(g, channelLast, c, r, s)))
  }

  // ---------------------------------------------------------------------------
  // Building grids

  /** The grid of the given dtype and shape whose element [i, j, k] is f(i, j, k). */
  function Build(dtype: DType, d0: nat, d1: nat, d2: nat, f: (int, int, int) -> real): (g: Grid)
    ensures g.dtype == dtype && g.d0 == d0 && g.d1 == d1 && g.d2 == d2
    ensures forall i, j, k :: InBounds(g, i, j, k) ==> At(g, i, j, k) == f(i, j, k)
  {
    Tensor(dtype, d0, d1, d2, seq(d0, i => BuildRow(d1, d2, f, i)))
  }

  /** Row i of a built grid. */
  function BuildRow(d1: nat, d2: nat, f: (int, int, int) -> real, i: int): (row: seq<seq<real>>)
    ensures |row| == d1
    ensures forall j :: 0 <= j < d1 ==> row[j] == BuildLine(d2, f, i, j)
  {
    seq(d1, j => BuildLine(d2, f, i, j))
  }

  /** Line (i, j) of a built grid. */
  function BuildLine(d2: nat, f: (int, int, int) -> real, i: int, j: int): (line: seq<real>)
    ensures |line| == d2
    ensures forall k :: 0 <= k < d2 ==> line[k] == f(i, j, k)
  {
    seq(d2, k => f(i, j, k))
  }

  /**
   * _fit_data_to_dtype applied to every element: g's values brought to dtype by fit,
   * which stands for the clipping and casting the helper performs.
   */
  function FitGrid(g: Grid, dtype: DType, fit: (DType, real) -> real): (r: Grid)
    ensures r.dtype == dtype && SameShape(r, g)
    ensures forall i, j, k :: InBounds(r, i, j, k) ==> At(r, i, j, k) == fit(dtype, At(g, i, j, k))
  {
    Build(dtype, g.d0, g.d1, g.d2, (i, j, k) => fit(dtype, At(g, i, j, k)))
  }

  /** X.astype(np.float32): the same elements under the float32 dtype. */
  function AsFloat32(g: Grid): (c: Grid)
    ensures c.dtype == "float32" && SameShape(c, g) && c.cells == g.cells
  {
    Tensor("float32", g.d0, g.d1, g.d2, g.cells)
  }

  /** Grids are equal when their dtypes, shapes and elements are. */
  lemma SameGrid(g: Grid, h: Grid)
    requires g.dtype == h.dtype && SameShape(g, h)
    requires forall i, j, k :: InBounds(g, i, j, k) ==> At(g, i, j, k) == At(h, i, j, k)
    ensures g == h
  {
    forall i | 0 <= i < g.d0
      ensures g.cells[i] == h.cells[i]
    {
      forall j | 0 <= j < g.d1
        ensures g.cells[i][j] == h.cells[i][j]
      {
        forall k | 0 <= k < g.d2
          ensures g.cells[i][j][k] == h.cells[i][j][k]
        {
          assert At(g, i, j, k) == At(h, i, j, k);
        }
      }
    }
  }

  // ---------------------------------------------------------------------------
  // Buffers: the mutable copy (X.copy(), X.astype(np.float32)) a transform updates in place

  /** A fresh buffer holding g's elements. */
  method ToArray(g: Grid) returns (a: array3<real>)
    ensures fresh(a)
    ensures a.Length0 == g.d0 && a.Length1 == g.d1 && a.Length2 == g.d2
    ensures forall i, j, k :: InBounds(g, i, j, k) ==> a[i, j, k] == At(g, i, j, k)
  {
    a := new real[g.d0, g.d1, g.d2]((i, j, k) => At(g, i, j, k));
  }

  /** The buffer's current contents as a grid of the given dtype. */
  function FromArray(a: array3<real>, dtype: DType): (g: Grid)
    reads a
    ensures g.dtype == dtype && g.d0 == a.Length0 && g.d1 == a.Length1 && g.d2 == a.Length2
    ensures forall i, j, k :: InBounds(g, i, j, k) ==> At(g, i, j, k) == a[i, j, k]
  {
    Tensor(dtype, a.Length0, a.Length1, a.Length2,
      seq(a.Length0, i requires 0 <= i < a.Length0 reads a =>
        seq(a.Length1, j requires 0 <= j < a.Length1 reads a =>
          seq(a.Length2, k requires 0 <= k < a.Length2 reads a => a[i, j, k]))))
  }

  /** Channel c of the buffer as a plane (a[:, :, c] channel-last, a[c] channel-first). */
  function ArrayPlane(a: array3<real>, c: int, channelLast: bool): (p: Plane)
    reads a
    requires 0 <= c < (if channelLast then a.Length2 else a.Length0)
    ensures |p| == (if channelLast then a.Length0 else a.Length1)
    ensures forall r :: 0 <= r < |p| ==> |p[r]| == (if channelLast then a.Length1 else a.Length2)
  {
    if channelLast then
      seq(a.Length0, r requires 0 <= r < a.Length0 reads a =>
        seq(a.Length1, s requires 0 <= s < a.Length1 reads a => a[r, s, c]))
    else
      seq(a.Length1, r requires 0 <= r < a.Length1 reads a =>
        seq(a.Length2, s requires 0 <= s < a.Length2 reads a => a[c, r, s]))
  }

  /** A buffer channel that still holds g's elements reads back as g's plane. */
  lemma ArrayPlaneOf(a: array3<real>, g: Grid, c: int, channelLast: bool)
    requires a.Length0 == g.d0 && a.Length1 == g.d1 && a.Length2 == g.d2
    requires 0 <= c < Channels(g, channelLast)
    requires forall i, j, k :: InArray(a, i, j, k) && ChannelOf(channelLast, i, j, k) == c ==> a[i, j, k] == At(g, i, j, k)
    ensures ArrayPlane(a, c, channelLast) == PlaneOf(g, c, channelLast)
  {
    var p, q := ArrayPlane(a, c, channelLast), PlaneOf(g, c, channelLast);
    forall r | 0 <= r < |p|
      ensures p[r] == q[r]
    {
      forall s | 0 <= s < |p[r]|
        ensures p[r][s] == q[r][s]
      {
        if channelLast {
          assert InArray(a, r, s, c);
        } else {
          assert InArray(a, c, r, s);
        }
      }
    }
  }

  /** A buffer that holds g's elements reads back as g. */
  lemma ReadBack(a: array3<real>, g: Grid)
    requires a.Length0 == g.d0 && a.Length1 == g.d1 && a.Length2 == g.d2
    requires forall i, j, k :: InArray(a, i, j, k) ==> a[i, j, k] == At(g, i, j, k)
    ensures FromArray(a, g.dtype) == g
  {
    var f := FromArray(a, g.dtype);
    forall i, j, k | InBounds(f, i, j, k)
      ensures At(f, i, j, k) == At(g, i, j, k)
    {
      assert InArray(a, i, j, k);
    }
    SameGrid(f, g);
  }

  predicate InArray(a: array3<real>, i: int, j: int, k: int) {
    0 <= i < a.Length0 && 0 <= j < a.Length1 && 0 <= k < a.Length2
  }

  /** Every element of the buffer replaced by f of its index and old value (a parallel loop). */
  method UpdateEach(a: array3<real>, f: (int, int, int, real) -> real)
    modifies a
    ensures forall i, j, k :: InArray(a, i, j, k) ==> a[i, j, k] == f(i, j, k, old(a[i, j, k]))
  {
    forall i, j, k | 0 <= i < a.Length0 && 0 <= j < a.Length1 && 0 <= k < a.Length2 {
      a[i, j, k] := f(i, j, k, a[i, j, k]);
    }
  }

  /**
   * Channel c of the buffer updated in place (x[:, :, c] = ... channel-last, x[c, :, :] = ...
   * channel-first); f receives row, column and old value. Every other element is unchanged.
   */
  method UpdateChannel(a: array3<real>, c: int, channelLast: bool, f: (int, int, real) -> real)
    requires 0 <= c < (if channelLast then a.Length2 else a.Length0)
    modifies a
    ensures forall i, j, k :: InArray(a, i, j, k) ==>
      a[i, j, k] == if ChannelOf(channelLast, i, j, k) == c
                    then f(RowOf(channelLast, i, j, k), ColOf(channelLast, i, j, k), old(a[i, j, k]))
                    else old(a[i, j, k])
  {
    if channelLast {
      forall r, s | 0 <= r < a.Length0 && 0 <= s < a.Length1 {
        a[r, s, c] := f(r, s, a[r, s, c]);
      }
    } else {
      forall r, s | 0 <= r < a.Length1 && 0 <= s < a.Length2 {
        a[c, r, s] := f(r, s, a[c, r, s]);
      }
    }
  }

  /** The rectangle of rows [y0, y1) and columns [x0, x1) of a spatial plane. */
  datatype Box = Box(x0: int, x1: int, y0: int, y1: int)
  {
    predicate Contains(row: int, col: int) { y0 <= row < y1 && x0 <= col < x1 }
    predicate Empty() { y1 <= y0 || x1 <= x0 }
  }

  /** The box lies within a plane of the given height and width (or selects nothing). */
  predicate BoxWithin(b: Box, height: int, width: int) {
    b.Empty() || (0 <= b.y0 && b.y1 <= height && 0 <= b.x0 && b.x1 <= width)
  }

  /**
   * Every element of the buffer whose (row, col) lies in the box, in every channel, replaced by
   * f of its index and old value; the nested loops over rows, columns and channels of cutmix.
   */
  method UpdateBox(a: array3<real>, b: Box, channelLast: bool, f: (int, int, int, real) -> real)
    requires channelLast ==> BoxWithin(b, a.Length0, a.Length1)
    requires !channelLast ==> BoxWithin(b, a.Length1, a.Length2)
    modifies a
    ensures forall i, j, k :: InArray(a, i, j, k) ==>
      a[i, j, k] == if b.Contains(RowOf(channelLast, i, j, k), ColOf(channelLast, i, j, k))
                    then f(i, j, k, old(a[i, j, k]))
                    else old(a[i, j, k])
  {
    if channelLast {
      forall r, s, ch | b.y0 <= r < b.y1 && b.x0 <= s < b.x1 && 0 <= ch < a.Length2 {
        a[r, s, ch] := f(r, s, ch, a[r, s, ch]);
      }
    } else {
      forall r, s, ch | b.y0 <= r < b.y1 && b.x0 <= s < b.x1 && 0 <= ch < a.Length0 {
        a[ch, r, s] := f(ch, r, s, a[ch, r, s]);
      }
    }
  }

  // ---------------------------------------------------------------------------
  // Sums and means over a plane (np.mean of one channel)

  function RowSum(row: seq<real>): real {
    if |row| == 0 then 0.0 else RowSum(row[..|row| - 1]) + row[|row| - 1]
  }

  function PlaneSum(p: Plane): real {
    if |p| == 0 then 0.0 else PlaneSum(p[..|p| - 1]) + RowSum(p[|p| - 1])
  }

  /** The number of elements of the plane. */
  function PlaneCount(p: Plane): nat {
    if |p| == 0 then 0 else PlaneCount(p[..|p| - 1]) + |p[|p| - 1]|
  }

  /** The mean of count elements summing to sum, 0.0 for none. */
  function Mean(sum: real, count: nat): real {
    if count == 0 then 0.0 else sum / count as real
  }

  function PlaneMean(p: Plane): real {
    Mean(PlaneSum(p), PlaneCount(p))
  }

  /** Every element v of the row mapped to scale * v + shift. */
  function AffineRow(row: seq<real>, scale: real, shift: real): (q: seq<real>)
    ensures |q| == |row|
    ensures forall s :: 0 <= s < |row| ==> q[s] == scale * row[s] + shift
  {
    seq(|row|, s requires 0 <= s < |row| => scale * row[s] + shift)
  }

  /** Every element v of the plane mapped to scale * v + shift. */
  function AffinePlane(p: Plane, scale: real, shift: real): (q: Plane)
    ensures |q| == |p|
    ensures forall r :: 0 <= r < |p| ==> q[r] == AffineRow(p[r], scale, shift)
  {
    seq(|p|, r requires 0 <= r < |p| => AffineRow(p[r], scale, shift))
  }

  lemma {:induction false} RowSumAffine(row: seq<real>, scale: real, shift: real)
    ensures RowSum(AffineRow(row, scale, shift)) == Affine(scale, RowSum(row), |row| as real, shift)
  {
    if |row| > 0 {
      var n := |row| - 1;
      var q := AffineRow(row, scale, shift);
      forall s | 0 <= s < n
        ensures q[..n][s] == AffineRow(row[..n], scale, shift)[s]
      {
      }
      assert q[..n] == AffineRow(row[..n], scale, shift);
      RowSumAffine(row[..n], scale, shift);
      assert RowSum(q) == RowSum(q[..n]) + q[n];
      assert RowSum(row) == RowSum(row[..n]) + row[n];
      AffineStep(scale, RowSum(row[..n]), row[n], n as real, shift);
    }
  }

  /** One more element c added to a sum b of m elements, each mapped to scale * v + shift. */
  lemma AffineStep(scale: real, b: real, c: real, m: real, shift: real)
    ensures Affine(scale, b, m, shift) + (scale * c + shift) == Affine(scale, b + c, m + 1.0, shift)
  {
  }

  lemma {:induction false} PlaneCountAffine(p: Plane, scale: real, shift: real)
    ensures PlaneCount(AffinePlane(p, scale, shift)) == PlaneCount(p)
  {
    if |p| > 0 {
      var n := |p| - 1;
      var q := AffinePlane(p, scale, shift);
      AffinePlanePrefix(p, scale, shift);
      PlaneCountAffine(p[..n], scale, shift);
      assert |q[n]| == |p[n]|;
    }
  }

  lemma AffinePlanePrefix(p: Plane, scale: real, shift: real)
    requires |p| > 0
    ensures AffinePlane(p, scale, shift)[..|p| - 1] == AffinePlane(p[..|p| - 1], scale, shift)
  {
    var n := |p| - 1;
    var q := AffinePlane(p, scale, shift);
    forall r | 0 <= r < n
      ensures q[..n][r] == AffinePlane(p[..n], scale, shift)[r]
    {
    }
  }

  /** Summing an affine image of a plane: scale times the sum, plus shift once per element. */
  lemma {:induction false} PlaneSumAffine(p: Plane, scale: real, shift: real)
    ensures PlaneSum(AffinePlane(p, scale, shift)) == Affine(scale, PlaneSum(p), PlaneCount(p) as real, shift)
  {
    if |p| > 0 {
      var n := |p| - 1;
      var q := AffinePlane(p, scale, shift);
      AffinePlanePrefix(p, scale, shift);
      PlaneSumAffine(p[..n], scale, shift);
      RowSumAffine(p[n], scale, shift);
      var x := PlaneSum(q[..n]);
      var y := RowSum(q[n]);
      var sum, count := PlaneSum(p), PlaneCount(p) as real;
      Combine(x, y, scale, PlaneSum(p[..n]), RowSum(p[n]), PlaneCount(p[..n]) as real, |p[n]| as real,
              shift, sum, count);
      assert PlaneSum(q) == x + y;
    } else {
      assert |AffinePlane(p, scale, shift)| == 0;
      assert PlaneSum(AffinePlane(p, scale, shift)) == 0.0;
      assert PlaneSum(p) == 0.0;
      assert PlaneCount(p) == 0;
    }
  }

  /** scale times a sum, plus shift once for each of count elements. */
  function Affine(scale: real, sum: real, count: real, shift: real): real {
    scale * sum + count * shift
  }

  lemma Combine(x: real, y: real, scale: real, b: real, r: real, c: real, w: real, shift: real, sum: real, count: real)
    requires x == Affine(scale, b, c, shift) && y == Affine(scale, r, w, shift)
    requires sum == b + r && count == c + w
    ensures x + y == Affine(scale, sum, count, shift)
  {
  }

  /** The contrast stretch of one value v around a centre m by a factor 1 + a. */
  function Stretch(v: real, m: real, a: real): real {
    (v - m) * (1.0 + a) + m
  }

  /** Every element of the plane stretched around m. */
  function StretchPlane(p: Plane, m: real, a: real): (q: Plane)
    ensures |q| == |p|
    ensures forall r :: 0 <= r < |p| ==> |q[r]| == |p[r]|
    ensures forall r, s :: 0 <= r < |p| && 0 <= s < |p[r]| ==> q[r][s] == Stretch(p[r][s], m, a)
  {
    seq(|p|, r requires 0 <= r < |p| => seq(|p[r]|, s requires 0 <= s < |p[r]| => Stretch(p[r][s], m, a)))
  }

  /** A stretch is the affine map with scale 1 + a and shift m - m * (1 + a). */
  lemma StretchIsAffine(p: Plane, m: real, a: real)
    ensures StretchPlane(p, m, a) == AffinePlane(p, 1.0 + a, m - m * (1.0 + a))
  {
    var q, q' := StretchPlane(p, m, a), AffinePlane(p, 1.0 + a, m - m * (1.0 + a));
    forall r | 0 <= r < |p|
      ensures q[r] == q'[r]
    {
      forall s | 0 <= s < |p[r]|
        ensures q[r][s] == q'[r][s]
      {
        StretchValue(p[r][s], m, a);
      }
    }
  }

  lemma StretchValue(v: real, m: real, a: real)
    ensures Stretch(v, m, a) == (1.0 + a) * v + (m - m * (1.0 + a))
  {
  }

  /**
   * Stretching a plane around its own mean leaves that mean unchanged: contrast changes the
   * spread of a channel, never its average.
   */
  lemma StretchKeepsMean(p: Plane, a: real)
    ensures PlaneMean(StretchPlane(p, PlaneMean(p), a)) == PlaneMean(p)
  {
    var m := PlaneMean(p);
    var shift := m - m * (1.0 + a);
    var q := AffinePlane(p, 1.0 + a, shift);
    StretchIsAffine(p, m, a);
    var sum, count := PlaneSum(p), PlaneCount(p);
    assert PlaneSum(q) == Affine(1.0 + a, sum, count as real, shift) by {
      PlaneSumAffine(p, 1.0 + a, shift);
    }
    assert PlaneCount(q) == count by {
      PlaneCountAffine(p, 1.0 + a, shift);
    }
    StretchArith(sum, count, a, m);
    assert PlaneMean(q) == Mean(PlaneSum(q), PlaneCount(q));
  }

  lemma StretchArith(sum: real, count: nat, a: real, m: real)
    requires m == Mean(sum, count)
    ensures Mean(Affine(1.0 + a, sum, count as real, m - m * (1.0 + a)), count) == m
  {
    if count > 0 {
      var n := count as real;
      assert n * m == sum;
      calc {
        Affine(1.0 + a, sum, n, m - m * (1.0 + a));
        (1.0 + a) * sum + n * (m - m * (1.0 + a));
        (1.0 + a) * sum + n * m - (1.0 + a) * (n * m);
        sum;
      }
    }
  }
}
