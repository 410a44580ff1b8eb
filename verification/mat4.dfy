/**
 * cglm's `mat4` as the reversed-Z example uses it: four columns of four
 * floats, `m[c][r]`, laid out column after column in memory.  Reals stand in
 * for single-precision floats; only exact (integer-entry) matrices and the
 * index arithmetic are modelled, never trigonometry.
 */
module Mat4 {

  type Mat4 = m: seq<seq<real>> | |m| == 4 && forall c | 0 <= c < 4 :: |m[c]| == 4
    witness [[0.0, 0.0, 0.0, 0.0], [0.0, 0.0, 0.0, 0.0], [0.0, 0.0, 0.0, 0.0], [0.0, 0.0, 0.0, 0.0]]

  /** A four-component column vector. */
  type Vec4 = v: seq<real> | |v| == 4 witness [0.0, 0.0, 0.0, 0.0]

  const Identity: Mat4 := [[1.0, 0.0, 0.0, 0.0], [0.0, 1.0, 0.0, 0.0], [0.0, 0.0, 1.0, 0.0], [0.0, 0.0, 0.0, 1.0]]

  /**
   * `depth_range_remap_matrix`, written column by column as in the C
   * initialiser: the third column is (0, 0, -1, 0) and the fourth (0, 0, 1, 1).
   */
  const DepthRangeRemap: Mat4 := [[1.0, 0.0, 0.0, 0.0], [0.0, 1.0, 0.0, 0.0], [0.0, 0.0, -1.0, 0.0], [0.0, 0.0, 1.0, 1.0]]

  /** Entry (row i, column j) of the product a * b, in cglm's column-major storage. */
  function MulEntry(a: Mat4, b: Mat4, j: nat, i: nat): real
    requires j < 4 && i < 4
  {
    a[0][i] * b[j][0] + a[1][i] * b[j][1] + a[2][i] * b[j][2] + a[3][i] * b[j][3]
  }

  /** `glm_mat4_mul(a, b, dest)`: dest = a * b. */
  function Mul(a: Mat4, b: Mat4): (p: Mat4)
    ensures forall j, i | 0 <= j < 4 && 0 <= i < 4 :: p[j][i] == MulEntry(a, b, j, i)
  {
    seq(4, j requires 0 <= j < 4 => seq(4, i requires 0 <= i < 4 => MulEntry(a, b, j, i)))
  }

  /** The dot product of two 4-vectors. */
  function Dot(u: Vec4, v: Vec4): real
  {
    u[0] * v[0] + u[1] * v[1] + u[2] * v[2] + u[3] * v[3]
  }

  /** Row i of `m`: the coefficients that produce component i of m * v. */
  function Row(m: Mat4, i: nat): Vec4
    requires i < 4
  {
    [m[0][i], m[1][i], m[2][i], m[3][i]]
  }

  /** The matrix applied to a column vector: component i is row i of `a` dotted with `v`. */
  function Apply(a: Mat4, v: Vec4): (w: Vec4)
    ensures forall i | 0 <= i < 4 :: w[i] == Dot(Row(a, i), v)
  {
    seq(4, i requires 0 <= i < 4 => Dot(Row(a, i), v))
  }

  /** A vector times a scalar. */
  function Scale(c: Vec4, x: real): Vec4
  {
    [c[0] * x, c[1] * x, c[2] * x, c[3] * x]
  }

  /** The sum of two vectors. */
  function Add(p: Vec4, q: Vec4): Vec4
  {
    [p[0] + q[0], p[1] + q[1], p[2] + q[2], p[3] + q[3]]
  }

  /** The dot product is linear in its second argument: scaling. */
  lemma DotScale(r: Vec4, c: Vec4, x: real)
    ensures Dot(r, c) * x == Dot(r, Scale(c, x))
  {
    var s := Scale(c, x);
    assert (r[0] * c[0]) * x == r[0] * s[0];
    assert (r[1] * c[1]) * x == r[1] * s[1];
    assert (r[2] * c[2]) * x == r[2] * s[2];
    assert (r[3] * c[3]) * x == r[3] * s[3];
  }

  /** The dot product is linear in its second argument: addition. */
  lemma DotAdd(r: Vec4, p: Vec4, q: Vec4)
    ensures Dot(r, p) + Dot(r, q) == Dot(r, Add(p, q))
  {
  }

  /** A matrix applied to a vector is the matrix's columns weighted by the vector's components. */
  lemma ColumnsCombine(b: Mat4, v: Vec4)
    ensures Add(Add(Add(Scale(b[0], v[0]), Scale(b[1], v[1])), Scale(b[2], v[2])), Scale(b[3], v[3])) == Apply(b, v)
  {
    var w := Add(Add(Add(Scale(b[0], v[0]), Scale(b[1], v[1])), Scale(b[2], v[2])), Scale(b[3], v[3]));
    forall k | 0 <= k < 4
      ensures w[k] == Apply(b, v)[k]
    {
      assert Row(b, k) == [b[0][k], b[1][k], b[2][k], b[3][k]];
    }
  }

  /** Component i of (a * b) v is component i of a (b v). */
  lemma MulComposesAt(a: Mat4, b: Mat4, v: Vec4, i: nat)
    requires i < 4
    ensures Apply(Mul(a, b), v)[i] == Apply(a, Apply(b, v))[i]
  {
    var r := Row(a, i);
    var c0, c1, c2, c3: Vec4 := b[0], b[1], b[2], b[3];
    // Entry (j, i) of the product is row i of a dotted with column j of b.
    assert Apply(Mul(a, b), v)[i] == Dot(r, c0) * v[0] + Dot(r, c1) * v[1] + Dot(r, c2) * v[2] + Dot(r, c3) * v[3];
    DotScale(r, c0, v[0]);
    DotScale(r, c1, v[1]);
    DotScale(r, c2, v[2]);
    DotScale(r, c3, v[3]);
    var s01 := Add(Scale(c0, v[0]), Scale(c1, v[1]));
    var s012 := Add(s01, Scale(c2, v[2]));
    DotAdd(r, Scale(c0, v[0]), Scale(c1, v[1]));
    DotAdd(r, s01, Scale(c2, v[2]));
    DotAdd(r, s012, Scale(c3, v[3]));
    ColumnsCombine(b, v);
  }

  /**
   * The product transforms a vector as its two factors do one after the
   * other, right factor first: (a * b) v == a (b v).
   */
  lemma MulComposes(a: Mat4, b: Mat4, v: Vec4)
    ensures Apply(Mul(a, b), v) == Apply(a, Apply(b, v))
  {
    MulComposesAt(a, b, v, 0);
    MulComposesAt(a, b, v, 1);
    MulComposesAt(a, b, v, 2);
    MulComposesAt(a, b, v, 3);
  }

  /** The 16 floats of `m` in memory order, as `memcpy` and `wgpu_queue_write_buffer` see them. */
  function Flatten(m: Mat4): (a: seq<real>)
    ensures |a| == 16
    ensures forall c, r | 0 <= c < 4 && 0 <= r < 4 :: a[4 * c + r] == m[c][r]
  {
    m[0] + m[1] + m[2] + m[3]
  }

  /** Two matrices with the same memory image are the same matrix. */
  lemma FlattenInjective(m1: Mat4, m2: Mat4)
    requires Flatten(m1) == Flatten(m2)
    ensures m1 == m2
  {
    forall c | 0 <= c < 4
      ensures m1[c] == m2[c]
    {
      forall r | 0 <= r < 4
        ensures m1[c][r] == m2[c][r]
      {
        assert Flatten(m1)[4 * c + r] == Flatten(m2)[4 * c + r];
      }
    }
  }

  /**
   * `float_array_to_mat4`: the nested r/c loops with a running index i copy
   * a[i] into out[r][c], so out[r][c] == a[4r + c]; every entry of `init`
   * (the identity the caller passes) is overwritten, and the result is the
   * unique matrix whose memory image is `a`.
   */
  method FloatArrayToMat4(a: seq<real>, init: Mat4) returns (out: Mat4)
    requires |a| == 16
    ensures forall r, c | 0 <= r < 4 && 0 <= c < 4 :: out[r][c] == a[4 * r + c]
    ensures Flatten(out) == a
  {
    out := init;
    var i := 0;
    var r := 0;
    while r < 4
      invariant 0 <= r <= 4 && i == 4 * r
      invariant forall r', c' | 0 <= r' < r && 0 <= c' < 4 :: out[r'][c'] == a[4 * r' + c']
    {
      var c := 0;
      while c < 4
        invariant 0 <= c <= 4 && i == 4 * r + c
        invariant forall r', c' | 0 <= r' < r && 0 <= c' < 4 :: out[r'][c'] == a[4 * r' + c']
        invariant forall c' | 0 <= c' < c :: out[r][c'] == a[4 * r + c']
      {
        out := out[r := out[r][c := a[i]]];
        i := i + 1;
        c := c + 1;
      }
      r := r + 1;
    }
    var f := Flatten(out);
    assert forall k | 0 <= k < 16 :: f[k] == out[k / 4][k % 4];
  }

  /** Column k of remap * x: x and y pass through, z becomes w - z, w is kept. */
  lemma RemapColumn(x: Mat4, k: nat)
    requires k < 4
    ensures Mul(DepthRangeRemap, x)[k] == [x[k][0], x[k][1], x[k][3] - x[k][2], x[k][3]]
  {
    var y := Mul(DepthRangeRemap, x);
    assert y[k][0] == x[k][0] && y[k][1] == x[k][1];
    assert y[k][2] == x[k][3] - x[k][2] && y[k][3] == x[k][3];
  }

  /** The remap is its own inverse: remap * (remap * x) == x for every matrix x. */
  lemma RemapIsInvolution(x: Mat4)
    ensures Mul(DepthRangeRemap, Mul(DepthRangeRemap, x)) == x
  {
    var y := Mul(DepthRangeRemap, x);
    var z := Mul(DepthRangeRemap, y);
    forall k | 0 <= k < 4
      ensures z[k] == x[k]
    {
      RemapColumn(x, k);
      RemapColumn(y, k);
    }
  }

  /** Read column-major, the remap sends a point at depth d (w = 1) to depth 1 - d. */
  lemma RemapFlipsDepth(x: real, y: real, d: real)
    ensures Apply(DepthRangeRemap, [x, y, d, 1.0]) == [x, y, 1.0 - d, 1.0]
  {
    var w := Apply(DepthRangeRemap, [x, y, d, 1.0]);
    assert w[0] == x && w[1] == y && w[2] == 1.0 - d && w[3] == 1.0;
  }

  /** The dot product distributes over a difference of rows. */
  lemma DotOfDifference(u: Vec4, v: Vec4, p: Vec4)
    ensures Dot([u[0] - v[0], u[1] - v[1], u[2] - v[2], u[3] - v[3]], p) == Dot(u, p) - Dot(v, p)
  {
  }

  /**
   * For any view-projection matrix `vp` and point `p`, the reversed camera
   * (remap * vp) yields the same x, y and w, and clip depth w - z: after the
   * perspective divide, depth d becomes 1 - d.
   */
  lemma RemapReversesClipDepth(vp: Mat4, p: Vec4)
    ensures Apply(Mul(DepthRangeRemap, vp), p)[0] == Apply(vp, p)[0]
    ensures Apply(Mul(DepthRangeRemap, vp), p)[1] == Apply(vp, p)[1]
    ensures Apply(Mul(DepthRangeRemap, vp), p)[2] == Apply(vp, p)[3] - Apply(vp, p)[2]
    ensures Apply(Mul(DepthRangeRemap, vp), p)[3] == Apply(vp, p)[3]
    ensures Apply(vp, p)[3] != 0.0 ==>
      Apply(Mul(DepthRangeRemap, vp), p)[2] / Apply(Mul(DepthRangeRemap, vp), p)[3]
        == 1.0 - Apply(vp, p)[2] / Apply(vp, p)[3]
  {
    var r := Mul(DepthRangeRemap, vp);
    RemapColumn(vp, 0);
    RemapColumn(vp, 1);
    RemapColumn(vp, 2);
    RemapColumn(vp, 3);
    var w, z := Row(vp, 3), Row(vp, 2);
    assert Row(r, 0) == Row(vp, 0) && Row(r, 1) == Row(vp, 1) && Row(r, 3) == w;
    assert Row(r, 2) == [w[0] - z[0], w[1] - z[1], w[2] - z[2], w[3] - z[3]];
    DotOfDifference(w, z, p);
    var c := Apply(vp, p);
    if c[3] != 0.0 {
      DivideDifference(c[3], c[2]);
    }
  }

  /** (w - z) / w == 1 - z / w for w != 0. */
  lemma DivideDifference(w: real, z: real)
    requires w != 0.0
    ensures (w - z) / w == 1.0 - z / w
  {
    var q, t := z / w, (w - z) / w;
    assert q * w == z;
    assert t * w == w - z;
    var e := t - (1.0 - q);
    assert e * w == 0.0;
    assert e * w / w == e;
  }

  // ---------------------------------------------------------------------------
  // perspective_zo: which of the 16 output floats each branch writes.
  // ---------------------------------------------------------------------------

  /** The `far` argument: a NULL pointer, a pointer to INFINITY, or a finite distance. */
  datatype FarArg = NullFar | InfiniteFar | FiniteFar(distance: real)

  /**
   * The value stored into an output float, named symbolically: `f` is
   * 1 / tan(fovy / 2) and `nf` is 1 / (near - far), both left uncomputed.
   */
  datatype Term = Const(v: real) | FOverAspect | F | FarTimesNf | FarNearNf | MinusNear

  /** One store `(*out)[index] = value`. */
  datatype Store = Store(index: nat, value: Term)

  /** The stores of `perspective_zo`, in program order, for the branch `far` selects. */
  function PerspectiveZoStores(far: FarArg): seq<Store>
  {
    [ Store(0, FOverAspect), Store(1, Const(0.0)), Store(2, Const(0.0)), Store(3, Const(0.0)),
      Store(4, Const(0.0)), Store(5, F), Store(6, Const(0.0)), Store(7, Const(0.0)),
      Store(8, Const(0.0)), Store(9, Const(0.0)), Store(11, Const(-1.0)), Store(12, Const(0.0)),
      Store(13, Const(0.0)), Store(15, Const(0.0)) ]
    + (if far.FiniteFar? then [Store(10, FarTimesNf), Store(14, FarNearNf)]
       else [Store(10, Const(-1.0)), Store(14, MinusNear)])
  }

  /** Performs `stores` in order on the array `out`. */
  function RunStores(out: seq<Term>, stores: seq<Store>): (r: seq<Term>)
    requires forall k | 0 <= k < |stores| :: stores[k].index < |out|
    ensures |r| == |out|
    decreases |stores|
  {
    if stores == [] then out
    else RunStores(out[stores[0].index := stores[0].value], stores[1..])
  }

  /** The set of indices a list of stores writes. */
  function Written(stores: seq<Store>): set<nat>
  {
    set k | 0 <= k < |stores| :: stores[k].index
  }

  /**
   * Both branches of `perspective_zo` store to each of the 16 output floats
   * exactly once: the written set is 0..15 and no index is written twice.
   */
  lemma PerspectiveZoStoresEveryIndexOnce(far: FarArg)
    ensures |PerspectiveZoStores(far)| == 16
    ensures forall i: nat | i < 16 :: i in Written(PerspectiveZoStores(far))
    ensures forall k | 0 <= k < 16 :: PerspectiveZoStores(far)[k].index < 16
    ensures forall j, k | 0 <= j < k < 16 :: PerspectiveZoStores(far)[j].index != PerspectiveZoStores(far)[k].index
  {
    var s := PerspectiveZoStores(far);
    assert forall k | 0 <= k < 16 :: s[k].index < 16;
    forall i | 0 <= i < 16
      ensures i in Written(s)
    {
      var k := if i < 10 then i else if i == 10 then 14 else if i < 14 then i - 1 else if i == 14 then 15 else 13;
      assert s[k].index == i;
    }
  }

  /**
   * Stores that together write every index of the array leave a result that
   * does not depend on the array's previous contents.
   */
  lemma {:induction false} RunStoresForgetsOverwritten(a: seq<Term>, b: seq<Term>, stores: seq<Store>)
    requires |a| == |b|
    requires forall k | 0 <= k < |stores| :: stores[k].index < |a|
    requires forall i | 0 <= i < |a| :: a[i] == b[i] || i in Written(stores)
    ensures RunStores(a, stores) == RunStores(b, stores)
    decreases |stores|
  {
    if stores != [] {
      var s := stores[0];
      var a' := a[s.index := s.value];
      var b' := b[s.index := s.value];
      forall i | 0 <= i < |a'|
        ensures a'[i] == b'[i] || i in Written(stores[1..])
      {
        if i != s.index && a[i] != b[i] {
          var k :| 0 <= k < |stores| && stores[k].index == i;
          assert k != 0;
          assert stores[1..][k - 1].index == i;
        }
      }
      RunStoresForgetsOverwritten(a', b', stores[1..]);
    }
  }

  /** With no index stored twice, each store's value is what the array ends up holding there. */
  lemma {:induction false} RunStoresKeepsEachStore(out: seq<Term>, stores: seq<Store>, k: nat)
    requires forall j | 0 <= j < |stores| :: stores[j].index < |out|
    requires forall i, j | 0 <= i < j < |stores| :: stores[i].index != stores[j].index
    requires k < |stores|
    ensures RunStores(out, stores)[stores[k].index] == stores[k].value
    decreases |stores|
  {
    var out' := out[stores[0].index := stores[0].value];
    if k == 0 {
      RunStoresKeepsUntouched(out', stores[1..], stores[0].index);
    } else {
      assert stores[1..][k - 1] == stores[k];
      RunStoresKeepsEachStore(out', stores[1..], k - 1);
    }
  }

  /** An index no store writes keeps its previous value. */
  lemma {:induction false} RunStoresKeepsUntouched(out: seq<Term>, stores: seq<Store>, i: nat)
    requires forall j | 0 <= j < |stores| :: stores[j].index < |out|
    requires forall j | 0 <= j < |stores| :: stores[j].index != i
    requires i < |out|
    ensures RunStores(out, stores)[i] == out[i]
    decreases |stores|
  {
    if stores != [] {
      RunStoresKeepsUntouched(out[stores[0].index := stores[0].value], stores[1..], i);
    }
  }

  /**
   * `perspective_zo` on a 16-float array: the result is the same whatever the
   * array held before (every entry is assigned on both branches), w is taken
   * from -z (entries 11 and 15), and only entries 10 and 14 depend on `far`.
   */
  function PerspectiveZo(out: seq<Term>, far: FarArg): (r: seq<Term>)
    requires |out| == 16
    ensures |r| == 16
    ensures forall other: seq<Term> | |other| == 16 :: RunStores(other, PerspectiveZoStores(far)) == r
    ensures r[11] == Const(-1.0) && r[15] == Const(0.0)
    ensures far.FiniteFar? ==> r[10] == FarTimesNf && r[14] == FarNearNf
    ensures !far.FiniteFar? ==> r[10] == Const(-1.0) && r[14] == MinusNear
  {
    PerspectiveZoStoresEveryIndexOnce(far);
    var stores := PerspectiveZoStores(far);
    forall other: seq<Term> | |other| == 16
      ensures RunStores(other, stores) == RunStores(out, stores)
    {
      RunStoresForgetsOverwritten(other, out, stores);
    }
    RunStoresKeepsEachStore(out, stores, 10);
    RunStoresKeepsEachStore(out, stores, 13);
    RunStoresKeepsEachStore(out, stores, 14);
    RunStoresKeepsEachStore(out, stores, 15);
    RunStores(out, stores)
  }
}
