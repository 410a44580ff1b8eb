/**
 * The reversed-Z demo's parameter tables and buffer layout: the two depth
 * buffer variants (default and reversed), the pipelines created for each,
 * the uniform buffers and bind groups, the instance-matrix layout of the
 * uniform buffer, the instance placements and the two camera matrices.
 * GPU objects are opaque tokens; float numerics are modelled over `real`.
 */
module ReversedZ {

  import opened Wrappers
  import opened Mat4

  const CanvasWidth: nat := 600
  const CanvasHeight: nat := 600
  const ViewportWidth: nat := CanvasWidth / 2

  const XCount: nat := 1
  const YCount: nat := 5
  const NumInstances: nat := XCount * YCount

  const FloatBytes: nat := 4
  /** `sizeof(mat4)`: sixteen 4-byte floats. */
  const Mat4Bytes: nat := 16 * FloatBytes

  /**
   * `matrix_float_count` is defined as `sizeof(mat4)`, a byte count (64), and
   * is then used as a float count: instance slots are 64 floats apart.
   */
  const MatrixFloatCount: nat := Mat4Bytes
  const MatrixStride: nat := 4 * MatrixFloatCount
  const UniformBufferSize: nat := NumInstances * MatrixStride
  /** The element count of `mvp_matrices_data`. */
  const MvpFloatCount: nat := NumInstances * MatrixFloatCount

  const GeometryVertexSize: nat := 4 * 8
  const GeometryPositionOffset: nat := 0
  const GeometryColorOffset: nat := 4 * 4
  const GeometryDrawCount: nat := 6 * 2

  /** Half the distance between the two planes, and their half x offset. */
  const D: real := 0.0001
  const O: real := 0.5

  // ---------------------------------------------------------------------------
  // The two depth-buffer variants.
  // ---------------------------------------------------------------------------

  /** A depth buffer mode used as an index: 0 is the default, 1 the reversed convention. */
  type Variant = m: nat | m < 2

  datatype CompareFunction = Less | Greater

  /** `depth_compare_funcs`. */
  function DepthCompareFunc(m: Variant): CompareFunction
  {
    if m == 0 then Less else Greater
  }

  /**
   * `depth_load_values`: the depth each variant's buffer is meant to be
   * cleared to (the file's header asks for 0.0 with the reversed technique).
   * As written the value is only ever assigned to a `depthLoadOp`, and every
   * `clearDepth` is 1.0, so no depth attachment is cleared to 0.0.  Whether a
   * pass clears or loads depends on how the float converts to a load
   * operation, which is not modelled.
   */
  function DepthLoadValue(m: Variant): real
  {
    if m == 0 then 1.0 else 0.0
  }

  /** Whether a fragment at depth `fragment` passes the test against the stored depth. */
  predicate DepthTestPasses(f: CompareFunction, fragment: real, stored: real)
  {
    match f
    case Less => fragment < stored
    case Greater => fragment > stored
  }

  /**
   * The two variants describe the same scene with depth flipped: the
   * reversed test on 1 - d agrees with the default test on d, and the
   * reversed intended clear value is the flipped default one.
   */
  lemma VariantsAgreeUnderDepthFlip(fragment: real, stored: real)
    ensures DepthTestPasses(DepthCompareFunc(0), fragment, stored)
        <==> DepthTestPasses(DepthCompareFunc(1), 1.0 - fragment, 1.0 - stored)
    ensures DepthLoadValue(1) == 1.0 - DepthLoadValue(0)
  {
  }

  /**
   * The relation the two tables are designed to have: each variant's
   * intended clear value is the far end of the depth range for its compare
   * function, so any other depth in [0, 1] would pass against it.  It is a
   * design property of the tables, not of a recorded pass: as written no
   * depth attachment is cleared to 0.0.
   */
  lemma LoadValueIsFarthest(m: Variant, d: real)
    requires 0.0 <= d <= 1.0 && d != DepthLoadValue(m)
    ensures DepthTestPasses(DepthCompareFunc(m), d, DepthLoadValue(m))
  {
  }

  /**
   * The descriptors' `clearDepth` stays 1.0 for both variants.  Against a
   * stored 1.0 the reversed variant's test fails for every depth in [0, 1].
   */
  lemma ReversedTestFailsAgainstClearDepthOne(d: real)
    requires 0.0 <= d <= 1.0
    ensures !DepthTestPasses(DepthCompareFunc(1), d, 1.0)
  {
  }

  // ---------------------------------------------------------------------------
  // Pipelines.
  // ---------------------------------------------------------------------------

  datatype DepthFormat = Depth32Float

  /** The depth-stencil part of a render pipeline descriptor. */
  datatype DepthStencilState = DepthStencilState(format: DepthFormat, depthWriteEnabled: bool, depthCompare: CompareFunction)

  /** The three families created once per variant, and the single texture-quad pipeline. */
  datatype PipelineFamily = DepthPrePassFamily | PrecisionPassFamily | ColorPassFamily

  /** A created pipeline, known by its family and the depth-stencil state it was created with. */
  datatype Pipeline = Pipeline(family: PipelineFamily, depthStencil: DepthStencilState)

  /** The state each family's prepare function builds before the per-variant overwrite. */
  const BaseDepthStencil: DepthStencilState := DepthStencilState(Depth32Float, true, Less)

  /**
   * A family's prepare function: starting from `base` (whose compare is
   * set to Less), for m = 0 then 1 it overwrites `depthCompare` with
   * `depth_compare_funcs[m]` and creates pipeline m.  Pipeline m differs from
   * `base` only in its compare function, which is the table's entry m.
   */
  method PrepareFamilyPipelines(family: PipelineFamily, base: DepthStencilState) returns (pipelines: seq<Pipeline>)
    ensures |pipelines| == 2
    ensures forall m: Variant :: pipelines[m] == Pipeline(family, base.(depthCompare := DepthCompareFunc(m)))
  {
    var state := base.(depthCompare := Less);
    pipelines := [];
    var m := 0;
    while m < 2
      invariant 0 <= m <= 2 && |pipelines| == m
      invariant state.format == base.format && state.depthWriteEnabled == base.depthWriteEnabled
      invariant forall k: Variant | k < m :: pipelines[k] == Pipeline(family, base.(depthCompare := DepthCompareFunc(k)))
    {
      state := state.(depthCompare := DepthCompareFunc(m));
      pipelines := pipelines + [Pipeline(family, state)];
      m := m + 1;
    }
  }

  /** The initial Less plays no part: both variants' pipelines are created with the table's compare function. */
  lemma InitialCompareIsOverwritten(p: seq<Pipeline>, q: seq<Pipeline>, family: PipelineFamily, b1: DepthStencilState, b2: DepthStencilState)
    requires |p| == 2 && |q| == 2
    requires forall m: Variant :: p[m] == Pipeline(family, b1.(depthCompare := DepthCompareFunc(m)))
    requires forall m: Variant :: q[m] == Pipeline(family, b2.(depthCompare := DepthCompareFunc(m)))
    requires b1.format == b2.format && b1.depthWriteEnabled == b2.depthWriteEnabled
    ensures p == q
    ensures p[0].depthStencil.depthCompare == Less && p[1].depthStencil.depthCompare == Greater
  {
    assert p[0] == q[0] && p[1] == q[1];
  }

  // ---------------------------------------------------------------------------
  // Buffers and bind groups.
  // ---------------------------------------------------------------------------

  datatype Buffer = UniformBuffer | CameraMatrixBuffer | CameraMatrixReversedDepthBuffer | VertexBuffer

  /** The size each buffer is created with. */
  function BufferSize(b: Buffer): nat
  {
    match b
    case UniformBuffer => UniformBufferSize
    case CameraMatrixBuffer => Mat4Bytes
    case CameraMatrixReversedDepthBuffer => Mat4Bytes
    case VertexBuffer => GeometryFloatCount() * FloatBytes
  }

  /** One `WGPUBindGroupEntry` bound to a buffer. */
  datatype BufferBinding = BufferBinding(binding: nat, buffer: Buffer, size: nat)

  /** A uniform bind group: its entries and the variant whose depth pre-pass pipeline supplied layout 0. */
  datatype UniformBindGroup = UniformBindGroup(layoutFrom: Variant, entries: seq<BufferBinding>)

  /** The camera buffer a variant reads its view-projection matrix from. */
  function CameraBufferFor(m: Variant): Buffer
  {
    if m == 0 then CameraMatrixBuffer else CameraMatrixReversedDepthBuffer
  }

  /** A binding fits when it does not extend past the end of its buffer. */
  predicate BindingFits(e: BufferBinding)
  {
    e.size <= BufferSize(e.buffer)
  }

  /**
   * `setup_uniform_bind_groups`: the zero-initialised two-slot array gets
   * slot 0 (default camera) and slot 1 (reversed camera).  Both slots are
   * filled, each binds the whole uniform buffer at binding 0 and its
   * variant's camera buffer at binding 1, every binding fits its buffer,
   * and the two groups share no camera buffer.
   */
  function SetupUniformBindGroups(): (slots: seq<Option<UniformBindGroup>>)
    ensures |slots| == 2
    ensures forall m: Variant :: slots[m].Some? && slots[m].value.layoutFrom == m
    ensures forall m: Variant :: |slots[m].value.entries| == 2
    ensures forall m: Variant :: slots[m].value.entries[0] == BufferBinding(0, UniformBuffer, BufferSize(UniformBuffer))
    ensures forall m: Variant :: slots[m].value.entries[1] == BufferBinding(1, CameraBufferFor(m), BufferSize(CameraBufferFor(m)))
    ensures forall m: Variant, k | 0 <= k < |slots[m].value.entries| :: BindingFits(slots[m].value.entries[k])
    ensures slots[0].value.entries[1].buffer != slots[1].value.entries[1].buffer
  {
    var empty: seq<Option<UniformBindGroup>> := [None, None];
    var first := UniformBindGroup(0, [BufferBinding(0, UniformBuffer, UniformBufferSize), BufferBinding(1, CameraMatrixBuffer, Mat4Bytes)]);
    var second := UniformBindGroup(1, [BufferBinding(0, UniformBuffer, UniformBufferSize), BufferBinding(1, CameraMatrixReversedDepthBuffer, Mat4Bytes)]);
    empty[0 := Some(first)][1 := Some(second)]
  }

  /** What a depth-texture bind group entry holds. */
  datatype TextureResource = DepthTextureColorView | DepthTextureSampler

  /** `depth_texture_bind_group`: the depth texture's view at binding 0 and its sampler at binding 1. */
  const DepthTextureBindGroupEntries: seq<TextureResource> := [DepthTextureColorView, DepthTextureSampler]

  // ---------------------------------------------------------------------------
  // Instance matrices in the uniform buffer.
  // ---------------------------------------------------------------------------

  /** The float range [start, start + 16) instance i occupies in `mvp_matrices_data`. */
  function SlotStart(i: nat): nat
  {
    i * MatrixFloatCount
  }

  /** Whether float index j is written by the copy of one of the first n instances. */
  predicate InSlotBelow(j: int, n: nat)
  {
    exists i :: 0 <= i < n && SlotStart(i) <= j < SlotStart(i) + 16
  }

  lemma InSlotBelowGrows(j: int, n: nat)
    ensures InSlotBelow(j, n) ==> InSlotBelow(j, n + 1)
    ensures (SlotStart(n) <= j < SlotStart(n) + 16) ==> InSlotBelow(j, n + 1)
  {
    if InSlotBelow(j, n) {
      var i :| 0 <= i < n && SlotStart(i) <= j < SlotStart(i) + 16;
      assert 0 <= i < n + 1;
    }
    if SlotStart(n) <= j < SlotStart(n) + 16 {
      assert 0 <= n < n + 1;
    }
  }

  /** Whether float index j is written by some instance's copy. */
  predicate InSomeSlot(j: int)
  {
    InSlotBelow(j, NumInstances)
  }

  /**
   * `update_transformation_matrix`: instance i's rotated model matrix (its 16
   * floats, `sizeof(mat4)` bytes) is copied to float offset
   * i * `matrix_float_count`.  Every copy lies inside `mvp_matrices_data`,
   * and no other float of the array changes.
   */
  method UpdateTransformationMatrix(data: seq<real>, rotated: seq<Mat4>) returns (out: seq<real>)
    requires |data| == MvpFloatCount && |rotated| == NumInstances
    ensures |out| == |data|
    ensures forall i, k | 0 <= i < NumInstances && 0 <= k < 16 :: out[SlotStart(i) + k] == Flatten(rotated[i])[k]
    ensures forall j | 0 <= j < |data| && !InSomeSlot(j) :: out[j] == data[j]
  {
    out := data;
    var i := 0;
    var m := 0;
    while i < NumInstances
      invariant 0 <= i <= NumInstances && m == SlotStart(i)
      invariant |out| == |data|
      invariant forall i', k | 0 <= i' < i && 0 <= k < 16 :: out[SlotStart(i') + k] == Flatten(rotated[i'])[k]
      invariant forall j | 0 <= j < |data| && !InSlotBelow(j, i) :: out[j] == data[j]
    {
      assert m + 16 <= |out|;
      var f := Flatten(rotated[i]);
      var prev := out;
      out := out[..m] + f + out[m + 16..];
      forall j | 0 <= j < |data| && !InSlotBelow(j, i + 1)
        ensures out[j] == data[j]
      {
        InSlotBelowGrows(j, i);
        assert !(SlotStart(i) <= j < SlotStart(i) + 16);
      }
      i := i + 1;
      m := m + MatrixFloatCount;
    }
  }

  /**
   * Only the first 16 floats of each 64-float slot are ever written, so the
   * float where a tightly packed second matrix would start (index 16) keeps
   * its previous value.
   */
  lemma PackedSecondMatrixIsNeverWritten()
    ensures !InSomeSlot(16)
    ensures forall i | 0 <= i < NumInstances :: SlotStart(i) + 16 <= MvpFloatCount
  {
    forall i | 0 <= i < NumInstances
      ensures !(SlotStart(i) <= 16 < SlotStart(i) + 16)
    {
    }
  }

  /** `update_uniform_buffers` uploads the whole array: its byte size is the uniform buffer's size. */
  function UniformUploadSize(): (n: nat)
    ensures n == BufferSize(UniformBuffer)
    ensures n == NumInstances * MatrixStride
  {
    MvpFloatCount * FloatBytes
  }

  // ---------------------------------------------------------------------------
  // Instance placement and cameras.
  // ---------------------------------------------------------------------------

  /** A model matrix's parameters: grid cell, translation and uniform scale. */
  datatype Placement = Placement(x: nat, y: nat, tx: real, ty: real, tz: real, scale: real)

  /** The placement `init_uniform_buffers` gives cell (x, y) when its counter is m. */
  function PlacementFor(x: nat, y: nat, m: nat): Placement
  {
    var z := -800.0 * m as real;
    Placement(x, y, x as real - XCount as real / 2.0 + 0.5,
              (4.0 - 0.2 * z) * (y as real - YCount as real / 2.0 + 1.0), z, 1.0 + 50.0 * m as real)
  }

  /**
   * The nested x/y loops of `init_uniform_buffers` with the running counter
   * m: instance m is the cell with m == x * y_count + y, so each of the five
   * instances is assigned exactly once and each cell gets its own instance.
   */
  method InitModelPlacements() returns (placements: seq<Placement>)
    ensures |placements| == NumInstances
    ensures forall m | 0 <= m < NumInstances ::
      placements[m].x < XCount && placements[m].y < YCount && placements[m].x * YCount + placements[m].y == m
    ensures forall m | 0 <= m < NumInstances :: placements[m] == PlacementFor(placements[m].x, placements[m].y, m)
  {
    placements := [];
    var m := 0;
    var x := 0;
    while x < XCount
      invariant 0 <= x <= XCount && m == x * YCount && |placements| == m
      invariant forall k | 0 <= k < m ::
        placements[k].x < XCount && placements[k].y < YCount && placements[k].x * YCount + placements[k].y == k
      invariant forall k | 0 <= k < m :: placements[k] == PlacementFor(placements[k].x, placements[k].y, k)
    {
      var y := 0;
      while y < YCount
        invariant 0 <= y <= YCount && m == x * YCount + y && |placements| == m
        invariant forall k | 0 <= k < m ::
          placements[k].x < XCount && placements[k].y < YCount && placements[k].x * YCount + placements[k].y == k
        invariant forall k | 0 <= k < m :: placements[k] == PlacementFor(placements[k].x, placements[k].y, k)
      {
        placements := placements + [PlacementFor(x, y, m)];
        m := m + 1;
        y := y + 1;
      }
      x := x + 1;
    }
  }

  /** Later instances sit strictly farther down the -z axis and are strictly larger. */
  lemma LaterInstancesAreFartherAndLarger(x1: nat, y1: nat, m1: nat, x2: nat, y2: nat, m2: nat)
    requires m1 < m2
    ensures PlacementFor(x2, y2, m2).tz < PlacementFor(x1, y1, m1).tz
    ensures PlacementFor(x2, y2, m2).scale > PlacementFor(x1, y1, m1).scale
  {
  }

  /**
   * `init_uniform_buffers`' two camera matrices: view-projection
   * projection * view, and the reversed one, remap * view-projection.
   */
  function CameraMatrices(projection: Mat4, view: Mat4): (cams: (Mat4, Mat4))
    ensures cams.0 == Mul(projection, view)
    ensures forall p: Vec4 :: Apply(cams.0, p) == Apply(projection, Apply(view, p))
    ensures Mul(DepthRangeRemap, cams.1) == cams.0
    ensures forall p: Vec4 ::
      Apply(cams.1, p)[3] == Apply(cams.0, p)[3] && Apply(cams.1, p)[2] == Apply(cams.0, p)[3] - Apply(cams.0, p)[2]
  {
    var vp := Mul(projection, view);
    var reversed := Mul(DepthRangeRemap, vp);
    RemapIsInvolution(vp);
    forall p: Vec4
      ensures Apply(vp, p) == Apply(projection, Apply(view, p))
    {
      MulComposes(projection, view, p);
    }
    forall p: Vec4
      ensures Apply(reversed, p)[3] == Apply(vp, p)[3] && Apply(reversed, p)[2] == Apply(vp, p)[3] - Apply(vp, p)[2]
    {
      RemapReversesClipDepth(vp, p);
    }
    (vp, reversed)
  }

  // ---------------------------------------------------------------------------
  // Geometry.
  // ---------------------------------------------------------------------------

  /** The 8 floats (position x, y, z, w and colour r, g, b, a) of vertex k. */
  function VertexFloats(k: nat): (v: seq<real>)
    requires k < GeometryDrawCount
    ensures |v| == 8
  {
    var corner := k % 6;
    var cx := if corner == 0 || corner == 2 || corner == 5 then -1.0 else 1.0;
    var cy := if corner == 0 || corner == 1 || corner == 3 then -1.0 else 1.0;
    if k < 6 then [cx - O, cy, D, 1.0, 1.0, 0.0, 0.0, 1.0]
    else [cx + O, cy, -D, 1.0, 0.0, 1.0, 0.0, 1.0]
  }

  /** Float i of the vertex array: float i % 8 of vertex i / 8. */
  function VertexAt(i: nat): real
    requires i < GeometryFloatCount()
  {
    assert i / 8 < GeometryDrawCount && i % 8 < 8;
    VertexFloats(i / 8)[i % 8]
  }

  /** The element count of `geometry_vertex_array`. */
  function GeometryFloatCount(): nat
  {
    (4 + 4) * 6 * 2
  }

  /**
   * `geometry_vertex_array`, vertex after vertex: 96 floats, which at 4
   * bytes each is exactly `geometry_draw_count` vertices of
   * `geometry_vertex_size` bytes.
   */
  function GeometryVertexArray(): (a: seq<real>)
    ensures |a| == GeometryFloatCount()
    ensures |a| * FloatBytes == GeometryDrawCount * GeometryVertexSize
    ensures forall k, j | 0 <= k < GeometryDrawCount && 0 <= j < 8 :: a[8 * k + j] == VertexFloats(k)[j]
  {
    var a := seq(GeometryFloatCount(), i requires 0 <= i < GeometryFloatCount() => VertexAt(i));
    forall k, j | 0 <= k < GeometryDrawCount && 0 <= j < 8
      ensures a[8 * k + j] == VertexFloats(k)[j]
    {
      assert (8 * k + j) / 8 == k && (8 * k + j) % 8 == j;
    }
    a
  }

  /**
   * Each vertex is a homogeneous point (w = 1) with an opaque colour: the
   * first six are red at z = d, the last six green at z = -d.
   */
  lemma GeometryPlanes(k: nat)
    requires k < GeometryDrawCount
    ensures |VertexFloats(k)| == 8 && VertexFloats(k)[3] == 1.0 && VertexFloats(k)[7] == 1.0
    ensures k < 6 ==> VertexFloats(k)[2] == D && VertexFloats(k)[4..7] == [1.0, 0.0, 0.0]
    ensures k >= 6 ==> VertexFloats(k)[2] == -D && VertexFloats(k)[4..7] == [0.0, 1.0, 0.0]
  {
  }

  /**
   * The red plane (first six vertices) and the green plane (last six) are
   * parallel, 2 * d apart in z, and the same quad shifted by 2 * o in x.
   */
  lemma PlanesAreShiftedCopies(k: nat)
    requires k < 6
    ensures VertexFloats(k + 6)[0] == VertexFloats(k)[0] + 2.0 * O
    ensures VertexFloats(k + 6)[1] == VertexFloats(k)[1]
    ensures VertexFloats(k)[2] - VertexFloats(k + 6)[2] == 2.0 * D
  {
  }
}
