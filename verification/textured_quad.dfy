/**
 * The textured quad demo: the hard-coded quad (four vertices, six 16-bit
 * indices), the buffers made from it, the frame's viewport, scissor and
 * indexed draw, the uniform block copied from the camera, and the
 * `prepared` lifecycle.  Floats are modelled as reals.
 */
module TexturedQuad {

  import opened Wrappers
  import Lifecycle

  type Byte = x: nat | x < 256
  type U16 = x: nat | x < 0x1_0000

  const FloatBytes: nat := 4
  const Uint16Bytes: nat := 2
  const Uint32Bytes: nat := 4

  // ---------------------------------------------------------------------------
  // The quad.
  // ---------------------------------------------------------------------------

  datatype Vec2 = Vec2(x: real, y: real)
  datatype Vec3 = Vec3(x: real, y: real, z: real)

  /** One `vertex_t`: position, texture coordinate, normal. */
  datatype Vertex = Vertex(pos: Vec3, uv: Vec2, normal: Vec3)

  /** `sizeof(vertex_t)`: three, two and three packed floats. */
  const VertexBytes: nat := (3 + 2 + 3) * FloatBytes

  /** The byte offsets of the three vertex attributes. */
  const PosOffset: nat := 0
  const UvOffset: nat := 3 * FloatBytes
  const NormalOffset: nat := (3 + 2) * FloatBytes

  /** `vertices_data`: the corners of [-1, 1] x [-1, 1], counter-clockwise from (1, 1). */
  function QuadVertices(): (vs: seq<Vertex>)
    ensures |vs| == 4
  {
    [ Vertex(Vec3(1.0, 1.0, 0.0), Vec2(1.0, 1.0), Vec3(0.0, 0.0, 1.0)),
      Vertex(Vec3(-1.0, 1.0, 0.0), Vec2(0.0, 1.0), Vec3(0.0, 0.0, 1.0)),
      Vertex(Vec3(-1.0, -1.0, 0.0), Vec2(0.0, 0.0), Vec3(0.0, 0.0, 1.0)),
      Vertex(Vec3(1.0, -1.0, 0.0), Vec2(1.0, 0.0), Vec3(0.0, 0.0, 1.0)) ]
  }

  /** `index_buffer`: two triangles. */
  function QuadIndices(): (ix: seq<U16>)
    ensures |ix| == 6
  {
    [0, 1, 2, 2, 3, 0]
  }

  /**
   * Every vertex lies in the z = 0 plane on a corner of [-1, 1]^2, its
   * texture coordinate is its position mapped from [-1, 1] onto [0, 1], and
   * its normal is +z.
   */
  lemma QuadTexturing(k: nat)
    requires k < |QuadVertices()|
    ensures var v := QuadVertices()[k];
      v.pos.z == 0.0
      && (v.pos.x == 1.0 || v.pos.x == -1.0) && (v.pos.y == 1.0 || v.pos.y == -1.0)
      && v.uv == Vec2((v.pos.x + 1.0) / 2.0, (v.pos.y + 1.0) / 2.0)
      && v.normal == Vec3(0.0, 0.0, 1.0)
  {
  }

  /** Twice the signed area of the triangle (a, b, c) in the xy plane. */
  function SignedArea2(a: Vec3, b: Vec3, c: Vec3): real
  {
    (b.x - a.x) * (c.y - a.y) - (b.y - a.y) * (c.x - a.x)
  }

  /** The triangle made of indices 3t, 3t+1, 3t+2. */
  function TriangleArea2(t: nat): real
    requires t < 2
  {
    var vs, ix := QuadVertices(), QuadIndices();
    SignedArea2(vs[ix[3 * t]].pos, vs[ix[3 * t + 1]].pos, vs[ix[3 * t + 2]].pos)
  }

  /**
   * The indices address only existing vertices; they form the triangles
   * (0, 1, 2) and (2, 3, 0), which together use every vertex; both wind
   * counter-clockwise, the pipeline's front face; and their areas add up to
   * the area 4 of the square, so they cover it without overlap.
   */
  lemma QuadIndicesFormTheSquare()
    ensures forall k | 0 <= k < |QuadIndices()| :: QuadIndices()[k] < |QuadVertices()|
    ensures QuadIndices()[..3] == [0, 1, 2] && QuadIndices()[3..] == [2, 3, 0]
    ensures forall v | 0 <= v < |QuadVertices()| :: v in QuadIndices()
    ensures TriangleArea2(0) > 0.0 && TriangleArea2(1) > 0.0
    ensures TriangleArea2(0) / 2.0 + TriangleArea2(1) / 2.0 == 2.0 * 2.0
  {
    assert QuadIndices()[0] == 0 && QuadIndices()[1] == 1 && QuadIndices()[2] == 2 && QuadIndices()[4] == 3;
  }

  // ---------------------------------------------------------------------------
  // Buffers made from the quad.
  // ---------------------------------------------------------------------------

  /** The little-endian bytes of a sequence of 16-bit values, as stored in memory. */
  function EncodeU16(xs: seq<U16>): (bs: seq<Byte>)
    ensures |bs| == Uint16Bytes * |xs|
    decreases |xs|
  {
    if xs == [] then [] else [xs[0] % 256, xs[0] / 256] + EncodeU16(xs[1..])
  }

  /** Reads little-endian 16-bit values back from bytes. */
  function DecodeU16(bs: seq<Byte>): (xs: seq<U16>)
    requires |bs| % 2 == 0
    ensures |xs| == |bs| / 2
    decreases |bs|
  {
    if bs == [] then [] else [bs[0] as nat + 256 * (bs[1] as nat)] + DecodeU16(bs[2..])
  }

  /** Decoding undoes encoding, so a buffer holding the encoded indices yields them back. */
  lemma {:induction false} DecodeEncodeU16(xs: seq<U16>)
    ensures DecodeU16(EncodeU16(xs)) == xs
    decreases |xs|
  {
    if xs != [] {
      var bs := EncodeU16(xs);
      assert bs[2..] == EncodeU16(xs[1..]);
      DecodeEncodeU16(xs[1..]);
    }
  }

  /**
   * `wgpu_create_buffer_from_data`: a buffer whose contents are the first
   * `size` bytes of the object at the data pointer; a size beyond the
   * object reads memory that does not belong to it, and no buffer contents
   * are defined (`None`).
   */
  function CreateBufferFromData(data: seq<Byte>, size: nat): (r: Option<seq<Byte>>)
    ensures r.Some? <==> size <= |data|
    ensures r.Some? ==> |r.value| == size && r.value == data[..size]
  {
    if size <= |data| then Some(data[..size]) else None
  }

  /**
   * The index buffer size as written: the index count times
   * `sizeof(uint32_t)`, twice the bytes of the `uint16_t` data.
   */
  function IndexBufferSizeAsWritten(): (n: nat)
    ensures n == 2 * |EncodeU16(QuadIndices())|
  {
    |QuadIndices()| * Uint32Bytes
  }

  /**
   * As written, the size is 24 bytes while `index_buffer` holds 12: creating
   * the index buffer reads 12 bytes past the end of the array.
   */
  lemma IndexBufferCreationOverReads()
    ensures IndexBufferSizeAsWritten() == 24 && |EncodeU16(QuadIndices())| == 12
    ensures CreateBufferFromData(EncodeU16(QuadIndices()), IndexBufferSizeAsWritten()).None?
  {
  }

  /** The index buffer size sized by the element type actually stored, `uint16_t`. */
  function IndexBufferSize(): (n: nat)
    ensures n == |EncodeU16(QuadIndices())|
  {
    |QuadIndices()| * Uint16Bytes
  }

  /**
   * With the corrected size the index buffer holds exactly the six indices:
   * decoding it as the draw's Uint16 format gives `index_buffer` back.
   */
  lemma IndexBufferHoldsTheIndices()
    ensures var b := CreateBufferFromData(EncodeU16(QuadIndices()), IndexBufferSize());
      b.Some? && |b.value| % 2 == 0 && DecodeU16(b.value) == QuadIndices()
  {
    DecodeEncodeU16(QuadIndices());
    assert EncodeU16(QuadIndices())[..IndexBufferSize()] == EncodeU16(QuadIndices());
  }

  /** The vertex buffer size: vertex count times `sizeof(vertex_t)`, which fits the attribute layout. */
  function VertexBufferSize(): (n: nat)
    ensures n == 4 * 32
    ensures PosOffset + 3 * FloatBytes <= UvOffset && UvOffset + 2 * FloatBytes <= NormalOffset
    ensures NormalOffset + 3 * FloatBytes == VertexBytes && n == |QuadVertices()| * VertexBytes
  {
    |QuadVertices()| * VertexBytes
  }

  // ---------------------------------------------------------------------------
  // The frame.
  // ---------------------------------------------------------------------------

  datatype IndexFormat = Uint16 | Uint32

  function IndexFormatBytes(f: IndexFormat): nat
  {
    match f
    case Uint16 => Uint16Bytes
    case Uint32 => Uint32Bytes
  }

  datatype Surface = Surface(width: nat, height: nat)

  datatype Command =
    | SetViewport(x: real, y: real, w: real, h: real, minDepth: real, maxDepth: real)
    | SetScissorRect(sx: nat, sy: nat, sw: nat, sh: nat)
    | SetIndexBuffer(format: IndexFormat)
    | DrawIndexed(indexCount: nat, instanceCount: nat)

  /** The pixel (px, py) lies on the surface. */
  predicate OnSurface(s: Surface, px: int, py: int)
  {
    0 <= px < s.width && 0 <= py < s.height
  }

  /** The pixel (px, py) lies in the viewport or scissor rectangle of `c`. */
  predicate Covers(c: Command, px: int, py: int)
  {
    match c
    case SetViewport(x, y, w, h, _, _) => x <= px as real < x + w && y <= py as real < y + h
    case SetScissorRect(sx, sy, sw, sh) => sx <= px < sx + sw && sy <= py < sy + sh
    case _ => false
  }

  /** The render pass commands of `build_command_buffer`. */
  function FrameCommands(s: Surface): (cmds: seq<Command>)
    ensures |cmds| == 4
    ensures cmds[0].SetViewport? && cmds[0].minDepth == 0.0 && cmds[0].maxDepth == 1.0
    ensures cmds[1].SetScissorRect?
    ensures cmds[2] == SetIndexBuffer(Uint16) && cmds[3] == DrawIndexed(|QuadIndices()|, 1)
  {
    [ SetViewport(0.0, 0.0, s.width as real, s.height as real, 0.0, 1.0),
      SetScissorRect(0, 0, s.width, s.height),
      SetIndexBuffer(Uint16),
      DrawIndexed(|QuadIndices()|, 1) ]
  }

  /** The viewport and the scissor rectangle both cover exactly the surface. */
  lemma ViewportAndScissorCoverSurface(s: Surface, px: int, py: int)
    ensures Covers(FrameCommands(s)[0], px, py) <==> OnSurface(s, px, py)
    ensures Covers(FrameCommands(s)[1], px, py) <==> OnSurface(s, px, py)
  {
  }

  /**
   * The indexed draw reads, in its index format, exactly the bytes of the
   * (corrected) index buffer, and each index read names a vertex.
   */
  lemma DrawReadsTheWholeIndexBuffer(s: Surface)
    ensures var cmds := FrameCommands(s);
      cmds[3].indexCount * IndexFormatBytes(cmds[2].format) == IndexBufferSize()
      && cmds[3].indexCount * IndexFormatBytes(cmds[2].format) < IndexBufferSizeAsWritten()
    ensures forall k | 0 <= k < FrameCommands(s)[3].indexCount :: QuadIndices()[k] < |QuadVertices()|
  {
    QuadIndicesFormTheSquare();
  }

  // ---------------------------------------------------------------------------
  // Uniforms.
  // ---------------------------------------------------------------------------

  /** A 4x4 matrix, column-major as 16 floats, and a 4-vector. */
  type Matrix = m: seq<real> | |m| == 16 witness seq(16, _ => 0.0)
  type Vector = v: seq<real> | |v| == 4 witness seq(4, _ => 0.0)

  /** `ubo_vs`. */
  datatype Ubo = Ubo(projection: Matrix, modelView: Matrix, viewPos: Vector, lodBias: real)

  /** The camera fields the demo reads. */
  datatype Camera = Camera(perspective: Matrix, view: Matrix, viewPos: Vector)

  /**
   * `update_uniform_buffers`: the block takes the camera's projection, view
   * matrix and position; the LOD bias, set only from the settings overlay,
   * is left as it was.
   */
  function UpdateUniforms(u: Ubo, cam: Camera): (r: Ubo)
    ensures r.projection == cam.perspective && r.modelView == cam.view && r.viewPos == cam.viewPos
    ensures r.lodBias == u.lodBias
  {
    u.(projection := cam.perspective, modelView := cam.view, viewPos := cam.viewPos)
  }

  /**
   * Nothing else changes: two blocks updated from the same camera agree
   * exactly when their LOD biases agree, and a second update from the same
   * camera changes nothing.
   */
  lemma UpdateDependsOnlyOnCameraAndBias(u1: Ubo, u2: Ubo, cam: Camera)
    ensures UpdateUniforms(u1, cam) == UpdateUniforms(u2, cam) <==> u1.lodBias == u2.lodBias
    ensures UpdateUniforms(UpdateUniforms(u1, cam), cam) == UpdateUniforms(u1, cam)
  {
  }

  // ---------------------------------------------------------------------------
  // Lifecycle.
  // ---------------------------------------------------------------------------

  /**
   * The file-level state the demo's entry points keep: `prepared`, the
   * uniform block, the uniform buffer size recorded in `uniform_buffer_vs`,
   * the uniform layout entry's `minBindingSize`, the uniform bind group
   * entry's size, and the index buffer's contents.
   */
  datatype DemoState = DemoState(
    prepared: bool,
    ubo: Ubo,
    uniformSize: nat,
    layoutMinBindingSize: nat,
    bindGroupUniformSize: nat,
    indexBuffer: Option<seq<Byte>>)

  /** The zero-initialised statics before any call. */
  const InitialState: DemoState :=
    DemoState(false, Ubo(seq(16, _ => 0.0), seq(16, _ => 0.0), seq(4, _ => 0.0), 0.0), 0, 0, 0, None)

  /**
   * `example_initialize` with a context, and with the index buffer sized
   * `indexSize`: the quad's buffers are made, then the pipeline layout takes
   * the uniform size as recorded so far, then the uniform buffer is made with
   * `uboBytes` (`sizeof(ubo_vs)`) and filled from the camera, then the bind
   * group binds it whole.  Without a context it returns 1 and changes nothing.
   */
  method InitializeWith(hasContext: bool, s: DemoState, cam: Camera, uboBytes: nat, indexSize: nat)
    returns (status: int, s': DemoState)
    ensures Lifecycle.InitializeStep(s.prepared, hasContext) == Lifecycle.Step(status, s'.prepared)
    ensures !hasContext ==> s' == s
    ensures hasContext ==> s'.indexBuffer == CreateBufferFromData(EncodeU16(QuadIndices()), indexSize)
    ensures hasContext ==> s'.layoutMinBindingSize == s.uniformSize
    ensures hasContext ==> s'.uniformSize == uboBytes && s'.bindGroupUniformSize == uboBytes
    ensures hasContext ==> s'.ubo == UpdateUniforms(s.ubo, cam)
  {
    if !hasContext {
      return 1, s;
    }
    var st := s.(indexBuffer := CreateBufferFromData(EncodeU16(QuadIndices()), indexSize));
    st := st.(layoutMinBindingSize := st.uniformSize);
    st := st.(uniformSize := uboBytes);
    st := st.(ubo := UpdateUniforms(st.ubo, cam));
    st := st.(bindGroupUniformSize := st.uniformSize);
    s' := st.(prepared := true);
    status := 0;
  }

  /** `example_initialize` with the index buffer sized as the source writes it. */
  method ExampleInitializeAsWritten(hasContext: bool, s: DemoState, cam: Camera, uboBytes: nat)
    returns (status: int, s': DemoState)
    ensures Lifecycle.InitializeStep(s.prepared, hasContext) == Lifecycle.Step(status, s'.prepared)
    ensures hasContext ==> s'.indexBuffer.None?
  {
    status, s' := InitializeWith(hasContext, s, cam, uboBytes, IndexBufferSizeAsWritten());
    IndexBufferCreationOverReads();
  }

  /**
   * `example_initialize` with the index buffer sized by its `uint16_t`
   * elements.  From the initial statics, the layout is created while the
   * uniform size is still 0, so it states no minimum binding size, and the
   * bind group binds the whole uniform buffer.
   */
  method ExampleInitialize(hasContext: bool, s: DemoState, cam: Camera, uboBytes: nat)
    returns (status: int, s': DemoState)
    ensures Lifecycle.InitializeStep(s.prepared, hasContext) == Lifecycle.Step(status, s'.prepared)
    ensures !hasContext ==> s' == s
    ensures hasContext ==>
              s'.indexBuffer.Some? && |s'.indexBuffer.value| % 2 == 0 && DecodeU16(s'.indexBuffer.value) == QuadIndices()
    ensures hasContext && s == InitialState ==> s'.layoutMinBindingSize == 0
    ensures hasContext ==> s'.bindGroupUniformSize == s'.uniformSize == uboBytes
    ensures hasContext ==> s'.ubo == UpdateUniforms(s.ubo, cam)
  {
    status, s' := InitializeWith(hasContext, s, cam, uboBytes, IndexBufferSize());
    IndexBufferHoldsTheIndices();
  }

  /**
   * `example_render`: before preparation it returns 1 and records nothing;
   * afterwards it records the frame's commands and returns 0.  The state is
   * not changed.
   */
  method ExampleRender(s: DemoState, surface: Surface) returns (status: int, cmds: seq<Command>)
    ensures Lifecycle.RenderStep(s.prepared).status == status
    ensures !s.prepared ==> cmds == []
    ensures s.prepared ==> cmds == FrameCommands(surface)
  {
    if !s.prepared {
      return 1, [];
    }
    cmds := FrameCommands(surface);
    status := 0;
  }
}
