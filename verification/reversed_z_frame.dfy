/**
 * One frame of the reversed-Z demo: the render-pass descriptors the prepare
 * functions build, the fields `build_command_buffer` patches every frame,
 * and the ordered passes it records for each render mode.
 */
module ReversedZFrame {

  import opened Wrappers
  import opened ReversedZ
  import Lifecycle

  // ---------------------------------------------------------------------------
  // Render pass descriptors.
  // ---------------------------------------------------------------------------

  /** A texture view: NULL, the swap-chain frame buffer of a frame, or one of the two depth textures. */
  datatype View = NullView | FrameBuffer(frame: nat) | DepthTextureView | DefaultDepthTextureView

  /**
   * `WGPULoadOp`.  `FromDepthValue(v)` is the enum value the float `v` of
   * `depth_load_values` converts to when it is assigned to `depthLoadOp`;
   * which operation that is is not modelled.
   */
  datatype LoadOp = Clear | Load | FromDepthValue(v: real)

  /** `WGPUStoreOp`; `UnsetStoreOp` is the zero value of a field the initialiser leaves out. */
  datatype StoreOp = Store | UnsetStoreOp

  datatype Rgba = Rgba(r: real, g: real, b: real, a: real)

  datatype ColorAttachment = ColorAttachment(view: View, loadOp: LoadOp, storeOp: StoreOp, clearColor: Rgba)

  datatype DepthAttachment = DepthAttachment(
    view: View, depthLoadOp: LoadOp, depthStoreOp: StoreOp, clearDepth: real,
    stencilLoadOp: LoadOp, stencilStoreOp: StoreOp, clearStencil: nat)

  /** A render pass descriptor: at most one colour attachment and an optional depth attachment. */
  datatype PassDescriptor = PassDescriptor(color: Option<ColorAttachment>, depth: Option<DepthAttachment>)

  /** The file's descriptors: the depth pre-pass one and the two draw and two texture-quad ones. */
  datatype Descriptors = Descriptors(depthPrePass: PassDescriptor, draw: seq<PassDescriptor>, textureQuad: seq<PassDescriptor>)

  /** The depth attachment the prepare functions initialise (the draw load descriptor then sets its load op to Load). */
  function ClearingDepth(view: View): DepthAttachment
  {
    DepthAttachment(view, Clear, Store, 1.0, Clear, Store, 0)
  }

  /** The colour attachment of the clearing descriptors: cleared to dark blue. */
  const ClearingColor: ColorAttachment := ColorAttachment(NullView, Clear, Store, Rgba(0.0, 0.0, 0.5, 1.0))

  /** The colour attachment of the load descriptors: only `view` and `loadOp` are initialised. */
  const LoadingColor: ColorAttachment := ColorAttachment(NullView, Load, UnsetStoreOp, Rgba(0.0, 0.0, 0.0, 0.0))

  /**
   * The descriptors as `prepare_depth_pre_pass_descriptor`,
   * `prepare_draw_pass_descriptors` and `prepare_texture_quad_pass_descriptors`
   * leave them.
   */
  function PreparedDescriptors(): Descriptors
  {
    Descriptors(
      PassDescriptor(None, Some(ClearingDepth(DepthTextureView))),
      [ PassDescriptor(Some(ClearingColor), Some(ClearingDepth(DefaultDepthTextureView))),
        PassDescriptor(Some(LoadingColor), Some(ClearingDepth(DefaultDepthTextureView).(depthLoadOp := Load))) ],
      [ PassDescriptor(Some(ClearingColor), None),
        PassDescriptor(Some(LoadingColor), None) ])
  }

  /** The descriptor with the two fields the frame patches reset: colour view NULL, depth load Clear. */
  function Erase(p: PassDescriptor): PassDescriptor
  {
    PassDescriptor(
      if p.color.Some? then Some(p.color.value.(view := NullView)) else None,
      if p.depth.Some? then Some(p.depth.value.(depthLoadOp := Clear)) else None)
  }

  /** `Erase` applied to every descriptor of the table. */
  function EraseAll(t: Descriptors): Descriptors
  {
    Descriptors(Erase(t.depthPrePass),
                seq(|t.draw|, i requires 0 <= i < |t.draw| => Erase(t.draw[i])),
                seq(|t.textureQuad|, i requires 0 <= i < |t.textureQuad| => Erase(t.textureQuad[i])))
  }

  /**
   * The table agrees with the prepared one in every field but the colour
   * views and depth load operations.
   */
  predicate Prepared(t: Descriptors)
  {
    EraseAll(t) == EraseAll(PreparedDescriptors())
  }

  /** The shape facts about a prepared table the frame relies on. */
  lemma PreparedShape(t: Descriptors)
    requires Prepared(t)
    ensures |t.draw| == 2 && |t.textureQuad| == 2
    ensures t.depthPrePass.color.None? && t.depthPrePass.depth.Some?
    ensures t.depthPrePass.depth.value.view == DepthTextureView
    ensures forall m: Variant :: t.draw[m].color.Some? && t.draw[m].depth.Some?
    ensures forall m: Variant :: t.draw[m].depth.value.view == DefaultDepthTextureView
    ensures forall m: Variant :: t.textureQuad[m].color.Some? && t.textureQuad[m].depth.None?
  {
    var e, p := EraseAll(t), EraseAll(PreparedDescriptors());
    assert |e.draw| == |p.draw| && |e.textureQuad| == |p.textureQuad|;
    assert e.depthPrePass == p.depthPrePass;
    forall m: Variant
      ensures t.draw[m].color.Some? && t.draw[m].depth.Some? && t.draw[m].depth.value.view == DefaultDepthTextureView
      ensures t.textureQuad[m].color.Some? && t.textureQuad[m].depth.None?
    {
      assert e.draw[m] == p.draw[m];
      assert e.textureQuad[m] == p.textureQuad[m];
    }
  }

  /** Sets the colour attachment's view. */
  function WithColorView(p: PassDescriptor, v: View): (q: PassDescriptor)
    requires p.color.Some?
    ensures q.color.Some? && q.color.value.view == v && Erase(q) == Erase(p)
  {
    p.(color := Some(p.color.value.(view := v)))
  }

  /** Sets the depth attachment's load operation. */
  function WithDepthLoadOp(p: PassDescriptor, op: LoadOp): (q: PassDescriptor)
    requires p.depth.Some?
    ensures q.depth.Some? && q.depth.value.depthLoadOp == op && Erase(q) == Erase(p)
  {
    p.(depth := Some(p.depth.value.(depthLoadOp := op)))
  }

  /** The load operation variant m's depth attachments are given: `depth_load_values[m]` converted. */
  function DepthLoadOpFor(m: Variant): LoadOp
  {
    FromDepthValue(DepthLoadValue(m))
  }

  // ---------------------------------------------------------------------------
  // Recorded passes.
  // ---------------------------------------------------------------------------

  /** `current_render_mode`. */
  datatype RenderMode = ColorMode | PrecisionErrorMode | DepthTextureQuadMode

  /**
   * The branch `build_command_buffer` takes for a mode value: 0 and 1 select
   * the first two branches and every other value the depth-texture-quad one.
   */
  function RenderModeOf(mode: int): (r: RenderMode)
    ensures r == ColorMode <==> mode == 0
    ensures r == PrecisionErrorMode <==> mode == 1
    ensures r == DepthTextureQuadMode <==> mode != 0 && mode != 1
  {
    if mode == 0 then ColorMode else if mode == 1 then PrecisionErrorMode else DepthTextureQuadMode
  }

  datatype PassKind = DepthPrePass | ColorPass | PrecisionErrorPass | DepthTextureQuadPass

  /** Which descriptor a pass was begun with. */
  datatype DescriptorRef = DepthPrePassDescriptor | DrawPassDescriptor(m: Variant) | TextureQuadPassDescriptor(m: Variant)

  /** The pipeline a pass sets: one of a family's two, or the single texture-quad pipeline. */
  datatype PipelineRef = FamilyPipeline(family: PipelineFamily, index: Variant) | TextureQuadPipeline

  datatype BindGroupRef = UniformBindGroupRef(m: Variant) | DepthTextureBindGroup

  datatype Viewport = Viewport(x: real, y: real, width: real, height: real, minDepth: real, maxDepth: real)

  /**
   * A recorded render pass: its kind and variant, the descriptor it was
   * begun with and that descriptor's contents at that moment, the pipeline,
   * the bind groups by slot, the vertex buffer, the viewport and the draw.
   */
  datatype Pass = Pass(
    kind: PassKind, variant: Variant, descriptor: DescriptorRef, begun: PassDescriptor,
    pipeline: PipelineRef, bindGroups: seq<BindGroupRef>, vertexBuffer: Option<Buffer>,
    viewport: Viewport, vertexCount: nat, instanceCount: nat)

  /** Variant m draws into the m-th half of the canvas, over the full depth range. */
  function VariantViewport(m: Variant): Viewport
  {
    Viewport((ViewportWidth * m) as real, 0.0, ViewportWidth as real, CanvasHeight as real, 0.0, 1.0)
  }

  /** Whether the viewport's horizontal extent covers canvas column x. */
  predicate CoversColumn(v: Viewport, x: real)
  {
    v.x <= x < v.x + v.width
  }

  /** The two variants' viewports split the canvas width into two disjoint halves that together cover it. */
  lemma ViewportsTileCanvas(x: real)
    ensures VariantViewport(0).x == 0.0 && VariantViewport(1).x + VariantViewport(1).width == CanvasWidth as real
    ensures 0.0 <= x < CanvasWidth as real ==> (CoversColumn(VariantViewport(0), x) <==> !CoversColumn(VariantViewport(1), x))
    ensures CoversColumn(VariantViewport(0), x) || CoversColumn(VariantViewport(1), x) ==> 0.0 <= x < CanvasWidth as real
  {
  }

  /** A pass that draws the two planes: 12 vertices, 5 instances, from the vertex buffer. */
  function ScenePass(kind: PassKind, m: Variant, descriptor: DescriptorRef, begun: PassDescriptor, family: PipelineFamily, groups: seq<BindGroupRef>): Pass
  {
    Pass(kind, m, descriptor, begun, FamilyPipeline(family, m), groups, Some(VertexBuffer), VariantViewport(m), GeometryDrawCount, NumInstances)
  }

  /**
   * The passes variant m records in a mode, and the table afterwards: each
   * pass is begun right after its descriptor's patch.
   */
  function VariantStep(mode: RenderMode, m: Variant, attachment: View, t: Descriptors): (Descriptors, seq<Pass>)
    requires Prepared(t)
  {
    PreparedShape(t);
    match mode
    case ColorMode =>
      var d := WithDepthLoadOp(WithColorView(t.draw[m], attachment), DepthLoadOpFor(m));
      (t.(draw := t.draw[m := d]),
       [ScenePass(ColorPass, m, DrawPassDescriptor(m), d, ColorPassFamily, [UniformBindGroupRef(m)])])
    case PrecisionErrorMode =>
      var pre := WithDepthLoadOp(t.depthPrePass, DepthLoadOpFor(m));
      var d := WithDepthLoadOp(WithColorView(t.draw[m], attachment), DepthLoadOpFor(m));
      (t.(depthPrePass := pre, draw := t.draw[m := d]),
       [ScenePass(DepthPrePass, m, DepthPrePassDescriptor, pre, DepthPrePassFamily, [UniformBindGroupRef(m)]),
        ScenePass(PrecisionErrorPass, m, DrawPassDescriptor(m), d, PrecisionPassFamily, [UniformBindGroupRef(m), DepthTextureBindGroup])])
    case DepthTextureQuadMode =>
      var pre := WithDepthLoadOp(t.depthPrePass, DepthLoadOpFor(m));
      var q := WithColorView(t.textureQuad[m], attachment);
      (t.(depthPrePass := pre, textureQuad := t.textureQuad[m := q]),
       [ScenePass(DepthPrePass, m, DepthPrePassDescriptor, pre, DepthPrePassFamily, [UniformBindGroupRef(m)]),
        Pass(DepthTextureQuadPass, m, TextureQuadPassDescriptor(m), q, TextureQuadPipeline, [DepthTextureBindGroup], None, VariantViewport(m), 6, 1)])
  }

  /** A variant's patches only touch the colour views and depth load operations. */
  lemma VariantStepKeepsPrepared(mode: RenderMode, m: Variant, attachment: View, t: Descriptors)
    requires Prepared(t)
    ensures Prepared(VariantStep(mode, m, attachment, t).0)
  {
    PreparedShape(t);
    var t' := VariantStep(mode, m, attachment, t).0;
    assert EraseAll(t') == EraseAll(t);
  }

  /** The frame's passes (variant 0's, then variant 1's) and the table after the frame. */
  function Frame(mode: RenderMode, attachment: View, t: Descriptors): (r: (Descriptors, seq<Pass>))
    requires Prepared(t)
    ensures Prepared(r.0)
  {
    VariantStepKeepsPrepared(mode, 0, attachment, t);
    var (t1, first) := VariantStep(mode, 0, attachment, t);
    VariantStepKeepsPrepared(mode, 1, attachment, t1);
    var (t2, second) := VariantStep(mode, 1, attachment, t1);
    (t2, first + second)
  }

  /** The passes of a frame. */
  function Schedule(mode: RenderMode, attachment: View, t: Descriptors): seq<Pass>
    requires Prepared(t)
  {
    Frame(mode, attachment, t).1
  }

  /**
   * `build_command_buffer`: the branch the mode selects loops over m = 0, 1,
   * patching the descriptor fields and recording the passes.  The recorded
   * passes are the frame's schedule, and only colour views and depth load
   * operations of the table change.
   */
  method BuildCommandBuffer(mode: int, attachment: View, t: Descriptors) returns (t': Descriptors, passes: seq<Pass>)
    requires Prepared(t)
    ensures (t', passes) == Frame(RenderModeOf(mode), attachment, t)
    ensures Prepared(t') && EraseAll(t') == EraseAll(t)
  {
    var r := RenderModeOf(mode);
    t' := t;
    passes := [];
    var m := 0;
    while m < 2
      invariant 0 <= m <= 2 && Prepared(t')
      invariant m == 0 ==> t' == t && passes == []
      invariant m == 1 ==> (t', passes) == VariantStep(r, 0, attachment, t)
      invariant m == 2 ==> (t', passes) == Frame(r, attachment, t)
    {
      PreparedShape(t');
      ghost var before := t';
      var step: seq<Pass>;
      if mode == 0 {
        var d := WithDepthLoadOp(WithColorView(t'.draw[m], attachment), DepthLoadOpFor(m));
        t' := t'.(draw := t'.draw[m := d]);
        step := [ScenePass(ColorPass, m, DrawPassDescriptor(m), d, ColorPassFamily, [UniformBindGroupRef(m)])];
      } else if mode == 1 {
        var pre := WithDepthLoadOp(t'.depthPrePass, DepthLoadOpFor(m));
        t' := t'.(depthPrePass := pre);
        var prePass := ScenePass(DepthPrePass, m, DepthPrePassDescriptor, pre, DepthPrePassFamily, [UniformBindGroupRef(m)]);
        var d := WithDepthLoadOp(WithColorView(t'.draw[m], attachment), DepthLoadOpFor(m));
        t' := t'.(draw := t'.draw[m := d]);
        step := [prePass, ScenePass(PrecisionErrorPass, m, DrawPassDescriptor(m), d, PrecisionPassFamily, [UniformBindGroupRef(m), DepthTextureBindGroup])];
      } else {
        var pre := WithDepthLoadOp(t'.depthPrePass, DepthLoadOpFor(m));
        t' := t'.(depthPrePass := pre);
        var prePass := ScenePass(DepthPrePass, m, DepthPrePassDescriptor, pre, DepthPrePassFamily, [UniformBindGroupRef(m)]);
        var q := WithColorView(t'.textureQuad[m], attachment);
        t' := t'.(textureQuad := t'.textureQuad[m := q]);
        step := [prePass, Pass(DepthTextureQuadPass, m, TextureQuadPassDescriptor(m), q, TextureQuadPipeline, [DepthTextureBindGroup], None, VariantViewport(m), 6, 1)];
      }
      assert (t', step) == VariantStep(r, m, attachment, before);
      VariantStepKeepsPrepared(r, m, attachment, before);
      if m == 0 {
        assert passes + step == step;
      }
      passes := passes + step;
      m := m + 1;
    }
    PreparedShape(t);
    assert EraseAll(t') == EraseAll(t);
  }

  // ---------------------------------------------------------------------------
  // Properties of the schedule.
  // ---------------------------------------------------------------------------

  /** The kinds of a pass list, in order. */
  function Kinds(s: seq<Pass>): seq<PassKind>
  {
    seq(|s|, i requires 0 <= i < |s| => s[i].kind)
  }

  /** The variants of a pass list, in order. */
  function Variants(s: seq<Pass>): seq<Variant>
  {
    seq(|s|, i requires 0 <= i < |s| => s[i].variant)
  }

  /**
   * The order of a frame's passes: mode 0 records the two colour passes,
   * variant 0 then 1; mode 1 records, per variant, the depth pre-pass and
   * right after it the precision-error pass; any other mode value records,
   * per variant, the depth pre-pass and right after it the texture-quad pass.
   */
  lemma ScheduleOrder(mode: int, attachment: View, t: Descriptors)
    requires Prepared(t)
    ensures mode == 0 ==>
      Kinds(Schedule(RenderModeOf(mode), attachment, t)) == [ColorPass, ColorPass]
      && Variants(Schedule(RenderModeOf(mode), attachment, t)) == [0, 1]
    ensures mode == 1 ==>
      Kinds(Schedule(RenderModeOf(mode), attachment, t)) == [DepthPrePass, PrecisionErrorPass, DepthPrePass, PrecisionErrorPass]
      && Variants(Schedule(RenderModeOf(mode), attachment, t)) == [0, 0, 1, 1]
    ensures mode != 0 && mode != 1 ==>
      Kinds(Schedule(RenderModeOf(mode), attachment, t)) == [DepthPrePass, DepthTextureQuadPass, DepthPrePass, DepthTextureQuadPass]
      && Variants(Schedule(RenderModeOf(mode), attachment, t)) == [0, 0, 1, 1]
  {
    var s := Schedule(RenderModeOf(mode), attachment, t);
    PreparedShape(t);
    VariantStepKeepsPrepared(RenderModeOf(mode), 0, attachment, t);
    PreparedShape(VariantStep(RenderModeOf(mode), 0, attachment, t).0);
    if mode == 0 {
      assert |s| == 2;
    } else {
      assert |s| == 4;
    }
  }

  /** The descriptor a reference names. */
  function DescriptorAt(t: Descriptors, r: DescriptorRef): PassDescriptor
    requires |t.draw| == 2 && |t.textureQuad| == 2
  {
    match r
    case DepthPrePassDescriptor => t.depthPrePass
    case DrawPassDescriptor(m) => t.draw[m]
    case TextureQuadPassDescriptor(m) => t.textureQuad[m]
  }

  /** The pipeline family a scene pass kind draws with. */
  function FamilyOf(k: PassKind): PipelineFamily
  {
    match k
    case DepthPrePass => DepthPrePassFamily
    case PrecisionErrorPass => PrecisionPassFamily
    case _ => ColorPassFamily
  }

  /**
   * The descriptor a pass of a kind and variant is begun with: the single
   * depth pre-pass one, texture-quad descriptor m, or draw descriptor m.
   */
  function DescriptorFor(k: PassKind, m: Variant): DescriptorRef
  {
    match k
    case DepthPrePass => DepthPrePassDescriptor
    case DepthTextureQuadPass => TextureQuadPassDescriptor(m)
    case _ => DrawPassDescriptor(m)
  }

  /** What every recorded pass binds, draws and begins with, as a property of one pass. */
  predicate PassWellFormed(p: Pass, attachment: View)
  {
    && p.descriptor == DescriptorFor(p.kind, p.variant)
    && p.viewport == VariantViewport(p.variant)
    && (p.begun.color.Some? ==> p.begun.color.value.view == attachment)
    && (p.kind != DepthTextureQuadPass ==>
          && p.pipeline == FamilyPipeline(FamilyOf(p.kind), p.variant)
          && |p.bindGroups| >= 1 && p.bindGroups[0] == UniformBindGroupRef(p.variant)
          && p.vertexBuffer == Some(VertexBuffer)
          && p.vertexCount == GeometryDrawCount && p.instanceCount == NumInstances
          && p.begun.depth.Some? && p.begun.depth.value.depthLoadOp == DepthLoadOpFor(p.variant)
          && p.begun.depth.value.clearDepth == 1.0)
    && (p.kind == DepthTextureQuadPass ==>
          && p.pipeline == TextureQuadPipeline && p.bindGroups == [DepthTextureBindGroup]
          && p.vertexBuffer.None? && p.vertexCount == 6 && p.instanceCount == 1
          && p.begun.depth.None?)
  }

  /**
   * Every pass of every frame: variant m uses pipeline index m of its family
   * and uniform bind group m, draws 12 vertices x 5 instances (the quad pass
   * 6 x 1 with the depth-texture bind group and no vertex buffer), sets
   * viewport m, and begins with the descriptor of its kind and variant (the
   * depth pre-pass one, draw descriptor m or texture-quad descriptor m) as
   * prepared, except that the colour view is the frame's attachment and the
   * depth load operation is variant m's; `clearDepth` is 1.0 in every depth
   * attachment.
   */
  lemma SchedulePassesWellFormed(mode: int, attachment: View, t: Descriptors)
    requires Prepared(t)
    ensures forall i | 0 <= i < |Schedule(RenderModeOf(mode), attachment, t)| ::
      PassWellFormed(Schedule(RenderModeOf(mode), attachment, t)[i], attachment)
    ensures forall i | 0 <= i < |Schedule(RenderModeOf(mode), attachment, t)| ::
      Erase(Schedule(RenderModeOf(mode), attachment, t)[i].begun)
      == Erase(DescriptorAt(PreparedDescriptors(), Schedule(RenderModeOf(mode), attachment, t)[i].descriptor))
  {
    var r := RenderModeOf(mode);
    VariantStepPassesWellFormed(r, 0, attachment, t);
    VariantStepKeepsPrepared(r, 0, attachment, t);
    VariantStepPassesWellFormed(r, 1, attachment, VariantStep(r, 0, attachment, t).0);
  }

  /** `SchedulePassesWellFormed` for the passes of one variant. */
  lemma VariantStepPassesWellFormed(mode: RenderMode, m: Variant, attachment: View, t: Descriptors)
    requires Prepared(t)
    ensures forall i | 0 <= i < |VariantStep(mode, m, attachment, t).1| ::
      PassWellFormed(VariantStep(mode, m, attachment, t).1[i], attachment)
      && Erase(VariantStep(mode, m, attachment, t).1[i].begun)
         == Erase(DescriptorAt(PreparedDescriptors(), VariantStep(mode, m, attachment, t).1[i].descriptor))
  {
    PreparedShape(t);
    var p := EraseAll(PreparedDescriptors());
    assert EraseAll(t) == p;
    assert Erase(t.depthPrePass) == p.depthPrePass;
    assert Erase(t.draw[m]) == p.draw[m];
    assert Erase(t.textureQuad[m]) == p.textureQuad[m];
  }

  /** The colour attachment a well-formed pass begins with, by its kind and variant. */
  lemma PassColorLoad(p: Pass, attachment: View)
    requires PassWellFormed(p, attachment)
    requires Erase(p.begun) == Erase(DescriptorAt(PreparedDescriptors(), p.descriptor))
    ensures p.begun.color.Some? <==> p.kind != DepthPrePass
    ensures p.begun.color.Some? ==>
      p.begun.color.value.loadOp == (if p.variant == 0 then Clear else Load)
      && (p.variant == 0 ==> p.begun.color.value.clearColor == Rgba(0.0, 0.0, 0.5, 1.0))
  {
  }

  /**
   * Variant 0 clears the colour target and variant 1 draws over it: in every
   * mode, each pass that writes colour begins with load operation Clear (to
   * dark blue) for variant 0 and Load for variant 1, and the variant-0 passes
   * come first, so variant 1's half is added to the cleared frame rather than
   * clearing away variant 0's.
   */
  lemma ColorClearedThenLoaded(mode: int, attachment: View, t: Descriptors)
    requires Prepared(t)
    ensures forall i | 0 <= i < |Schedule(RenderModeOf(mode), attachment, t)| ::
      var p := Schedule(RenderModeOf(mode), attachment, t)[i];
      p.begun.color.Some? <==> p.kind != DepthPrePass
    ensures forall i | 0 <= i < |Schedule(RenderModeOf(mode), attachment, t)| ::
      var p := Schedule(RenderModeOf(mode), attachment, t)[i];
      p.begun.color.Some? ==>
        p.begun.color.value.loadOp == (if p.variant == 0 then Clear else Load)
        && (p.variant == 0 ==> p.begun.color.value.clearColor == Rgba(0.0, 0.0, 0.5, 1.0))
    ensures forall i, j | 0 <= i < j < |Schedule(RenderModeOf(mode), attachment, t)| ::
      Schedule(RenderModeOf(mode), attachment, t)[i].variant <= Schedule(RenderModeOf(mode), attachment, t)[j].variant
  {
    var s := Schedule(RenderModeOf(mode), attachment, t);
    ScheduleOrder(mode, attachment, t);
    SchedulePassesWellFormed(mode, attachment, t);
    forall i | 0 <= i < |s|
      ensures s[i].begun.color.Some? <==> s[i].kind != DepthPrePass
      ensures s[i].begun.color.Some? ==>
        s[i].begun.color.value.loadOp == (if s[i].variant == 0 then Clear else Load)
        && (s[i].variant == 0 ==> s[i].begun.color.value.clearColor == Rgba(0.0, 0.0, 0.5, 1.0))
    {
      PassColorLoad(s[i], attachment);
    }
    forall i, j | 0 <= i < j < |s|
      ensures s[i].variant <= s[j].variant
    {
      assert Variants(s)[i] == s[i].variant && Variants(s)[j] == s[j].variant;
    }
  }

  /**
   * Each consumer of the depth texture (precision-error and texture-quad
   * passes) comes right after the depth pre-pass of its own variant, which
   * renders into the depth texture; the consumer samples it through the
   * depth-texture bind group and does not render into it.
   */
  lemma PrePassFeedsItsConsumer(mode: int, attachment: View, t: Descriptors, i: nat)
    requires Prepared(t)
    requires i < |Schedule(RenderModeOf(mode), attachment, t)|
    requires Schedule(RenderModeOf(mode), attachment, t)[i].kind in {PrecisionErrorPass, DepthTextureQuadPass}
    ensures i >= 1
    ensures Schedule(RenderModeOf(mode), attachment, t)[i - 1].kind == DepthPrePass
    ensures Schedule(RenderModeOf(mode), attachment, t)[i - 1].variant == Schedule(RenderModeOf(mode), attachment, t)[i].variant
    ensures Schedule(RenderModeOf(mode), attachment, t)[i - 1].begun.depth.Some?
    ensures Schedule(RenderModeOf(mode), attachment, t)[i - 1].begun.depth.value.view == DepthTextureView
    ensures DepthTextureBindGroup in Schedule(RenderModeOf(mode), attachment, t)[i].bindGroups
    ensures Schedule(RenderModeOf(mode), attachment, t)[i].begun.depth.Some? ==>
      Schedule(RenderModeOf(mode), attachment, t)[i].begun.depth.value.view != DepthTextureView
  {
    var s := Schedule(RenderModeOf(mode), attachment, t);
    ScheduleOrder(mode, attachment, t);
    SchedulePassesWellFormed(mode, attachment, t);
    assert Kinds(s)[i] == s[i].kind && Kinds(s)[i - 1] == s[i - 1].kind;
    assert Variants(s)[i] == s[i].variant && Variants(s)[i - 1] == s[i - 1].variant;
    assert Erase(s[i - 1].begun) == Erase(PreparedDescriptors().depthPrePass);
    if s[i].begun.depth.Some? {
      assert Erase(s[i].begun) == Erase(DescriptorAt(PreparedDescriptors(), s[i].descriptor));
    }
  }

  /** Descriptors that agree outside the patched fields agree after the same patch. */
  lemma PatchDeterminedByErasure(p: PassDescriptor, q: PassDescriptor, v: View, op: LoadOp)
    requires Erase(p) == Erase(q)
    ensures p.color.None? && p.depth.Some? ==> WithDepthLoadOp(p, op) == WithDepthLoadOp(q, op)
    ensures p.color.Some? && p.depth.None? ==> WithColorView(p, v) == WithColorView(q, v)
    ensures p.color.Some? && p.depth.Some? ==>
      WithDepthLoadOp(WithColorView(p, v), op) == WithDepthLoadOp(WithColorView(q, v), op)
  {
    assert p.color.Some? <==> q.color.Some?;
    assert p.depth.Some? <==> q.depth.Some?;
  }

  /** A variant's passes depend on the table only through the fields the frame does not patch. */
  lemma VariantStepIgnoresPatchedFields(mode: RenderMode, m: Variant, attachment: View, t1: Descriptors, t2: Descriptors)
    requires Prepared(t1) && Prepared(t2)
    ensures VariantStep(mode, m, attachment, t1).1 == VariantStep(mode, m, attachment, t2).1
  {
    PreparedShape(t1);
    PreparedShape(t2);
    var e := EraseAll(t1);
    assert e == EraseAll(t2);
    assert Erase(t1.depthPrePass) == Erase(t2.depthPrePass);
    assert Erase(t1.draw[m]) == e.draw[m] == Erase(t2.draw[m]);
    assert Erase(t1.textureQuad[m]) == e.textureQuad[m] == Erase(t2.textureQuad[m]);
    PatchDeterminedByErasure(t1.depthPrePass, t2.depthPrePass, attachment, DepthLoadOpFor(m));
    PatchDeterminedByErasure(t1.draw[m], t2.draw[m], attachment, DepthLoadOpFor(m));
    PatchDeterminedByErasure(t1.textureQuad[m], t2.textureQuad[m], attachment, DepthLoadOpFor(m));
  }

  /**
   * A frame's passes do not depend on what earlier frames patched: any two
   * tables that agree with the prepared one outside the patched fields
   * record the same passes.
   */
  lemma ScheduleIgnoresPatchedFields(mode: RenderMode, attachment: View, t1: Descriptors, t2: Descriptors)
    requires Prepared(t1) && Prepared(t2)
    ensures Schedule(mode, attachment, t1) == Schedule(mode, attachment, t2)
  {
    VariantStepIgnoresPatchedFields(mode, 0, attachment, t1, t2);
    VariantStepKeepsPrepared(mode, 0, attachment, t1);
    VariantStepKeepsPrepared(mode, 0, attachment, t2);
    VariantStepIgnoresPatchedFields(mode, 1, attachment, VariantStep(mode, 0, attachment, t1).0, VariantStep(mode, 0, attachment, t2).0);
  }

  /** The table after a sequence of frames, each given by its mode value and attachment. */
  function AfterFrames(t: Descriptors, history: seq<(int, View)>): (r: Descriptors)
    requires Prepared(t)
    ensures Prepared(r)
    decreases |history|
  {
    if history == [] then t
    else AfterFrames(Frame(RenderModeOf(history[0].0), history[0].1, t).0, history[1..])
  }

  /**
   * No state carries over between frames: whatever modes earlier frames
   * used, a frame records exactly the passes it records on freshly
   * prepared descriptors.
   */
  lemma NoStateCarriesAcrossFrames(history: seq<(int, View)>, mode: int, attachment: View)
    ensures Schedule(RenderModeOf(mode), attachment, AfterFrames(PreparedDescriptors(), history))
         == Schedule(RenderModeOf(mode), attachment, PreparedDescriptors())
  {
    ScheduleIgnoresPatchedFields(RenderModeOf(mode), attachment, AfterFrames(PreparedDescriptors(), history), PreparedDescriptors());
  }

  // ---------------------------------------------------------------------------
  // Initialisation and rendering.
  // ---------------------------------------------------------------------------

  /** The demo's file-level state that survives between calls. */
  datatype DemoState = DemoState(
    prepared: bool, paused: bool, mode: int, descriptors: Descriptors,
    bindGroups: seq<Option<UniformBindGroup>>, mvp: seq<real>)

  /** The state is consistent: the matrix array has its size, and once prepared the descriptors are too. */
  predicate Valid(s: DemoState)
  {
    |s.mvp| == MvpFloatCount && (s.prepared ==> Prepared(s.descriptors))
  }

  /**
   * `example_initialize`: with a context, every prepare step runs, the
   * descriptors and bind groups are set up, `prepared` becomes true and the
   * result is 0; the render mode, the pause flag and the instance matrices
   * are not touched.  Without one nothing changes and the result is 1.
   */
  method ExampleInitialize(hasContext: bool, s: DemoState) returns (status: int, s': DemoState)
    requires Valid(s)
    ensures Valid(s')
    ensures Lifecycle.InitializeStep(s.prepared, hasContext) == Lifecycle.Step(status, s'.prepared)
    ensures hasContext ==> s'.descriptors == PreparedDescriptors() && s'.bindGroups == SetupUniformBindGroups()
    ensures s'.mode == s.mode && s'.paused == s.paused && s'.mvp == s.mvp
    ensures !hasContext ==> s' == s
  {
    if hasContext {
      s' := s.(descriptors := PreparedDescriptors(), bindGroups := SetupUniformBindGroups(), prepared := true);
      return 0, s';
    }
    return 1, s;
  }

  /**
   * `example_render`: before preparation it returns 1 and records nothing;
   * afterwards it records the frame's passes, leaves the descriptors as the
   * frame patched them, returns 0, and unless paused writes the rotated
   * model matrices into the instance slots and no other float.  The render
   * mode, the pause flag and the bind groups are not touched.
   */
  method ExampleRender(s: DemoState, attachment: View, rotated: seq<Mat4.Mat4>) returns (status: int, passes: seq<Pass>, s': DemoState)
    requires Valid(s) && |rotated| == NumInstances
    ensures Valid(s')
    ensures Lifecycle.RenderStep(s.prepared) == Lifecycle.Step(status, s'.prepared)
    ensures !s.prepared ==> passes == [] && s' == s
    ensures s.prepared ==> passes == Schedule(RenderModeOf(s.mode), attachment, s.descriptors)
    ensures s.prepared ==> s'.descriptors == Frame(RenderModeOf(s.mode), attachment, s.descriptors).0
    ensures s'.mode == s.mode && s'.paused == s.paused && s'.bindGroups == s.bindGroups
    ensures s.prepared && s.paused ==> s'.mvp == s.mvp
    ensures s.prepared && !s.paused ==>
      forall i, k | 0 <= i < NumInstances && 0 <= k < 16 :: s'.mvp[SlotStart(i) + k] == Mat4.Flatten(rotated[i])[k]
    ensures forall j | 0 <= j < |s.mvp| && !InSomeSlot(j) :: s'.mvp[j] == s.mvp[j]
  {
    if !s.prepared {
      return 1, [], s;
    }
    var t', recorded := BuildCommandBuffer(s.mode, attachment, s.descriptors);
    passes := recorded;
    s' := s.(descriptors := t');
    if !s.paused {
      var mvp := UpdateTransformationMatrix(s.mvp, rotated);
      s' := s'.(mvp := mvp);
    }
    status := 0;
  }
}
