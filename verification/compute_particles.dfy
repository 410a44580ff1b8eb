/**
 * The compute-shader particle demo: the buffer sizes and dispatch/draw
 * counts, the initial particle data, the two-phase attractor animation
 * (a warm-up countdown, then an orbit timer in [0, 1]) and the uniform
 * block the compute shader reads.  Floats are modelled as reals; `rand()`
 * is an input in [0, RAND_MAX] and `sin` of the orbit phase is an input.
 */
module ComputeParticles {

  import Lifecycle

  /** `PARTICLE_COUNT`, expanded as the macro text `256 * 1024`. */
  const ParticleCount: nat := 256 * 1024

  /** The divisor of the dispatch: particles handled by one workgroup. */
  const WorkgroupSize: nat := 256

  const FloatBytes: nat := 4

  /** `sizeof(particle_t)`: vec2 pos, vec2 vel, vec4 gradient_pos. */
  const ParticleBytes: nat := (2 + 2 + 4) * FloatBytes

  /** `sizeof(compute.ubo)`: three floats and an int32. */
  const UboBytes: nat := 3 * FloatBytes + 4

  /** The storage buffer holds every particle. */
  const StorageBufferSize: nat := ParticleCount * ParticleBytes

  // ---------------------------------------------------------------------------
  // Buffers, bindings and commands.
  // ---------------------------------------------------------------------------

  datatype ComputeBuffer = StorageBuffer | UniformBuffer

  /** A bind group layout entry's `minBindingSize`, and a bind group entry's buffer and `size`. */
  datatype LayoutEntry = LayoutEntry(binding: nat, minBindingSize: nat)
  datatype GroupEntry = GroupEntry(binding: nat, buffer: ComputeBuffer, size: nat)

  /** The size each compute buffer is created with. */
  function ComputeBufferSize(b: ComputeBuffer): nat
  {
    match b
    case StorageBuffer => StorageBufferSize
    case UniformBuffer => UboBytes
  }

  /** The compute bind group layout entries of `prepare_compute`. */
  const ComputeLayout: seq<LayoutEntry> := [LayoutEntry(0, ParticleCount * ParticleBytes), LayoutEntry(1, UboBytes)]

  /** The compute bind group entries of `prepare_compute`. */
  const ComputeGroup: seq<GroupEntry> := [GroupEntry(0, StorageBuffer, ParticleCount * ParticleBytes), GroupEntry(1, UniformBuffer, UboBytes)]

  /**
   * Each bind group entry binds its whole buffer and meets its layout
   * entry's minimum size exactly.
   */
  lemma ComputeBindingsMatchBuffers()
    ensures |ComputeLayout| == |ComputeGroup| == 2
    ensures forall k | 0 <= k < 2 ::
      ComputeGroup[k].binding == ComputeLayout[k].binding
      && ComputeGroup[k].size == ComputeLayout[k].minBindingSize
      && ComputeGroup[k].size == ComputeBufferSize(ComputeGroup[k].buffer)
  {
  }

  datatype Command = Dispatch(x: nat, y: nat, z: nat) | Draw(vertexCount: nat, instanceCount: nat)

  /**
   * `build_command_buffer`: a compute pass dispatching `PARTICLE_COUNT / 256`
   * workgroups, then a render pass drawing one vertex per particle.  The
   * dispatch covers every particle exactly once and the draw reads every
   * particle the compute pass wrote.
   */
  function FrameCommands(): (cmds: seq<Command>)
    ensures |cmds| == 2 && cmds[0].Dispatch? && cmds[1].Draw?
    ensures cmds[0].x * cmds[0].y * cmds[0].z * WorkgroupSize == ParticleCount
    ensures cmds[1].vertexCount == ParticleCount && cmds[1].instanceCount == 1
    ensures cmds[1].vertexCount * ParticleBytes == ComputeBufferSize(StorageBuffer)
  {
    [Dispatch(ParticleCount / WorkgroupSize, 1, 1), Draw(ParticleCount, 1)]
  }

  // ---------------------------------------------------------------------------
  // Initial particles.
  // ---------------------------------------------------------------------------

  datatype Vec2 = Vec2(x: real, y: real)
  datatype Vec4 = Vec4(x: real, y: real, z: real, w: real)

  /** One `particle_t`. */
  datatype Particle = Particle(pos: Vec2, vel: Vec2, gradientPos: Vec4)

  /**
   * `rand_float_min_max` for the value `r` that `rand()` returned: the
   * fraction r / RAND_MAX scaled into [min, max] (rounding not modelled).
   */
  function RandFloatMinMax(min: real, max: real, r: int, randMax: nat): (v: real)
    requires randMax > 0 && 0 <= r <= randMax && min <= max
    ensures min <= v <= max
    ensures r == 0 ==> v == min
    ensures r == randMax ==> v == max
  {
    var q := r as real / randMax as real;
    assert 0.0 <= q <= 1.0;
    ScaleWithinUnit(max - min, q);
    (max - min) * q + min
  }

  /** Scaling a non-negative value by a fraction in [0, 1] keeps it between 0 and itself. */
  lemma ScaleWithinUnit(a: real, q: real)
    requires a >= 0.0 && 0.0 <= q <= 1.0
    ensures 0.0 <= a * q <= a
  {
    assert a * (1.0 - q) >= 0.0;
  }

  /**
   * `prepare_storage_buffers`: particle i gets a position drawn from the
   * two `rand()` values `rands[2i]` and `rands[2i+1]`, zero velocity, and a
   * gradient position that is zero except for its first component, half
   * the x position.  Every position lies in [-1, 1] and every first
   * gradient component in [-1/2, 1/2].
   */
  method PrepareStorageBuffers(rands: seq<int>, randMax: nat) returns (particles: seq<Particle>)
    requires randMax > 0 && |rands| == 2 * ParticleCount
    requires forall k | 0 <= k < |rands| :: 0 <= rands[k] <= randMax
    ensures |particles| == ParticleCount
    ensures |particles| * ParticleBytes == StorageBufferSize
    ensures forall i | 0 <= i < |particles| ::
      -1.0 <= particles[i].pos.x <= 1.0 && -1.0 <= particles[i].pos.y <= 1.0
    ensures forall i | 0 <= i < |particles| :: particles[i].vel == Vec2(0.0, 0.0)
    ensures forall i | 0 <= i < |particles| ::
      particles[i].gradientPos == Vec4(particles[i].pos.x / 2.0, 0.0, 0.0, 0.0)
    ensures forall i | 0 <= i < |particles| :: -0.5 <= particles[i].gradientPos.x <= 0.5
    ensures forall i | 0 <= i < |particles| ::
      particles[i].pos == Vec2(RandFloatMinMax(-1.0, 1.0, rands[2 * i], randMax), RandFloatMinMax(-1.0, 1.0, rands[2 * i + 1], randMax))
  {
    particles := [];
    var i := 0;
    while i < ParticleCount
      invariant 0 <= i <= ParticleCount && |particles| == i
      invariant forall j | 0 <= j < i ::
        particles[j].pos == Vec2(RandFloatMinMax(-1.0, 1.0, rands[2 * j], randMax), RandFloatMinMax(-1.0, 1.0, rands[2 * j + 1], randMax))
      invariant forall j | 0 <= j < i :: particles[j].vel == Vec2(0.0, 0.0)
      invariant forall j | 0 <= j < i :: particles[j].gradientPos == Vec4(particles[j].pos.x / 2.0, 0.0, 0.0, 0.0)
    {
      var pos := Vec2(RandFloatMinMax(-1.0, 1.0, rands[2 * i], randMax), RandFloatMinMax(-1.0, 1.0, rands[2 * i + 1], randMax));
      var p := Particle(pos, Vec2(0.0, 0.0), Vec4(0.0, 0.0, 0.0, 0.0));
      p := p.(gradientPos := p.gradientPos.(x := p.pos.x / 2.0));
      particles := particles + [p];
      i := i + 1;
    }
  }

  // ---------------------------------------------------------------------------
  // Attractor animation.
  // ---------------------------------------------------------------------------

  /** The two file-level animation variables. */
  datatype AnimState = AnimState(timer: real, animStart: real)

  /** `timer` and `animStart` at start-up. */
  const InitialAnim: AnimState := AnimState(0.0, 20.0)

  /**
   * The animation part of `example_render` for one frame of length `ft`:
   * nothing moves while attached to the cursor; otherwise the warm-up
   * countdown runs while positive, and after it the orbit timer advances and
   * wraps to 0 once it exceeds 1.
   */
  function Animate(s: AnimState, attachToCursor: bool, ft: real): (r: AnimState)
    ensures attachToCursor ==> r == s
    ensures !attachToCursor && s.animStart > 0.0 ==> r == AnimState(s.timer, s.animStart - ft * 5.0)
    ensures !attachToCursor && s.animStart <= 0.0 ==> r.animStart == s.animStart
    ensures !attachToCursor && s.animStart <= 0.0 ==>
      r.timer == (if s.timer + ft * 0.04 > 1.0 then 0.0 else s.timer + ft * 0.04)
    ensures 0.0 <= s.timer <= 1.0 && ft >= 0.0 ==> 0.0 <= r.timer <= 1.0
  {
    if attachToCursor then s
    else if s.animStart > 0.0 then s.(animStart := s.animStart - ft * 5.0)
    else
      var t := s.timer + ft * 0.04;
      s.(timer := if t > 1.0 then 0.0 else t)
  }

  /** One frame's inputs to the animation: the cursor flag and the frame time. */
  datatype FrameInput = FrameInput(attachToCursor: bool, frameTimer: real)

  /** The animation state after a sequence of frames. */
  function Run(s: AnimState, frames: seq<FrameInput>): AnimState
    decreases |frames|
  {
    if frames == [] then s
    else Run(Animate(s, frames[0].attachToCursor, frames[0].frameTimer), frames[1..])
  }

  /** Frame times are never negative. */
  predicate NonNegativeTimes(frames: seq<FrameInput>)
  {
    forall k | 0 <= k < |frames| :: frames[k].frameTimer >= 0.0
  }

  /** From a timer in [0, 1] (such as the initial 0), non-negative frame times keep it in [0, 1]. */
  lemma {:induction false} TimerStaysInUnitInterval(s: AnimState, frames: seq<FrameInput>)
    requires 0.0 <= s.timer <= 1.0 && NonNegativeTimes(frames)
    ensures 0.0 <= Run(s, frames).timer <= 1.0
    decreases |frames|
  {
    if frames != [] {
      TimerStaysInUnitInterval(Animate(s, frames[0].attachToCursor, frames[0].frameTimer), frames[1..]);
    }
  }

  /** Once the warm-up countdown has reached zero or below, it never moves again. */
  lemma {:induction false} WarmUpEndIsFinal(s: AnimState, frames: seq<FrameInput>)
    requires s.animStart <= 0.0
    ensures Run(s, frames).animStart == s.animStart
    decreases |frames|
  {
    if frames != [] {
      WarmUpEndIsFinal(Animate(s, frames[0].attachToCursor, frames[0].frameTimer), frames[1..]);
    }
  }

  /** Running a sequence and then one more frame is animating the run's result by that frame. */
  lemma {:induction false} RunThenFrame(s: AnimState, frames: seq<FrameInput>, f: FrameInput)
    ensures Run(s, frames + [f]) == Animate(Run(s, frames), f.attachToCursor, f.frameTimer)
    decreases |frames|
  {
    if frames != [] {
      assert (frames + [f])[1..] == frames[1..] + [f];
      RunThenFrame(Animate(s, frames[0].attachToCursor, frames[0].frameTimer), frames[1..], f);
    }
  }

  /**
   * After the warm-up, whatever frames came before, a detached frame of
   * length `ft` advances the orbit timer by exactly ft * 0.04, or resets it
   * to 0 when that would take it past 1.
   */
  lemma OrbitTimerAdvancesOrWraps(s: AnimState, frames: seq<FrameInput>, f: FrameInput)
    requires s.animStart <= 0.0 && !f.attachToCursor
    ensures var before, after := Run(s, frames).timer, Run(s, frames + [f]).timer;
      && (before + f.frameTimer * 0.04 <= 1.0 ==> after == before + f.frameTimer * 0.04)
      && (before + f.frameTimer * 0.04 > 1.0 ==> after == 0.0)
  {
    RunThenFrame(s, frames, f);
    WarmUpEndIsFinal(s, frames);
  }

  /** Frames spent attached to the cursor change neither variable. */
  lemma {:induction false} AttachedFramesFreezeAnimation(s: AnimState, frames: seq<FrameInput>)
    requires forall k | 0 <= k < |frames| :: frames[k].attachToCursor
    ensures Run(s, frames) == s
    decreases |frames|
  {
    if frames != [] {
      AttachedFramesFreezeAnimation(s, frames[1..]);
    }
  }

  /**
   * During the warm-up the orbit timer does not move: a run in which the
   * countdown stays positive leaves the timer where it started.
   */
  lemma {:induction false} WarmUpLeavesTimer(s: AnimState, frames: seq<FrameInput>)
    requires s.animStart > 0.0 && NonNegativeTimes(frames)
    requires Run(s, frames).animStart > 0.0
    ensures Run(s, frames).timer == s.timer
    decreases |frames|
  {
    if frames != [] {
      var next := Animate(s, frames[0].attachToCursor, frames[0].frameTimer);
      if next.animStart <= 0.0 {
        WarmUpEndIsFinal(next, frames[1..]);
      } else {
        WarmUpLeavesTimer(next, frames[1..]);
      }
    }
  }

  // ---------------------------------------------------------------------------
  // The compute uniform block.
  // ---------------------------------------------------------------------------

  /** `compute.ubo`. */
  datatype Ubo = Ubo(deltaT: real, destX: real, destY: real, particleCount: int)

  /** The cursor inputs: surface size and mouse position in pixels. */
  datatype Cursor = Cursor(width: real, height: real, mouseX: real, mouseY: real)

  /**
   * `update_uniform_buffers`: the time step is 2.5 frame times; detached,
   * the attractor orbits on the x axis at 0.75 times `sinPhase` (the sine of
   * the timer's angle); attached, it sits under the cursor in normalised
   * device coordinates, with y pointing up.  `particle_count` is not written.
   */
  function UpdateUniforms(u: Ubo, ft: real, attachToCursor: bool, sinPhase: real, c: Cursor): (r: Ubo)
    requires attachToCursor ==> c.width > 0.0 && c.height > 0.0
    ensures r.particleCount == u.particleCount
    ensures r.deltaT == ft * 2.5
    ensures !attachToCursor ==> r.destY == 0.0 && r.destX == sinPhase * 0.75
    ensures !attachToCursor && -1.0 <= sinPhase <= 1.0 ==> -0.75 <= r.destX <= 0.75
    ensures attachToCursor ==>
      c.mouseX == c.width / 2.0 + r.destX * (c.width / 2.0)
      && c.mouseY == c.height / 2.0 - r.destY * (c.height / 2.0)
  {
    if !attachToCursor then
      u.(deltaT := ft * 2.5, destX := sinPhase * 0.75, destY := 0.0)
    else
      var hw, hh := c.width / 2.0, c.height / 2.0;
      var nx := (c.mouseX - hw) / hw;
      var ny := (hh - c.mouseY) / hh;
      assert nx * hw == c.mouseX - hw;
      assert ny * hh == hh - c.mouseY;
      u.(deltaT := ft * 2.5, destX := nx, destY := ny)
  }

  /**
   * The normalisation's anchors: the surface centre maps to (0, 0), the
   * right edge to x = +1, the left edge to x = -1, the top row (mouse y = 0)
   * to y = +1 and the bottom row to y = -1.
   */
  lemma CursorNormalisationAnchors(u: Ubo, ft: real, sinPhase: real, c: Cursor)
    requires c.width > 0.0 && c.height > 0.0
    ensures c.mouseX == c.width / 2.0 ==> UpdateUniforms(u, ft, true, sinPhase, c).destX == 0.0
    ensures c.mouseY == c.height / 2.0 ==> UpdateUniforms(u, ft, true, sinPhase, c).destY == 0.0
    ensures c.mouseX == c.width ==> UpdateUniforms(u, ft, true, sinPhase, c).destX == 1.0
    ensures c.mouseX == 0.0 ==> UpdateUniforms(u, ft, true, sinPhase, c).destX == -1.0
    ensures c.mouseY == 0.0 ==> UpdateUniforms(u, ft, true, sinPhase, c).destY == 1.0
    ensures c.mouseY == c.height ==> UpdateUniforms(u, ft, true, sinPhase, c).destY == -1.0
  {
    var r := UpdateUniforms(u, ft, true, sinPhase, c);
    var hw, hh := c.width / 2.0, c.height / 2.0;
    assert r.destX == (c.mouseX - hw) / hw && r.destY == (hh - c.mouseY) / hh;
    assert hw / hw == 1.0 && hh / hh == 1.0;
    if c.mouseX == c.width {
      assert c.mouseX - hw == hw;
    }
    if c.mouseX == 0.0 {
      assert (c.mouseX - hw) / hw == -(hw / hw);
    }
    if c.mouseY == c.height {
      assert (hh - c.mouseY) / hh == -(hh / hh);
    }
  }

  /** `prepare_uniform_buffers`: sets `particle_count`, then performs a first update. */
  function PrepareUniforms(u: Ubo, ft: real, attachToCursor: bool, sinPhase: real, c: Cursor): (r: Ubo)
    requires attachToCursor ==> c.width > 0.0 && c.height > 0.0
    ensures r.particleCount == ParticleCount
  {
    UpdateUniforms(u.(particleCount := ParticleCount), ft, attachToCursor, sinPhase, c)
  }

  /** One frame's uniform update inputs. */
  datatype UniformInput = UniformInput(ft: real, attachToCursor: bool, sinPhase: real, cursor: Cursor)

  predicate ValidInput(i: UniformInput)
  {
    i.attachToCursor ==> i.cursor.width > 0.0 && i.cursor.height > 0.0
  }

  /** The block after a sequence of per-frame updates. */
  function UpdateAll(u: Ubo, inputs: seq<UniformInput>): Ubo
    requires forall k | 0 <= k < |inputs| :: ValidInput(inputs[k])
    decreases |inputs|
  {
    if inputs == [] then u
    else
      assert ValidInput(inputs[0]);
      assert forall k | 0 <= k < |inputs| - 1 :: inputs[1..][k] == inputs[k + 1];
      UpdateAll(UpdateUniforms(u, inputs[0].ft, inputs[0].attachToCursor, inputs[0].sinPhase, inputs[0].cursor), inputs[1..])
  }

  /** After preparation, `particle_count` stays `PARTICLE_COUNT` through any number of updates. */
  lemma {:induction false} ParticleCountIsStable(u: Ubo, inputs: seq<UniformInput>)
    requires u.particleCount == ParticleCount
    requires forall k | 0 <= k < |inputs| :: ValidInput(inputs[k])
    ensures UpdateAll(u, inputs).particleCount == ParticleCount
    decreases |inputs|
  {
    if inputs != [] {
      var i := inputs[0];
      ParticleCountIsStable(UpdateUniforms(u, i.ft, i.attachToCursor, i.sinPhase, i.cursor), inputs[1..]);
    }
  }

  // ---------------------------------------------------------------------------
  // Rendering.
  // ---------------------------------------------------------------------------

  /**
   * The file-level state the entry points read and write, with the particles
   * the CPU writes into the storage buffer at initialisation (the compute
   * shader's later updates to that buffer are not modelled).
   */
  datatype DemoState = DemoState(prepared: bool, anim: AnimState, ubo: Ubo, particles: seq<Particle>)

  /**
   * `example_initialize`: with a context it fills the storage buffer from
   * the `rand()` values, prepares the uniform block (whose particle count is
   * then `PARTICLE_COUNT`) and returns 0; without one it returns 1 and
   * changes nothing.  The animation variables are not touched.
   */
  method ExampleInitialize(hasContext: bool, s: DemoState, rands: seq<int>, randMax: nat, u: UniformInput)
    returns (status: int, s': DemoState)
    requires randMax > 0 && |rands| == 2 * ParticleCount
    requires forall k | 0 <= k < |rands| :: 0 <= rands[k] <= randMax
    requires ValidInput(u)
    ensures Lifecycle.InitializeStep(s.prepared, hasContext) == Lifecycle.Step(status, s'.prepared)
    ensures !hasContext ==> s' == s
    ensures hasContext ==> s'.anim == s.anim && s'.ubo.particleCount == ParticleCount
    ensures hasContext ==> s'.ubo == PrepareUniforms(s.ubo, u.ft, u.attachToCursor, u.sinPhase, u.cursor)
    ensures hasContext ==> |s'.particles| == ParticleCount
    ensures hasContext ==> forall i | 0 <= i < |s'.particles| ::
      s'.particles[i].pos == Vec2(RandFloatMinMax(-1.0, 1.0, rands[2 * i], randMax), RandFloatMinMax(-1.0, 1.0, rands[2 * i + 1], randMax))
    ensures hasContext ==> forall i | 0 <= i < |s'.particles| ::
      -1.0 <= s'.particles[i].pos.x <= 1.0 && -1.0 <= s'.particles[i].pos.y <= 1.0
    ensures hasContext ==> forall i | 0 <= i < |s'.particles| :: s'.particles[i].vel == Vec2(0.0, 0.0)
    ensures hasContext ==> forall i | 0 <= i < |s'.particles| ::
      s'.particles[i].gradientPos == Vec4(s'.particles[i].pos.x / 2.0, 0.0, 0.0, 0.0)
  {
    if !hasContext {
      return 1, s;
    }
    var particles := PrepareStorageBuffers(rands, randMax);
    var ubo := PrepareUniforms(s.ubo, u.ft, u.attachToCursor, u.sinPhase, u.cursor);
    s' := s.(prepared := true, ubo := ubo, particles := particles);
    status := 0;
  }

  /**
   * `example_render`: before preparation it returns 1 and changes nothing;
   * otherwise it records the frame's commands, advances the animation and
   * rewrites the uniform block from the frame time, the cursor and
   * `sinPhase` (the sine of the advanced timer's angle), and returns the
   * draw result 0.  The CPU does not write the particles again.
   */
  method ExampleRender(s: DemoState, input: FrameInput, sinPhase: real, c: Cursor) returns (status: int, cmds: seq<Command>, s': DemoState)
    requires input.attachToCursor ==> c.width > 0.0 && c.height > 0.0
    ensures Lifecycle.RenderStep(s.prepared) == Lifecycle.Step(status, s'.prepared)
    ensures !s.prepared ==> cmds == [] && s' == s
    ensures s.prepared ==> cmds == FrameCommands()
    ensures s.prepared ==> s'.anim == Animate(s.anim, input.attachToCursor, input.frameTimer)
    ensures s.prepared ==> s'.ubo == UpdateUniforms(s.ubo, input.frameTimer, input.attachToCursor, sinPhase, c)
    ensures s.prepared ==> s'.ubo.particleCount == s.ubo.particleCount
    ensures s.prepared ==> s'.ubo.deltaT == input.frameTimer * 2.5
    ensures s'.particles == s.particles
  {
    if !s.prepared {
      return 1, [], s;
    }
    cmds := FrameCommands();
    var anim := Animate(s.anim, input.attachToCursor, input.frameTimer);
    var ubo := UpdateUniforms(s.ubo, input.frameTimer, input.attachToCursor, sinPhase, c);
    s' := s.(anim := anim, ubo := ubo);
    status := 0;
  }
}
