# WebGPU native examples: reversed-Z, particles, textured quad and the example registry

This project models, in Dafny, the core of a gallery of C WebGPU demos:

- **The reversed-Z demo** (`src/examples/reversed_z.c`) draws the same scene twice, side by side: the
  left half uses the default depth convention (test `Less`, intended clear value 1) and the right
  half uses the reversed one (test `Greater`, with a depth-range remap matrix that maps clip depth
  `z` to `w - z`). The file's header comment asks for a depth clear value of 0.0 with the reversed
  technique, and the table `depth_load_values` holds 1.0 and 0.0. As written, though, every depth
  attachment has `clearDepth = 1.0`, so no pass clears its depth to 0.0, and
  `depth_load_values[m]` is only ever assigned to a `depthLoadOp` field. Whether a pass then clears
  or loads depends on that float-to-enum conversion, which the model leaves uninterpreted. The
  model keeps the code as written
  (`ReversedZ.ReversedTestFailsAgainstClearDepthOne`) and states the tables' intended relation
  separately (`ReversedZ.LoadValueIsFarthest`). The model covers:
  - the matrix layout and arithmetic (`Mat4`);
  - the per-variant tables, pipelines, buffers, bind groups and instance matrices (`ReversedZ`);
  - the render pass descriptors, the three render modes and the command schedule that
    `build_command_buffer` records each frame, and the `example_initialize` and `example_render`
    entry points (`ReversedZFrame`).
- **The example registry** (`src/examples/examples.c`) is a fixed table of 60 named entry points. It
  is searched by name and picked from at random (`Examples`).
- **The compute-shader particle demo** (`src/examples/compute_particles.c`) is modelled in
  `ComputeParticles`. It covers buffer sizes and dispatch/draw counts, the initial particle data,
  the two-phase attractor animation, and the uniform block.
- **The textured quad demo** (`src/examples/textured_quad.c`) is modelled in `TexturedQuad`. It
  covers the hard-coded quad and its buffers, the frame's viewport, scissor and indexed draw, and the
  uniform block copied from the camera.
- **The `prepared` lifecycle** shared by every example is modelled in `Lifecycle`:
  - `example_initialize` returns 0 and prepares the example when it is given a context, and
    returns 1 otherwise;
  - `example_render` returns 1 until the example is prepared.

GPU objects appear as plain values: a pipeline is known by its family and depth-stencil state, a
buffer by its name and size, and a render pass by the descriptor it began with, the pipeline, the
bind groups, the viewport and the draw counts. Floats are modelled as reals. Transcendental values
(`tan`, `sin`, `cos`, `glm_rotate`) are inputs or symbolic terms.

One property of the source is modelled as written and is worth knowing when reading
`ReversedZ`. `MATRIX_FLOAT_COUNT` is defined as `sizeof(mat4)`. That is a byte count (64), but it
is used as a float count, so instance `i` is written at float `64 * i` of `mvp_matrices_data`.
Only floats `[64i, 64i + 16)` are ever written, and float 16 (where a packed array of `mat4` would
hold instance 1) stays zero (`ReversedZ.PackedSecondMatrixIsNeverWritten`). The uniform buffer
size and the upload size use the same constant, so the buffer is self-consistent. Whether the
shader reads with a 64-float stride cannot be decided from the C source alone, so this is not
claimed as a defect.

## Model

| member | source | states |
|---|---|---|
| Mat4.Mul | src/examples/reversed_z.c:925-930 | entry (j, i) of the product is the sum over k of a[k][i]·b[j][k], cglm's column-major `glm_mat4_mul` |
| Mat4.Apply | src/examples/reversed_z.c:925-930 | component i of a transformed vector is row i of the matrix dotted with the vector |
| Mat4.Flatten | src/examples/reversed_z.c:59-60 | float 4c + r of a matrix's memory image is column c, row r: the layout `memcpy` copies |
| Mat4.FlattenInjective | src/examples/reversed_z.c:944-946 | two matrices with the same memory image are equal, so the copied floats determine the matrix |
| Mat4.FloatArrayToMat4 | src/examples/reversed_z.c:145-153 | the nested loop with a running index puts float 4r + c at out[r][c]; the result's memory image is exactly the input array |
| Mat4.RemapColumn | src/examples/reversed_z.c:61-66 | remap·x keeps x, y and w of each column and replaces z by w − z |
| Mat4.RemapIsInvolution | src/examples/reversed_z.c:61-66 | applying the depth-range remap twice gives back the original matrix |
| Mat4.RemapFlipsDepth | src/examples/reversed_z.c:61-66 | the remap sends the point (x, y, d, 1) to (x, y, 1 − d, 1) |
| Mat4.RemapReversesClipDepth | src/examples/reversed_z.c:927-930 | with the remapped camera, x, y and w of every clip position are unchanged, z becomes w − z, and the normalised depth z/w becomes 1 − z/w |
| Mat4.PerspectiveZoStoresEveryIndexOnce | src/examples/reversed_z.c:115-143 | on each branch, `perspective_zo` performs 16 stores to 16 distinct indices covering all of 0..15 |
| Mat4.RunStoresForgetsOverwritten | src/examples/reversed_z.c:115-143 | a store sequence's result does not depend on the prior contents of the indices it writes |
| Mat4.RunStoresKeepsEachStore | src/examples/reversed_z.c:115-143 | when the stored indices are distinct, every store's value survives to the end |
| Mat4.RunStoresKeepsUntouched | src/examples/reversed_z.c:115-143 | indices no store touches keep their prior contents |
| Mat4.PerspectiveZo | src/examples/reversed_z.c:115-143 | the result is the same for every prior array content; out[11] = −1, out[15] = 0; a finite far gives out[10] = far·nf and out[14] = far·near·nf; a null or infinite far gives −1 and −near |
| Examples.NumberOfExamples | src/examples/examples.c:136-139 | the count is the length of the table and is positive |
| Examples.GetExampleByName | src/examples/examples.c:146-157 | the result is the first row whose name matches; it is absent exactly when no row matches |
| Examples.FirstMatchIsUnique | src/examples/examples.c:146-157 | the first-match relation has at most one answer, so the lookup's result is determined |
| Examples.RandomExampleIndex | src/examples/examples.c:159-163 | `rand() % count` picks a valid row, congruent to the random value modulo the count |
| Examples.RandomPickReachesEveryRow | src/examples/examples.c:159-163 | every row is the pick for some random value, and values one count apart pick the same row |
| Examples.AdjacentNamesAscend | src/examples/examples.c:71-134 | each table row's name sorts strictly before the next row's |
| Examples.NamesAscend | src/examples/examples.c:71-134 | any earlier row's name sorts strictly before any later row's |
| Examples.NamesPairwiseDistinct | src/examples/examples.c:71-134 | no two rows share a name |
| Examples.LookupOfListedName | src/examples/examples.c:146-157 | looking up a listed name returns that very row, whose entry point is `example_` followed by the name |
| ReversedZ.VariantsAgreeUnderDepthFlip | src/examples/reversed_z.c:173-181 | the default test passes on (fragment, stored) exactly when the reversed test passes on (1 − fragment, 1 − stored); the reversed intended clear value is one minus the default one |
| ReversedZ.LoadValueIsFarthest | src/examples/reversed_z.c:173-181 | the tables' intended relation: with each variant's own compare function, any other depth in [0, 1] would pass against that variant's `depth_load_values` entry; as written no depth attachment is cleared to 0.0 |
| ReversedZ.ReversedTestFailsAgainstClearDepthOne | src/examples/reversed_z.c:632 | no depth in [0, 1] passes the reversed `Greater` test against the clear depth 1.0 that every depth attachment is given |
| ReversedZ.PrepareFamilyPipelines | src/examples/reversed_z.c:224-284 | pipeline m of a family equals the base state with its compare function replaced by `depth_compare_funcs[m]` |
| ReversedZ.InitialCompareIsOverwritten | src/examples/reversed_z.c:230 | the compare function set before the loop has no effect: two runs from bases that differ only there give the same pipelines, Less for variant 0 and Greater for variant 1 |
| ReversedZ.SetupUniformBindGroups | src/examples/reversed_z.c:831-882 | both slots are filled; slot m takes its layout from variant m's depth pre-pass pipeline; it binds the whole uniform buffer at 0 and variant m's camera buffer at 1; every binding fits its buffer; the two camera buffers differ |
| ReversedZ.UpdateTransformationMatrix | src/examples/reversed_z.c:938-950 | float k of slot i is float k of instance i's rotated matrix; every float outside the slots is unchanged |
| ReversedZ.PackedSecondMatrixIsNeverWritten | src/examples/reversed_z.c:938-946 | float 16 lies in no slot, and every slot fits inside `mvp_matrices_data` |
| ReversedZ.UniformUploadSize | src/examples/reversed_z.c:952-958 | the bytes written each frame equal the size the uniform buffer was created with |
| ReversedZ.InitModelPlacements | src/examples/reversed_z.c:884-904 | the running counter m visits the grid row-major: cell (x, y) gets m = x·Y_COUNT + y and the translation and scale computed from m |
| ReversedZ.LaterInstancesAreFartherAndLarger | src/examples/reversed_z.c:889-890 | a later instance sits strictly farther down −z and is scaled strictly larger |
| Mat4.MulComposes | src/examples/reversed_z.c:925-930 | the product transforms every vector as its right factor followed by its left: (a·b)v = a(bv) |
| ReversedZ.CameraMatrices | src/examples/reversed_z.c:924-935 | the default camera is `glm_mat4_mul(projection, view)`, so it applies the view and then the projection to every point; remapping the reversed camera gives back the default camera; for every point, w agrees and the reversed z is w minus the default z |
| ReversedZ.GeometryVertexArray | src/examples/reversed_z.c:185-201 | 96 floats, 384 bytes = 12 vertices × 32-byte stride; vertex k occupies floats 8k..8k+7 |
| ReversedZ.GeometryPlanes | src/examples/reversed_z.c:185-199 | every vertex has w = 1 and alpha 1; the first six are red at z = d, the last six green at z = −d |
| ReversedZ.PlanesAreShiftedCopies | src/examples/reversed_z.c:185-199 | the green plane is the red plane shifted by 2o in x and by 2d in depth |
| ReversedZFrame.PreparedShape | src/examples/reversed_z.c:626-749 | prepared descriptors: the pre-pass has only a depth attachment on the depth texture; both draw passes have colour and depth on the default depth texture; both quad passes have colour only |
| ReversedZFrame.WithColorView | src/examples/reversed_z.c:1009 | patching a colour view sets it and leaves the rest of the descriptor unchanged |
| ReversedZFrame.WithDepthLoadOp | src/examples/reversed_z.c:1010 | patching a depth load op sets it and leaves the rest of the descriptor unchanged |
| ReversedZFrame.RenderModeOf | src/examples/reversed_z.c:1007-1074 | mode 0 selects colour, 1 selects precision error, and any other value selects the depth texture quad |
| ReversedZFrame.ViewportsTileCanvas | src/examples/reversed_z.c:1018-1020 | the two variant viewports split the canvas width: every column is covered by exactly one of them, and neither covers anything outside |
| ReversedZFrame.VariantStepKeepsPrepared | src/examples/reversed_z.c:1007-1115 | one variant's passes only patch fields, so the descriptors stay in prepared shape |
| ReversedZFrame.Frame | src/examples/reversed_z.c:999-1127 | after a frame the descriptors are still in prepared shape |
| ReversedZFrame.BuildCommandBuffer | src/examples/reversed_z.c:999-1127 | the loop over both variants records exactly the frame's schedule and ends with descriptors equal to the prepared ones up to patched fields |
| ReversedZFrame.ScheduleOrder | src/examples/reversed_z.c:1007-1115 | colour mode records two colour passes (variants 0, 1); the other modes record pre-pass, consumer, pre-pass, consumer (variants 0, 0, 1, 1) |
| ReversedZFrame.SchedulePassesWellFormed | src/examples/reversed_z.c:1007-1115 | every recorded pass begins with the descriptor of its kind and variant (the pre-pass one, draw descriptor m or texture-quad descriptor m), as prepared up to the patched fields; it uses its family's pipeline for its variant, its variant's viewport and bind groups and the right draw counts |
| ReversedZFrame.VariantStepPassesWellFormed | src/examples/reversed_z.c:1007-1115 | the same, for the passes of one variant: each begins with the descriptor of its kind and variant m, as prepared up to the patched fields |
| ReversedZFrame.ColorClearedThenLoaded | src/examples/reversed_z.c:1007-1115 | in every mode exactly the non-pre-pass passes write colour; variant 0's begin with load op Clear to dark blue and variant 1's with Load; all variant-0 passes come before all variant-1 passes |
| ReversedZFrame.PrePassFeedsItsConsumer | src/examples/reversed_z.c:1029-1113 | every pass that samples the depth texture directly follows a depth pre-pass of the same variant that renders into the depth texture, and does not itself attach that texture |
| ReversedZFrame.PatchDeterminedByErasure | src/examples/reversed_z.c:1009-1010 | descriptors equal up to the patched fields become identical once patched |
| ReversedZFrame.VariantStepIgnoresPatchedFields | src/examples/reversed_z.c:1007-1115 | a variant's passes do not depend on what earlier frames left in the patched fields |
| ReversedZFrame.ScheduleIgnoresPatchedFields | src/examples/reversed_z.c:1007-1115 | a frame's schedule does not depend on what earlier frames left in the patched fields |
| ReversedZFrame.AfterFrames | src/examples/reversed_z.c:999-1127 | any history of frames keeps the descriptors in prepared shape |
| ReversedZFrame.NoStateCarriesAcrossFrames | src/examples/reversed_z.c:999-1127 | after any history of frames, in any modes, a frame records the same passes as the first frame after initialisation |
| ReversedZFrame.ExampleInitialize | src/examples/reversed_z.c:960-984 | the status and `prepared` follow the shared lifecycle; with a context the descriptors are the prepared ones and the bind groups those of `setup_uniform_bind_groups`; the render mode, pause flag and instance matrices never change; without a context nothing changes |
| ReversedZFrame.ExampleRender | src/examples/reversed_z.c:1149-1159 | before preparation: status 1, no passes, no change; afterwards: the mode's schedule, and the descriptors as that frame patched them; paused leaves the instance matrices alone, otherwise every slot holds the rotated matrix; floats outside the slots, the mode, the pause flag and the bind groups never change |
| Lifecycle.InitializeStep | src/examples/textured_quad.c:332-348 | status 0 exactly with a context, 1 exactly without; afterwards prepared exactly when it was before or a context was given |
| Lifecycle.RenderStep | src/examples/textured_quad.c:439-445 | status 1 exactly when unprepared, 0 exactly when prepared; the flag is unchanged |
| Lifecycle.PreparedIffInitialised | src/examples/textured_quad.c:332-348 | after any sequence of calls, an example is prepared exactly when it started prepared or some initialisation had a context |
| Lifecycle.RenderFailsUntilInitialised | src/examples/textured_quad.c:439-445 | from the initial state, a render returns 1 exactly when no earlier initialisation had a context |
| ComputeParticles.ComputeBindingsMatchBuffers | src/examples/compute_particles.c:376-427 | each compute bind group entry has the same binding as its layout entry, meets its minimum size exactly and binds its whole buffer |
| ComputeParticles.FrameCommands | src/examples/compute_particles.c:494-510 | the dispatch precedes the draw; dispatched workgroups × 256 = PARTICLE_COUNT; the draw reads PARTICLE_COUNT vertices, one instance, which is exactly the storage buffer |
| ComputeParticles.RandFloatMinMax | src/examples/compute_particles.c:72-76 | the value lies in [min, max], is min for `rand()` = 0 and max for `rand()` = RAND_MAX |
| ComputeParticles.PrepareStorageBuffers | src/examples/compute_particles.c:87-107 | PARTICLE_COUNT particles filling the storage buffer; positions in [−1, 1] drawn from the `rand()` values; zero velocity; gradient position (x/2, 0, 0, 0) with x/2 in [−½, ½] |
| ComputeParticles.Animate | src/examples/compute_particles.c:553-564 | attached: no change; warm-up: the countdown drops by 5·ft and the timer holds; afterwards the countdown holds and the timer becomes timer + 0.04·ft, or 0 when that exceeds 1; a timer in [0, 1] stays in [0, 1] for ft ≥ 0 |
| ComputeParticles.RunThenFrame | src/examples/compute_particles.c:547-569 | a run of frames followed by one more frame is that frame's animation step applied to the run's result |
| ComputeParticles.OrbitTimerAdvancesOrWraps | src/examples/compute_particles.c:558-563 | after the warm-up, whatever frames came before, a detached frame advances the timer by exactly 0.04·ft, or resets it to 0 when that would pass 1 |
| ComputeParticles.TimerStaysInUnitInterval | src/examples/compute_particles.c:558-563 | from a timer in [0, 1], such as the initial 0, any run of non-negative frame times keeps it in [0, 1] |
| ComputeParticles.WarmUpEndIsFinal | src/examples/compute_particles.c:555-558 | once the countdown is at or below zero it never changes again |
| ComputeParticles.AttachedFramesFreezeAnimation | src/examples/compute_particles.c:554 | frames attached to the cursor change neither animation variable |
| ComputeParticles.WarmUpLeavesTimer | src/examples/compute_particles.c:555-557 | a run throughout which the countdown stays positive leaves the timer where it was |
| ComputeParticles.UpdateUniforms | src/examples/compute_particles.c:109-134 | the particle count is untouched; Δt = 2.5·ft; detached, dest is (0.75·sin, 0) and dest_x lies in [−0.75, 0.75]; attached, mapping dest back to pixels gives the mouse position |
| ComputeParticles.CursorNormalisationAnchors | src/examples/compute_particles.c:119-128 | the surface centre maps to (0, 0); mouse x = width maps to +1 and x = 0 to −1; mouse y = 0 maps to +1 and y = height to −1 |
| ComputeParticles.PrepareUniforms | src/examples/compute_particles.c:137-151 | after preparation the block's particle count is PARTICLE_COUNT |
| ComputeParticles.ParticleCountIsStable | src/examples/compute_particles.c:113-140 | from a prepared block, any sequence of updates keeps the particle count at PARTICLE_COUNT |
| ComputeParticles.ExampleInitialize | src/examples/compute_particles.c:456-467 | lifecycle status; with a context: PARTICLE_COUNT particles with positions in [−1, 1] drawn from the `rand()` pairs, zero velocity and gradient (x/2, 0, 0, 0); the block is the prepared one, with count PARTICLE_COUNT; the animation is untouched; without one nothing changes |
| ComputeParticles.ExampleRender | src/examples/compute_particles.c:547-569 | lifecycle status; unprepared: no commands, no change; prepared: the frame's commands, one animation step, and the block updated from the frame time and cursor (so Δt = 2.5·ft and the particle count is untouched); the CPU never rewrites the particles |
| TexturedQuad.QuadTexturing | src/examples/textured_quad.c:92-97 | each vertex is a corner of [−1, 1]² in z = 0 with uv = ((x + 1)/2, (y + 1)/2) and normal (0, 0, 1) |
| TexturedQuad.QuadIndicesFormTheSquare | src/examples/textured_quad.c:92-103 | every index names a vertex; the triangles are (0, 1, 2) and (2, 3, 0); together they use every vertex; both wind counter-clockwise (the front face); their areas sum to the square's 4 |
| TexturedQuad.EncodeU16 | src/examples/textured_quad.c:102 | the byte image of 16-bit indices is two bytes per index |
| TexturedQuad.DecodeU16 | src/examples/textured_quad.c:397-398 | reading a Uint16 index buffer gives one index per two bytes |
| TexturedQuad.DecodeEncodeU16 | src/examples/textured_quad.c:397-398 | decoding the byte image of any index sequence gives it back |
| TexturedQuad.CreateBufferFromData | src/examples/textured_quad.c:106-112 | a buffer's contents are defined exactly when the size does not exceed the source object, and are its first `size` bytes |
| TexturedQuad.IndexBufferSizeAsWritten | src/examples/textured_quad.c:104 | the size as written is twice the byte size of the `uint16_t` data |
| TexturedQuad.IndexBufferCreationOverReads | src/examples/textured_quad.c:102-112 | as written, 24 bytes are read from the 12-byte index array, so no buffer contents are defined |
| TexturedQuad.IndexBufferSize | src/examples/textured_quad.c:102-104 | the corrected size equals the byte size of the index data |
| TexturedQuad.IndexBufferHoldsTheIndices | src/examples/textured_quad.c:102-112 | with the corrected size, the buffer read as Uint16 gives back exactly `index_buffer` |
| TexturedQuad.VertexBufferSize | src/examples/textured_quad.c:257-266 | 4 vertices × 32 bytes; position, uv and normal lie in order without overlap and fill the stride |
| TexturedQuad.FrameCommands | src/examples/textured_quad.c:382-402 | a depth range [0, 1] viewport, a scissor rectangle, a Uint16 index buffer and one instance of `indices.count` indices |
| TexturedQuad.ViewportAndScissorCoverSurface | src/examples/textured_quad.c:383-390 | a pixel lies in the viewport exactly when it lies on the surface, and likewise for the scissor rectangle |
| TexturedQuad.DrawReadsTheWholeIndexBuffer | src/examples/textured_quad.c:397-402 | the indexed draw reads exactly the corrected buffer's bytes, fewer than the size as written, and each index names a vertex |
| TexturedQuad.UpdateUniforms | src/examples/textured_quad.c:309-319 | projection, model-view and view position come from the camera; the LOD bias is unchanged |
| TexturedQuad.UpdateDependsOnlyOnCameraAndBias | src/examples/textured_quad.c:309-319 | two blocks updated from one camera agree exactly when their LOD biases agree; updating twice equals updating once |
| TexturedQuad.InitializeWith | src/examples/textured_quad.c:332-348 | lifecycle status; the index buffer is made with the given size; the layout takes the uniform size recorded before the uniform buffer exists; the bind group binds the whole uniform buffer |
| TexturedQuad.ExampleInitializeAsWritten | src/examples/textured_quad.c:332-348 | with the size as written, a successful initialisation leaves no defined index buffer contents |
| TexturedQuad.ExampleInitialize | src/examples/textured_quad.c:332-348 | lifecycle status; the index buffer decodes to the six indices; from the initial statics the layout's minimum binding size is 0; the bind group binds the whole uniform buffer; the camera fields are copied |
| TexturedQuad.ExampleRender | src/examples/textured_quad.c:439-445 | status 1 and no commands before preparation; the frame's commands and status 0 afterwards |

## Left out

- Shaders, the GPU itself and object creation. Pipelines, textures, samplers, buffers and bind groups
  are values, and the depth test is stated as a predicate on reals; the rasteriser and the shader
  code are not part of this model. In the particle demo, the state holds the particles the CPU writes
  at initialisation; the compute shader's per-frame updates of the storage buffer are not modelled.
- Floating point. All float arithmetic is over reals, so rounding, `INFINITY` arithmetic and NaN are
  not modelled.
- Trigonometry:
  - `tan` in `perspective_zo` is kept as symbolic terms (`Mat4.Term`);
  - `sin`, `cos` and `glm_rotate` in `update_transformation_matrix` are replaced by the rotated
    matrices as an input;
  - `sin(glm_rad(timer * 360))` in the particle demo is the input `sinPhase`.
- `glm_translate` and `glm_scale` in `init_uniform_buffers`: a model matrix is given by its
  translation and scale (`ReversedZ.Placement`), not multiplied out.
- The float `depth_load_values[m]` is assigned to a `WGPULoadOp` field at reversed_z.c:1010, 1031,
  1052 and 1079. This is an implicit float-to-enum conversion whose meaning depends on the WebGPU
  header. It is kept as the uninterpreted `FromDepthValue(v)`; the clear depth stays 1.0.
- `prepare_depth_textures` (reversed_z.c:531-625): the textures appear only as views. Their
  surface-sized extents and samplers are not modelled.
- The settings overlays (reversed_z.c:986-997, textured_quad.c:350-360) and `draw_ui`. The reversed-Z
  mode and pause flag are state fields. The textured quad's LOD bias slider is represented only by
  `lodBias` being preserved. In the source the overlay runs inside `example_draw`, so a toggle of
  the pause flag, the render mode or `attach_to_cursor` already governs the frame in which it is
  made; the model applies overlay edits between calls, which is why the entry points keep those
  fields unchanged.
- `example_draw`'s frame acquisition and submission, `example_destroy` and `log_example_names`: these
  are I/O and resource release.
- `setup_camera` and `load_texture` in the textured quad, and the particle demo's graphics pipeline,
  textures and `load_assets`: these are asset loading and GPU setup.
- ComputeParticles.PrepareStorageBuffers: the two `rand_float_min_max` calls sit in one initializer
  list, whose evaluation order C leaves unspecified. The model gives x the first value of each pair
  and states the range facts independently of the order.
- ComputeParticles.UpdateUniforms: requires a positive surface width and height when attached to the
  cursor. On a zero-sized surface the source divides by zero in floats; that case is not modelled.
- TexturedQuad.InitializeWith: `sizeof(ubo_vs)` depends on cglm's alignment of `mat4` and `vec4`, so
  the uniform size is the parameter `uboBytes` rather than a constant.
- The registry entry `aquarium` is commented out in the source table and is not part of it here.

## Findings

| source | as written | input that shows it | evidently intended | confidence | as-written member | corrected member |
|---|---|---|---|---|---|---|
| src/examples/textured_quad.c:104 | `index_buffer_size = indices.count * sizeof(uint32_t)` sizes the index buffer by 4-byte elements, but `index_buffer` holds six `uint16_t` (12 bytes), so buffer creation reads 24 bytes from a 12-byte array | the fixed quad: `indices.count` = 6 gives 24 > 12 | `indices.count * sizeof(uint16_t)` = 12 bytes, matching the Uint16 index format of the draw | not executed | TexturedQuad.ExampleInitializeAsWritten | TexturedQuad.ExampleInitialize |
