/**
 * The example registry: the static table of (name, entry point) pairs every
 * demo is started from, its size, the first-match lookup by name and the
 * random pick.
 */
module Examples {

  import opened Wrappers

  /** The function pointer `example_<name>`, kept as the symbol it names. */
  datatype EntryPoint = EntryPoint(symbol: string)

  /** One `examplecase_t`: the name matched on the command line and the demo it starts. */
  datatype ExampleCase = ExampleCase(name: string, entry: EntryPoint)

  /** The number of rows of the table (the commented-out aquarium row is not one). */
  const ExampleCount: nat := 60

  /** The name in row i of the table, in source order. */
  function NameAt(i: nat): string
    requires i < ExampleCount
  {
    match i
    case 0 => "animometer"
    case 1 => "basisu"
    case 2 => "bind_groups"
    case 3 => "bloom"
    case 4 => "clear_screen"
    case 5 => "compute_boids"
    case 6 => "compute_particles"
    case 7 => "compute_particles_easing"
    case 8 => "compute_particles_webgpu_logo"
    case 9 => "compute_ray_tracing"
    case 10 => "compute_shader"
    case 11 => "conservative_raster"
    case 12 => "conway"
    case 13 => "conway_paletted_blurring"
    case 14 => "coordinate_system"
    case 15 => "cube_reflection"
    case 16 => "cubemap"
    case 17 => "deferred_rendering"
    case 18 => "dynamic_uniform_buffer"
    case 19 => "equirectangular_image"
    case 20 => "gears"
    case 21 => "gerstner_waves"
    case 22 => "gltf_loading"
    case 23 => "gltf_scene_rendering"
    case 24 => "hdr"
    case 25 => "image_blur"
    case 26 => "imgui_overlay"
    case 27 => "immersive_video"
    case 28 => "instanced_cube"
    case 29 => "minimal"
    case 30 => "msaa_line"
    case 31 => "multi_sampling"
    case 32 => "n_body_simulation"
    case 33 => "occlusion_query"
    case 34 => "offscreen_rendering"
    case 35 => "parallax_mapping"
    case 36 => "pbr_basic"
    case 37 => "pbr_ibl"
    case 38 => "pbr_texture"
    case 39 => "post_processing"
    case 40 => "prng"
    case 41 => "procedural_mesh"
    case 42 => "radial_blur"
    case 43 => "reversed_z"
    case 44 => "screenshot"
    case 45 => "shadertoy"
    case 46 => "shadow_mapping"
    case 47 => "skybox"
    case 48 => "square"
    case 49 => "stencil_buffer"
    case 50 => "terrain_mesh"
    case 51 => "text_overlay"
    case 52 => "texture_3d"
    case 53 => "texture_mipmap_gen"
    case 54 => "textured_cube"
    case 55 => "textured_quad"
    case 56 => "triangle"
    case 57 => "two_cubes"
    case 58 => "video_uploading"
    case 59 => "wireframe_vertex_pulling"
  }

  /** `g_example_cases`: row i pairs NameAt(i) with the entry point `example_` + NameAt(i). */
  function ExampleCases(): seq<ExampleCase>
  {
    seq(ExampleCount, i requires 0 <= i < ExampleCount => ExampleCase(NameAt(i), EntryPoint("example_" + NameAt(i))))
  }

  /** `get_number_of_examples`: the element count of the table, as `ARRAY_SIZE` computes it. */
  function NumberOfExamples(): (n: nat)
    ensures n == |ExampleCases()|
    ensures n > 0
  {
    ExampleCount
  }

  /**
   * `r` is what a first-match scan of `cases` for `name` yields: no row when
   * none has that name, otherwise the lowest row that has it.
   */
  predicate IsFirstMatch(cases: seq<ExampleCase>, name: string, r: Option<nat>)
  {
    if r.None? then forall i | 0 <= i < |cases| :: cases[i].name != name
    else r.value < |cases| && cases[r.value].name == name && forall i | 0 <= i < r.value :: cases[i].name != name
  }

  /**
   * `get_example_by_name`: scans the rows in order and stops at the first
   * whose name equals the query (`strcmp(...) == 0`).  The result is the row's
   * index, i.e. a reference into the table itself, or None for the NULL pointer.
   */
  method GetExampleByName(cases: seq<ExampleCase>, name: string) returns (r: Option<nat>)
    ensures IsFirstMatch(cases, name, r)
    ensures r.None? <==> forall i | 0 <= i < |cases| :: cases[i].name != name
    ensures r.Some? ==> r.value < |cases| && cases[r.value].name == name
  {
    r := None;
    var i := 0;
    while i < |cases|
      invariant 0 <= i <= |cases|
      invariant forall j | 0 <= j < i :: cases[j].name != name
    {
      if cases[i].name == name {
        r := Some(i);
        break;
      }
      i := i + 1;
    }
  }

  /** A scan result is determined by the table and the query: at most one result fits. */
  lemma FirstMatchIsUnique(cases: seq<ExampleCase>, name: string, r1: Option<nat>, r2: Option<nat>)
    requires IsFirstMatch(cases, name, r1) && IsFirstMatch(cases, name, r2)
    ensures r1 == r2
  {
  }

  /**
   * `get_random_example`: row `rand() % n`.  For every value `rand()` may
   * return (it is never negative) the row lies inside the table, and it is
   * the row congruent to the random value modulo the table size.
   */
  function RandomExampleIndex(rand: int): (i: nat)
    requires rand >= 0
    ensures i < |ExampleCases()|
    ensures (rand - i) % |ExampleCases()| == 0
  {
    rand % NumberOfExamples()
  }

  /** Every row can be picked: the random value equal to the row index selects it. */
  lemma RandomPickReachesEveryRow(i: nat)
    requires i < |ExampleCases()|
    ensures RandomExampleIndex(i) == i
    ensures RandomExampleIndex(i + |ExampleCases()|) == i
  {
  }

  // ---------------------------------------------------------------------------
  // The names are in strictly ascending byte order, hence pairwise distinct.
  // ---------------------------------------------------------------------------

  /** `a` sorts strictly before `b`, given that their first `i` characters agree. */
  predicate LessFrom(a: string, b: string, i: nat)
    requires i <= |a| && i <= |b|
    decreases |a| - i
  {
    if i == |a| then i < |b|
    else if i == |b| then false
    else a[i] < b[i] || (a[i] == b[i] && LessFrom(a, b, i + 1))
  }

  lemma {:induction false} LessFromIrreflexive(a: string, i: nat)
    requires i <= |a|
    ensures !LessFrom(a, a, i)
    decreases |a| - i
  {
    if i < |a| {
      LessFromIrreflexive(a, i + 1);
    }
  }

  lemma {:induction false} LessFromTransitive(a: string, b: string, c: string, i: nat)
    requires i <= |a| && i <= |b| && i <= |c|
    requires LessFrom(a, b, i) && LessFrom(b, c, i)
    ensures LessFrom(a, c, i)
    decreases |a| - i
  {
    if i < |a| && a[i] == b[i] && b[i] == c[i] {
      LessFromTransitive(a, b, c, i + 1);
    }
  }

  /** Each name sorts strictly before the next one. */
  lemma AdjacentNamesAscend(k: nat)
    requires k + 1 < ExampleCount
    ensures LessFrom(NameAt(k), NameAt(k + 1), 0)
  {
    if k < 4 {
      AdjacentNamesAscend0(k);
    } else if k < 8 {
      AdjacentNamesAscend4(k);
    } else if k < 12 {
      AdjacentNamesAscend8(k);
    } else if k < 16 {
      AdjacentNamesAscend12(k);
    } else if k < 20 {
      AdjacentNamesAscend16(k);
    } else if k < 24 {
      AdjacentNamesAscend20(k);
    } else if k < 28 {
      AdjacentNamesAscend24(k);
    } else if k < 32 {
      AdjacentNamesAscend28(k);
    } else if k < 36 {
      AdjacentNamesAscend32(k);
    } else if k < 40 {
      AdjacentNamesAscend36(k);
    } else if k < 44 {
      AdjacentNamesAscend40(k);
    } else if k < 48 {
      AdjacentNamesAscend44(k);
    } else if k < 52 {
      AdjacentNamesAscend48(k);
    } else if k < 56 {
      AdjacentNamesAscend52(k);
    } else {
      AdjacentNamesAscend56(k);
    }
  }

  /** In a list whose neighbours ascend, every earlier element sorts before every later one. */
  lemma {:induction false} AscendingNeighboursAscendAll(s: seq<string>, i: nat, j: nat)
    requires forall k | 0 <= k < |s| - 1 :: LessFrom(s[k], s[k + 1], 0)
    requires i < j < |s|
    ensures LessFrom(s[i], s[j], 0)
    decreases j - i
  {
    if i < j - 1 {
      AscendingNeighboursAscendAll(s, i, j - 1);
      LessFromTransitive(s[i], s[j - 1], s[j], 0);
    }
  }

  /** The names of the table, in row order. */
  function Names(): (s: seq<string>)
    ensures |s| == ExampleCount
    ensures forall i | 0 <= i < ExampleCount :: s[i] == NameAt(i)
  {
    seq(ExampleCount, i requires 0 <= i < ExampleCount => NameAt(i))
  }

  /** Any earlier name sorts strictly before any later one. */
  lemma NamesAscend(i: nat, j: nat)
    requires i < j < ExampleCount
    ensures LessFrom(NameAt(i), NameAt(j), 0)
  {
    var s := Names();
    forall k | 0 <= k < |s| - 1
      ensures LessFrom(s[k], s[k + 1], 0)
    {
      AdjacentNamesAscend(k);
    }
    AscendingNeighboursAscendAll(s, i, j);
  }

  /** No two rows of the table share a name. */
  lemma NamesPairwiseDistinct(i: nat, j: nat)
    requires i < |ExampleCases()| && j < |ExampleCases()| && i != j
    ensures ExampleCases()[i].name != ExampleCases()[j].name
  {
    if i < j {
      NamesAscend(i, j);
    } else {
      NamesAscend(j, i);
    }
    LessFromIrreflexive(NameAt(i), 0);
  }

  /**
   * Looking up any listed name finds exactly that name's row, and so the
   * entry point `example_<name>`: no other row can shadow it.
   */
  lemma LookupOfListedName(i: nat, r: Option<nat>)
    requires i < |ExampleCases()|
    requires IsFirstMatch(ExampleCases(), ExampleCases()[i].name, r)
    ensures r == Some(i)
    ensures ExampleCases()[r.value].entry == EntryPoint("example_" + ExampleCases()[i].name)
  {
    if r.Some? && r.value != i {
      NamesPairwiseDistinct(r.value, i);
    }
  }

  // ---------------------------------------------------------------------------
  // Proof steps for AdjacentNamesAscend: one lemma per pair of neighbouring
  // rows keeps each literal comparison small (a long common prefix is crossed
  // in steps of five characters), and AdjacentNamesAscend0 .. 56 dispatch to
  // them four rows at a time.  They state nothing beyond AdjacentNamesAscend.
  // ---------------------------------------------------------------------------

  lemma NamePairAscends0()
    ensures LessFrom(NameAt(0), NameAt(1), 0)
  {
  }

  lemma NamePairAscends1()
    ensures LessFrom(NameAt(1), NameAt(2), 0)
  {
  }

  lemma NamePairAscends2()
    ensures LessFrom(NameAt(2), NameAt(3), 0)
  {
  }

  lemma NamePairAscends3()
    ensures LessFrom(NameAt(3), NameAt(4), 0)
  {
  }

  lemma NamePairAscends4()
    ensures LessFrom(NameAt(4), NameAt(5), 0)
  {
  }

  lemma NamePairAscends5()
    ensures LessFrom(NameAt(5), NameAt(6), 0)
  {
    assert LessFrom("compute_boids", "compute_particles", 5);
  }

  lemma NamePairAscends6()
    ensures LessFrom(NameAt(6), NameAt(7), 0)
  {
    assert LessFrom("compute_particles", "compute_particles_easing", 15);
    assert LessFrom("compute_particles", "compute_particles_easing", 10);
    assert LessFrom("compute_particles", "compute_particles_easing", 5);
  }

  lemma NamePairAscends7()
    ensures LessFrom(NameAt(7), NameAt(8), 0)
  {
    assert LessFrom("compute_particles_easing", "compute_particles_webgpu_logo", 15);
    assert LessFrom("compute_particles_easing", "compute_particles_webgpu_logo", 10);
    assert LessFrom("compute_particles_easing", "compute_particles_webgpu_logo", 5);
  }

  lemma NamePairAscends8()
    ensures LessFrom(NameAt(8), NameAt(9), 0)
  {
    assert LessFrom("compute_particles_webgpu_logo", "compute_ray_tracing", 5);
  }

  lemma NamePairAscends9()
    ensures LessFrom(NameAt(9), NameAt(10), 0)
  {
    assert LessFrom("compute_ray_tracing", "compute_shader", 5);
  }

  lemma NamePairAscends10()
    ensures LessFrom(NameAt(10), NameAt(11), 0)
  {
  }

  lemma NamePairAscends11()
    ensures LessFrom(NameAt(11), NameAt(12), 0)
  {
  }

  lemma NamePairAscends12()
    ensures LessFrom(NameAt(12), NameAt(13), 0)
  {
    assert LessFrom("conway", "conway_paletted_blurring", 5);
  }

  lemma NamePairAscends13()
    ensures LessFrom(NameAt(13), NameAt(14), 0)
  {
  }

  lemma NamePairAscends14()
    ensures LessFrom(NameAt(14), NameAt(15), 0)
  {
  }

  lemma NamePairAscends15()
    ensures LessFrom(NameAt(15), NameAt(16), 0)
  {
  }

  lemma NamePairAscends16()
    ensures LessFrom(NameAt(16), NameAt(17), 0)
  {
  }

  lemma NamePairAscends17()
    ensures LessFrom(NameAt(17), NameAt(18), 0)
  {
  }

  lemma NamePairAscends18()
    ensures LessFrom(NameAt(18), NameAt(19), 0)
  {
  }

  lemma NamePairAscends19()
    ensures LessFrom(NameAt(19), NameAt(20), 0)
  {
  }

  lemma NamePairAscends20()
    ensures LessFrom(NameAt(20), NameAt(21), 0)
  {
  }

  lemma NamePairAscends21()
    ensures LessFrom(NameAt(21), NameAt(22), 0)
  {
  }

  lemma NamePairAscends22()
    ensures LessFrom(NameAt(22), NameAt(23), 0)
  {
    assert LessFrom("gltf_loading", "gltf_scene_rendering", 5);
  }

  lemma NamePairAscends23()
    ensures LessFrom(NameAt(23), NameAt(24), 0)
  {
  }

  lemma NamePairAscends24()
    ensures LessFrom(NameAt(24), NameAt(25), 0)
  {
  }

  lemma NamePairAscends25()
    ensures LessFrom(NameAt(25), NameAt(26), 0)
  {
  }

  lemma NamePairAscends26()
    ensures LessFrom(NameAt(26), NameAt(27), 0)
  {
  }

  lemma NamePairAscends27()
    ensures LessFrom(NameAt(27), NameAt(28), 0)
  {
  }

  lemma NamePairAscends28()
    ensures LessFrom(NameAt(28), NameAt(29), 0)
  {
  }

  lemma NamePairAscends29()
    ensures LessFrom(NameAt(29), NameAt(30), 0)
  {
  }

  lemma NamePairAscends30()
    ensures LessFrom(NameAt(30), NameAt(31), 0)
  {
  }

  lemma NamePairAscends31()
    ensures LessFrom(NameAt(31), NameAt(32), 0)
  {
  }

  lemma NamePairAscends32()
    ensures LessFrom(NameAt(32), NameAt(33), 0)
  {
  }

  lemma NamePairAscends33()
    ensures LessFrom(NameAt(33), NameAt(34), 0)
  {
  }

  lemma NamePairAscends34()
    ensures LessFrom(NameAt(34), NameAt(35), 0)
  {
  }

  lemma NamePairAscends35()
    ensures LessFrom(NameAt(35), NameAt(36), 0)
  {
  }

  lemma NamePairAscends36()
    ensures LessFrom(NameAt(36), NameAt(37), 0)
  {
  }

  lemma NamePairAscends37()
    ensures LessFrom(NameAt(37), NameAt(38), 0)
  {
  }

  lemma NamePairAscends38()
    ensures LessFrom(NameAt(38), NameAt(39), 0)
  {
  }

  lemma NamePairAscends39()
    ensures LessFrom(NameAt(39), NameAt(40), 0)
  {
  }

  lemma NamePairAscends40()
    ensures LessFrom(NameAt(40), NameAt(41), 0)
  {
  }

  lemma NamePairAscends41()
    ensures LessFrom(NameAt(41), NameAt(42), 0)
  {
  }

  lemma NamePairAscends42()
    ensures LessFrom(NameAt(42), NameAt(43), 0)
  {
  }

  lemma NamePairAscends43()
    ensures LessFrom(NameAt(43), NameAt(44), 0)
  {
  }

  lemma NamePairAscends44()
    ensures LessFrom(NameAt(44), NameAt(45), 0)
  {
  }

  lemma NamePairAscends45()
    ensures LessFrom(NameAt(45), NameAt(46), 0)
  {
  }

  lemma NamePairAscends46()
    ensures LessFrom(NameAt(46), NameAt(47), 0)
  {
  }

  lemma NamePairAscends47()
    ensures LessFrom(NameAt(47), NameAt(48), 0)
  {
  }

  lemma NamePairAscends48()
    ensures LessFrom(NameAt(48), NameAt(49), 0)
  {
  }

  lemma NamePairAscends49()
    ensures LessFrom(NameAt(49), NameAt(50), 0)
  {
  }

  lemma NamePairAscends50()
    ensures LessFrom(NameAt(50), NameAt(51), 0)
  {
  }

  lemma NamePairAscends51()
    ensures LessFrom(NameAt(51), NameAt(52), 0)
  {
  }

  lemma NamePairAscends52()
    ensures LessFrom(NameAt(52), NameAt(53), 0)
  {
    assert LessFrom("texture_3d", "texture_mipmap_gen", 5);
  }

  lemma NamePairAscends53()
    ensures LessFrom(NameAt(53), NameAt(54), 0)
  {
    assert LessFrom("texture_mipmap_gen", "textured_cube", 5);
  }

  lemma NamePairAscends54()
    ensures LessFrom(NameAt(54), NameAt(55), 0)
  {
    assert LessFrom("textured_cube", "textured_quad", 5);
  }

  lemma NamePairAscends55()
    ensures LessFrom(NameAt(55), NameAt(56), 0)
  {
  }

  lemma NamePairAscends56()
    ensures LessFrom(NameAt(56), NameAt(57), 0)
  {
  }

  lemma NamePairAscends57()
    ensures LessFrom(NameAt(57), NameAt(58), 0)
  {
  }

  lemma NamePairAscends58()
    ensures LessFrom(NameAt(58), NameAt(59), 0)
  {
  }

  lemma AdjacentNamesAscend0(k: nat)
    requires 0 <= k < 4
    ensures LessFrom(NameAt(k), NameAt(k + 1), 0)
  {
    if k == 0 { NamePairAscends0(); }
    if k == 1 { NamePairAscends1(); }
    if k == 2 { NamePairAscends2(); }
    if k == 3 { NamePairAscends3(); }
  }

  lemma AdjacentNamesAscend4(k: nat)
    requires 4 <= k < 8
    ensures LessFrom(NameAt(k), NameAt(k + 1), 0)
  {
    if k == 4 { NamePairAscends4(); }
    if k == 5 { NamePairAscends5(); }
    if k == 6 { NamePairAscends6(); }
    if k == 7 { NamePairAscends7(); }
  }

  lemma AdjacentNamesAscend8(k: nat)
    requires 8 <= k < 12
    ensures LessFrom(NameAt(k), NameAt(k + 1), 0)
  {
    if k == 8 { NamePairAscends8(); }
    if k == 9 { NamePairAscends9(); }
    if k == 10 { NamePairAscends10(); }
    if k == 11 { NamePairAscends11(); }
  }

  lemma AdjacentNamesAscend12(k: nat)
    requires 12 <= k < 16
    ensures LessFrom(NameAt(k), NameAt(k + 1), 0)
  {
    if k == 12 { NamePairAscends12(); }
    if k == 13 { NamePairAscends13(); }
    if k == 14 { NamePairAscends14(); }
    if k == 15 { NamePairAscends15(); }
  }

  lemma AdjacentNamesAscend16(k: nat)
    requires 16 <= k < 20
    ensures LessFrom(NameAt(k), NameAt(k + 1), 0)
  {
    if k == 16 { NamePairAscends16(); }
    if k == 17 { NamePairAscends17(); }
    if k == 18 { NamePairAscends18(); }
    if k == 19 { NamePairAscends19(); }
  }

  lemma AdjacentNamesAscend20(k: nat)
    requires 20 <= k < 24
    ensures LessFrom(NameAt(k), NameAt(k + 1), 0)
  {
    if k == 20 { NamePairAscends20(); }
    if k == 21 { NamePairAscends21(); }
    if k == 22 { NamePairAscends22(); }
    if k == 23 { NamePairAscends23(); }
  }

  lemma AdjacentNamesAscend24(k: nat)
    requires 24 <= k < 28
    ensures LessFrom(NameAt(k), NameAt(k + 1), 0)
  {
    if k == 24 { NamePairAscends24(); }
    if k == 25 { NamePairAscends25(); }
    if k == 26 { NamePairAscends26(); }
    if k == 27 { NamePairAscends27(); }
  }

  lemma AdjacentNamesAscend28(k: nat)
    requires 28 <= k < 32
    ensures LessFrom(NameAt(k), NameAt(k + 1), 0)
  {
    if k == 28 { NamePairAscends28(); }
    if k == 29 { NamePairAscends29(); }
    if k == 30 { NamePairAscends30(); }
    if k == 31 { NamePairAscends31(); }
  }

  lemma AdjacentNamesAscend32(k: nat)
    requires 32 <= k < 36
    ensures LessFrom(NameAt(k), NameAt(k + 1), 0)
  {
    if k == 32 { NamePairAscends32(); }
    if k == 33 { NamePairAscends33(); }
    if k == 34 { NamePairAscends34(); }
    if k == 35 { NamePairAscends35(); }
  }

  lemma AdjacentNamesAscend36(k: nat)
    requires 36 <= k < 40
    ensures LessFrom(NameAt(k), NameAt(k + 1), 0)
  {
    if k == 36 { NamePairAscends36(); }
    if k == 37 { NamePairAscends37(); }
    if k == 38 { NamePairAscends38(); }
    if k == 39 { NamePairAscends39(); }
  }

  lemma AdjacentNamesAscend40(k: nat)
    requires 40 <= k < 44
    ensures LessFrom(NameAt(k), NameAt(k + 1), 0)
  {
    if k == 40 { NamePairAscends40(); }
    if k == 41 { NamePairAscends41(); }
    if k == 42 { NamePairAscends42(); }
    if k == 43 { NamePairAscends43(); }
  }

  lemma AdjacentNamesAscend44(k: nat)
    requires 44 <= k < 48
    ensures LessFrom(NameAt(k), NameAt(k + 1), 0)
  {
    if k == 44 { NamePairAscends44(); }
    if k == 45 { NamePairAscends45(); }
    if k == 46 { NamePairAscends46(); }
    if k == 47 { NamePairAscends47(); }
  }

  lemma AdjacentNamesAscend48(k: nat)
    requires 48 <= k < 52
    ensures LessFrom(NameAt(k), NameAt(k + 1), 0)
  {
    if k == 48 { NamePairAscends48(); }
    if k == 49 { NamePairAscends49(); }
    if k == 50 { NamePairAscends50(); }
    if k == 51 { NamePairAscends51(); }
  }

  lemma AdjacentNamesAscend52(k: nat)
    requires 52 <= k < 56
    ensures LessFrom(NameAt(k), NameAt(k + 1), 0)
  {
    if k == 52 { NamePairAscends52(); }
    if k == 53 { NamePairAscends53(); }
    if k == 54 { NamePairAscends54(); }
    if k == 55 { NamePairAscends55(); }
  }

  lemma AdjacentNamesAscend56(k: nat)
    requires 56 <= k < 59
    ensures LessFrom(NameAt(k), NameAt(k + 1), 0)
  {
    if k == 56 { NamePairAscends56(); }
    if k == 57 { NamePairAscends57(); }
    if k == 58 { NamePairAscends58(); }
  }
}
