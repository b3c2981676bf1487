/** The `(material ...)` block and the `(materials ...)` list with its
    registry of material names. */
module MaterialEncoding {
  import opened Wrappers
  import opened Sexp
  import opened Numerals
  import opened BlendData
  import opened HostTables
  import opened Common
  import opened Dedup

  /** The fields every material block starts with. */
  function MaterialHead(fmt: Fmt, m: Material): seq<Item>
  {
    [ Open("material"),
      Field("material_name", Quote(m.name)),
      Field("color", G4(fmt, (m.r, m.g, m.b, m.alpha))),
      Field("anisotropy", fmt(m.anisotropy)),
      Field("translucency", fmt(m.translucency)),
      Field("amb", fmt(m.amb)),
      Field("emit", fmt(m.emit)),
      Field("hard", IntText(m.hard)),
      Field("add", fmt(m.add)),
      Field("spec", fmt(m.spec)),
      Field("spec_color", G3(fmt, m.specColor)),
      Field("mirror_color", G3(fmt, m.mirColor)),
      Field("reflections_threshold", fmt(m.threshMir)),
      Field("refractions_threshold", fmt(m.threshTra)),
      Field("amount_of_reflections", fmt(m.ref)),
      Field("trans_depth", IntText(m.transDepth)) ]
  }

  const HeadTags: set<string> := {
    "material", "material_name", "color", "anisotropy", "translucency", "amb",
    "emit", "hard", "add", "spec", "spec_color", "mirror_color",
    "reflections_threshold", "refractions_threshold", "amount_of_reflections",
    "trans_depth" }

  /** The extra fields of a diffuse shader, chosen by the shader's word. */
  function DiffuseExtras(fmt: Fmt, shader: string, m: Material): seq<Item>
  {
    if shader == "diffuse_orennayar" then [Field("roughness", fmt(m.roughness))]
    else if shader == "diffuse_toon" then
      [Field("diffuseSize", fmt(m.diffuseSize)), Field("diffuseSmooth", fmt(m.diffuseSmooth))]
    else if shader == "diffuse_minnaert" then [Field("diffuseDarkness", fmt(m.diffuseDarkness))]
    else []
  }

  /** The extra fields of a specular shader, chosen by the shader's word. */
  function SpecExtras(fmt: Fmt, shader: string, m: Material): seq<Item>
  {
    if shader == "spec_wardiso" then [Field("surf_slope_std_dev", fmt(m.rms))]
    else if shader == "spec_toon" then [Field("spec_size", fmt(m.specSize))]
    else if shader == "spec_blinn" then [Field("refrac_index", fmt(m.refracIndex))]
    else []
  }

  /** Everything up to and including the diffuse shader's extras. */
  function DiffusePart(fmt: Fmt, m: Material): seq<Item>
    requires m.diffuseShader in DiffuseShaders
  {
    var d := DiffuseShaders[m.diffuseShader];
    MaterialHead(fmt, m) + [Field("diffuse_shader", Quote(d))] + DiffuseExtras(fmt, d, m)
  }

  /** One material block; a shader code missing from its table stops the
      block right after the writes that precede the lookup. */
  function MaterialEmit(fmt: Fmt, m: Material): Emit
  {
    if m.diffuseShader !in DiffuseShaders then
      Emit(MaterialHead(fmt, m), Some(UnmappedDiffuseShader(m.diffuseShader)))
    else if m.specShader !in SpecShaders then
      Emit(DiffusePart(fmt, m), Some(UnmappedSpecShader(m.specShader)))
    else
      var s := SpecShaders[m.specShader];
      Emit(DiffusePart(fmt, m) + [Field("spec_shader", Quote(s))] + SpecExtras(fmt, s, m) + [Close()], None)
  }

  // ---- Which fields a material block holds ----------------------------------

  /** The tags a diffuse shader's extras bring, by shader code. */
  function DiffuseExtraTags(code: int): set<string>
  {
    if code == DIFFUSE_ORENNAYAR then {"roughness"}
    else if code == DIFFUSE_TOON then {"diffuseSize", "diffuseSmooth"}
    else if code == DIFFUSE_MINNAERT then {"diffuseDarkness"}
    else {}
  }

  /** The tags a specular shader's extras bring, by shader code. */
  function SpecExtraTags(code: int): set<string>
  {
    if code == SPEC_WARDISO then {"surf_slope_std_dev"}
    else if code == SPEC_TOON then {"spec_size"}
    else if code == SPEC_BLINN then {"refrac_index"}
    else {}
  }

  lemma HeadTagsWithin(fmt: Fmt, m: Material)
    ensures Tags(MaterialHead(fmt, m)) <= HeadTags
  {
  }

  /** None of the shader-dependent tags is among the fixed ones. */
  lemma ShaderTagsNotInHead()
    ensures "diffuse_shader" !in HeadTags && "spec_shader" !in HeadTags
    ensures "roughness" !in HeadTags && "diffuseSize" !in HeadTags
    ensures "diffuseSmooth" !in HeadTags && "diffuseDarkness" !in HeadTags
    ensures "surf_slope_std_dev" !in HeadTags && "spec_size" !in HeadTags && "refrac_index" !in HeadTags
  {
  }

  lemma DiffuseExtrasTags(fmt: Fmt, m: Material)
    requires m.diffuseShader in DiffuseShaders
    ensures Tags(DiffuseExtras(fmt, DiffuseShaders[m.diffuseShader], m)) == DiffuseExtraTags(m.diffuseShader)
  {
    var x := DiffuseExtras(fmt, DiffuseShaders[m.diffuseShader], m);
    if m.diffuseShader == DIFFUSE_TOON {
      assert x[0].tag == "diffuseSize" && x[1].tag == "diffuseSmooth";
    } else if m.diffuseShader == DIFFUSE_ORENNAYAR || m.diffuseShader == DIFFUSE_MINNAERT {
      TagsOfOne(x[0]);
      assert x == [x[0]];
    }
  }

  lemma SpecExtrasTags(fmt: Fmt, m: Material)
    requires m.specShader in SpecShaders
    ensures Tags(SpecExtras(fmt, SpecShaders[m.specShader], m)) == SpecExtraTags(m.specShader)
  {
    var x := SpecExtras(fmt, SpecShaders[m.specShader], m);
    if m.specShader == SPEC_WARDISO || m.specShader == SPEC_TOON || m.specShader == SPEC_BLINN {
      TagsOfOne(x[0]);
      assert x == [x[0]];
    }
  }

  /** The tags of a material block whose diffuse lookup succeeds, part by
      part. */
  lemma MaterialTags(fmt: Fmt, m: Material)
    requires m.diffuseShader in DiffuseShaders
    ensures Tags(MaterialEmit(fmt, m).items) ==
      Tags(MaterialHead(fmt, m)) + {"diffuse_shader"} + DiffuseExtraTags(m.diffuseShader) +
      (if m.specShader in SpecShaders then {"spec_shader"} + SpecExtraTags(m.specShader) else {})
  {
    var d := DiffuseShaders[m.diffuseShader];
    var h := MaterialHead(fmt, m);
    var f := Field("diffuse_shader", Quote(d));
    TagsAppend(h, [f]);
    TagsOfOne(f);
    TagsAppend(h + [f], DiffuseExtras(fmt, d, m));
    DiffuseExtrasTags(fmt, m);
    if m.specShader in SpecShaders {
      var sp := SpecShaders[m.specShader];
      var a := DiffusePart(fmt, m);
      var g := Field("spec_shader", Quote(sp));
      TagsAppend(a, [g]);
      TagsOfOne(g);
      TagsAppend(a + [g], SpecExtras(fmt, sp, m));
      SpecExtrasTags(fmt, m);
      TagsAppend(a + [g] + SpecExtras(fmt, sp, m), [Close()]);
      TagsOfOne(Close());
    }
  }

  /** A tag outside the fixed ones is in a material block exactly when one
      of the two shaders that were looked up brings it. */
  lemma ExtraTagIn(fmt: Fmt, m: Material, t: string)
    requires m.diffuseShader in DiffuseShaders
    requires t !in HeadTags && t != "diffuse_shader" && t != "spec_shader"
    ensures t in Tags(MaterialEmit(fmt, m).items) <==>
      t in DiffuseExtraTags(m.diffuseShader) || (m.specShader in SpecShaders && t in SpecExtraTags(m.specShader))
  {
    MaterialTags(fmt, m);
    HeadTagsWithin(fmt, m);
    assert t !in Tags(MaterialHead(fmt, m));
  }

  /** The Oren-Nayar shader, and only it, brings the roughness field. */
  lemma RoughnessIff(fmt: Fmt, m: Material)
    requires m.diffuseShader in DiffuseShaders
    ensures "roughness" in Tags(MaterialEmit(fmt, m).items) <==> m.diffuseShader == DIFFUSE_ORENNAYAR
  {
    ShaderTagsNotInHead();
    ExtraTagIn(fmt, m, "roughness");
  }

  /** The toon shader, and only it, brings the size and smoothness fields. */
  lemma ToonDiffuseIff(fmt: Fmt, m: Material)
    requires m.diffuseShader in DiffuseShaders
    ensures "diffuseSize" in Tags(MaterialEmit(fmt, m).items) <==> m.diffuseShader == DIFFUSE_TOON
    ensures "diffuseSmooth" in Tags(MaterialEmit(fmt, m).items) <==> m.diffuseShader == DIFFUSE_TOON
  {
    ShaderTagsNotInHead();
    ExtraTagIn(fmt, m, "diffuseSize");
    ExtraTagIn(fmt, m, "diffuseSmooth");
  }

  /** The Minnaert shader, and only it, brings the darkness field. */
  lemma DarknessIff(fmt: Fmt, m: Material)
    requires m.diffuseShader in DiffuseShaders
    ensures "diffuseDarkness" in Tags(MaterialEmit(fmt, m).items) <==> m.diffuseShader == DIFFUSE_MINNAERT
  {
    ShaderTagsNotInHead();
    ExtraTagIn(fmt, m, "diffuseDarkness");
  }

  /** Each diffuse shader brings exactly its own extra fields: Oren-Nayar the
      roughness, toon the size and smoothness, Minnaert the darkness, and
      Lambert none of them.  This holds whether or not the specular lookup
      that follows succeeds. */
  lemma DiffuseExtrasExact(fmt: Fmt, m: Material)
    requires m.diffuseShader in DiffuseShaders
    ensures var t := Tags(MaterialEmit(fmt, m).items);
      && "diffuse_shader" in t
      && ("roughness" in t <==> m.diffuseShader == DIFFUSE_ORENNAYAR)
      && ("diffuseSize" in t <==> m.diffuseShader == DIFFUSE_TOON)
      && ("diffuseSmooth" in t <==> m.diffuseShader == DIFFUSE_TOON)
      && ("diffuseDarkness" in t <==> m.diffuseShader == DIFFUSE_MINNAERT)
  {
    MaterialTags(fmt, m);
    RoughnessIff(fmt, m);
    ToonDiffuseIff(fmt, m);
    DarknessIff(fmt, m);
  }

  lemma SlopeIff(fmt: Fmt, m: Material)
    requires m.diffuseShader in DiffuseShaders && m.specShader in SpecShaders
    ensures "surf_slope_std_dev" in Tags(MaterialEmit(fmt, m).items) <==> m.specShader == SPEC_WARDISO
  {
    ShaderTagsNotInHead();
    ExtraTagIn(fmt, m, "surf_slope_std_dev");
  }

  lemma SpecSizeIff(fmt: Fmt, m: Material)
    requires m.diffuseShader in DiffuseShaders && m.specShader in SpecShaders
    ensures "spec_size" in Tags(MaterialEmit(fmt, m).items) <==> m.specShader == SPEC_TOON
  {
    ShaderTagsNotInHead();
    ExtraTagIn(fmt, m, "spec_size");
  }

  lemma RefracIff(fmt: Fmt, m: Material)
    requires m.diffuseShader in DiffuseShaders && m.specShader in SpecShaders
    ensures "refrac_index" in Tags(MaterialEmit(fmt, m).items) <==> m.specShader == SPEC_BLINN
  {
    ShaderTagsNotInHead();
    ExtraTagIn(fmt, m, "refrac_index");
  }

  /** Each specular shader brings exactly its own extra field: Ward isotropic
      the slope deviation, toon the size, Blinn the refraction index, and
      Cook-Torrance and Phong none. */
  lemma SpecExtrasExact(fmt: Fmt, m: Material)
    requires m.diffuseShader in DiffuseShaders && m.specShader in SpecShaders
    ensures var t := Tags(MaterialEmit(fmt, m).items);
      && "spec_shader" in t
      && ("surf_slope_std_dev" in t <==> m.specShader == SPEC_WARDISO)
      && ("spec_size" in t <==> m.specShader == SPEC_TOON)
      && ("refrac_index" in t <==> m.specShader == SPEC_BLINN)
  {
    MaterialTags(fmt, m);
    SlopeIff(fmt, m);
    SpecSizeIff(fmt, m);
    RefracIff(fmt, m);
  }

  /** A material block is complete exactly when both shader codes are in
      their tables; otherwise it stops with the error of the first failing
      lookup, before that lookup's field is written. */
  lemma MaterialOutcome(fmt: Fmt, m: Material)
    ensures var e := MaterialEmit(fmt, m);
      && |e.items| > 0 && e.items[0] == Open("material")
      && (e.error == None <==> m.diffuseShader in DiffuseShaders && m.specShader in SpecShaders)
      && (e.error == None ==> e.items[|e.items| - 1] == Close())
      && (m.diffuseShader !in DiffuseShaders ==>
            e.error == Some(UnmappedDiffuseShader(m.diffuseShader)) && "diffuse_shader" !in Tags(e.items))
      && (m.diffuseShader in DiffuseShaders && m.specShader !in SpecShaders ==>
            e.error == Some(UnmappedSpecShader(m.specShader)) && "spec_shader" !in Tags(e.items))
  {
    HeadTagsWithin(fmt, m);
    ShaderTagsNotInHead();
    if m.diffuseShader in DiffuseShaders {
      MaterialTags(fmt, m);
      assert DiffusePart(fmt, m)[0] == Open("material");
    }
  }

  /** The block encoder the materials list uses. */
  function Block(fmt: Fmt): Material -> Emit
  {
    m => MaterialEmit(fmt, m)
  }
}
