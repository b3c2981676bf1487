/** The `(render ...)` block of a scene: preceded by an empty line, it holds
    the image size, the image-type word (a type outside the table raises
    before anything of that line is written), the frame range and rate, two
    flags, and the motion-blur setting with its factor only when motion blur
    is on.  It ends with an empty line. */
module RenderEncoding {
  import opened Wrappers
  import opened Sexp
  import opened Numerals
  import opened BlendData
  import opened HostTables
  import opened Common

  function RenderHead(fmt: Fmt, r: RenderSettings): seq<Item>
  {
    [Raw("\n"), Open("render"), Field("image_size", G2(fmt, r.sizeX, r.sizeY))]
  }

  function MotionBlurPart(fmt: Fmt, r: RenderSettings): seq<Item>
  {
    if r.motionBlur then [Field("motion_blur", "true"), Field("motion_blur_factor", fmt(r.mblurFactor))]
    else [Field("motion_blur", "false")]
  }

  /** The frame range and rate and the two flags. */
  function RenderFlags(fmt: Fmt, r: RenderSettings): seq<Item>
  {
    [Field("start_frame", IntText(r.sFrame)),
     Field("end_frame", IntText(r.eFrame)),
     Field("fps", fmt(r.fps)),
     Field("fps_base", fmt(r.fpsBase)),
     Field("toon_shading", BoolText(r.toonShading)),
     Field("shadow", BoolText(r.shadow))]
  }

  /** Everything after the image type. */
  function RenderTail(fmt: Fmt, r: RenderSettings): seq<Item>
  {
    RenderFlags(fmt, r) + MotionBlurPart(fmt, r) + [Raw(")\n\n")]
  }

  /** The render block, or its head and the failed image-type lookup. */
  function RenderEmit(fmt: Fmt, r: RenderSettings): Emit
  {
    if r.imageType !in ImageTypes then Emit(RenderHead(fmt, r), Some(UnmappedImageType(r.imageType)))
    else Emit(RenderHead(fmt, r) + [Field("image_type", ImageTypes[r.imageType])] + RenderTail(fmt, r), None)
  }

  // ---- Properties -----------------------------------------------------------

  /** The block raises exactly when the image type is not in the table, and
      then after its head; a complete block has the image-type word, which
      leads back to the type, as its fourth write, and says whether motion
      blur is on as its eleventh, in the grammar's boolean words. */
  lemma RenderOutcome(fmt: Fmt, r: RenderSettings)
    ensures var e := RenderEmit(fmt, r);
      && (e.error.Some? <==> r.imageType !in ImageTypes)
      && (e.error.Some? ==> e == Emit(RenderHead(fmt, r), Some(UnmappedImageType(r.imageType))))
      && (e.error.None? ==>
            && |e.items| == (if r.motionBlur then 13 else 12)
            && e.items[3].tag == "image_type" && KeyOf(ImageTypes, e.items[3].value) == Some(r.imageType)
            && e.items[10].tag == "motion_blur" && (e.items[10].value == "true" <==> r.motionBlur)
            && e.items[|e.items| - 1] == Raw(")\n\n"))
  {
    ImageTypesInjective();
    KeyOfRoundTrip(ImageTypes, r.imageType, "");
  }

  /** The motion-blur factor is written exactly when motion blur is on and
      the block did not raise. */
  lemma MotionBlurFactorIff(fmt: Fmt, r: RenderSettings)
    ensures CountTag(RenderEmit(fmt, r).items, "motion_blur_factor") ==
      (if r.imageType in ImageTypes && r.motionBlur then 1 else 0)
    ensures "motion_blur_factor" in Tags(RenderEmit(fmt, r).items) <==> r.imageType in ImageTypes && r.motionBlur
  {
    var tag := "motion_blur_factor";
    var h := RenderHead(fmt, r);
    CountTagAbsent(h, tag);
    if r.imageType in ImageTypes {
      var p := h + [Field("image_type", ImageTypes[r.imageType])] + RenderFlags(fmt, r);
      var m := MotionBlurPart(fmt, r);
      AppendAssoc(h + [Field("image_type", ImageTypes[r.imageType])], RenderFlags(fmt, r) + m, [Raw(")\n\n")]);
      AppendAssoc(h + [Field("image_type", ImageTypes[r.imageType])], RenderFlags(fmt, r), m);
      CountTagAbsent(p, tag);
      CountTagAppend(p, m, tag);
      CountTagAppend(p + m, [Raw(")\n\n")], tag);
      CountTagOne(Raw(")\n\n"), tag);
      if r.motionBlur {
        assert m == [m[0]] + [m[1]];
        CountTagAppend([m[0]], [m[1]], tag);
        CountTagOne(m[0], tag);
        CountTagOne(m[1], tag);
      } else {
        CountTagOne(m[0], tag);
      }
    }
    CountTagPresent(RenderEmit(fmt, r).items, tag);
  }
}
