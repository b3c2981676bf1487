/** The `(camera ...)` block: clipping, depth of field and shift, then the
    projection: an orthographic camera carries its scale, a perspective one
    its angle and lens, and any other type is written verbatim with nothing
    more. */
module CameraEncoding {
  import opened Sexp
  import opened BlendData
  import opened Common

  function CameraHead(fmt: Fmt, cam: Camera): seq<Item>
  {
    [Open("camera"),
     Field("clip_start", fmt(cam.clipStart)),
     Field("clip_end", fmt(cam.clipEnd)),
     Field("dof_dist", fmt(cam.dofDist)),
     Field("shift", G2(fmt, cam.shiftX, cam.shiftY))]
  }

  /** A field written inside the projection's line, after one blank. */
  function InlineField(tag: string, value: string): Item
  {
    Tagged(" ", tag, " " + value + ")")
  }

  /** The projection line. */
  function CamTypePart(fmt: Fmt, cam: Camera): seq<Item>
  {
    if cam.typ == "ortho" then
      [Tagged("", "cam_type", " ortho"), InlineField("scale", fmt(cam.scale)), Raw(")\n")]
    else if cam.typ == "persp" then
      [Tagged("", "cam_type", " persp"), InlineField("angle", fmt(cam.angle)), InlineField("lens", fmt(cam.lens)), Raw(")\n")]
    else [Field("cam_type", cam.typ)]
  }

  /** The whole camera block; it ends without a newline. */
  function CameraItems(fmt: Fmt, cam: Camera): seq<Item>
  {
    CameraHead(fmt, cam) + CamTypePart(fmt, cam) + [Raw(")")]
  }

  // ---- Properties -----------------------------------------------------------

  lemma CameraHeadTags(fmt: Fmt, cam: Camera)
    ensures Tags(CameraHead(fmt, cam)) == {"camera", "clip_start", "clip_end", "dof_dist", "shift"}
  {
    var h := CameraHead(fmt, cam);
    assert forall t :: t in Tags(h) <==> exists k :: 0 <= k < |h| && !h[k].Raw? && h[k].tag == t;
    assert h[0].tag == "camera" && h[1].tag == "clip_start" && h[2].tag == "clip_end";
    assert h[3].tag == "dof_dist" && h[4].tag == "shift";
  }

  /** The tags of the projection line, by camera type. */
  function CamTypeTags(typ: string): set<string>
  {
    if typ == "ortho" then {"cam_type", "scale"}
    else if typ == "persp" then {"cam_type", "angle", "lens"}
    else {"cam_type"}
  }

  lemma CamTypePartTags(fmt: Fmt, cam: Camera)
    ensures Tags(CamTypePart(fmt, cam)) == CamTypeTags(cam.typ)
  {
    var p := CamTypePart(fmt, cam);
    if cam.typ == "ortho" {
      assert p[0].tag == "cam_type" && p[1].tag == "scale" && p[2].Raw?;
    } else if cam.typ == "persp" {
      assert p[0].tag == "cam_type" && p[1].tag == "angle" && p[2].tag == "lens" && p[3].Raw?;
    } else {
      TagsOfOne(p[0]);
    }
  }

  lemma CameraTags(fmt: Fmt, cam: Camera)
    ensures Tags(CameraItems(fmt, cam)) == {"camera", "clip_start", "clip_end", "dof_dist", "shift"} + CamTypeTags(cam.typ)
  {
    CameraHeadTags(fmt, cam);
    CamTypePartTags(fmt, cam);
    TagsAppend(CameraHead(fmt, cam), CamTypePart(fmt, cam));
    TagsAppend(CameraHead(fmt, cam) + CamTypePart(fmt, cam), [Raw(")")]);
    TagsOfOne(Raw(")"));
  }

  /** The tags a camera block holds. */
  function CameraTagSet(typ: string): set<string>
  {
    {"camera", "clip_start", "clip_end", "dof_dist", "shift"} + CamTypeTags(typ)
  }

  lemma CameraTagSetFacts(typ: string)
    ensures "scale" in CameraTagSet(typ) <==> typ == "ortho"
    ensures "angle" in CameraTagSet(typ) <==> typ == "persp"
    ensures "lens" in CameraTagSet(typ) <==> typ == "persp"
    ensures "cam_type" !in {"camera", "clip_start", "clip_end", "dof_dist", "shift"}
  {
  }

  /** An orthographic camera, and only it, has its scale written. */
  lemma ScaleIff(fmt: Fmt, cam: Camera)
    ensures "scale" in Tags(CameraItems(fmt, cam)) <==> cam.typ == "ortho"
  {
    CameraTags(fmt, cam);
    CameraTagSetFacts(cam.typ);
  }

  /** A perspective camera, and only it, has its angle and lens written. */
  lemma AngleLensIff(fmt: Fmt, cam: Camera)
    ensures "angle" in Tags(CameraItems(fmt, cam)) <==> cam.typ == "persp"
    ensures "lens" in Tags(CameraItems(fmt, cam)) <==> cam.typ == "persp"
  {
    CameraTags(fmt, cam);
    CameraTagSetFacts(cam.typ);
  }

  /** The projection line opens `cam_type` once. */
  lemma CamTypeLine(fmt: Fmt, cam: Camera)
    ensures CountTag(CamTypePart(fmt, cam), "cam_type") == 1
  {
    var p := CamTypePart(fmt, cam);
    CountTagOne(p[0], "cam_type");
    if |p| > 1 {
      assert p == [p[0]] + p[1..];
      CountTagAppend([p[0]], p[1..], "cam_type");
      assert "cam_type" !in Tags(p[1..]) by {
        CamTypePartTags(fmt, cam);
        TagsAppend([p[0]], p[1..]);
        assert Tags(p[1..]) <= {"scale", "angle", "lens"};
      }
      CountTagPresent(p[1..], "cam_type");
    }
  }

  /** Every camera block has exactly one projection line. */
  lemma CamTypeOnce(fmt: Fmt, cam: Camera)
    ensures CountTag(CameraItems(fmt, cam), "cam_type") == 1
  {
    var h := CameraHead(fmt, cam);
    var p := CamTypePart(fmt, cam);
    CountTagAppend(h, p, "cam_type");
    CountTagAppend(h + p, [Raw(")")], "cam_type");
    CountTagOne(Raw(")"), "cam_type");
    CameraHeadTags(fmt, cam);
    CameraTagSetFacts(cam.typ);
    CountTagPresent(h, "cam_type");
    CamTypeLine(fmt, cam);
  }
}
