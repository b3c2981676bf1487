/** The `(mesh ...)` block: the vertex list written three to a line, the
    optional per-corner colour and texture lists, the vertex texture list, the
    face list written five to a line, and the mesh's materials. */
module MeshEncoding {
  import opened Wrappers
  import opened Sexp
  import opened Numerals
  import opened BlendData
  import opened Common
  import opened RowLists
  import opened Dedup
  import opened MaterialsList

  // ---- Vertices -------------------------------------------------------------

  /** One vertex: its coordinates between parentheses, as one write. */
  function VertexCell(fmt: Fmt, v: Vertex): seq<Item>
  {
    [Raw("(" + G3(fmt, v.co) + ")")]
  }

  function VertexCells(fmt: Fmt, verts: seq<Vertex>): (r: seq<seq<Item>>)
    ensures |r| == |verts|
    ensures forall k :: 0 <= k < |verts| ==> r[k] == VertexCell(fmt, verts[k])
  {
    seq(|verts|, k requires 0 <= k < |verts| => VertexCell(fmt, verts[k]))
  }

  /** The vertex list, three vertices to a line. */
  function VerticesBlock(fmt: Fmt, verts: seq<Vertex>): seq<Item>
  {
    [OpenList("vertices")] + Rows(VertexCells(fmt, verts), 3) + [CloseList()]
  }

  // ---- Per-corner lists -----------------------------------------------------

  /** A vertex colour: the host's integer channels, each through `%g`. */
  function ColorText(fmt: Fmt, c: Rgb): string
  {
    "(" + fmt(c.r as real) + " " + fmt(c.g as real) + " " + fmt(c.b as real) + ")"
  }

  function UvText(fmt: Fmt, uv: Vec2): string
  {
    "(" + G2(fmt, uv.0, uv.1) + ")"
  }

  function FaceColorTexts(fmt: Fmt, f: Face): (r: seq<string>)
    ensures |r| == |f.corners|
    ensures forall j :: 0 <= j < |r| ==> r[j] == ColorText(fmt, f.corners[j].col)
  {
    seq(|f.corners|, j requires 0 <= j < |f.corners| => ColorText(fmt, f.corners[j].col))
  }

  function FaceUvTexts(fmt: Fmt, f: Face): (r: seq<string>)
    ensures |r| == |f.corners|
    ensures forall j :: 0 <= j < |r| ==> r[j] == UvText(fmt, f.corners[j].uv)
  {
    seq(|f.corners|, j requires 0 <= j < |f.corners| => UvText(fmt, f.corners[j].uv))
  }

  /** One face's line of a per-corner list: the corner values with the `sep`
      idiom, between parentheses, then a newline. */
  function CornerLine(ts: seq<string>): seq<Item>
  {
    [Raw("(")] + Joined(ts) + [Raw(")\n")]
  }

  function ColorLines(fmt: Fmt, faces: seq<Face>): (r: seq<seq<Item>>)
    ensures |r| == |faces|
    ensures forall k :: 0 <= k < |faces| ==> r[k] == CornerLine(FaceColorTexts(fmt, faces[k]))
  {
    seq(|faces|, k requires 0 <= k < |faces| => CornerLine(FaceColorTexts(fmt, faces[k])))
  }

  function UvLines(fmt: Fmt, faces: seq<Face>): (r: seq<seq<Item>>)
    ensures |r| == |faces|
    ensures forall k :: 0 <= k < |faces| ==> r[k] == CornerLine(FaceUvTexts(fmt, faces[k]))
  {
    seq(|faces|, k requires 0 <= k < |faces| => CornerLine(FaceUvTexts(fmt, faces[k])))
  }

  function VertexColorsBlock(fmt: Fmt, faces: seq<Face>): seq<Item>
  {
    [OpenList("vertex_colors")] + Concat(ColorLines(fmt, faces)) + [CloseList()]
  }

  function FaceUvBlock(fmt: Fmt, faces: seq<Face>): seq<Item>
  {
    [OpenList("face_uv")] + Concat(UvLines(fmt, faces)) + [CloseList()]
  }

  // ---- Vertex texture coordinates, as written -------------------------------

  /** One vertex of the `vertex_uv` list and the blank written after it: the
      counter that would choose a newline is advanced after the loop rather
      than inside it, so the loop always writes a blank. */
  function UvCell(fmt: Fmt, v: Vertex): seq<Item>
  {
    [Raw(UvText(fmt, v.uvco)), Raw(" ")]
  }

  function UvCells(fmt: Fmt, verts: seq<Vertex>): (r: seq<seq<Item>>)
    ensures |r| == |verts|
    ensures forall k :: 0 <= k < |verts| ==> r[k] == UvCell(fmt, verts[k])
  {
    seq(|verts|, k requires 0 <= k < |verts| => UvCell(fmt, verts[k]))
  }

  function VertexUvBlock(fmt: Fmt, verts: seq<Vertex>): seq<Item>
  {
    [OpenList("vertex_uv")] + Concat(UvCells(fmt, verts)) + [CloseList()]
  }

  // ---- Faces ----------------------------------------------------------------

  function Indices(f: Face): (r: seq<int>)
    ensures |r| == |f.corners|
    ensures forall j :: 0 <= j < |r| ==> r[j] == f.corners[j].index
  {
    seq(|f.corners|, j requires 0 <= j < |f.corners| => f.corners[j].index)
  }

  /** One face: its vertex indices with the `sep` idiom, between
      parentheses. */
  function FaceCell(f: Face): seq<Item>
  {
    [Raw("(")] + Joined(IntTexts(Indices(f))) + [Raw(")")]
  }

  function FaceCells(faces: seq<Face>): (r: seq<seq<Item>>)
    ensures |r| == |faces|
    ensures forall k :: 0 <= k < |faces| ==> r[k] == FaceCell(faces[k])
  {
    seq(|faces|, k requires 0 <= k < |faces| => FaceCell(faces[k]))
  }

  /** The face list, five faces to a line. */
  function FacesBlock(faces: seq<Face>): seq<Item>
  {
    [OpenList("faces")] + Rows(FaceCells(faces), 5) + [CloseList()]
  }

  // ---- The mesh block -------------------------------------------------------

  function RenderColorLayerPart(mesh: Mesh): seq<Item>
  {
    if mesh.renderColorLayer != "" then [Field("render_color_layer", Quote(mesh.renderColorLayer))] else []
  }

  function VertexColorsPart(fmt: Fmt, mesh: Mesh): seq<Item>
  {
    if mesh.vertexColors then VertexColorsBlock(fmt, mesh.faces) else []
  }

  function RenderUvLayerPart(mesh: Mesh): seq<Item>
  {
    if mesh.renderUVLayer != "" then [Field("render_uv_layer", Quote(mesh.renderUVLayer))] else []
  }

  function VertexUvPart(fmt: Fmt, mesh: Mesh): seq<Item>
  {
    if mesh.vertexUV then VertexUvBlock(fmt, mesh.verts) else []
  }

  function FaceUvPart(fmt: Fmt, mesh: Mesh): seq<Item>
  {
    if mesh.faceUV then FaceUvBlock(fmt, mesh.faces) else []
  }

  /** Everything the mesh block writes before its materials list. */
  function MeshBody(fmt: Fmt, mesh: Mesh): seq<Item>
  {
    [Open("mesh"), Field("max_smooth_angle", fmt(mesh.maxSmoothAngle))]
      + VerticesBlock(fmt, mesh.verts)
      + RenderColorLayerPart(mesh)
      + VertexColorsPart(fmt, mesh)
      + RenderUvLayerPart(mesh)
      + VertexUvPart(fmt, mesh)
      + FaceUvPart(fmt, mesh)
      + FacesBlock(mesh.faces)
  }

  /** The whole mesh block from material registry `seen`, with `block` the
      material encoder: the body, the materials list, and the closing
      parenthesis (with no newline) unless a material raised. */
  function MeshRun(fmt: Fmt, block: Material -> Emit, mesh: Mesh, seen: set<string>): Run
  {
    var r := MaterialsRun(block, mesh.materials, seen);
    if r.emit.error.Some? then Run(Emit(MeshBody(fmt, mesh) + r.emit.items, r.emit.error), r.seen)
    else Run(Emit(MeshBody(fmt, mesh) + r.emit.items + [Raw(")")], None), r.seen)
  }

  // ---- Properties -----------------------------------------------------------

  lemma VertexCellsPlain(fmt: Fmt, verts: seq<Vertex>)
    ensures forall k :: 0 <= k < |verts| ==> NoNewline(VertexCells(fmt, verts)[k]) && Untagged(VertexCells(fmt, verts)[k])
  {
    forall k | 0 <= k < |verts|
      ensures NoNewline(VertexCells(fmt, verts)[k])
    {
      assert VertexCells(fmt, verts)[k][0].text[0] == '(';
    }
  }

  /** The vertex list takes ceil(n / 3) lines for n vertices, three to a line,
      and a non-empty list ends its last line before the closing parentheses. */
  lemma VerticesLines(fmt: Fmt, verts: seq<Vertex>)
    ensures var rows := Rows(VertexCells(fmt, verts), 3);
      && Newlines(rows) == (|verts| + 2) / 3
      && (|verts| > 0 ==> rows[|rows| - 1] == Raw("\n"))
  {
    VertexCellsPlain(fmt, verts);
    RowsNewlines(VertexCells(fmt, verts), 3);
  }

  lemma JoinedPlain(ts: seq<string>)
    requires forall j :: 0 <= j < |ts| ==> ts[j] != [] && ts[j][0] != '\n'
    ensures NoNewline(Joined(ts)) && Untagged(Joined(ts))
  {
    JoinedText(ts);
    forall j | 0 <= j < |ts|
      ensures Joined(ts)[j] != Raw("\n") && Joined(ts)[j].Raw?
    {
      JoinedAt(ts, j);
      if j == 0 {
        assert Joined(ts)[j].text == ts[j];
      } else {
        assert Joined(ts)[j].text[0] == ' ';
      }
    }
  }

  lemma FaceCellsPlain(faces: seq<Face>)
    ensures forall k :: 0 <= k < |faces| ==> NoNewline(FaceCells(faces)[k]) && Untagged(FaceCells(faces)[k])
  {
    forall k | 0 <= k < |faces|
      ensures NoNewline(FaceCells(faces)[k]) && Untagged(FaceCells(faces)[k])
    {
      var ts := IntTexts(Indices(faces[k]));
      forall j | 0 <= j < |ts|
        ensures ts[j] != [] && ts[j][0] != '\n'
      {
        IntTextWord(Indices(faces[k])[j]);
        assert ts[j][0] in ts[j];
      }
      JoinedPlain(ts);
    }
  }

  /** The face list takes ceil(n / 5) lines for n faces, five to a line, and
      a non-empty list ends its last line before the closing parentheses. */
  lemma FacesLines(faces: seq<Face>)
    ensures var rows := Rows(FaceCells(faces), 5);
      && Newlines(rows) == (|faces| + 4) / 5
      && (|faces| > 0 ==> rows[|rows| - 1] == Raw("\n"))
  {
    FaceCellsPlain(faces);
    RowsNewlines(FaceCells(faces), 5);
  }

  /** A face's cell reads back as its vertex indices: the text between its
      parentheses is the indices' numerals joined by blanks, and splitting it
      at the blanks and parsing each word gives the indices in corner order. */
  lemma FaceCellRoundTrip(f: Face)
    ensures Text(FaceCell(f)) == "(" + JoinSpace(IntTexts(Indices(f))) + ")"
    ensures SplitSpace(JoinSpace(IntTexts(Indices(f)))) == IntTexts(Indices(f))
    ensures forall j :: 0 <= j < |f.corners| ==> ParseInt(IntTexts(Indices(f))[j]) == f.corners[j].index
  {
    var js := Joined(IntTexts(Indices(f)));
    JoinedText(IntTexts(Indices(f)));
    CornerTextOf([Raw("(")] + js, [Raw(")")]);
    TextAppend([Raw("(")], js);
    OneText(Raw("("));
    OneText(Raw(")"));
    IntListRoundTrip(Indices(f));
  }

  lemma OneText(it: Item)
    ensures Text([it]) == Render(it)
  {
    assert [it][..0] == [];
  }

  lemma CornerTextOf(a: seq<Item>, b: seq<Item>)
    ensures Text(a + b) == Text(a) + Text(b)
  {
    TextAppend(a, b);
  }

  /** A per-corner line's text is the corner values joined by blanks between
      parentheses, and its `j`-th value write is corner `j`'s value, after a
      blank unless it is the first. */
  lemma CornerLineText(ts: seq<string>, j: nat)
    requires j < |ts|
    ensures |CornerLine(ts)| == |ts| + 2
    ensures Text(CornerLine(ts)) == "(" + JoinSpace(ts) + ")\n"
    ensures CornerLine(ts)[j + 1] == Raw((if j == 0 then "" else " ") + ts[j])
  {
    var l := CornerLine(ts);
    JoinedText(ts);
    JoinedAt(ts, j);
    assert l[j + 1] == Joined(ts)[j];
    TextAppend([Raw("(")] + Joined(ts), [Raw(")\n")]);
    TextAppend([Raw("(")], Joined(ts));
    OneText(Raw("("));
    OneText(Raw(")\n"));
    assert Text([Raw("(")] + Joined(ts)) == "(" + JoinSpace(ts);
  }

  /** The vertex texture list, as written, never breaks its line: each
      vertex is followed by a blank and the list has no newline of its own,
      whatever the number of vertices. */
  lemma {:induction false} VertexUvOneLine(fmt: Fmt, verts: seq<Vertex>)
    ensures |Concat(UvCells(fmt, verts))| == 2 * |verts|
    ensures Newlines(Concat(UvCells(fmt, verts))) == 0
    ensures forall k :: 0 <= k < |verts| ==> Concat(UvCells(fmt, verts))[2 * k + 1] == Raw(" ")
    decreases |verts|
  {
    if verts != [] {
      var p := verts[..|verts| - 1];
      assert UvCells(fmt, p) == UvCells(fmt, verts)[..|verts| - 1];
      VertexUvOneLine(fmt, p);
      var c := UvCell(fmt, verts[|verts| - 1]);
      NewlinesAppend(Concat(UvCells(fmt, p)), c);
      assert c == [c[0]] + [c[1]];
      NewlinesAppend([c[0]], [c[1]]);
      assert [c[0]][..0] == [] && [c[1]][..0] == [];
      assert c[0].text[0] == '(';
    }
  }

  lemma CornerLinesUntagged(lines: seq<seq<Item>>, texts: seq<seq<string>>)
    requires |lines| == |texts|
    requires forall k :: 0 <= k < |lines| ==> lines[k] == CornerLine(texts[k])
    ensures Untagged(Concat(lines))
  {
    forall k | 0 <= k < |lines|
      ensures Untagged(lines[k])
    {
      JoinedUntagged(texts[k]);
      assert forall j :: 0 <= j < |Joined(texts[k])| ==> Joined(texts[k])[j].Raw? by {
        forall j | 0 <= j < |Joined(texts[k])|
          ensures Joined(texts[k])[j].Raw?
        {
          JoinedText(texts[k]);
          JoinedAt(texts[k], j);
        }
      }
    }
    ConcatUntagged(lines);
  }

  lemma VerticesTags(fmt: Fmt, verts: seq<Vertex>)
    ensures Tags(VerticesBlock(fmt, verts)) == {"vertices"}
  {
    VertexCellsPlain(fmt, verts);
    RowsUntagged(VertexCells(fmt, verts), 3);
    ListTags("vertices", Rows(VertexCells(fmt, verts), 3));
  }

  lemma VertexColorsTags(fmt: Fmt, faces: seq<Face>)
    ensures Tags(VertexColorsBlock(fmt, faces)) == {"vertex_colors"}
  {
    var texts := seq(|faces|, k requires 0 <= k < |faces| => FaceColorTexts(fmt, faces[k]));
    CornerLinesUntagged(ColorLines(fmt, faces), texts);
    ListTags("vertex_colors", Concat(ColorLines(fmt, faces)));
  }

  lemma FaceUvTags(fmt: Fmt, faces: seq<Face>)
    ensures Tags(FaceUvBlock(fmt, faces)) == {"face_uv"}
  {
    var texts := seq(|faces|, k requires 0 <= k < |faces| => FaceUvTexts(fmt, faces[k]));
    CornerLinesUntagged(UvLines(fmt, faces), texts);
    ListTags("face_uv", Concat(UvLines(fmt, faces)));
  }

  lemma VertexUvTags(fmt: Fmt, verts: seq<Vertex>)
    ensures Tags(VertexUvBlock(fmt, verts)) == {"vertex_uv"}
  {
    ConcatUntagged(UvCells(fmt, verts));
    ListTags("vertex_uv", Concat(UvCells(fmt, verts)));
  }

  lemma FacesTags(faces: seq<Face>)
    ensures Tags(FacesBlock(faces)) == {"faces"}
  {
    FaceCellsPlain(faces);
    RowsUntagged(FaceCells(faces), 5);
    ListTags("faces", Rows(FaceCells(faces), 5));
  }

  /** The tags of each part of the mesh block. */
  lemma MeshPartsTags(fmt: Fmt, mesh: Mesh)
    ensures Tags(VerticesBlock(fmt, mesh.verts)) == {"vertices"}
    ensures Tags(VertexColorsBlock(fmt, mesh.faces)) == {"vertex_colors"}
    ensures Tags(VertexUvBlock(fmt, mesh.verts)) == {"vertex_uv"}
    ensures Tags(FaceUvBlock(fmt, mesh.faces)) == {"face_uv"}
    ensures Tags(FacesBlock(mesh.faces)) == {"faces"}
  {
    VerticesTags(fmt, mesh.verts);
    VertexColorsTags(fmt, mesh.faces);
    VertexUvTags(fmt, mesh.verts);
    FaceUvTags(fmt, mesh.faces);
    FacesTags(mesh.faces);
  }

  /** A list block opened with `tag` around untagged writes has that one tag. */
  lemma ListTags(tag: string, body: seq<Item>)
    requires Untagged(body)
    ensures Tags([OpenList(tag)] + body + [CloseList()]) == {tag}
  {
    UntaggedTags(body);
    TagsAppend([OpenList(tag)], body);
    TagsAppend([OpenList(tag)] + body, [CloseList()]);
    TagsOfOne(OpenList(tag));
    TagsOfOne(CloseList());
  }

  /** The two fields that open the mesh block. */
  lemma MeshHeadTags(angle: string)
    ensures Tags([Open("mesh"), Field("max_smooth_angle", angle)]) == {"mesh", "max_smooth_angle"}
  {
    var h: seq<Item> := [Open("mesh"), Field("max_smooth_angle", angle)];
    assert h == [h[0]] + [h[1]];
    TagsAppend([h[0]], [h[1]]);
    TagsOfOne(h[0]);
    TagsOfOne(h[1]);
  }

  /** The tags of the mesh block are those of its parts. */
  lemma MeshTags(fmt: Fmt, mesh: Mesh)
    ensures Tags(MeshBody(fmt, mesh)) ==
      {"mesh", "max_smooth_angle"} + {"vertices"}
      + Tags(RenderColorLayerPart(mesh)) + Tags(VertexColorsPart(fmt, mesh))
      + Tags(RenderUvLayerPart(mesh)) + Tags(VertexUvPart(fmt, mesh))
      + Tags(FaceUvPart(fmt, mesh)) + {"faces"}
  {
    VerticesTags(fmt, mesh.verts);
    FacesTags(mesh.faces);
    MeshHeadTags(fmt(mesh.maxSmoothAngle));
    Tags8([Open("mesh"), Field("max_smooth_angle", fmt(mesh.maxSmoothAngle))],
      VerticesBlock(fmt, mesh.verts), RenderColorLayerPart(mesh), VertexColorsPart(fmt, mesh),
      RenderUvLayerPart(mesh), VertexUvPart(fmt, mesh), FaceUvPart(fmt, mesh), FacesBlock(mesh.faces));
  }

  /** The one tag an optional part brings when it is present. */
  function OptTag(present: bool, tag: string): set<string>
  {
    if present then {tag} else {}
  }

  /** The tags each optional part of the mesh block can bring: its own, and
      only when the mesh has that part. */
  lemma OptionalPartsTags(fmt: Fmt, mesh: Mesh)
    ensures Tags(RenderColorLayerPart(mesh)) == OptTag(mesh.renderColorLayer != "", "render_color_layer")
    ensures Tags(VertexColorsPart(fmt, mesh)) == OptTag(mesh.vertexColors, "vertex_colors")
    ensures Tags(RenderUvLayerPart(mesh)) == OptTag(mesh.renderUVLayer != "", "render_uv_layer")
    ensures Tags(VertexUvPart(fmt, mesh)) == OptTag(mesh.vertexUV, "vertex_uv")
    ensures Tags(FaceUvPart(fmt, mesh)) == OptTag(mesh.faceUV, "face_uv")
  {
    MeshPartsTags(fmt, mesh);
    if mesh.renderColorLayer != "" { TagsOfOne(RenderColorLayerPart(mesh)[0]); }
    if mesh.renderUVLayer != "" { TagsOfOne(RenderUvLayerPart(mesh)[0]); }
  }

  /** The tags a mesh block holds: the fixed ones, and each optional part's
      own tag exactly when the mesh has that part. */
  function MeshTagSet(mesh: Mesh): set<string>
  {
    {"mesh", "max_smooth_angle"} + {"vertices"}
      + OptTag(mesh.renderColorLayer != "", "render_color_layer")
      + OptTag(mesh.vertexColors, "vertex_colors")
      + OptTag(mesh.renderUVLayer != "", "render_uv_layer")
      + OptTag(mesh.vertexUV, "vertex_uv")
      + OptTag(mesh.faceUV, "face_uv")
      + {"faces"}
  }

  /** Membership in the tag set, part by part. */
  lemma InMeshTagSet(mesh: Mesh, t: string)
    ensures t in MeshTagSet(mesh) <==>
      t in {"mesh", "max_smooth_angle", "vertices", "faces"}
      || t in OptTag(mesh.renderColorLayer != "", "render_color_layer")
      || t in OptTag(mesh.vertexColors, "vertex_colors")
      || t in OptTag(mesh.renderUVLayer != "", "render_uv_layer")
      || t in OptTag(mesh.vertexUV, "vertex_uv")
      || t in OptTag(mesh.faceUV, "face_uv")
  {
  }

  lemma MeshTagSetFacts(mesh: Mesh)
    ensures "vertices" in MeshTagSet(mesh) && "faces" in MeshTagSet(mesh)
    ensures "render_color_layer" in MeshTagSet(mesh) <==> mesh.renderColorLayer != ""
    ensures "vertex_colors" in MeshTagSet(mesh) <==> mesh.vertexColors
    ensures "render_uv_layer" in MeshTagSet(mesh) <==> mesh.renderUVLayer != ""
    ensures "vertex_uv" in MeshTagSet(mesh) <==> mesh.vertexUV
    ensures "face_uv" in MeshTagSet(mesh) <==> mesh.faceUV
  {
    InMeshTagSet(mesh, "vertices");
    InMeshTagSet(mesh, "faces");
    InMeshTagSet(mesh, "render_color_layer");
    InMeshTagSet(mesh, "vertex_colors");
    InMeshTagSet(mesh, "render_uv_layer");
    InMeshTagSet(mesh, "vertex_uv");
    InMeshTagSet(mesh, "face_uv");
  }

  lemma MeshTagsExact(fmt: Fmt, mesh: Mesh)
    ensures Tags(MeshBody(fmt, mesh)) == MeshTagSet(mesh)
  {
    MeshTags(fmt, mesh);
    OptionalPartsTags(fmt, mesh);
  }

  /** The vertex and face lists are always written. */
  lemma MeshAlwaysTags(fmt: Fmt, mesh: Mesh)
    ensures "vertices" in Tags(MeshBody(fmt, mesh)) && "faces" in Tags(MeshBody(fmt, mesh))
  {
    MeshTagsExact(fmt, mesh);
    MeshTagSetFacts(mesh);
  }

  /** The colour-layer name is written exactly when it is not empty. */
  lemma RenderColorLayerIff(fmt: Fmt, mesh: Mesh)
    ensures "render_color_layer" in Tags(MeshBody(fmt, mesh)) <==> mesh.renderColorLayer != ""
  {
    MeshTagsExact(fmt, mesh);
    MeshTagSetFacts(mesh);
  }

  /** The per-corner colour list is written exactly when the mesh has vertex
      colours. */
  lemma VertexColorsIff(fmt: Fmt, mesh: Mesh)
    ensures "vertex_colors" in Tags(MeshBody(fmt, mesh)) <==> mesh.vertexColors
  {
    MeshTagsExact(fmt, mesh);
    MeshTagSetFacts(mesh);
  }

  /** The texture-layer name is written exactly when it is not empty. */
  lemma RenderUvLayerIff(fmt: Fmt, mesh: Mesh)
    ensures "render_uv_layer" in Tags(MeshBody(fmt, mesh)) <==> mesh.renderUVLayer != ""
  {
    MeshTagsExact(fmt, mesh);
    MeshTagSetFacts(mesh);
  }

  /** The vertex texture list is written exactly when the mesh has vertex
      texture coordinates. */
  lemma VertexUvIff(fmt: Fmt, mesh: Mesh)
    ensures "vertex_uv" in Tags(MeshBody(fmt, mesh)) <==> mesh.vertexUV
  {
    MeshTagsExact(fmt, mesh);
    MeshTagSetFacts(mesh);
  }

  /** The per-corner texture list is written exactly when the mesh has face
      texture coordinates. */
  lemma FaceUvIff(fmt: Fmt, mesh: Mesh)
    ensures "face_uv" in Tags(MeshBody(fmt, mesh)) <==> mesh.faceUV
  {
    MeshTagsExact(fmt, mesh);
    MeshTagSetFacts(mesh);
  }

  lemma Tags8(a: seq<Item>, b: seq<Item>, c: seq<Item>, d: seq<Item>,
              e: seq<Item>, f: seq<Item>, g: seq<Item>, h: seq<Item>)
    ensures Tags(a + b + c + d + e + f + g + h) ==
      Tags(a) + Tags(b) + Tags(c) + Tags(d) + Tags(e) + Tags(f) + Tags(g) + Tags(h)
  {
    TagsAppend(a, b);
    TagsAppend(a + b, c);
    TagsAppend(a + b + c, d);
    TagsAppend(a + b + c + d, e);
    TagsAppend(a + b + c + d + e, f);
    TagsAppend(a + b + c + d + e + f, g);
    TagsAppend(a + b + c + d + e + f + g, h);
  }

  /** The mesh block as a whole: it starts with the body, then the
      materials list opening `materials`; it is closed exactly when no
      material raised.  The material registry never loses a name, and a
      mesh whose materials all went through adds exactly the names of its
      materials to it. */
  lemma MeshRunShape(fmt: Fmt, block: Material -> Emit, mesh: Mesh, seen: set<string>)
    ensures var r := MeshRun(fmt, block, mesh, seen);
      var m := MaterialsRun(block, mesh.materials, seen);
      && r.emit.items[..|MeshBody(fmt, mesh)|] == MeshBody(fmt, mesh)
      && r.emit.items[|MeshBody(fmt, mesh)|] == Open("materials")
      && r.emit.error == m.emit.error
      && seen <= r.seen
      && (r.emit.error == None ==> r.seen == seen + Elems(Names(mesh.materials)))
      && (r.emit.error == None <==> r.emit.items == MeshBody(fmt, mesh) + m.emit.items + [Raw(")")])
  {
    MaterialsRunShape(block, mesh.materials, seen);
  }
}
