/** The exporter itself: one object holding the output sink and the two
    registries, with one method per encoder of the script.  Every method
    appends to the sink exactly what its specification function says and
    moves the registries exactly as that function says; when the script
    would raise, the method returns the error and leaves what was written so
    far in the sink. */
module Export {
  import opened Wrappers
  import opened Sexp
  import opened Numerals
  import opened BlendData
  import opened HostTables
  import opened Common
  import opened Dedup
  import opened MaterialEncoding
  import opened MaterialsList
  import opened RowLists
  import opened MeshEncoding
  import opened CurveEncoding
  import opened CameraEncoding
  import opened LampEncoding
  import opened MetaballEncoding
  import opened TextEncoding
  import opened ArmatureEncoding
  import opened RenderEncoding
  import opened PropertiesEncoding
  import opened IpoEncoding
  import opened PoseEncoding
  import opened ObjectEncoding
  import opened BlendEncoding

  class Exporter {
    /** The `%g` formatter. */
    const fmt: Fmt
    /** Everything written so far, one item per write. */
    var out: seq<Item>
    /** The registry of content names. */
    var contNames: set<string>
    /** The registry of material names. */
    var mtrlNames: set<string>
    /** The content encoder the object blocks are stated over: the data block
        of each object type, as `DumpContentData` writes it. */
    ghost const data: (ObData, set<string>) -> Run

    /** `data` is the exporter's own content encoder.  The fact is stated so
        that it is used only where a data block is actually written. */
    ghost predicate Valid()
    {
      forall d: ObData, seen: set<string> {:trigger DataRun(fmt, Block(fmt), d, seen)} ::
        data(d, seen) == DataRun(fmt, Block(fmt), d, seen)
    }

    /** The exporter's content encoder registers exactly the materials of
        each data block that did not raise. */
    lemma DataListsOwnMaterials()
      requires Valid()
      ensures ListsMaterials(data)
    {
      DataListsMaterials(fmt, Block(fmt));
      forall d: ObData, seen: set<string> | data(d, seen).emit.error == None
        ensures data(d, seen).seen == seen + Elems(DataMaterials(d))
      {
        assert data(d, seen) == DataRun(fmt, Block(fmt), d, seen) == Data(fmt, Block(fmt))(d, seen);
      }
    }

    /** A fresh export: nothing written, nothing registered. */
    constructor (fmt: Fmt)
      ensures this.fmt == fmt && data == Data(fmt, Block(fmt)) && Valid()
      ensures out == [] && contNames == {} && mtrlNames == {}
    {
      this.fmt := fmt;
      data := Data(fmt, Block(fmt));
      out := [];
      contNames := {};
      mtrlNames := {};
    }

    /** One write. */
    method Write(it: Item)
      modifies this`out
      ensures out == old(out) + [it]
    {
      out := out + [it];
    }

    /** A run of consecutive writes with no control flow between them. */
    method WriteAll(its: seq<Item>)
      modifies this`out
      ensures out == old(out) + its
    {
      out := out + its;
    }

    /** The fields the diffuse shader's word adds. */
    method DumpDiffuseExtras(diffuse: string, m: Material)
      modifies this`out
      ensures out == old(out) + DiffuseExtras(fmt, diffuse, m)
    {
      if diffuse == "diffuse_orennayar" {
        Write(Field("roughness", fmt(m.roughness)));
      } else if diffuse == "diffuse_toon" {
        Write(Field("diffuseSize", fmt(m.diffuseSize)));
        Write(Field("diffuseSmooth", fmt(m.diffuseSmooth)));
      } else if diffuse == "diffuse_minnaert" {
        Write(Field("diffuseDarkness", fmt(m.diffuseDarkness)));
      }
    }

    /** The fields the specular shader's word adds. */
    method DumpSpecExtras(spec: string, m: Material)
      modifies this`out
      ensures out == old(out) + SpecExtras(fmt, spec, m)
    {
      if spec == "spec_wardiso" {
        Write(Field("surf_slope_std_dev", fmt(m.rms)));
      } else if spec == "spec_toon" {
        Write(Field("spec_size", fmt(m.specSize)));
      } else if spec == "spec_blinn" {
        Write(Field("refrac_index", fmt(m.refracIndex)));
      }
    }

    method DumpMaterial(m: Material) returns (err: Option<ExportError>)
      modifies this`out
      ensures out == old(out) + MaterialEmit(fmt, m).items
      ensures err == MaterialEmit(fmt, m).error
    {
      WriteAll(MaterialHead(fmt, m));
      if m.diffuseShader !in DiffuseShaders {
        return Some(UnmappedDiffuseShader(m.diffuseShader));
      }
      var diffuse := DiffuseShaders[m.diffuseShader];
      Write(Field("diffuse_shader", Quote(diffuse)));
      AppendAssoc(old(out), MaterialHead(fmt, m), [Field("diffuse_shader", Quote(diffuse))]);
      DumpDiffuseExtras(diffuse, m);
      AppendAssoc(old(out), MaterialHead(fmt, m) + [Field("diffuse_shader", Quote(diffuse))], DiffuseExtras(fmt, diffuse, m));
      ghost var part := DiffusePart(fmt, m);
      assert out == old(out) + part;
      if m.specShader !in SpecShaders {
        return Some(UnmappedSpecShader(m.specShader));
      }
      var spec := SpecShaders[m.specShader];
      Write(Field("spec_shader", Quote(spec)));
      AppendAssoc(old(out), part, [Field("spec_shader", Quote(spec))]);
      DumpSpecExtras(spec, m);
      AppendAssoc(old(out), part + [Field("spec_shader", Quote(spec))], SpecExtras(fmt, spec, m));
      Write(Close());
      AppendAssoc(old(out), part + [Field("spec_shader", Quote(spec))] + SpecExtras(fmt, spec, m), [Close()]);
      return None;
    }

    /** One turn of the materials loop. */
    method DumpMaterialEntry(m: Material) returns (err: Option<ExportError>)
      modifies this`out, this`mtrlNames
      ensures var r := MaterialEntry(Block(fmt), old(mtrlNames), m);
        out == old(out) + r.emit.items && err == r.emit.error && mtrlNames == r.seen
    {
      if m.name in mtrlNames {
        Write(UseMaterial(m));
        err := None;
      } else {
        mtrlNames := mtrlNames + {m.name};
        err := DumpMaterial(m);
      }
    }

    /** The materials loop: each material in turn, stopping at the first
        that raises. */
    method DumpMaterialsBody(ms: seq<Material>) returns (err: Option<ExportError>)
      modifies this`out, this`mtrlNames
      ensures var b := MaterialsBody(Block(fmt), ms, old(mtrlNames));
        out == old(out) + b.emit.items && err == b.emit.error && mtrlNames == b.seen
    {
      var i := 0;
      err := None;
      while i < |ms|
        invariant 0 <= i <= |ms| && err == None
        invariant var b := MaterialsBody(Block(fmt), ms[..i], old(mtrlNames));
          b.emit.error == None && out == old(out) + b.emit.items && mtrlNames == b.seen
      {
        ghost var b := MaterialsBody(Block(fmt), ms[..i], old(mtrlNames));
        MaterialsBodySnoc(Block(fmt), ms, old(mtrlNames), i);
        err := DumpMaterialEntry(ms[i]);
        ghost var e := MaterialEntry(Block(fmt), b.seen, ms[i]);
        AppendAssoc(old(out), b.emit.items, e.emit.items);
        if err.Some? {
          MaterialsBodyStops(Block(fmt), ms, old(mtrlNames), i + 1);
          return;
        }
        i := i + 1;
      }
      assert i == |ms|;
      TakeAll(ms);
    }

    /** The `(materials ...)` list of an object or a mesh. */
    method DumpMaterials(ms: seq<Material>) returns (err: Option<ExportError>)
      modifies this`out, this`mtrlNames
      ensures var r := MaterialsRun(Block(fmt), ms, old(mtrlNames));
        out == old(out) + r.emit.items && err == r.emit.error && mtrlNames == r.seen
    {
      Write(Open("materials"));
      err := DumpMaterialsBody(ms);
      ghost var b := MaterialsBody(Block(fmt), ms, old(mtrlNames));
      AppendAssoc(old(out), [Open("materials")], b.emit.items);
      if err.Some? {
        return;
      }
      Write(Close());
      AppendAssoc(old(out), [Open("materials")] + b.emit.items, [Close()]);
    }

    /** The `sep` idiom: the words one write each, every one after the first
        preceded by a blank. */
    method DumpJoined(ts: seq<string>)
      modifies this`out
      ensures out == old(out) + Joined(ts)
    {
      ghost var start := out;
      var sep := "";
      var j := 0;
      while j < |ts|
        invariant 0 <= j <= |ts|
        invariant sep == if j == 0 then "" else " "
        invariant out == start + Joined(ts[..j])
      {
        JoinedSnoc(ts, j);
        Write(Raw(sep + ts[j]));
        sep := " ";
        j := j + 1;
      }
      assert j == |ts|;
      TakeAll(ts);
    }

    /** One vertex and the separator the wrapping counter picks. */
    method DumpVertexTurn(v: Vertex, sepi: nat)
      modifies this`out
      ensures out == old(out) + (VertexCell(fmt, v) + [Raw(if sepi == 2 then "\n" else " ")])
    {
      Write(Raw("(" + G3(fmt, v.co) + ")"));
      if sepi == 2 {
        Write(Raw("\n"));
      } else {
        Write(Raw(" "));
      }
    }

    /** The vertex loop: each vertex and its separator, the counter
        wrapping every 3; returns the counter. */
    method DumpVertexRows(verts: seq<Vertex>) returns (sepi: nat)
      modifies this`out
      ensures sepi == |verts| % 3
      ensures out == old(out) + RowCells(VertexCells(fmt, verts), 3)
    {
      ghost var cells := VertexCells(fmt, verts);
      sepi := 0;
      var i := 0;
      while i < |verts|
        invariant 0 <= i <= |verts|
        invariant sepi == i % 3
        invariant out == old(out) + RowCells(cells[..i], 3)
      {
        RowCellsPrefix(cells, i, 3);
        ghost var before := out;
        DumpVertexTurn(verts[i], sepi);
        assert out == before + (cells[i] + [Sep(i, 3)]);
        AppendAssoc(old(out), RowCells(cells[..i], 3), cells[i] + [Sep(i, 3)]);
        ModStep(i, 3);
        sepi := (sepi + 1) % 3;
        i := i + 1;
      }
      assert i == |verts|;
      TakeAll(cells);
    }

    /** The vertex list, three to a line. */
    method DumpVertices(verts: seq<Vertex>)
      modifies this`out
      ensures out == old(out) + VerticesBlock(fmt, verts)
    {
      Write(OpenList("vertices"));
      var sepi := DumpVertexRows(verts);
      ghost var r := RowCells(VertexCells(fmt, verts), 3);
      AppendAssoc(old(out), [OpenList("vertices")], r);
      if sepi != 0 {
        Write(Raw("\n"));
      }
      AppendAssoc(old(out), [OpenList("vertices")] + r, if sepi != 0 then [Raw("\n")] else []);
      Write(CloseList());
    }

    /** One face's line of a per-corner list. */
    method DumpCornerLine(ts: seq<string>)
      modifies this`out
      ensures out == old(out) + CornerLine(ts)
    {
      Write(Raw("("));
      DumpJoined(ts);
      Write(Raw(")\n"));
      AppendAssoc(old(out), [Raw("(")], Joined(ts));
      AppendAssoc(old(out), [Raw("(")] + Joined(ts), [Raw(")\n")]);
    }

    /** The per-corner colour list, one face to a line. */
    method DumpVertexColors(faces: seq<Face>)
      modifies this`out
      ensures out == old(out) + VertexColorsBlock(fmt, faces)
    {
      Write(OpenList("vertex_colors"));
      ghost var start := out;
      ghost var lines := ColorLines(fmt, faces);
      var i := 0;
      while i < |faces|
        invariant 0 <= i <= |faces|
        invariant out == start + Concat(lines[..i])
      {
        ConcatSnoc(lines, i);
        ghost var before := out;
        DumpCornerLine(FaceColorTexts(fmt, faces[i]));
        assert out == before + lines[i];
        AppendAssoc(start, Concat(lines[..i]), lines[i]);
        i := i + 1;
      }
      assert i == |faces|;
      TakeAll(lines);
      assert out == start + Concat(lines);
      AppendAssoc(old(out), [OpenList("vertex_colors")], Concat(lines));
      Write(CloseList());
    }

    /** The per-corner texture list, one face to a line. */
    method DumpFaceUv(faces: seq<Face>)
      modifies this`out
      ensures out == old(out) + FaceUvBlock(fmt, faces)
    {
      Write(OpenList("face_uv"));
      ghost var start := out;
      ghost var lines := UvLines(fmt, faces);
      var i := 0;
      while i < |faces|
        invariant 0 <= i <= |faces|
        invariant out == start + Concat(lines[..i])
      {
        ConcatSnoc(lines, i);
        ghost var before := out;
        DumpCornerLine(FaceUvTexts(fmt, faces[i]));
        assert out == before + lines[i];
        AppendAssoc(start, Concat(lines[..i]), lines[i]);
        i := i + 1;
      }
      assert i == |faces|;
      TakeAll(lines);
      assert out == start + Concat(lines);
      AppendAssoc(old(out), [OpenList("face_uv")], Concat(lines));
      Write(CloseList());
    }

    /** The vertex texture list as the script writes it: its wrapping
        counter is advanced after the loop, so inside the loop it stays at
        zero and every vertex is followed by a blank. */
    method DumpVertexUv(verts: seq<Vertex>)
      modifies this`out
      ensures out == old(out) + VertexUvBlock(fmt, verts)
    {
      Write(OpenList("vertex_uv"));
      ghost var start := out;
      ghost var cells := UvCells(fmt, verts);
      var sepi := 0;
      var i := 0;
      while i < |verts|
        invariant 0 <= i <= |verts|
        invariant sepi == 0
        invariant out == start + Concat(cells[..i])
      {
        ConcatSnoc(cells, i);
        Write(Raw(UvText(fmt, verts[i].uvco)));
        // The counter is still zero here, so the newline branch is never taken.
        Write(Raw(" "));
        AppendAssoc(start, Concat(cells[..i]), cells[i]);
        i := i + 1;
      }
      sepi := (sepi + 1) % 4;
      assert i == |verts|;
      TakeAll(cells);
      AppendAssoc(old(out), [OpenList("vertex_uv")], Concat(cells));
      Write(CloseList());
    }

    /** One face of the face list: its vertex indices in parentheses. */
    method DumpFaceCell(f: Face)
      modifies this`out
      ensures out == old(out) + FaceCell(f)
    {
      Write(Raw("("));
      DumpJoined(IntTexts(Indices(f)));
      Write(Raw(")"));
      AppendAssoc(old(out), [Raw("(")], Joined(IntTexts(Indices(f))));
      AppendAssoc(old(out), [Raw("(")] + Joined(IntTexts(Indices(f))), [Raw(")")]);
    }

    /** One face and the separator the wrapping counter picks. */
    method DumpFaceTurn(f: Face, sepi: nat)
      modifies this`out
      ensures out == old(out) + (FaceCell(f) + [Raw(if sepi == 4 then "\n" else " ")])
    {
      DumpFaceCell(f);
      if sepi == 4 {
        Write(Raw("\n"));
      } else {
        Write(Raw(" "));
      }
      AppendAssoc(old(out), FaceCell(f), [Raw(if sepi == 4 then "\n" else " ")]);
    }

    /** The face loop: each face and its separator, the counter
        wrapping every 5; returns the counter. */
    method DumpFaceRows(faces: seq<Face>) returns (sepi: nat)
      modifies this`out
      ensures sepi == |faces| % 5
      ensures out == old(out) + RowCells(FaceCells(faces), 5)
    {
      ghost var cells := FaceCells(faces);
      sepi := 0;
      var i := 0;
      while i < |faces|
        invariant 0 <= i <= |faces|
        invariant sepi == i % 5
        invariant out == old(out) + RowCells(cells[..i], 5)
      {
        RowCellsPrefix(cells, i, 5);
        ghost var before := out;
        DumpFaceTurn(faces[i], sepi);
        assert out == before + (cells[i] + [Sep(i, 5)]);
        AppendAssoc(old(out), RowCells(cells[..i], 5), cells[i] + [Sep(i, 5)]);
        ModStep(i, 5);
        sepi := (sepi + 1) % 5;
        i := i + 1;
      }
      assert i == |faces|;
      TakeAll(cells);
    }

    /** The face list, five to a line. */
    method DumpFaces(faces: seq<Face>)
      modifies this`out
      ensures out == old(out) + FacesBlock(faces)
    {
      Write(OpenList("faces"));
      var sepi := DumpFaceRows(faces);
      ghost var r := RowCells(FaceCells(faces), 5);
      AppendAssoc(old(out), [OpenList("faces")], r);
      if sepi != 0 {
        Write(Raw("\n"));
      }
      AppendAssoc(old(out), [OpenList("faces")] + r, if sepi != 0 then [Raw("\n")] else []);
      Write(CloseList());
    }

    /** The render colour layer's name, when it has one. */
    method DumpRenderColorLayerPart(mesh: Mesh)
      modifies this`out
      ensures out == old(out) + RenderColorLayerPart(mesh)
    {
      if mesh.renderColorLayer != "" {
        Write(Field("render_color_layer", Quote(mesh.renderColorLayer)));
      }
    }

    /** The per-corner colours, when the mesh has them. */
    method DumpVertexColorsPart(mesh: Mesh)
      modifies this`out
      ensures out == old(out) + VertexColorsPart(fmt, mesh)
    {
      if mesh.vertexColors {
        DumpVertexColors(mesh.faces);
      }
    }

    /** The render texture layer's name, when it has one. */
    method DumpRenderUvLayerPart(mesh: Mesh)
      modifies this`out
      ensures out == old(out) + RenderUvLayerPart(mesh)
    {
      if mesh.renderUVLayer != "" {
        Write(Field("render_uv_layer", Quote(mesh.renderUVLayer)));
      }
    }

    /** The vertex texture list, when the mesh has vertex texture
        coordinates. */
    method DumpVertexUvPart(mesh: Mesh)
      modifies this`out
      ensures out == old(out) + VertexUvPart(fmt, mesh)
    {
      if mesh.vertexUV {
        DumpVertexUv(mesh.verts);
      }
    }

    /** The per-corner texture list, when the mesh has face texture
        coordinates. */
    method DumpFaceUvPart(mesh: Mesh)
      modifies this`out
      ensures out == old(out) + FaceUvPart(fmt, mesh)
    {
      if mesh.faceUV {
        DumpFaceUv(mesh.faces);
      }
    }

    /** Everything the mesh block writes before its materials. */
    method DumpMeshBody(mesh: Mesh)
      modifies this`out
      ensures out == old(out) + MeshBody(fmt, mesh)
    {
      var h := [Open("mesh"), Field("max_smooth_angle", fmt(mesh.maxSmoothAngle))];
      WriteAll(h);
      ghost var before := out;
      DumpVertices(mesh.verts);
      assert out == before + VerticesBlock(fmt, mesh.verts);
      AppendAssoc(old(out), h, VerticesBlock(fmt, mesh.verts));
      ghost var a := h + VerticesBlock(fmt, mesh.verts);
      before := out;
      DumpRenderColorLayerPart(mesh);
      assert out == before + RenderColorLayerPart(mesh);
      AppendAssoc(old(out), a, RenderColorLayerPart(mesh));
      ghost var b := a + RenderColorLayerPart(mesh);
      before := out;
      DumpVertexColorsPart(mesh);
      assert out == before + VertexColorsPart(fmt, mesh);
      AppendAssoc(old(out), b, VertexColorsPart(fmt, mesh));
      ghost var c := b + VertexColorsPart(fmt, mesh);
      before := out;
      DumpRenderUvLayerPart(mesh);
      assert out == before + RenderUvLayerPart(mesh);
      AppendAssoc(old(out), c, RenderUvLayerPart(mesh));
      ghost var d := c + RenderUvLayerPart(mesh);
      before := out;
      DumpVertexUvPart(mesh);
      assert out == before + VertexUvPart(fmt, mesh);
      AppendAssoc(old(out), d, VertexUvPart(fmt, mesh));
      ghost var e := d + VertexUvPart(fmt, mesh);
      before := out;
      DumpFaceUvPart(mesh);
      assert out == before + FaceUvPart(fmt, mesh);
      AppendAssoc(old(out), e, FaceUvPart(fmt, mesh));
      ghost var f := e + FaceUvPart(fmt, mesh);
      before := out;
      DumpFaces(mesh.faces);
      assert out == before + FacesBlock(mesh.faces);
      AppendAssoc(old(out), f, FacesBlock(mesh.faces));
      assert f + FacesBlock(mesh.faces) == MeshBody(fmt, mesh);
    }

    /** The mesh block: the body, the mesh's materials, and the closing
        parenthesis (with no newline). */
    method DumpMesh(mesh: Mesh) returns (err: Option<ExportError>)
      modifies this`out, this`mtrlNames
      ensures var r := MeshRun(fmt, Block(fmt), mesh, old(mtrlNames));
        out == old(out) + r.emit.items && err == r.emit.error && mtrlNames == r.seen
    {
      DumpMeshBody(mesh);
      ghost var mid := out;
      err := DumpMaterials(mesh.materials);
      ghost var m := MaterialsRun(Block(fmt), mesh.materials, old(mtrlNames));
      AppendAssoc(old(out), MeshBody(fmt, mesh), m.emit.items);
      if err.Some? {
        return;
      }
      Write(Raw(")"));
      AppendAssoc(old(out), MeshBody(fmt, mesh) + m.emit.items, [Raw(")")]);
    }

    // ---- Animation curves ---------------------------------------------------

    /** One Bezier point of an animation curve. */
    method DumpBezTriple(t: BezTriple)
      modifies this`out
      ensures out == old(out) + BezTripleCell(fmt, t)
    {
      WriteAll(BezTripleCell(fmt, t));
    }

    /** The loop over a curve's Bezier points. */
    method DumpBezierPoints(ts: seq<BezTriple>)
      modifies this`out
      ensures out == old(out) + Concat(BezTripleCells(fmt, ts))
    {
      ghost var cells := BezTripleCells(fmt, ts);
      var i := 0;
      while i < |ts|
        invariant 0 <= i <= |ts|
        invariant out == old(out) + Concat(cells[..i])
      {
        ConcatSnoc(cells, i);
        ghost var before := out;
        DumpBezTriple(ts[i]);
        assert out == before + cells[i];
        AppendAssoc(old(out), Concat(cells[..i]), cells[i]);
        i := i + 1;
      }
      assert i == |ts|;
      TakeAll(cells);
    }

    /** One animation curve: its name, then its Bezier points. */
    method DumpIpoCurve(c: IpoCurve)
      modifies this`out
      ensures out == old(out) + IpoCurveCell(fmt, c)
    {
      var h := [Open("curve"), Field("name", c.name), OpenList("bezier_points")];
      WriteAll(h);
      DumpBezierPoints(c.points);
      AppendAssoc(old(out), h, Concat(BezTripleCells(fmt, c.points)));
      WriteAll([CloseList(), Close()]);
      AppendAssoc(old(out), h + Concat(BezTripleCells(fmt, c.points)), [CloseList(), Close()]);
    }

    /** The `(ipo (...))` list: one block per curve. */
    method DumpIpo(ipo: Ipo)
      modifies this`out
      ensures out == old(out) + IpoItems(fmt, ipo)
    {
      Write(OpenList("ipo"));
      ghost var start := out;
      ghost var cells := IpoCurveCells(fmt, ipo.curves);
      var i := 0;
      while i < |ipo.curves|
        invariant 0 <= i <= |ipo.curves|
        invariant out == start + Concat(cells[..i])
      {
        ConcatSnoc(cells, i);
        ghost var before := out;
        DumpIpoCurve(ipo.curves[i]);
        assert out == before + cells[i];
        AppendAssoc(start, Concat(cells[..i]), cells[i]);
        i := i + 1;
      }
      assert i == |ipo.curves|;
      TakeAll(cells);
      Write(CloseList());
      AppendAssoc(old(out), [OpenList("ipo")], Concat(cells));
      AppendAssoc(old(out), [OpenList("ipo")] + Concat(cells), [CloseList()]);
    }

    // ---- Curves -------------------------------------------------------------

    /** The points of a NURBS sub-curve. */
    method DumpNurbsPoints(ps: seq<Vec3>)
      modifies this`out
      ensures out == old(out) + Concat(PointCells(fmt, ps))
    {
      ghost var cells := PointCells(fmt, ps);
      var i := 0;
      while i < |ps|
        invariant 0 <= i <= |ps|
        invariant out == old(out) + Concat(cells[..i])
      {
        ConcatSnoc(cells, i);
        Write(PadField(" ", "point", G3(fmt, ps[i])));
        i := i + 1;
      }
      assert i == |ps|;
      TakeAll(cells);
    }

    /** The triples of a Bezier sub-curve. */
    method DumpTriples(ts: seq<Triple>)
      modifies this`out
      ensures out == old(out) + Concat(TripleCells(fmt, ts))
    {
      ghost var cells := TripleCells(fmt, ts);
      var i := 0;
      while i < |ts|
        invariant 0 <= i <= |ts|
        invariant out == old(out) + Concat(cells[..i])
      {
        ConcatSnoc(cells, i);
        ghost var before := out;
        WriteAll(TripleCell(fmt, ts[i]));
        assert out == before + cells[i];
        AppendAssoc(old(out), Concat(cells[..i]), cells[i]);
        i := i + 1;
      }
      assert i == |ts|;
      TakeAll(cells);
    }

    /** One sub-curve, its block chosen by its kind. */
    method DumpNurb(n: Nurb)
      modifies this`out
      ensures out == old(out) + NurbCell(fmt, n)
    {
      Write(Open(NurbTag(n)));
      if n.NurbsCurve? {
        DumpNurbsPoints(n.points);
      } else {
        DumpTriples(n.triples);
      }
      AppendAssoc(old(out), [Open(NurbTag(n))], NurbBody(fmt, n));
      Write(Close());
      AppendAssoc(old(out), [Open(NurbTag(n))] + NurbBody(fmt, n), [Close()]);
    }

    /** The `(curve ...)` block; it ends without a newline. */
    method DumpCurve(c: Curve)
      modifies this`out
      ensures out == old(out) + CurveItems(fmt, c)
    {
      WriteAll(CurveHead(fmt, c));
      ghost var start := out;
      ghost var cells := NurbCells(fmt, c.nurbs);
      var i := 0;
      while i < |c.nurbs|
        invariant 0 <= i <= |c.nurbs|
        invariant out == start + Concat(cells[..i])
      {
        ConcatSnoc(cells, i);
        ghost var before := out;
        DumpNurb(c.nurbs[i]);
        assert out == before + cells[i];
        AppendAssoc(start, Concat(cells[..i]), cells[i]);
        i := i + 1;
      }
      assert i == |c.nurbs|;
      TakeAll(cells);
      AppendAssoc(old(out), CurveHead(fmt, c), Concat(cells));
      Write(Raw(")"));
      AppendAssoc(old(out), CurveHead(fmt, c) + Concat(cells), [Raw(")")]);
    }

    // ---- Cameras ------------------------------------------------------------

    /** The `(camera ...)` block; it ends without a newline. */
    method DumpCamera(cam: Camera)
      modifies this`out
      ensures out == old(out) + CameraItems(fmt, cam)
    {
      WriteAll(CameraHead(fmt, cam));
      if cam.typ == "ortho" {
        Write(Tagged("", "cam_type", " ortho"));
        Write(InlineField("scale", fmt(cam.scale)));
        Write(Raw(")\n"));
      } else if cam.typ == "persp" {
        Write(Tagged("", "cam_type", " persp"));
        Write(InlineField("angle", fmt(cam.angle)));
        Write(InlineField("lens", fmt(cam.lens)));
        Write(Raw(")\n"));
      } else {
        Write(Field("cam_type", cam.typ));
      }
      AppendAssoc(old(out), CameraHead(fmt, cam), CamTypePart(fmt, cam));
      Write(Raw(")"));
      AppendAssoc(old(out), CameraHead(fmt, cam) + CamTypePart(fmt, cam), [Raw(")")]);
    }

    // ---- Lamps --------------------------------------------------------------

    /** The loop over the host's lamp-type dictionary. */
    method DumpLampTypes(typ: int)
      modifies this`out
      ensures out == old(out) + LampTypeLines(LampTypes, typ)
    {
      var i := 0;
      while i < |LampTypes|
        invariant 0 <= i <= |LampTypes|
        invariant out == old(out) + LampTypeLines(LampTypes[..i], typ)
      {
        assert LampTypes[..i + 1][..i] == LampTypes[..i];
        var (name, code) := LampTypes[i];
        if code == typ {
          Write(Field("lamp_type", Quote(name)));
        }
        i := i + 1;
      }
      assert i == |LampTypes|;
      TakeAll(LampTypes);
    }

    /** Everything of the lamp block after the falloff line. */
    method DumpLampTail(l: Lamp)
      modifies this`out
      ensures out == old(out) + LampTail(fmt, l)
    {
      DumpLampTypes(l.typ);
      if l.typ == LAMP_SPOT {
        Write(Field("spot_blend", fmt(l.spotBlend)));
        Write(Field("spot_size", fmt(l.spotSize)));
      }
      AppendAssoc(old(out), LampTypeLines(LampTypes, l.typ), SpotPart(fmt, l));
      ghost var a := LampTypeLines(LampTypes, l.typ) + SpotPart(fmt, l);
      if l.typ == LAMP_AREA {
        Write(Field("area_size", G2(fmt, l.areaSizeX, l.areaSizeY)));
      }
      AppendAssoc(old(out), a, AreaPart(fmt, l));
      Write(Raw(")"));
      AppendAssoc(old(out), a + AreaPart(fmt, l), [Raw(")")]);
    }

    /** The `(lamp ...)` block; it ends without a newline. */
    method DumpLamp(l: Lamp) returns (err: Option<ExportError>)
      modifies this`out
      ensures out == old(out) + LampEmit(fmt, l).items && err == LampEmit(fmt, l).error
    {
      WriteAll(LampHead(fmt, l));
      if l.falloffType !in Falloffs {
        return Some(UnmappedFalloff(l.falloffType));
      }
      ghost var h := LampHead(fmt, l) + [Field("falloff_type", Falloffs[l.falloffType])];
      Write(Field("falloff_type", Falloffs[l.falloffType]));
      DumpLampTail(l);
      AppendAssoc(old(out), h, LampTail(fmt, l));
      return None;
    }

    // ---- Text ---------------------------------------------------------------

    /** The `(text3d ...)` block; it ends without a newline. */
    method DumpText(t: Text3d) returns (err: Option<ExportError>)
      modifies this`out
      ensures out == old(out) + TextEmit(fmt, t).items && err == TextEmit(fmt, t).error
    {
      WriteAll(TextHead(fmt, t));
      if t.alignment !in Alignments {
        return Some(UnmappedAlignment(t.alignment));
      }
      Write(Field("alignment", Alignments[t.alignment]));
      WriteAll(TextTail(fmt, t));
      AppendAssoc(old(out), TextHead(fmt, t) + [Field("alignment", Alignments[t.alignment])], TextTail(fmt, t));
      return None;
    }

    // ---- Render settings ----------------------------------------------------

    /** The motion-blur setting, and its factor when it is on. */
    method DumpMotionBlur(r: RenderSettings)
      modifies this`out
      ensures out == old(out) + MotionBlurPart(fmt, r)
    {
      if r.motionBlur {
        Write(Field("motion_blur", "true"));
        Write(Field("motion_blur_factor", fmt(r.mblurFactor)));
      } else {
        Write(Field("motion_blur", "false"));
      }
    }

    /** The `(render ...)` block, between empty lines. */
    method DumpRender(r: RenderSettings) returns (err: Option<ExportError>)
      modifies this`out
      ensures out == old(out) + RenderEmit(fmt, r).items && err == RenderEmit(fmt, r).error
    {
      WriteAll(RenderHead(fmt, r));
      if r.imageType !in ImageTypes {
        return Some(UnmappedImageType(r.imageType));
      }
      ghost var h := RenderHead(fmt, r) + [Field("image_type", ImageTypes[r.imageType])];
      Write(Field("image_type", ImageTypes[r.imageType]));
      WriteAll(RenderFlags(fmt, r));
      AppendAssoc(old(out), h, RenderFlags(fmt, r));
      DumpMotionBlur(r);
      AppendAssoc(old(out), h + RenderFlags(fmt, r), MotionBlurPart(fmt, r));
      Write(Raw(")\n\n"));
      AppendAssoc(old(out), h + RenderFlags(fmt, r) + MotionBlurPart(fmt, r), [Raw(")\n\n")]);
      AppendAssoc(h, RenderFlags(fmt, r) + MotionBlurPart(fmt, r), [Raw(")\n\n")]);
      return None;
    }

    // ---- Game properties ----------------------------------------------------

    /** One property: name, type, and the value written as its type says. */
    method DumpProperty(p: Property)
      modifies this`out
      ensures out == old(out) + PropertyItems(fmt, p)
    {
      ghost var h := [Open("property"), Field("name", Quote(p.name)), Field("type", Quote(PropTypeName(p.value)))];
      Write(Open("property"));
      Write(Field("name", Quote(p.name)));
      Write(Field("type", Quote(PropTypeName(p.value))));
      assert out == old(out) + h;
      match p.value {
        case IntProp(i) => Write(Field("data", IntText(i)));
        case FloatProp(f) => Write(Field("data", fmt(f)));
        case StringProp(v) => Write(Field("data", Quote(v)));
        case BoolProp(b) => Write(Field("data", BoolText(b)));
        case TimeProp(t) => Write(Field("data", fmt(t)));
        case OtherProp(_, shown) => Write(Field("data", Quote(shown)));
      }
      assert out == old(out) + h + [Field("data", DataText(fmt, p.value))];
      Write(Close());
    }

    /** The `(game_properties ...)` block: one block per property. */
    method DumpProperties(ps: seq<Property>)
      modifies this`out
      ensures out == old(out) + PropertiesItems(fmt, ps)
    {
      Write(Open("game_properties"));
      ghost var start := out;
      ghost var cells := PropertyCells(fmt, ps);
      var i := 0;
      while i < |ps|
        invariant 0 <= i <= |ps|
        invariant out == start + Concat(cells[..i])
      {
        ConcatSnoc(cells, i);
        ghost var before := out;
        DumpProperty(ps[i]);
        assert out == before + cells[i];
        AppendAssoc(start, Concat(cells[..i]), cells[i]);
        i := i + 1;
      }
      assert i == |ps|;
      TakeAll(cells);
      Write(Close());
      AppendAssoc(old(out), [Open("game_properties")], Concat(cells));
      AppendAssoc(old(out), [Open("game_properties")] + Concat(cells), [Close()]);
    }

    // ---- Metaballs ----------------------------------------------------------

    /** One element: its block opened, then its type looked up in the table;
        a type outside the table raises there. */
    method DumpElement(e: MetaElement) returns (err: Option<ExportError>)
      modifies this`out
      ensures out == old(out) + ElementEmit(fmt, e).items && err == ElementEmit(fmt, e).error
    {
      Write(Open("element"));
      if e.typ !in MetaballTypes {
        return Some(UnmappedMetaballType(e.typ));
      }
      Write(Field("type", MetaballTypes[e.typ]));
      WriteAll(ElementFields(fmt, e));
      AppendAssoc(old(out), [Open("element"), Field("type", MetaballTypes[e.typ])], ElementFields(fmt, e));
      return None;
    }

    /** The elements loop, stopping at the first element that raises. */
    method DumpElements(es: seq<MetaElement>) returns (err: Option<ExportError>)
      modifies this`out
      ensures out == old(out) + ElementsBody(fmt, es).items && err == ElementsBody(fmt, es).error
    {
      var i := 0;
      err := None;
      while i < |es|
        invariant 0 <= i <= |es| && err == None
        invariant ElementsBody(fmt, es[..i]).error == None
        invariant out == old(out) + ElementsBody(fmt, es[..i]).items
      {
        ghost var b := ElementsBody(fmt, es[..i]);
        ElementsBodySnoc(fmt, es, i);
        err := DumpElement(es[i]);
        AppendAssoc(old(out), b.items, ElementEmit(fmt, es[i]).items);
        if err.Some? {
          ElementsBodyStops(fmt, es, i + 1);
          return;
        }
        i := i + 1;
      }
      assert i == |es|;
      TakeAll(es);
    }

    /** The `(metaball ...)` block; it ends without a newline. */
    method DumpMetaball(mb: Metaball) returns (err: Option<ExportError>)
      modifies this`out, this`mtrlNames
      ensures var r := MetaballRun(fmt, Block(fmt), mb, old(mtrlNames));
        out == old(out) + r.emit.items && err == r.emit.error && mtrlNames == r.seen
    {
      WriteAll(MetaHead(fmt, mb));
      err := DumpMaterials(mb.materials);
      ghost var m := MaterialsRun(Block(fmt), mb.materials, old(mtrlNames));
      AppendAssoc(old(out), MetaHead(fmt, mb), m.emit.items);
      if err.Some? {
        return;
      }
      err := DumpElements(mb.elements);
      ghost var b := ElementsBody(fmt, mb.elements);
      AppendAssoc(old(out), MetaHead(fmt, mb) + m.emit.items, b.items);
      if err.Some? {
        return;
      }
      Write(Raw(")"));
      AppendAssoc(old(out), MetaHead(fmt, mb) + m.emit.items + b.items, [Raw(")")]);
    }

    // ---- Armatures ----------------------------------------------------------

    /** One entry of a head or tail block. */
    method DumpExtrmEntry(e: (string, Vec4))
      modifies this`out
      ensures out == old(out) + ExtrmEntry(fmt, e)
    {
      Write(Tagged(" ", Lower(e.0), ""));
      Write(Raw(" " + G4(fmt, e.1) + ")\n"));
    }

    /** A head or tail block, labelled `lbl`: one entry per key. */
    method DumpExtrm(lbl: string, es: seq<(string, Vec4)>)
      modifies this`out
      ensures out == old(out) + ExtrmBlock(fmt, lbl, es)
    {
      Write(Open(lbl));
      ghost var start := out;
      ghost var cells := ExtrmEntries(fmt, es);
      var i := 0;
      while i < |es|
        invariant 0 <= i <= |es|
        invariant out == start + Concat(cells[..i])
      {
        ConcatSnoc(cells, i);
        ghost var before := out;
        DumpExtrmEntry(es[i]);
        assert out == before + cells[i];
        AppendAssoc(start, Concat(cells[..i]), cells[i]);
        i := i + 1;
      }
      assert i == |es|;
      TakeAll(cells);
      Write(Close());
      AppendAssoc(old(out), [Open(lbl)], Concat(cells));
      AppendAssoc(old(out), [Open(lbl)] + Concat(cells), [Close()]);
    }

    /** The `(roll ...)` block: one line per key. */
    method DumpRoll(es: seq<(string, real)>)
      modifies this`out
      ensures out == old(out) + RollBlock(fmt, es)
    {
      Write(Open("roll"));
      ghost var start := out;
      ghost var cells := RollEntries(fmt, es);
      var i := 0;
      while i < |es|
        invariant 0 <= i <= |es|
        invariant out == start + Concat(cells[..i])
      {
        ConcatSnoc(cells, i);
        Write(PadField(" ", Lower(es[i].0), fmt(es[i].1)));
        AppendAssoc(start, Concat(cells[..i]), cells[i]);
        i := i + 1;
      }
      assert i == |es|;
      TakeAll(cells);
      Write(Close());
      AppendAssoc(old(out), [Open("roll")], Concat(cells));
      AppendAssoc(old(out), [Open("roll")] + Concat(cells), [Close()]);
    }

    /** One matrix row, its values written with the `sep` idiom. */
    method DumpMatrixRow(row: seq<real>)
      modifies this`out
      ensures out == old(out) + MatrixRow(fmt, row)
    {
      Write(Raw("   ("));
      ghost var start := out;
      ghost var ts := Fmts(fmt, row);
      var sep := "";
      var j := 0;
      while j < |row|
        invariant 0 <= j <= |row|
        invariant sep == if j == 0 then "" else " "
        invariant out == start + Joined(ts[..j])
      {
        JoinedSnoc(ts, j);
        Write(Raw(sep + fmt(row[j])));
        sep := " ";
        j := j + 1;
      }
      assert j == |row|;
      TakeAll(ts);
      Write(Raw(")\n"));
      AppendAssoc(old(out), [Raw("   (")], Joined(ts));
      AppendAssoc(old(out), [Raw("   (")] + Joined(ts), [Raw(")\n")]);
    }

    /** One matrix of the `(matrix ...)` block: its key, then its rows. */
    method DumpMatrixEntry(e: (string, seq<seq<real>>))
      modifies this`out
      ensures out == old(out) + MatrixEntry(fmt, e)
    {
      Write(Tagged(" ", Lower(e.0), "\n"));
      ghost var start := out;
      ghost var cells := MatrixRows(fmt, e.1);
      var i := 0;
      while i < |e.1|
        invariant 0 <= i <= |e.1|
        invariant out == start + Concat(cells[..i])
      {
        ConcatSnoc(cells, i);
        ghost var before := out;
        DumpMatrixRow(e.1[i]);
        assert out == before + cells[i];
        AppendAssoc(start, Concat(cells[..i]), cells[i]);
        i := i + 1;
      }
      assert i == |e.1|;
      TakeAll(cells);
      Write(Raw(" )\n"));
      AppendAssoc(old(out), [Tagged(" ", Lower(e.0), "\n")], Concat(cells));
      AppendAssoc(old(out), [Tagged(" ", Lower(e.0), "\n")] + Concat(cells), [Raw(" )\n")]);
    }

    /** The `(matrix ...)` block: one entry per key. */
    method DumpMatrix(es: seq<(string, seq<seq<real>>)>)
      modifies this`out
      ensures out == old(out) + MatrixBlock(fmt, es)
    {
      Write(Open("matrix"));
      ghost var start := out;
      ghost var cells := MatrixEntries(fmt, es);
      var i := 0;
      while i < |es|
        invariant 0 <= i <= |es|
        invariant out == start + Concat(cells[..i])
      {
        ConcatSnoc(cells, i);
        ghost var before := out;
        DumpMatrixEntry(es[i]);
        assert out == before + cells[i];
        AppendAssoc(start, Concat(cells[..i]), cells[i]);
        i := i + 1;
      }
      assert i == |es|;
      TakeAll(cells);
      Write(Close());
      AppendAssoc(old(out), [Open("matrix")], Concat(cells));
      AppendAssoc(old(out), [Open("matrix")] + Concat(cells), [Close()]);
    }

    /** The four space blocks of a bone. */
    method DumpBoneSpaces(b: Bone)
      modifies this`out
      ensures out == old(out) + BoneSpaces(fmt, b)
    {
      ghost var h := ExtrmBlock(fmt, "head", b.head);
      ghost var t := ExtrmBlock(fmt, "tail", b.tail);
      ghost var r := RollBlock(fmt, b.roll);
      DumpExtrm("head", b.head);
      DumpExtrm("tail", b.tail);
      AppendAssoc(old(out), h, t);
      DumpRoll(b.roll);
      AppendAssoc(old(out), h + t, r);
      DumpMatrix(b.matrix);
      AppendAssoc(old(out), h + t + r, MatrixBlock(fmt, b.matrix));
    }

    /** The children block of a bone: one line per child. */
    method DumpChildren(cs: seq<string>)
      modifies this`out
      ensures out == old(out) + (if |cs| > 0 then [Open("children")] + ChildLines(cs) + [Close()] else [])
    {
      if |cs| > 0 {
        Write(Open("children"));
        ghost var start := out;
        ghost var lines := ChildLines(cs);
        var i := 0;
        while i < |cs|
          invariant 0 <= i <= |cs|
          invariant out == start + lines[..i]
        {
          assert lines[..i + 1] == lines[..i] + [lines[i]];
          Write(PadField(" ", "child_name", Quote(cs[i])));
          i := i + 1;
        }
        assert i == |cs|;
        TakeAll(lines);
        Write(Close());
        AppendAssoc(old(out), [Open("children")], lines);
        AppendAssoc(old(out), [Open("children")] + lines, [Close()]);
      }
    }

    /** A bone's parent line, when it has a parent, then its children. */
    method DumpBoneLinks(b: Bone)
      modifies this`out
      ensures out == old(out) + BoneLinks(b)
    {
      if b.parent.Some? {
        Write(Field("parent_name", Quote(b.parent.value)));
      }
      DumpChildren(b.children);
      AppendAssoc(old(out), ParentPart(b), ChildrenPart(b));
    }

    /** One `(bone ...)` block. */
    method DumpBone(b: Bone)
      modifies this`out
      ensures out == old(out) + BoneItems(fmt, b)
    {
      WriteAll(BoneHead(fmt, b));
      DumpBoneSpaces(b);
      AppendAssoc(old(out), BoneHead(fmt, b), BoneSpaces(fmt, b));
      DumpBoneLinks(b);
      AppendAssoc(old(out), BoneHead(fmt, b) + BoneSpaces(fmt, b), BoneLinks(b));
      Write(Close());
      AppendAssoc(old(out), BoneHead(fmt, b) + BoneSpaces(fmt, b) + BoneLinks(b), [Close()]);
    }

    /** The bones loop of an armature. */
    method DumpBones(bs: seq<Bone>)
      modifies this`out
      ensures out == old(out) + Concat(BoneCells(fmt, bs))
    {
      ghost var cells := BoneCells(fmt, bs);
      var i := 0;
      while i < |bs|
        invariant 0 <= i <= |bs|
        invariant out == old(out) + Concat(cells[..i])
      {
        DumpBone(bs[i]);
        ConcatStep(old(out), cells, i, out);
        i := i + 1;
      }
      assert i == |bs|;
      TakeAll(cells);
      assert out == old(out) + Concat(cells);
    }

    /** The `(armature ...)` block: its flags and layers, then one block per
        bone; it ends without a newline. */
    method DumpArmature(a: Armature)
      modifies this`out
      ensures out == old(out) + ArmatureItems(fmt, a)
    {
      WriteAll(ArmatureHead(a));
      DumpBones(a.bones);
      ghost var body := Concat(BoneCells(fmt, a.bones));
      AppendAssoc(old(out), ArmatureHead(a), body);
      Write(Raw(")"));
      AppendAssoc(old(out), ArmatureHead(a) + body, [Raw(")")]);
    }

    // ---- Poses --------------------------------------------------------------

    /** The `ik` block of a pose bone, when it has inverse kinematics. */
    method DumpIk(pb: PoseBone)
      modifies this`out
      ensures out == old(out) + IkPart(fmt, pb)
    {
      if pb.hasIK {
        WriteAll(IkPart(fmt, pb));
      }
    }

    /** The `constraints` block of a pose bone, when it has constraints: an
        empty block per constraint. */
    method DumpConstraints(pb: PoseBone)
      modifies this`out
      ensures out == old(out) + ConstraintsPart(pb)
    {
      if |pb.constraints| > 0 {
        Write(Open("constraints"));
        ghost var start := out;
        ghost var cells := ConstCells(pb.constraints);
        var i := 0;
        while i < |pb.constraints|
          invariant 0 <= i <= |pb.constraints|
          invariant out == start + Concat(cells[..i])
        {
          ConcatSnoc(cells, i);
          ghost var before := out;
          WriteAll([Open("const"), Close()]);
          assert out == before + cells[i];
          AppendAssoc(start, Concat(cells[..i]), cells[i]);
          i := i + 1;
        }
        assert i == |pb.constraints|;
        TakeAll(cells);
        Write(Close());
        AppendAssoc(old(out), [Open("constraints")], Concat(cells));
        AppendAssoc(old(out), [Open("constraints")] + Concat(cells), [Close()]);
      }
    }

    /** One `(pose_bone ...)` block. */
    method DumpPoseBone(pb: PoseBone)
      modifies this`out
      ensures out == old(out) + PoseBoneItems(fmt, pb)
    {
      var h := [Open("pose_bone"), PadField(" ", "name", Quote(pb.name))];
      WriteAll(h);
      DumpIk(pb);
      AppendAssoc(old(out), h, IkPart(fmt, pb));
      DumpConstraints(pb);
      AppendAssoc(old(out), h + IkPart(fmt, pb), ConstraintsPart(pb));
      Write(Close());
      AppendAssoc(old(out), h + IkPart(fmt, pb) + ConstraintsPart(pb), [Close()]);
    }

    /** The `(pose ...)` block: one block per pose bone. */
    method DumpPose(pbs: seq<PoseBone>)
      modifies this`out
      ensures out == old(out) + PoseItems(fmt, pbs)
    {
      Write(Open("pose"));
      ghost var start := out;
      ghost var cells := PoseBoneCells(fmt, pbs);
      var i := 0;
      while i < |pbs|
        invariant 0 <= i <= |pbs|
        invariant out == start + Concat(cells[..i])
      {
        ConcatSnoc(cells, i);
        ghost var before := out;
        DumpPoseBone(pbs[i]);
        assert out == before + cells[i];
        AppendAssoc(start, Concat(cells[..i]), cells[i]);
        i := i + 1;
      }
      assert i == |pbs|;
      TakeAll(cells);
      Write(Close());
      AppendAssoc(old(out), [Open("pose")], Concat(cells));
      AppendAssoc(old(out), [Open("pose")] + Concat(cells), [Close()]);
    }

    // ---- Objects ------------------------------------------------------------

    /** The game properties, when the object has some. */
    method DumpPropsPart(o: Object)
      modifies this`out
      ensures out == old(out) + PropsPart(fmt, o)
    {
      if |o.properties| > 0 {
        DumpProperties(o.properties);
      }
    }

    /** The animation curves, when the object has an ipo. */
    method DumpIpoPart(o: Object)
      modifies this`out
      ensures out == old(out) + IpoPart(fmt, o)
    {
      if o.ipo.Some? {
        DumpIpo(o.ipo.value);
      }
    }

    /** The object block up to and including the opening of its content
        block. */
    method DumpObjPrefix(o: Object)
      modifies this`out
      ensures out == old(out) + ObjPrefix(fmt, o)
    {
      WriteAll(ObjHead(fmt, o));
      DumpPropsPart(o);
      AppendAssoc(old(out), ObjHead(fmt, o), PropsPart(fmt, o));
      DumpIpoPart(o);
      AppendAssoc(old(out), ObjHead(fmt, o) + PropsPart(fmt, o), IpoPart(fmt, o));
      Write(Open("content"));
      AppendAssoc(old(out), ObjHead(fmt, o) + PropsPart(fmt, o) + IpoPart(fmt, o), [Open("content")]);
    }

    /** The data block of a newly met content, chosen by the object's type;
        a type the exporter does not know writes nothing. */
    method DumpContentData(d: ObData) returns (err: Option<ExportError>)
      requires Valid()
      modifies this`out, this`mtrlNames
      ensures var r := data(d, old(mtrlNames));
        out == old(out) + r.emit.items && err == r.emit.error && mtrlNames == r.seen
    {
      assert data(d, mtrlNames) == DataRun(fmt, Block(fmt), d, mtrlNames);
      match d {
        case MeshData(m) => err := DumpMesh(m);
        case CurveData(c) => DumpCurve(c); err := None;
        case CameraData(c) => DumpCamera(c); err := None;
        case LampData(l) => err := DumpLamp(l);
        case MetaballData(mb) => err := DumpMetaball(mb);
        case TextData(t) => err := DumpText(t);
        case ArmatureData(a) => DumpArmature(a); err := None;
        case OtherData(_, _) => err := None;
        case NoData(_) => err := None;
      }
    }

    /** The pose, when the object has one. */
    method DumpPosePart(pose: Option<seq<PoseBone>>)
      modifies this`out
      ensures out == old(out) + PosePart(fmt, pose)
    {
      if pose.Some? {
        DumpPose(pose.value);
      }
    }

    /** The close of the content block, the pose when the object has one, and
        the close of the object. */
    method DumpObjEnd(o: Object)
      modifies this`out
      ensures out == old(out) + ObjEnd(fmt, o)
    {
      Write(Close());
      DumpPosePart(o.pose);
      AppendAssoc(old(out), [Close()], PosePart(fmt, o.pose));
      Write(Raw(")\n\n"));
      AppendAssoc(old(out), [Close()] + PosePart(fmt, o.pose), [Raw(")\n\n")]);
    }

    /** A content name met before: the reference by name and the rest of
        the object. */
    method DumpReusedContent(o: Object, name: string)
      modifies this`out
      ensures out == old(out) + [Field("use_content", Quote(name))] + ObjEnd(fmt, o)
    {
      Write(Field("use_content", Quote(name)));
      DumpObjEnd(o);
      AppendAssoc(old(out), [Field("use_content", Quote(name))], ObjEnd(fmt, o));
    }

    /** A new content name: registered, written, then its data block and,
        unless that raised, the rest of the object. */
    method DumpNewContent(o: Object, name: string) returns (err: Option<ExportError>)
      requires Valid()
      modifies this`out, this`contNames, this`mtrlNames
      ensures var r := ContentDefined([], name, data(o.data, old(mtrlNames)), ObjEnd(fmt, o), Registry(old(contNames), old(mtrlNames)));
        && out == old(out) + r.emit.items && err == r.emit.error
        && contNames == r.reg.contents && mtrlNames == r.reg.materials
    {
      ghost var f := [Field("content_name", Quote(name))];
      contNames := contNames + {name};
      Write(Field("content_name", Quote(name)));
      ghost var before := out;
      err := DumpContentData(o.data);
      ghost var d := data(o.data, old(mtrlNames));
      assert out == before + d.emit.items;
      assert [] + f == f;
      AppendAssoc(old(out), f, d.emit.items);
      if err.Some? {
        return;
      }
      before := out;
      DumpObjEnd(o);
      assert out == before + ObjEnd(fmt, o);
      AppendAssoc(old(out), f + d.emit.items, ObjEnd(fmt, o));
    }

    /** One `(obj ...)` block.  Asking an object without a data block for
        its content name raises; a content name met before is referred to,
        a new one is registered and then its data block is written. */
    method DumpObj(o: Object) returns (err: Option<ExportError>)
      requires Valid()
      modifies this`out, this`contNames, this`mtrlNames
      ensures var r := ObjectRun(fmt, data, o, Registry(old(contNames), old(mtrlNames)));
        && out == old(out) + r.emit.items && err == r.emit.error
        && contNames == r.reg.contents && mtrlNames == r.reg.materials
    {
      DumpObjPrefix(o);
      ghost var pre := ObjPrefix(fmt, o);
      ghost var reg := Registry(old(contNames), old(mtrlNames));
      var c := ContentName(o.data);
      if c.None? {
        return Some(MissingData(TypeName(o.data)));
      }
      var name := c.value;
      if name in contNames {
        DumpReusedContent(o, name);
        AppendAssoc(old(out), pre, [Field("use_content", Quote(name))]);
        AppendAssoc(old(out), pre + [Field("use_content", Quote(name))], ObjEnd(fmt, o));
        return None;
      }
      ghost var before := out;
      err := DumpNewContent(o, name);
      ghost var r := ContentDefined([], name, data(o.data, old(mtrlNames)), ObjEnd(fmt, o), reg);
      assert out == before + r.emit.items;
      ContentDefinedPrefix(pre, name, data(o.data, old(mtrlNames)), ObjEnd(fmt, o), reg);
      AppendAssoc(old(out), pre, r.emit.items);
    }

    // ---- Scenes and the file ------------------------------------------------

    /** The objects loop of a scene, stopping at the first object that
        raises. */
    method DumpObjects(objs: seq<Object>) returns (err: Option<ExportError>)
      requires Valid()
      modifies this`out, this`contNames, this`mtrlNames
      ensures var r := ObjectsBody(Obj(fmt, data), objs, Registry(old(contNames), old(mtrlNames)));
        && out == old(out) + r.emit.items && err == r.emit.error
        && contNames == r.reg.contents && mtrlNames == r.reg.materials
    {
      ghost var obj := Obj(fmt, data);
      ghost var reg0 := Registry(contNames, mtrlNames);
      var i := 0;
      err := None;
      while i < |objs|
        invariant 0 <= i <= |objs| && err == None
        invariant var b := ObjectsBody(obj, objs[..i], reg0);
          && b.emit.error == None && out == old(out) + b.emit.items
          && contNames == b.reg.contents && mtrlNames == b.reg.materials
      {
        ghost var b := ObjectsBody(obj, objs[..i], reg0);
        ObjectsBodySnoc(obj, objs, reg0, i);
        ghost var before := out;
        err := DumpObj(objs[i]);
        ghost var e := obj(objs[i], b.reg);
        assert out == before + e.emit.items;
        AppendAssoc(old(out), b.emit.items, e.emit.items);
        if err.Some? {
          ObjectsBodyStops(obj, objs, reg0, i + 1);
          return;
        }
        i := i + 1;
      }
      assert i == |objs|;
      TakeAll(objs);
    }

    /** One `(scene ...)` block, with `active` the active scene's name. */
    method DumpScene(s: Scene, active: string) returns (err: Option<ExportError>)
      requires Valid()
      modifies this`out, this`contNames, this`mtrlNames
      ensures var r := SceneRun(fmt, Obj(fmt, data), s, active, Registry(old(contNames), old(mtrlNames)));
        && out == old(out) + r.emit.items && err == r.emit.error
        && contNames == r.reg.contents && mtrlNames == r.reg.materials
    {
      var h := [Open("scene"), Field("name", Quote(s.name)), Field("active_scene", BoolText(s.name == active)), LayersField(s.layers)];
      WriteAll(h);
      err := DumpRender(s.render);
      ghost var rd := RenderEmit(fmt, s.render);
      AppendAssoc(old(out), h, rd.items);
      if err.Some? {
        return;
      }
      err := DumpObjects(s.objects);
      ghost var b := ObjectsBody(Obj(fmt, data), s.objects, Registry(old(contNames), old(mtrlNames)));
      AppendAssoc(old(out), h + rd.items, b.emit.items);
      if err.Some? {
        return;
      }
      Write(Close());
      AppendAssoc(old(out), h + rd.items + b.emit.items, [Close()]);
    }

    /** The scenes loop, stopping at the first scene that raises. */
    method DumpScenes(scenes: seq<Scene>, active: string) returns (err: Option<ExportError>)
      requires Valid()
      modifies this`out, this`contNames, this`mtrlNames
      ensures var r := ScenesBody(fmt, Obj(fmt, data), scenes, active, Registry(old(contNames), old(mtrlNames)));
        && out == old(out) + r.emit.items && err == r.emit.error
        && contNames == r.reg.contents && mtrlNames == r.reg.materials
    {
      ghost var obj := Obj(fmt, data);
      ghost var reg0 := Registry(contNames, mtrlNames);
      var i := 0;
      err := None;
      while i < |scenes|
        invariant 0 <= i <= |scenes| && err == None
        invariant var b := ScenesBody(fmt, obj, scenes[..i], active, reg0);
          && b.emit.error == None && out == old(out) + b.emit.items
          && contNames == b.reg.contents && mtrlNames == b.reg.materials
      {
        ghost var b := ScenesBody(fmt, obj, scenes[..i], active, reg0);
        ScenesBodySnoc(fmt, obj, scenes, active, reg0, i);
        ghost var before := out;
        err := DumpScene(scenes[i], active);
        ghost var e := SceneRun(fmt, obj, scenes[i], active, b.reg);
        assert out == before + e.emit.items;
        AppendAssoc(old(out), b.emit.items, e.emit.items);
        if err.Some? {
          ScenesBodyStops(fmt, obj, scenes, active, reg0, i + 1);
          return;
        }
        i := i + 1;
      }
      assert i == |scenes|;
      TakeAll(scenes);
    }

    /** The whole file on fresh registries: `(blend`, every scene, and the
        close; the registries end as the scenes leave them which, when
        nothing raised, is with every object's content name and the
        materials of every data block written in full. */
    method DumpBlend(b: Blend) returns (err: Option<ExportError>)
      requires Valid() && contNames == {} && mtrlNames == {}
      modifies this`out, this`contNames, this`mtrlNames
      ensures var r := BlendRun(fmt, Obj(fmt, data), b);
        out == old(out) + r.items && err == r.error
      ensures var s := ScenesBody(fmt, Obj(fmt, data), b.scenes, b.activeName, Registry({}, {}));
        contNames == s.reg.contents && mtrlNames == s.reg.materials
      ensures err == None ==> HasData(AllObjects(b.scenes))
      ensures err == None ==>
        contNames == Elems(ContentNames(AllObjects(b.scenes))) &&
        mtrlNames == Elems(DefinedMaterials({}, AllObjects(b.scenes)))
    {
      Write(Open("blend"));
      err := DumpScenes(b.scenes, b.activeName);
      ghost var s := ScenesBody(fmt, Obj(fmt, data), b.scenes, b.activeName, Registry({}, {}));
      AppendAssoc(old(out), [Open("blend")], s.emit.items);
      if err.Some? {
        return;
      }
      Write(Close());
      AppendAssoc(old(out), [Open("blend")] + s.emit.items, [Close()]);
      DataListsOwnMaterials();
      ExportContents(fmt, data, b);
      ExportMaterials(fmt, data, b);
    }
  }
}
