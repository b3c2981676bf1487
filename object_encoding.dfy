/** The `(obj ...)` block: the object's type, name, placement and layers,
    its game properties and its animation curves when it has them, then the
    `(content ...)` block, then its pose when it has one.  Inside the content
    block the object's data block is written in full the first time its name
    is met (`content_name` and the data's own block) and referred to by name
    afterwards (`use_content`); the name is registered before the data block
    is written. */
module ObjectEncoding {
  import opened Wrappers
  import opened Sexp
  import opened BlendData
  import opened HostTables
  import opened Common
  import opened Dedup
  import opened MaterialsList
  import opened MeshEncoding
  import opened CurveEncoding
  import opened CameraEncoding
  import opened LampEncoding
  import opened MetaballEncoding
  import opened TextEncoding
  import opened ArmatureEncoding
  import opened PropertiesEncoding
  import opened IpoEncoding
  import opened PoseEncoding

  /** The name of the object's data block; an object with no data block has
      none, and asking for it raises. */
  function ContentName(d: ObData): (r: Option<string>)
    ensures r.None? <==> d.NoData?
  {
    match d
    case MeshData(m) => Some(m.name)
    case CurveData(c) => Some(c.name)
    case CameraData(c) => Some(c.name)
    case LampData(l) => Some(l.name)
    case MetaballData(mb) => Some(mb.name)
    case TextData(t) => Some(t.name)
    case ArmatureData(a) => Some(a.name)
    case OtherData(_, n) => Some(n)
    case NoData(_) => None
  }

  function ObjHead(fmt: Fmt, o: Object): seq<Item>
  {
    [Open("obj"),
     Field("type", Quote(TypeName(o.data))),
     Field("datablock_name", Quote(o.name)),
     Field("location", "(" + G3(fmt, o.loc) + ")"),
     Field("rotation", "(" + G3(fmt, o.rot) + ")"),
     Field("scale", "(" + G3(fmt, o.size) + ")"),
     LayersField(o.layers)]
  }

  /** The game properties, written only when the object has some. */
  function PropsPart(fmt: Fmt, o: Object): seq<Item>
  {
    if |o.properties| > 0 then PropertiesItems(fmt, o.properties) else []
  }

  /** The animation curves, written only when the object has an ipo. */
  function IpoPart(fmt: Fmt, o: Object): seq<Item>
  {
    if o.ipo.Some? then IpoItems(fmt, o.ipo.value) else []
  }

  /** Everything up to and including the opening of the content block. */
  function ObjPrefix(fmt: Fmt, o: Object): seq<Item>
  {
    ObjHead(fmt, o) + PropsPart(fmt, o) + IpoPart(fmt, o) + [Open("content")]
  }

  /** The data block of a newly met content, from material registry `seen`;
      a type the exporter does not know writes nothing. */
  function DataRun(fmt: Fmt, block: Material -> Emit, d: ObData, seen: set<string>): Run
  {
    match d
    case MeshData(m) => MeshRun(fmt, block, m, seen)
    case CurveData(c) => Run(Emit(CurveItems(fmt, c), None), seen)
    case CameraData(c) => Run(Emit(CameraItems(fmt, c), None), seen)
    case LampData(l) => Run(LampEmit(fmt, l), seen)
    case MetaballData(mb) => MetaballRun(fmt, block, mb, seen)
    case TextData(t) => Run(TextEmit(fmt, t), seen)
    case ArmatureData(a) => Run(Emit(ArmatureItems(fmt, a), None), seen)
    case OtherData(_, _) => Run(Emit([], None), seen)
    case NoData(_) => Run(Emit([], None), seen)
  }

  /** The close of the content block, the pose, and the close of the
      object, followed by an empty line. */
  function ObjEnd(fmt: Fmt, o: Object): seq<Item>
  {
    [Close()] + PosePart(fmt, o.pose) + [Raw(")\n\n")]
  }

  /** Whether the object defines its content from registry `reg`: it has a
      data block whose name is not registered yet. */
  predicate DefinesContent(o: Object, reg: Registry)
  {
    ContentName(o.data).Some? && ContentName(o.data).value !in reg.contents
  }

  /** The object block when its content `c` is met for the first time:
      the name is registered, then written, then the data block `d`; the
      object is closed with `end` unless the data block raised. */
  function ContentDefined(pre: seq<Item>, c: string, d: Run, end: seq<Item>, reg: Registry): ObjRun
  {
    var reg' := Registry(reg.contents + {c}, d.seen);
    if d.emit.error.Some? then ObjRun(Emit(pre + [Field("content_name", Quote(c))] + d.emit.items, d.emit.error), reg')
    else ObjRun(Emit(pre + [Field("content_name", Quote(c))] + d.emit.items + end, None), reg')
  }

  /** The object block when its content `c` is registered already: a
      reference by name, and nothing registered. */
  function ContentReused(pre: seq<Item>, c: string, end: seq<Item>, reg: Registry): ObjRun
  {
    ObjRun(Emit(pre + [Field("use_content", Quote(c))] + end, None), reg)
  }

  /** The content encoder as a value: the object block is stated over any
      content encoder `data`, so that what is proved about it and about the
      scene loop does not depend on the data blocks; the exporter uses this
      one. */
  function Data(fmt: Fmt, block: Material -> Emit): (ObData, set<string>) -> Run
  {
    (d: ObData, seen: set<string>) => DataRun(fmt, block, d, seen)
  }

  /** The whole object block from the registries `reg`, with `data` the
      content encoder. */
  function ObjectRun(fmt: Fmt, data: (ObData, set<string>) -> Run, o: Object, reg: Registry): ObjRun
  {
    var c := ContentName(o.data);
    if c.None? then ObjRun(Emit(ObjPrefix(fmt, o), Some(MissingData(TypeName(o.data)))), reg)
    else if c.value in reg.contents then ContentReused(ObjPrefix(fmt, o), c.value, ObjEnd(fmt, o), reg)
    else ContentDefined(ObjPrefix(fmt, o), c.value, data(o.data, reg.materials), ObjEnd(fmt, o), reg)
  }

  lemma ContentDefinedShape(pre: seq<Item>, c: string, d: Run, end: seq<Item>, reg: Registry)
    requires end != []
    ensures var r := ContentDefined(pre, c, d, end, reg);
      var n := |pre| + 1;
      && n + |d.emit.items| <= |r.emit.items|
      && r.emit.items[..|pre|] == pre
      && r.emit.items[|pre|] == Field("content_name", Quote(c))
      && r.emit.items[n..n + |d.emit.items|] == d.emit.items
      && r.emit.error == d.emit.error
      && r.reg == Registry(reg.contents + {c}, d.seen)
      && (r.emit.error == None <==> r.emit.items == r.emit.items[..n + |d.emit.items|] + end)
  {
    var r := ContentDefined(pre, c, d, end, reg);
    var h := pre + [Field("content_name", Quote(c))];
    if d.emit.error.None? {
      assert r.emit.items == h + d.emit.items + end;
      assert r.emit.items[..|h| + |d.emit.items|] == h + d.emit.items;
    } else {
      assert r.emit.items == h + d.emit.items;
      assert |r.emit.items| < |r.emit.items[..|h| + |d.emit.items|] + end|;
    }
  }

  lemma ContentReusedShape(pre: seq<Item>, c: string, end: seq<Item>, reg: Registry)
    ensures var r := ContentReused(pre, c, end, reg);
      && |pre| < |r.emit.items|
      && r.emit.items[..|pre|] == pre
      && r.emit.items[|pre|] == Field("use_content", Quote(c))
      && r.reg == reg && r.emit.error == None
  {
    var r := ContentReused(pre, c, end, reg);
    assert r.emit.items == pre + ([Field("use_content", Quote(c))] + end);
  }

  /** The object block after its prefix does not depend on the prefix. */
  lemma ContentDefinedPrefix(pre: seq<Item>, c: string, d: Run, end: seq<Item>, reg: Registry)
    ensures var r := ContentDefined([], c, d, end, reg);
      ContentDefined(pre, c, d, end, reg) == ObjRun(Emit(pre + r.emit.items, r.emit.error), r.reg)
  {
    var f := [Field("content_name", Quote(c))];
    assert [] + f == f;
    AppendAssoc(pre, f, d.emit.items);
    AppendAssoc(pre, f + d.emit.items, end);
  }

  /** The object block as a value, with `data` the content encoder. */
  function Obj(fmt: Fmt, data: (ObData, set<string>) -> Run): (Object, Registry) -> ObjRun
  {
    (o: Object, reg: Registry) => ObjectRun(fmt, data, o, reg)
  }

  // ---- Properties -----------------------------------------------------------

  /** The object's type and name are written between quotes, so that a
      reader gets them back. */
  lemma ObjHeadReadBack(fmt: Fmt, o: Object)
    ensures var h := ObjHead(fmt, o);
      && h[1].tag == "type" && Unquote(h[1].value) == TypeName(o.data)
      && h[2].tag == "datablock_name" && Unquote(h[2].value) == o.name
  {
  }

  /** The material registry only grows inside the content block, and only
      meshes and metaballs touch it. */
  lemma DataRunRegistry(fmt: Fmt, block: Material -> Emit, d: ObData, seen: set<string>)
    ensures seen <= DataRun(fmt, block, d, seen).seen
    ensures !d.MeshData? && !d.MetaballData? ==> DataRun(fmt, block, d, seen).seen == seen
  {
    if d.MeshData? {
      MeshRunShape(fmt, block, d.mesh, seen);
      MaterialsRunShape(block, d.mesh.materials, seen);
    } else if d.MetaballData? {
      MetaballRunShape(fmt, block, d.mball, seen);
      MaterialsRunShape(block, d.mball.materials, seen);
    }
  }

  /** The names of the materials a data block lists, in list order: a
      mesh's and a metaball's, and none for the other types. */
  function DataMaterials(d: ObData): seq<string>
  {
    match d
    case MeshData(m) => Names(m.materials)
    case MetaballData(mb) => Names(mb.materials)
    case _ => []
  }

  /** A content encoder that, whenever its data block did not raise, has
      added exactly the names of the block's materials to the material
      registry. */
  ghost predicate ListsMaterials(data: (ObData, set<string>) -> Run)
  {
    forall d: ObData, seen: set<string> :: data(d, seen).emit.error == None ==>
      data(d, seen).seen == seen + Elems(DataMaterials(d))
  }

  /** The exporter's data blocks register exactly their own materials. */
  lemma DataListsMaterials(fmt: Fmt, block: Material -> Emit)
    ensures ListsMaterials(Data(fmt, block))
  {
    forall d: ObData, seen: set<string> | Data(fmt, block)(d, seen).emit.error == None
      ensures Data(fmt, block)(d, seen).seen == seen + Elems(DataMaterials(d))
    {
      var r := DataRun(fmt, block, d, seen);
      if d.MeshData? {
        MeshRunShape(fmt, block, d.mesh, seen);
      } else if d.MetaballData? {
        MetaballRunShape(fmt, block, d.mball, seen);
        MaterialsRunShape(block, d.mball.materials, seen);
      } else {
        DataRunRegistry(fmt, block, d, seen);
        assert Elems(DataMaterials(d)) == {};
      }
    }
  }

  /** Only meshes, lamps, metaballs and text can raise inside the content
      block: a lamp exactly when its falloff code is not in the table, a
      text exactly when its alignment is not, a mesh or a metaball only
      through its materials or, for a metaball, an element type outside the
      table. */
  lemma DataRunErrors(fmt: Fmt, block: Material -> Emit, d: ObData, seen: set<string>)
    ensures DataRun(fmt, block, d, seen).emit.error.Some? ==>
      d.MeshData? || d.LampData? || d.MetaballData? || d.TextData?
    ensures d.LampData? ==> (DataRun(fmt, block, d, seen).emit.error.Some? <==> d.lamp.falloffType !in Falloffs)
    ensures d.TextData? ==> (DataRun(fmt, block, d, seen).emit.error.Some? <==> d.text.alignment !in Alignments)
  {
    if d.LampData? {
      FalloffOutcome(fmt, d.lamp);
    } else if d.TextData? {
      TextOutcome(fmt, d.text);
    }
  }

  /** An object without a data block raises when its content's name is
      asked for, right after the opening of the content block, and
      registers nothing. */
  lemma MissingDataOutcome(fmt: Fmt, data: (ObData, set<string>) -> Run, o: Object, reg: Registry)
    requires o.data.NoData?
    ensures ObjectRun(fmt, data, o, reg) == ObjRun(Emit(ObjPrefix(fmt, o), Some(MissingData(o.data.typeName))), reg)
  {
  }

  /** The content registry discipline for one object: right after the
      opening of the content block, a content met for the first time is
      introduced with `content_name`, and one already registered is referred
      to with `use_content`, which changes neither registry and cannot raise;
      in both cases the name is registered afterwards. */
  lemma ContentDedup(fmt: Fmt, data: (ObData, set<string>) -> Run, o: Object, reg: Registry)
    requires ContentName(o.data).Some?
    ensures var r := ObjectRun(fmt, data, o, reg);
      var c := ContentName(o.data).value;
      && |ObjPrefix(fmt, o)| < |r.emit.items|
      && r.emit.items[..|ObjPrefix(fmt, o)|] == ObjPrefix(fmt, o)
      && r.emit.items[|ObjPrefix(fmt, o)|] ==
           Field(if DefinesContent(o, reg) then "content_name" else "use_content", Quote(c))
      && r.reg.contents == reg.contents + {c}
      && (!DefinesContent(o, reg) ==> r.reg == reg && r.emit.error == None)
  {
    var c := ContentName(o.data).value;
    var pre, end := ObjPrefix(fmt, o), ObjEnd(fmt, o);
    var r := ObjectRun(fmt, data, o, reg);
    if DefinesContent(o, reg) {
      assert r == ContentDefined(pre, c, data(o.data, reg.materials), end, reg);
      assert end[0] == Close();
      ContentDefinedShape(pre, c, data(o.data, reg.materials), end, reg);
    } else {
      assert c in reg.contents;
      assert r == ContentReused(pre, c, end, reg);
      assert reg.contents + {c} == reg.contents;
      ContentReusedShape(pre, c, end, reg);
    }
  }

  /** A content met for the first time writes its data block after its name,
      with the data block's own outcome and material registry; the object is
      closed exactly when the data block did not raise. */
  lemma DefinedContentOutcome(fmt: Fmt, data: (ObData, set<string>) -> Run, o: Object, reg: Registry)
    requires DefinesContent(o, reg)
    ensures var r := ObjectRun(fmt, data, o, reg);
      var d := data(o.data, reg.materials);
      var n := |ObjPrefix(fmt, o)| + 1;
      && n + |d.emit.items| <= |r.emit.items|
      && r.emit.error == d.emit.error
      && r.reg.materials == d.seen
      && r.emit.items[n..n + |d.emit.items|] == d.emit.items
      && (r.emit.error == None <==> r.emit.items == r.emit.items[..n + |d.emit.items|] + ObjEnd(fmt, o))
  {
    ContentDefinedShape(ObjPrefix(fmt, o), ContentName(o.data).value, data(o.data, reg.materials), ObjEnd(fmt, o), reg);
  }

  /** The head opens only `obj` of the tags the prefix counts. */
  lemma ObjHeadCount(fmt: Fmt, o: Object, tag: string)
    requires tag == "obj" || tag == "content" || tag == "game_properties" || tag == "ipo"
    ensures CountTag(ObjHead(fmt, o), tag) == if tag == "obj" then 1 else 0
  {
    var h := ObjHead(fmt, o);
    assert h == [h[0]] + h[1..];
    CountTagAbsent(h[1..], tag);
    CountTagAppend([h[0]], h[1..], tag);
    CountTagOne(h[0], tag);
  }

  lemma PropsPartCount(fmt: Fmt, o: Object, tag: string)
    requires tag == "obj" || tag == "content" || tag == "game_properties" || tag == "ipo"
    ensures CountTag(PropsPart(fmt, o), tag) == if tag == "game_properties" && |o.properties| > 0 then 1 else 0
  {
    if |o.properties| > 0 {
      PropertiesCount(fmt, o.properties, tag);
    }
  }

  lemma IpoPartCount(fmt: Fmt, o: Object, tag: string)
    requires tag == "obj" || tag == "content" || tag == "game_properties" || tag == "ipo"
    ensures CountTag(IpoPart(fmt, o), tag) == if tag == "ipo" && o.ipo.Some? then 1 else 0
  {
    if o.ipo.Some? {
      IpoTagCount(fmt, o.ipo.value, tag);
      CurveOpensOther(o.ipo.value.curves, tag);
    }
  }

  /** Up to its content block, an object opens its own block and its content
      block once each, its game properties exactly when it has some and its
      ipo exactly when it has one. */
  lemma ObjPrefixCount(fmt: Fmt, o: Object, tag: string)
    requires tag == "obj" || tag == "content" || tag == "game_properties" || tag == "ipo"
    ensures CountTag(ObjPrefix(fmt, o), tag) ==
      (if tag == "obj" || tag == "content" then 1 else 0)
        + (if tag == "game_properties" && |o.properties| > 0 then 1 else 0)
        + (if tag == "ipo" && o.ipo.Some? then 1 else 0)
  {
    var h := ObjHead(fmt, o);
    var p := PropsPart(fmt, o);
    var i := IpoPart(fmt, o);
    ObjHeadCount(fmt, o, tag);
    PropsPartCount(fmt, o, tag);
    IpoPartCount(fmt, o, tag);
    CountTagAppend(h, p, tag);
    CountTagAppend(h + p, i, tag);
    CountTagAppend(h + p + i, [Open("content")], tag);
    CountTagOne(Open("content"), tag);
  }

  /** After its content block, an object writes its pose block exactly when
      it has a pose, with one `pose_bone` block per pose bone. */
  lemma ObjEndCount(fmt: Fmt, o: Object)
    ensures CountTag(ObjEnd(fmt, o), "pose") == if o.pose.Some? then 1 else 0
    ensures o.pose.Some? ==> CountTag(ObjEnd(fmt, o), "pose_bone") == |o.pose.value|
  {
    var p := PosePart(fmt, o.pose);
    if o.pose.Some? {
      PoseCounts(fmt, o.pose.value);
    }
    CountTagAppend([Close()], p, "pose");
    CountTagAppend([Close()] + p, [Raw(")\n\n")], "pose");
    CountTagOne(Close(), "pose");
    CountTagOne(Raw(")\n\n"), "pose");
    CountTagAppend([Close()], p, "pose_bone");
    CountTagAppend([Close()] + p, [Raw(")\n\n")], "pose_bone");
    CountTagOne(Close(), "pose_bone");
    CountTagOne(Raw(")\n\n"), "pose_bone");
  }
}
