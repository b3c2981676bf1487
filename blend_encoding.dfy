/** The whole file: `(blend ...)` with one `(scene ...)` block per scene in
    the host's order.  A scene block holds the scene's name, whether it is
    the active scene, its layers, its render settings and one object block
    per object.  Both registries start empty and are shared by all scenes,
    so a data block met again in a later scene is only referred to.  The
    first exception stops the export. */
module BlendEncoding {
  import opened Wrappers
  import opened Sexp
  import opened BlendData
  import opened Common
  import opened Dedup
  import opened RenderEncoding
  import opened MaterialEncoding
  import opened ObjectEncoding

  /** An object encoder from registries to the object's outcome and the
      registries after it.  The scene loop is stated over any object
      encoder, so that what is proved about the loop does not depend on the
      object block; the exporter uses `ObjectEncoding.Obj`. */
  type ObjEncoder = (Object, Registry) -> ObjRun

  /** An object that did not raise had a data block and registered exactly
      its name. */
  ghost predicate RegistersContent(obj: ObjEncoder)
  {
    forall o: Object, reg: Registry :: obj(o, reg).emit.error == None ==>
      ContentName(o.data).Some? && obj(o, reg).reg.contents == reg.contents + {ContentName(o.data).value}
  }

  /** An object that did not raise has added to the material registry
      exactly the materials of its data block when it defined its content,
      and nothing when it referred to a registered one. */
  ghost predicate RegistersMaterials(obj: ObjEncoder)
  {
    forall o: Object, reg: Registry :: obj(o, reg).emit.error == None ==>
      obj(o, reg).reg.materials == reg.materials + (if DefinesContent(o, reg) then Elems(DataMaterials(o.data)) else {})
  }

  /** No object takes a name out of a registry. */
  ghost predicate GrowsRegistries(obj: ObjEncoder)
  {
    forall o: Object, reg: Registry :: reg.contents <= obj(o, reg).reg.contents && reg.materials <= obj(o, reg).reg.materials
  }

  /** The loop over a scene's objects, from registries `reg`. */
  function ObjectsBody(obj: ObjEncoder, objs: seq<Object>, reg: Registry): ObjRun
    decreases |objs|
  {
    if objs == [] then ObjRun(Emit([], None), reg)
    else
      var r := ObjectsBody(obj, objs[..|objs| - 1], reg);
      if r.emit.error.Some? then r
      else
        var e := obj(objs[|objs| - 1], r.reg);
        ObjRun(Emit(r.emit.items + e.emit.items, e.emit.error), e.reg)
  }

  function SceneHead(s: Scene, active: string): seq<Item>
  {
    [Open("scene"),
     Field("name", Quote(s.name)),
     Field("active_scene", BoolText(s.name == active)),
     LayersField(s.layers)]
  }

  /** One scene block, with `active` the active scene's name. */
  function SceneRun(fmt: Fmt, obj: ObjEncoder, s: Scene, active: string, reg: Registry): ObjRun
  {
    var rd := RenderEmit(fmt, s.render);
    if rd.error.Some? then ObjRun(Emit(SceneHead(s, active) + rd.items, rd.error), reg)
    else
      var b := ObjectsBody(obj, s.objects, reg);
      if b.emit.error.Some? then ObjRun(Emit(SceneHead(s, active) + rd.items + b.emit.items, b.emit.error), b.reg)
      else ObjRun(Emit(SceneHead(s, active) + rd.items + b.emit.items + [Close()], None), b.reg)
  }

  /** The loop over the scenes. */
  function ScenesBody(fmt: Fmt, obj: ObjEncoder, scenes: seq<Scene>, active: string, reg: Registry): ObjRun
    decreases |scenes|
  {
    if scenes == [] then ObjRun(Emit([], None), reg)
    else
      var r := ScenesBody(fmt, obj, scenes[..|scenes| - 1], active, reg);
      if r.emit.error.Some? then r
      else
        var e := SceneRun(fmt, obj, scenes[|scenes| - 1], active, r.reg);
        ObjRun(Emit(r.emit.items + e.emit.items, e.emit.error), e.reg)
  }

  /** The whole file, from empty registries. */
  function BlendRun(fmt: Fmt, obj: ObjEncoder, b: Blend): Emit
  {
    var s := ScenesBody(fmt, obj, b.scenes, b.activeName, Registry({}, {}));
    if s.emit.error.Some? then Emit([Open("blend")] + s.emit.items, s.emit.error)
    else Emit([Open("blend")] + s.emit.items + [Close()], None)
  }

  // ---- Reference: content names over a run of objects ---------------------

  /** Every object has a data block. */
  predicate HasData(objs: seq<Object>)
  {
    forall k :: 0 <= k < |objs| ==> ContentName(objs[k].data).Some?
  }

  /** The names of the objects' data blocks, in order. */
  function ContentNames(objs: seq<Object>): (r: seq<string>)
    requires HasData(objs)
    ensures |r| == |objs|
    ensures forall k :: 0 <= k < |objs| ==> r[k] == ContentName(objs[k].data).value
  {
    seq(|objs|, k requires 0 <= k < |objs| => ContentName(objs[k].data).value)
  }

  /** The objects of all scenes, in the order they are written. */
  function AllObjects(scenes: seq<Scene>): seq<Object>
    decreases |scenes|
  {
    if scenes == [] then [] else AllObjects(scenes[..|scenes| - 1]) + scenes[|scenes| - 1].objects
  }

  /** The material names of the data blocks written in full over a run of
      objects, in order, with the content names `known` registered
      beforehand: those of each object whose content name occurs there for
      the first time. */
  function DefinedMaterials(known: set<string>, objs: seq<Object>): seq<string>
    requires HasData(objs)
    decreases |objs|
  {
    if objs == [] then []
    else
      DefinedMaterials(known, objs[..|objs| - 1]) +
      (if FirstOccurrence(known, ContentNames(objs), |objs| - 1) then DataMaterials(objs[|objs| - 1].data) else [])
  }

  // ---- Properties -----------------------------------------------------------

  /** One step of the objects loop, as the exporter takes it. */
  lemma ObjectsBodySnoc(obj: ObjEncoder, objs: seq<Object>, reg: Registry, i: nat)
    requires i < |objs|
    ensures ObjectsBody(obj, objs[..i + 1], reg) ==
      var r := ObjectsBody(obj, objs[..i], reg);
      if r.emit.error.Some? then r
      else
        var e := obj(objs[i], r.reg);
        ObjRun(Emit(r.emit.items + e.emit.items, e.emit.error), e.reg)
  {
    assert objs[..i + 1][..i] == objs[..i];
  }

  /** One step of the scenes loop, as the exporter takes it. */
  lemma ScenesBodySnoc(fmt: Fmt, obj: ObjEncoder, scenes: seq<Scene>, active: string, reg: Registry, i: nat)
    requires i < |scenes|
    ensures ScenesBody(fmt, obj, scenes[..i + 1], active, reg) ==
      var r := ScenesBody(fmt, obj, scenes[..i], active, reg);
      if r.emit.error.Some? then r
      else
        var e := SceneRun(fmt, obj, scenes[i], active, r.reg);
        ObjRun(Emit(r.emit.items + e.emit.items, e.emit.error), e.reg)
  {
    assert scenes[..i + 1][..i] == scenes[..i];
  }

  /** After an object raises, the rest of the scene changes nothing. */
  lemma {:induction false} ObjectsBodyStops(obj: ObjEncoder, objs: seq<Object>, reg: Registry, k: nat)
    requires k <= |objs|
    requires ObjectsBody(obj, objs[..k], reg).emit.error.Some?
    ensures ObjectsBody(obj, objs, reg) == ObjectsBody(obj, objs[..k], reg)
    decreases |objs| - k
  {
    if k < |objs| {
      var p := objs[..|objs| - 1];
      assert p[..k] == objs[..k];
      ObjectsBodyStops(obj, p, reg, k);
    } else {
      assert objs[..k] == objs;
    }
  }

  /** After a scene raises, the rest of the scenes change nothing. */
  lemma {:induction false} ScenesBodyStops(fmt: Fmt, obj: ObjEncoder, scenes: seq<Scene>, active: string, reg: Registry, k: nat)
    requires k <= |scenes|
    requires ScenesBody(fmt, obj, scenes[..k], active, reg).emit.error.Some?
    ensures ScenesBody(fmt, obj, scenes, active, reg) == ScenesBody(fmt, obj, scenes[..k], active, reg)
    decreases |scenes| - k
  {
    if k < |scenes| {
      var p := scenes[..|scenes| - 1];
      assert p[..k] == scenes[..k];
      ScenesBodyStops(fmt, obj, p, active, reg, k);
    } else {
      assert scenes[..k] == scenes;
    }
  }

  lemma ContentNamesSnoc(objs: seq<Object>)
    requires objs != [] && HasData(objs)
    ensures HasData(objs[..|objs| - 1])
    ensures Elems(ContentNames(objs)) == Elems(ContentNames(objs[..|objs| - 1])) + {ContentName(objs[|objs| - 1].data).value}
  {
    var p := objs[..|objs| - 1];
    assert ContentNames(objs) == ContentNames(p) + [ContentName(objs[|objs| - 1].data).value];
  }

  /** The exporter's object block keeps the content discipline. */
  lemma ObjRegistersContent(fmt: Fmt, data: (ObData, set<string>) -> Run)
    ensures RegistersContent(Obj(fmt, data))
  {
    forall o: Object, reg: Registry | Obj(fmt, data)(o, reg).emit.error == None
      ensures ContentName(o.data).Some? && Obj(fmt, data)(o, reg).reg.contents == reg.contents + {ContentName(o.data).value}
    {
      if o.data.NoData? {
        MissingDataOutcome(fmt, data, o, reg);
      } else {
        ContentDedup(fmt, data, o, reg);
      }
    }
  }

  /** The exporter's object block registers the materials of the data
      blocks it writes in full, given a content encoder that registers its
      own materials. */
  lemma ObjRegistersMaterials(fmt: Fmt, data: (ObData, set<string>) -> Run)
    requires ListsMaterials(data)
    ensures RegistersMaterials(Obj(fmt, data))
  {
    forall o: Object, reg: Registry | Obj(fmt, data)(o, reg).emit.error == None
      ensures Obj(fmt, data)(o, reg).reg.materials ==
        reg.materials + (if DefinesContent(o, reg) then Elems(DataMaterials(o.data)) else {})
    {
      if o.data.NoData? {
        MissingDataOutcome(fmt, data, o, reg);
      } else if DefinesContent(o, reg) {
        DefinedContentOutcome(fmt, data, o, reg);
      } else {
        ContentDedup(fmt, data, o, reg);
      }
    }
  }

  /** The exporter's object block only grows the registries, given a
      content encoder that only grows the material registry. */
  lemma ObjGrows(fmt: Fmt, data: (ObData, set<string>) -> Run)
    requires forall d, seen :: seen <= data(d, seen).seen
    ensures GrowsRegistries(Obj(fmt, data))
  {
    forall o: Object, reg: Registry
      ensures reg.contents <= Obj(fmt, data)(o, reg).reg.contents && reg.materials <= Obj(fmt, data)(o, reg).reg.materials
    {
      if o.data.NoData? {
        MissingDataOutcome(fmt, data, o, reg);
      } else {
        ContentDedup(fmt, data, o, reg);
        if DefinesContent(o, reg) {
          DefinedContentOutcome(fmt, data, o, reg);
          assert reg.materials <= data(o.data, reg.materials).seen;
        }
      }
    }
  }

  /** The exporter's content encoder only grows the material registry. */
  lemma DataGrows(fmt: Fmt, block: Material -> Emit)
    ensures forall d, seen :: seen <= Data(fmt, block)(d, seen).seen
  {
    forall d, seen
      ensures seen <= Data(fmt, block)(d, seen).seen
    {
      DataRunRegistry(fmt, block, d, seen);
    }
  }

  /** A scene whose objects did not raise registered exactly the names of
      their data blocks, added to what was registered before; every one of
      its objects had a data block. */
  lemma {:induction false} ObjectsRegistry(obj: ObjEncoder, objs: seq<Object>, reg: Registry)
    requires RegistersContent(obj)
    requires ObjectsBody(obj, objs, reg).emit.error == None
    ensures HasData(objs)
    ensures ObjectsBody(obj, objs, reg).reg.contents == reg.contents + Elems(ContentNames(objs))
    decreases |objs|
  {
    if objs != [] {
      var p := objs[..|objs| - 1];
      var o := objs[|objs| - 1];
      var r := ObjectsBody(obj, p, reg);
      assert r.emit.error == None;
      ObjectsRegistry(obj, p, reg);
      assert obj(o, r.reg).emit.error == None;
      assert HasData(objs) by {
        forall k | 0 <= k < |objs|
          ensures ContentName(objs[k].data).Some?
        {
          if k < |p| {
            assert objs[k] == p[k];
          }
        }
      }
      ContentNamesSnoc(objs);
    }
  }

  /** The registry discipline across a scene: an object whose predecessors
      did not raise and which has a data block defines its content exactly
      when that content's name occurs here for the first time, neither
      registered before the scene nor met earlier in it. */
  lemma ObjectsDedup(obj: ObjEncoder, objs: seq<Object>, reg: Registry, k: nat)
    requires RegistersContent(obj)
    requires k < |objs|
    requires ObjectsBody(obj, objs[..k], reg).emit.error == None
    requires ContentName(objs[k].data).Some?
    ensures HasData(objs[..k + 1])
    ensures DefinesContent(objs[k], ObjectsBody(obj, objs[..k], reg).reg) <==>
      FirstOccurrence(reg.contents, ContentNames(objs[..k + 1]), k)
  {
    ObjectsRegistry(obj, objs[..k], reg);
    var xs := objs[..k + 1];
    assert HasData(xs) by {
      forall j | 0 <= j < |xs|
        ensures ContentName(xs[j].data).Some?
      {
        if j < k {
          assert xs[j] == objs[..k][j];
        }
      }
    }
    assert xs[..k] == objs[..k];
    assert ContentNames(xs)[..k] == ContentNames(objs[..k]);
    FirstOccurrenceRegistry(reg.contents, ContentNames(xs), k);
  }

  /** The registries only grow over a scene. */
  lemma {:induction false} ObjectsRegistryGrows(obj: ObjEncoder, objs: seq<Object>, reg: Registry)
    requires GrowsRegistries(obj)
    ensures reg.contents <= ObjectsBody(obj, objs, reg).reg.contents
    ensures reg.materials <= ObjectsBody(obj, objs, reg).reg.materials
    decreases |objs|
  {
    if objs != [] {
      ObjectsRegistryGrows(obj, objs[..|objs| - 1], reg);
      var r := ObjectsBody(obj, objs[..|objs| - 1], reg);
      assert r.reg.contents <= obj(objs[|objs| - 1], r.reg).reg.contents;
    }
  }

  /** The active-scene flag is `true` exactly for the scene whose name is
      the active scene's name, and `false` otherwise. */
  lemma ActiveSceneFlag(s: Scene, active: string)
    ensures SceneHead(s, active)[2].tag == "active_scene"
    ensures SceneHead(s, active)[2].value == "true" <==> s.name == active
    ensures SceneHead(s, active)[2].value == "false" <==> s.name != active
  {
  }

  /** With pairwise distinct scene names, one of which is the active one,
      exactly one scene is flagged as active. */
  lemma OneActive(scenes: seq<Scene>, active: string)
    requires forall i, j :: 0 <= i < j < |scenes| ==> scenes[i].name != scenes[j].name
    requires exists i :: 0 <= i < |scenes| && scenes[i].name == active
    ensures exists i :: 0 <= i < |scenes| && SceneHead(scenes[i], active)[2].value == "true"
    ensures forall i, j :: (0 <= i < |scenes| && 0 <= j < |scenes| &&
      SceneHead(scenes[i], active)[2].value == "true" && SceneHead(scenes[j], active)[2].value == "true") ==> i == j
  {
    var i :| 0 <= i < |scenes| && scenes[i].name == active;
    ActiveSceneFlag(scenes[i], active);
    forall i, j | 0 <= i < |scenes| && 0 <= j < |scenes| &&
      SceneHead(scenes[i], active)[2].value == "true" && SceneHead(scenes[j], active)[2].value == "true"
      ensures i == j
    {
      ActiveSceneFlag(scenes[i], active);
      ActiveSceneFlag(scenes[j], active);
    }
  }

  /** A scene block starts with its head and its render block; it raises
      with the render block's error, else with its objects' error, and the
      objects see the registries only when the render block did not raise.
      A complete scene block ends with its close and, with an object encoder
      that registers its content, has added exactly the content names of
      the scene's objects to the content registry. */
  lemma SceneRunShape(fmt: Fmt, obj: ObjEncoder, s: Scene, active: string, reg: Registry)
    ensures var r := SceneRun(fmt, obj, s, active, reg);
      var rd := RenderEmit(fmt, s.render);
      var b := ObjectsBody(obj, s.objects, reg);
      && r.emit.items[..4 + |rd.items|] == SceneHead(s, active) + rd.items
      && r.emit.error == (if rd.error.Some? then rd.error else b.emit.error)
      && r.reg == (if rd.error.Some? then reg else b.reg)
      && (r.emit.error == None ==> r.emit.items[|r.emit.items| - 1] == Close())
      && (RegistersContent(obj) && r.emit.error == None ==>
            HasData(s.objects) && r.reg.contents == reg.contents + Elems(ContentNames(s.objects)))
  {
    var r := SceneRun(fmt, obj, s, active, reg);
    if RegistersContent(obj) && r.emit.error == None {
      ObjectsRegistry(obj, s.objects, reg);
    }
    var h := SceneHead(s, active) + RenderEmit(fmt, s.render).items;
    if RenderEmit(fmt, s.render).error.None? {
      var b := ObjectsBody(obj, s.objects, reg);
      if b.emit.error.Some? {
        assert r.emit.items == h + b.emit.items;
      } else {
        assert r.emit.items == h + (b.emit.items + [Close()]);
      }
    }
  }

  lemma ContentNamesAppend(a: seq<Object>, b: seq<Object>)
    requires HasData(a) && HasData(b)
    ensures HasData(a + b)
    ensures ContentNames(a + b) == ContentNames(a) + ContentNames(b)
    ensures Elems(ContentNames(a + b)) == Elems(ContentNames(a)) + Elems(ContentNames(b))
  {
    assert forall k :: 0 <= k < |b| ==> (a + b)[|a| + k] == b[k];
    assert ContentNames(a + b) == ContentNames(a) + ContentNames(b);
    ElemsAppend(ContentNames(a), ContentNames(b));
  }

  /** Over a run of scenes that did not raise, the content registry gains
      exactly the names of the data blocks of all their objects, scene after
      scene: a content is written in full once over the whole file. */
  lemma {:induction false} ScenesRegistry(fmt: Fmt, obj: ObjEncoder, scenes: seq<Scene>, active: string, reg: Registry)
    requires RegistersContent(obj)
    requires ScenesBody(fmt, obj, scenes, active, reg).emit.error == None
    ensures HasData(AllObjects(scenes))
    ensures ScenesBody(fmt, obj, scenes, active, reg).reg.contents == reg.contents + Elems(ContentNames(AllObjects(scenes)))
    decreases |scenes|
  {
    if scenes != [] {
      var p := scenes[..|scenes| - 1];
      var s := scenes[|scenes| - 1];
      var r := ScenesBody(fmt, obj, p, active, reg);
      assert r.emit.error == None;
      ScenesRegistry(fmt, obj, p, active, reg);
      SceneRunShape(fmt, obj, s, active, r.reg);
      assert AllObjects(scenes) == AllObjects(p) + s.objects;
      ContentNamesAppend(AllObjects(p), s.objects);
    }
  }

  /** The objects of a run have data blocks whenever those of a longer run
      do. */
  lemma HasDataPrefix(objs: seq<Object>, n: nat)
    requires n <= |objs| && HasData(objs)
    ensures HasData(objs[..n])
  {
    forall k | 0 <= k < n
      ensures ContentName(objs[..n][k].data).Some?
    {
      assert objs[..n][k] == objs[k];
    }
  }

  /** An object of a second run meets its content name for the first time
      after both runs exactly when it does so in its own run, with the first
      run's content names registered. */
  lemma FirstContentAppend(known: set<string>, a: seq<Object>, b: seq<Object>, j: nat)
    requires HasData(a) && HasData(b) && j < |b|
    ensures HasData(a + b)
    ensures FirstOccurrence(known, ContentNames(a + b), |a| + j) <==>
      FirstOccurrence(known + Elems(ContentNames(a)), ContentNames(b), j)
  {
    ContentNamesAppend(a, b);
    FirstOccurrenceShift(known, ContentNames(a), ContentNames(b), j);
  }

  /** The material names written in full over two runs of objects, the
      second run met with the first run's content names registered. */
  lemma {:induction false} DefinedMaterialsAppend(known: set<string>, a: seq<Object>, b: seq<Object>)
    requires HasData(a) && HasData(b)
    ensures HasData(a + b)
    ensures DefinedMaterials(known, a + b) ==
      DefinedMaterials(known, a) + DefinedMaterials(known + Elems(ContentNames(a)), b)
    decreases |b|
  {
    ContentNamesAppend(a, b);
    if b == [] {
      assert a + b == a;
    } else {
      var m := |b| - 1;
      var p := b[..m];
      HasDataPrefix(b, m);
      assert (a + b)[..|a| + m] == a + p;
      DefinedMaterialsAppend(known, a, p);
      FirstContentAppend(known, a, b, m);
      assert (a + b)[|a| + m] == b[m];
    }
  }

  /** Over a scene's objects that did not raise, the material registry
      gains exactly the material names of the data blocks written in full,
      those of the objects whose content is met for the first time. */
  lemma {:induction false} ObjectsMaterials(obj: ObjEncoder, objs: seq<Object>, reg: Registry)
    requires RegistersContent(obj) && RegistersMaterials(obj)
    requires ObjectsBody(obj, objs, reg).emit.error == None
    ensures HasData(objs)
    ensures ObjectsBody(obj, objs, reg).reg.materials == reg.materials + Elems(DefinedMaterials(reg.contents, objs))
    decreases |objs|
  {
    ObjectsRegistry(obj, objs, reg);
    if objs != [] {
      var k := |objs| - 1;
      var p := objs[..k];
      var o := objs[k];
      var r := ObjectsBody(obj, p, reg);
      assert r.emit.error == None;
      ObjectsMaterials(obj, p, reg);
      assert obj(o, r.reg).emit.error == None;
      ObjectsDedup(obj, objs, reg, k);
      assert objs[..k + 1] == objs;
      var last := if FirstOccurrence(reg.contents, ContentNames(objs), k) then DataMaterials(o.data) else [];
      ElemsAppend(DefinedMaterials(reg.contents, p), last);
    }
  }

  /** Over a run of scenes that did not raise, the material registry gains
      exactly the material names of the data blocks written in full, scene
      after scene, with a content met in an earlier scene only referred to. */
  lemma {:induction false} ScenesMaterials(fmt: Fmt, obj: ObjEncoder, scenes: seq<Scene>, active: string, reg: Registry)
    requires RegistersContent(obj) && RegistersMaterials(obj)
    requires ScenesBody(fmt, obj, scenes, active, reg).emit.error == None
    ensures HasData(AllObjects(scenes))
    ensures ScenesBody(fmt, obj, scenes, active, reg).reg.materials ==
      reg.materials + Elems(DefinedMaterials(reg.contents, AllObjects(scenes)))
    decreases |scenes|
  {
    ScenesRegistry(fmt, obj, scenes, active, reg);
    if scenes != [] {
      var p := scenes[..|scenes| - 1];
      var s := scenes[|scenes| - 1];
      var r := ScenesBody(fmt, obj, p, active, reg);
      assert r.emit.error == None;
      ScenesMaterials(fmt, obj, p, active, reg);
      ScenesRegistry(fmt, obj, p, active, reg);
      SceneRunShape(fmt, obj, s, active, r.reg);
      ObjectsMaterials(obj, s.objects, r.reg);
      assert AllObjects(scenes) == AllObjects(p) + s.objects;
      DefinedMaterialsAppend(reg.contents, AllObjects(p), s.objects);
      ElemsAppend(DefinedMaterials(reg.contents, AllObjects(p)),
        DefinedMaterials(reg.contents + Elems(ContentNames(AllObjects(p))), s.objects));
    }
  }

  /** The registries only grow over a run of scenes. */
  lemma {:induction false} ScenesRegistryGrows(fmt: Fmt, obj: ObjEncoder, scenes: seq<Scene>, active: string, reg: Registry)
    requires GrowsRegistries(obj)
    ensures reg.contents <= ScenesBody(fmt, obj, scenes, active, reg).reg.contents
    ensures reg.materials <= ScenesBody(fmt, obj, scenes, active, reg).reg.materials
    decreases |scenes|
  {
    if scenes != [] {
      var p := scenes[..|scenes| - 1];
      var s := scenes[|scenes| - 1];
      ScenesRegistryGrows(fmt, obj, p, active, reg);
      var r := ScenesBody(fmt, obj, p, active, reg);
      SceneRunShape(fmt, obj, s, active, r.reg);
      ObjectsRegistryGrows(obj, s.objects, r.reg);
    }
  }

  /** Across the document, from empty registries: the material registry
      that the `k`-th object of scene `i` is given, when nothing raised
      before it, holds exactly the material names of the data blocks written
      in full before it, in earlier scenes and earlier in its own. */
  lemma MaterialsBefore(fmt: Fmt, obj: ObjEncoder, scenes: seq<Scene>, active: string, i: nat, k: nat)
    requires RegistersContent(obj) && RegistersMaterials(obj)
    requires i < |scenes| && k <= |scenes[i].objects|
    requires ScenesBody(fmt, obj, scenes[..i], active, Registry({}, {})).emit.error == None
    requires ObjectsBody(obj, scenes[i].objects[..k], ScenesBody(fmt, obj, scenes[..i], active, Registry({}, {})).reg).emit.error == None
    ensures HasData(AllObjects(scenes[..i]) + scenes[i].objects[..k])
    ensures ObjectsBody(obj, scenes[i].objects[..k], ScenesBody(fmt, obj, scenes[..i], active, Registry({}, {})).reg).reg.materials ==
      Elems(DefinedMaterials({}, AllObjects(scenes[..i]) + scenes[i].objects[..k]))
  {
    var before := AllObjects(scenes[..i]);
    var objs := scenes[i].objects[..k];
    var r := ScenesBody(fmt, obj, scenes[..i], active, Registry({}, {}));
    ScenesMaterials(fmt, obj, scenes[..i], active, Registry({}, {}));
    ScenesRegistry(fmt, obj, scenes[..i], active, Registry({}, {}));
    assert r.reg.contents == Elems(ContentNames(before));
    ObjectsMaterials(obj, objs, r.reg);
    DefinedMaterialsAppend({}, before, objs);
    assert {} + Elems(ContentNames(before)) == Elems(ContentNames(before));
    ElemsAppend(DefinedMaterials({}, before), DefinedMaterials(Elems(ContentNames(before)), objs));
  }

  /** Hence a material of the data block the `k`-th object of scene `i`
      writes is new to the registry it is given exactly when its name occurs
      for the first time in the document's sequence of listed materials:
      those of the data blocks written in full before, then its own list. */
  lemma DocumentMaterialFirst(fmt: Fmt, obj: ObjEncoder, scenes: seq<Scene>, active: string, i: nat, k: nat, j: nat)
    requires RegistersContent(obj) && RegistersMaterials(obj)
    requires i < |scenes| && k < |scenes[i].objects|
    requires ScenesBody(fmt, obj, scenes[..i], active, Registry({}, {})).emit.error == None
    requires ObjectsBody(obj, scenes[i].objects[..k], ScenesBody(fmt, obj, scenes[..i], active, Registry({}, {})).reg).emit.error == None
    requires j < |DataMaterials(scenes[i].objects[k].data)|
    ensures HasData(AllObjects(scenes[..i]) + scenes[i].objects[..k])
    ensures var pre := DefinedMaterials({}, AllObjects(scenes[..i]) + scenes[i].objects[..k]);
      var seen := ObjectsBody(obj, scenes[i].objects[..k], ScenesBody(fmt, obj, scenes[..i], active, Registry({}, {})).reg).reg.materials;
      FirstOccurrence(seen, DataMaterials(scenes[i].objects[k].data), j) <==>
      FirstOccurrence({}, pre + DataMaterials(scenes[i].objects[k].data), |pre| + j)
  {
    MaterialsBefore(fmt, obj, scenes, active, i, k);
    var pre := DefinedMaterials({}, AllObjects(scenes[..i]) + scenes[i].objects[..k]);
    FirstOccurrenceShift({}, pre, DataMaterials(scenes[i].objects[k].data), j);
    assert {} + Elems(pre) == Elems(pre);
  }

  /** The file opens its `blend` block first and, unless the export raised,
      closes it last; it raises exactly when a scene raised.  A file that
      did not raise, written by an object encoder that registers its
      content, leaves as its content registry the content names of all
      objects of all scenes. */
  lemma BlendRunShape(fmt: Fmt, obj: ObjEncoder, b: Blend)
    ensures var e := BlendRun(fmt, obj, b);
      var s := ScenesBody(fmt, obj, b.scenes, b.activeName, Registry({}, {}));
      && e.items[0] == Open("blend")
      && e.items[1..1 + |s.emit.items|] == s.emit.items
      && e.error == s.emit.error
      && (e.error == None ==> e.items[|e.items| - 1] == Close())
      && (RegistersContent(obj) && e.error == None ==>
            HasData(AllObjects(b.scenes)) && s.reg.contents == Elems(ContentNames(AllObjects(b.scenes))))
  {
    var s := ScenesBody(fmt, obj, b.scenes, b.activeName, Registry({}, {}));
    var e := BlendRun(fmt, obj, b);
    if RegistersContent(obj) && s.emit.error == None {
      ScenesRegistry(fmt, obj, b.scenes, b.activeName, Registry({}, {}));
    }
    var h := [Open("blend")] + s.emit.items;
    assert h[1..1 + |s.emit.items|] == s.emit.items;
    if s.emit.error.None? {
      assert e.items == h + [Close()];
      assert e.items[1..1 + |s.emit.items|] == h[1..1 + |s.emit.items|];
    }
  }

  /** Over the whole file, when nothing raised, the exporter's registry of
      contents ends as the set of the names of all objects' data blocks:
      every object's content name is registered, and no other name.  This
      holds whatever the content encoder `data` writes. */
  lemma ExportContents(fmt: Fmt, data: (ObData, set<string>) -> Run, b: Blend)
    requires BlendRun(fmt, Obj(fmt, data), b).error == None
    ensures HasData(AllObjects(b.scenes))
    ensures ScenesBody(fmt, Obj(fmt, data), b.scenes, b.activeName, Registry({}, {})).reg.contents ==
      Elems(ContentNames(AllObjects(b.scenes)))
  {
    ObjRegistersContent(fmt, data);
    BlendRunShape(fmt, Obj(fmt, data), b);
  }

  /** Over the whole file, when nothing raised, the exporter's registry of
      materials ends as the set of the material names of the data blocks
      written in full, given a content encoder that registers its own
      materials. */
  lemma ExportMaterials(fmt: Fmt, data: (ObData, set<string>) -> Run, b: Blend)
    requires ListsMaterials(data)
    requires BlendRun(fmt, Obj(fmt, data), b).error == None
    ensures HasData(AllObjects(b.scenes))
    ensures ScenesBody(fmt, Obj(fmt, data), b.scenes, b.activeName, Registry({}, {})).reg.materials ==
      Elems(DefinedMaterials({}, AllObjects(b.scenes)))
  {
    ObjRegistersContent(fmt, data);
    ObjRegistersMaterials(fmt, data);
    ScenesMaterials(fmt, Obj(fmt, data), b.scenes, b.activeName, Registry({}, {}));
  }
}
