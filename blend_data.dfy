/** The scene as the exporter reads it from the host.  Each datatype keeps the
    attributes the exporter reads, under the host's meaning; host enumerations
    are kept as the integer codes the host hands out (see `HostTables`). */
module BlendData {
  import opened Wrappers

  type Vec2 = (real, real)
  type Vec3 = (real, real, real)
  type Vec4 = (real, real, real, real)

  // ---- Materials ------------------------------------------------------------

  datatype Material = Material(
    name: string,
    r: real, g: real, b: real, alpha: real,
    anisotropy: real, translucency: real, amb: real, emit: real,
    hard: int, add: real, spec: real,
    specColor: Vec3, mirColor: Vec3,
    threshMir: real, threshTra: real, ref: real, transDepth: int,
    diffuseShader: int,
    roughness: real, diffuseSize: real, diffuseSmooth: real, diffuseDarkness: real,
    specShader: int,
    rms: real, specSize: real, refracIndex: real)

  // ---- Meshes ---------------------------------------------------------------

  datatype Vertex = Vertex(co: Vec3, uvco: Vec2)

  /** A vertex colour as the host stores it: integer channels. */
  datatype Rgb = Rgb(r: int, g: int, b: int)

  /** One corner of a face: the index of its vertex, and its colour and
      texture coordinate. */
  datatype Corner = Corner(index: nat, col: Rgb, uv: Vec2)

  datatype Face = Face(corners: seq<Corner>)

  /** `renderColorLayer` and `renderUVLayer` are "" when the mesh has none. */
  datatype Mesh = Mesh(
    name: string,
    maxSmoothAngle: real,
    verts: seq<Vertex>,
    renderColorLayer: string,
    vertexColors: bool,
    renderUVLayer: string,
    vertexUV: bool,
    faceUV: bool,
    faces: seq<Face>,
    materials: seq<Material>)

  // ---- Curves ---------------------------------------------------------------

  /** A Bezier control point: left handle, knot, right handle. */
  datatype Triple = Triple(left: Vec3, knot: Vec3, right: Vec3)

  /** A sub-curve: NURBS points (their first three coordinates) or Bezier
      triples. */
  datatype Nurb = NurbsCurve(points: seq<Vec3>) | BezierCurve(triples: seq<Triple>)

  datatype Curve = Curve(
    name: string,
    bevresol: int, ext1: real, ext2: real, size: Vec3,
    pathlen: int, resolu: int, resolv: int,
    nurbs: seq<Nurb>)

  // ---- Cameras, lamps, metaballs, text --------------------------------------

  datatype Camera = Camera(
    name: string,
    clipStart: real, clipEnd: real, dofDist: real, shiftX: real, shiftY: real,
    typ: string,
    scale: real, angle: real, lens: real)

  datatype Lamp = Lamp(
    name: string,
    r: real, g: real, b: real,
    bias: real, softness: real, clipStart: real, clipEnd: real, energy: real,
    mode: nat,
    falloffType: int,
    typ: int,
    spotBlend: real, spotSize: real, areaSizeX: real, areaSizeY: real)

  datatype MetaElement = MetaElement(
    typ: int, radius: real, co: Vec3, dims: Vec3, quat: Vec4, stiffness: real)

  datatype Metaball = Metaball(
    name: string,
    wiresize: real, rendersize: real, thresh: real,
    materials: seq<Material>,
    elements: seq<MetaElement>)

  datatype Text3d = Text3d(
    name: string,
    text: string, shear: real, totalFrames: int,
    frameHeight: real, frameWidth: real, frameX: real, frameY: real,
    alignment: int,
    bevelAmount: real, extrudeBevelDepth: real, extrudeDepth: real,
    fontFile: string,
    width: real, size: real, spacing: real, xoffset: real, yoffset: real,
    lineSeparation: real)

  // ---- Armatures ------------------------------------------------------------

  /** The bone's dictionaries (head and tail per space, roll per space,
      matrix per space) are kept as sequences of entries in iteration order;
      `parent` and `children` hold the names of the related bones. */
  datatype Bone = Bone(
    name: string,
    headRadius: real, tailRadius: real, weight: real, subdivisions: int,
    length: real, deformDist: real, layerMask: int,
    head: seq<(string, Vec4)>,
    tail: seq<(string, Vec4)>,
    roll: seq<(string, real)>,
    matrix: seq<(string, seq<seq<real>>)>,
    parent: Option<string>,
    children: seq<string>)

  datatype Armature = Armature(
    name: string,
    vertexGroups: bool, envelopes: bool,
    layers: seq<int>,
    bones: seq<Bone>)

  // ---- Render settings, logic properties, animation, pose -----------------

  datatype RenderSettings = RenderSettings(
    sizeX: real, sizeY: real,
    imageType: int,
    sFrame: int, eFrame: int,
    fps: real, fpsBase: real,
    toonShading: bool, shadow: bool,
    motionBlur: bool, mblurFactor: real)

  /** A game-logic property's value; its variant is the property's type.
      `OtherProp` is a type the exporter does not know, with the text `str`
      makes of its value. */
  datatype PropValue =
    | IntProp(i: int)
    | FloatProp(f: real)
    | StringProp(s: string)
    | BoolProp(b: bool)
    | TimeProp(t: real)
    | OtherProp(typeName: string, shown: string)

  datatype Property = Property(name: string, value: PropValue)

  /** The host's name for a property's type. */
  function PropTypeName(v: PropValue): string
  {
    match v
    case IntProp(_) => "INT"
    case FloatProp(_) => "FLOAT"
    case StringProp(_) => "STRING"
    case BoolProp(_) => "BOOL"
    case TimeProp(_) => "TIME"
    case OtherProp(t, _) => t
  }

  datatype BezTriple = BezTriple(weight: real, tilt: real, vec: Triple)

  datatype IpoCurve = IpoCurve(name: string, points: seq<BezTriple>)

  datatype Ipo = Ipo(curves: seq<IpoCurve>)

  /** A bone constraint; the exporter writes nothing of its content. */
  datatype Constraint = Constraint(name: string)

  datatype PoseBone = PoseBone(
    name: string,
    hasIK: bool,
    limitX: bool, limitY: bool, limitZ: bool,
    limitMax: Vec3, limitMin: Vec3,
    lockXRot: bool, lockYRot: bool, lockZRot: bool,
    stiff: Vec3, stretch: real,
    constraints: seq<Constraint>)

  // ---- Objects and scenes ---------------------------------------------------

  /** The data block an object links to.  `OtherData` is a type with a named
      data block the exporter writes nothing for; `NoData` is a type with
      none at all (an empty). */
  datatype ObData =
    | MeshData(mesh: Mesh)
    | CurveData(curve: Curve)
    | CameraData(camera: Camera)
    | LampData(lamp: Lamp)
    | MetaballData(mball: Metaball)
    | TextData(text: Text3d)
    | ArmatureData(armature: Armature)
    | OtherData(typeName: string, dataName: string)
    | NoData(typeName: string)

  /** The host's name for an object's type. */
  function TypeName(d: ObData): string
  {
    match d
    case MeshData(_) => "Mesh"
    case CurveData(_) => "Curve"
    case CameraData(_) => "Camera"
    case LampData(_) => "Lamp"
    case MetaballData(_) => "MBall"
    case TextData(_) => "Text"
    case ArmatureData(_) => "Armature"
    case OtherData(t, _) => t
    case NoData(t) => t
  }

  datatype Object = Object(
    name: string,
    loc: Vec3, rot: Vec3, size: Vec3,
    layers: seq<int>,
    properties: seq<Property>,
    ipo: Option<Ipo>,
    data: ObData,
    pose: Option<seq<PoseBone>>)

  datatype Scene = Scene(
    name: string,
    layers: seq<int>,
    render: RenderSettings,
    objects: seq<Object>)

  /** The file's scenes in the host's order, and the name of the active one. */
  datatype Blend = Blend(scenes: seq<Scene>, activeName: string)
}
