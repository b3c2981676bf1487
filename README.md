# Generic S-expression scene exporter, modelled in Dafny

`generic_export.py` is a Blender 2.49 export script. It walks every scene of the
open `.blend` file and writes one S-expression document: a `(blend ...)` block
holding one `(scene ...)` block per scene, with the scene's name, whether it is
the active scene, its layers, its render settings and an `(obj ...)` block per
object. An object block holds the object's placement and layers, its game
properties and animation curves when it has them, then a `(content ...)` block
with the object's data block (mesh, curve, camera, lamp, metaball, 3D text or
armature), then its pose when it has one.

Two module-level registries keep shared data from being written twice:

- `cont_names` holds content names. The first object whose data block has a
  given name gets `(content_name "...")` and the full data block. Every later
  object gives only `(use_content "...")`.
- `mtrl_names` holds material names. In each `(materials ...)` list, a material
  met for the first time is written in full. After that it appears as
  `(use_material "...")`. The registry is shared by every mesh and metaball of
  every scene, so "first time" is counted over the whole document
  (`BlendEncoding.DocumentMaterialFirst`). Only meshes and metaballs whose data
  block is written in full contribute their materials, not those whose
  content is only referred to.

Enumerated host values (shaders, lamp falloff, metaball element types, text
alignment, image types) go through literal lookup tables. A value missing from
its table raises `KeyError` and ends the export, leaving the partial output
behind.

## How the model is built

- **The sink.** The output file is `Exporter.out`, a `seq<Item>` with one item
  per `out.write`. An item is an opening tag, a one-line field or raw text.
  `Sexp.Render` gives the exact characters of each item, and `Sexp.Tags` /
  `Sexp.CountTag` say which tags the writes open.
- **The exporter.** `Export.Exporter` is a class holding the sink and the two
  registries as fields (`contNames`, `mtrlNames`). It has one method per
  function of the script, plus one method per loop and loop turn.
- **Methods against functions.** Each method is proved against a pure
  specification function of the encoding module for that data kind. The
  method appends exactly the items the function gives, and moves the
  registries exactly as the function says. Where the script raises, the
  method returns the error (an `ExportError`) and leaves the partial sink.
  The specification functions return `Emit(items, error)`: the writes made
  before the raise, plus the error.
- **What is proved.** Lemmas about the specification functions state what the
  script promises:
  - which fields appear exactly when;
  - how many blocks of each kind are written;
  - that the registries only grow;
  - that a data block or material is written in full exactly at its first
    occurrence;
  - how rows are grouped;
  - that the values written can be read back.
- **Formatting.** `%g` is an abstract formatter `fmt` (type `Common.Fmt`) fixed
  for the exporter. `%d` is modelled exactly (`Numerals.IntText`), with a
  parsing round trip.
- **Host enumerations.** These are integer codes, with the lookup tables as
  literal maps in `HostTables`.

Four behaviours of the script a reader might not expect:

- **Lock flags.** The IK `lock_x_rot`/`lock_y_rot`/`lock_z_rot` flags are
  written with Python's own text for a boolean (`True`/`False`). The
  `true`/`false` words of the script's `bool` helper are not used there
  (`Sexp.PyBoolText`, `PoseEncoding.IkFlags`).
- **One content namespace.** The content registry has a single namespace of
  names shared by all data kinds. Two data blocks of different kinds with the
  same name are deduplicated against each other.
- **Objects without a data block.** For such an object, the content name
  lookup fails and the export stops (`ExportError.MissingData`). The object
  is not skipped.
- **The `vertex_uv` list.** Its row counter is advanced after the loop rather
  than inside it, so every vertex is followed by a blank and the list is never
  broken into rows. The model writes it that way (`MeshEncoding.UvCell`,
  `MeshEncoding.VertexUvOneLine`).

## Model

| member | source | states |
|---|---|---|
| Export.Exporter.constructor | generic_export.py:29-34 | a fresh export: an empty sink and both registries empty |
| Export.Exporter.Write | generic_export.py:66 | one `out.write` appends exactly one item to the sink and changes nothing else |
| Export.Exporter.WriteAll | generic_export.py:67-81 | a run of writes appends those items in order |
| Export.Exporter.DumpDiffuseExtras | generic_export.py:89-95 | the diffuse-shader extra fields, which `MaterialEncoding.DiffuseExtrasExact` characterises per shader |
| Export.Exporter.DumpSpecExtras | generic_export.py:104-110 | the specular-shader extra fields, which `MaterialEncoding.SpecExtrasExact` characterises per shader |
| Export.Exporter.DumpMaterial | generic_export.py:65-111 | appends the material block and returns the lookup error exactly as `MaterialEncoding.MaterialEmit` says; the partial block is left when a shader is not in its table |
| Export.Exporter.DumpMaterialEntry | generic_export.py:118-122 | a registered name gives one `use_material` line and leaves the registry; a new name is registered before its block is written |
| Export.Exporter.DumpMaterialsBody | generic_export.py:117-122 | the material loop: sink and registry as `MaterialsList.MaterialsBody`, stopping at the first material that raises |
| Export.Exporter.DumpMaterials | generic_export.py:115-123 | the `(materials ...)` list, closed only when no material raised; the registry after it is the one `MaterialsList.MaterialsRunShape` characterises |
| Export.Exporter.DumpJoined | generic_export.py:146-151 | the `sep` idiom: one write per word, each after the first preceded by a blank, so the text is the words joined by blanks (`Sexp.JoinedText`) |
| Export.Exporter.DumpVertexTurn | generic_export.py:132-135 | one vertex, then a newline when the counter is 2 and a blank otherwise |
| Export.Exporter.DumpVertexRows | generic_export.py:130-135 | the vertex loop; the counter ends at the vertex count modulo 3, and a newline follows every third vertex (`RowLists.RowCellsNewlines`) |
| Export.Exporter.DumpVertices | generic_export.py:129-138 | the vertices list, with the newline added after the loop exactly when the count is not a multiple of 3 (`MeshEncoding.VerticesLines`) |
| Export.Exporter.DumpCornerLine | generic_export.py:145-152 | one face's line: its corner tuples in the face's own order, between parentheses, ending with a newline |
| Export.Exporter.DumpVertexColors | generic_export.py:143-153 | the `vertex_colors` list: one line per face in mesh order, one colour per corner |
| Export.Exporter.DumpFaceUv | generic_export.py:168-177 | the `face_uv` list: one line per face in mesh order, one UV pair per corner |
| Export.Exporter.DumpVertexUv | generic_export.py:158-166 | the `vertex_uv` list as written: every vertex followed by a blank, with no row breaks |
| Export.Exporter.DumpFaceCell | generic_export.py:181-186 | one face: its vertex indices in corner order, between parentheses |
| Export.Exporter.DumpFaceTurn | generic_export.py:181-189 | one face, then a newline when the counter is 4 and a blank otherwise |
| Export.Exporter.DumpFaceRows | generic_export.py:179-189 | the face loop; the counter ends at the face count modulo 5, and a newline follows every fifth face |
| Export.Exporter.DumpFaces | generic_export.py:178-192 | the faces list, with the trailing newline exactly when the count is not a multiple of 5 (`MeshEncoding.FacesLines`) |
| Export.Exporter.DumpRenderColorLayerPart | generic_export.py:140-141 | the render colour layer line, only for a non-empty layer name |
| Export.Exporter.DumpVertexColorsPart | generic_export.py:143-153 | the vertex colour list, only when the mesh has vertex colours |
| Export.Exporter.DumpRenderUvLayerPart | generic_export.py:155-156 | the render UV layer line, only for a non-empty layer name |
| Export.Exporter.DumpVertexUvPart | generic_export.py:158-166 | the vertex UV list, only when the mesh has vertex UVs |
| Export.Exporter.DumpFaceUvPart | generic_export.py:168-177 | the face UV list, only when the mesh has face UVs |
| Export.Exporter.DumpMeshBody | generic_export.py:127-193 | the mesh block up to its materials, whose tags are the exact set `MeshEncoding.MeshTagsExact` gives |
| Export.Exporter.DumpMesh | generic_export.py:126-195 | the whole mesh block with its materials through the material registry; closed only when no material raised |
| Export.Exporter.DumpBezTriple | generic_export.py:41-49 | one keyframe: weight, tilt and the three points of its Bezier triple |
| Export.Exporter.DumpBezierPoints | generic_export.py:58-59 | the keyframes of one animation curve, in order |
| Export.Exporter.DumpIpoCurve | generic_export.py:55-61 | one animation curve block: its name, then its keyframes |
| Export.Exporter.DumpIpo | generic_export.py:52-62 | the ipo block, whose counts `IpoEncoding.IpoCounts` states |
| Export.Exporter.DumpNurbsPoints | generic_export.py:212-214 | one `point` line per NURBS point, in order |
| Export.Exporter.DumpTriples | generic_export.py:212-221 | one `triple` block per Bezier point, in order |
| Export.Exporter.DumpNurb | generic_export.py:210-222 | one sub-curve block, `nurbs_curve` or `bezier_curve` by its kind |
| Export.Exporter.DumpCurve | generic_export.py:198-223 | the curve block, whose counts `CurveEncoding.CurveCounts` states |
| Export.Exporter.DumpCamera | generic_export.py:226-243 | the camera block, with `scale` only for ortho and `angle`/`lens` only for persp (`CameraEncoding.ScaleIff`, `CameraEncoding.AngleLensIff`) |
| Export.Exporter.DumpLampTypes | generic_export.py:263-265 | one `lamp_type` line for each table entry whose code is the lamp's type |
| Export.Exporter.DumpLampTail | generic_export.py:263-271 | the lamp type, the spot fields and the area field, each only for its lamp type |
| Export.Exporter.DumpLamp | generic_export.py:246-271 | the lamp block, or the partial block and the error when the falloff is not in its table |
| Export.Exporter.DumpText | generic_export.py:301-324 | the 3D text block, or the partial block and the error when the alignment is not in its table |
| Export.Exporter.DumpMotionBlur | generic_export.py:414-418 | `motion_blur` true followed by the factor, or `motion_blur` false alone |
| Export.Exporter.DumpRender | generic_export.py:390-419 | the render block, or the partial block and the error when the image type is not in its table |
| Export.Exporter.DumpProperty | generic_export.py:425-440 | one property block, its value written as its type says |
| Export.Exporter.DumpProperties | generic_export.py:422-441 | the `game_properties` block with one property block per property, in order |
| Export.Exporter.DumpElement | generic_export.py:281-296 | one metaball element, or its opening line and the error when its type is not in the table |
| Export.Exporter.DumpElements | generic_export.py:280-296 | the element loop, stopping at the first element whose type is not in the table |
| Export.Exporter.DumpMetaball | generic_export.py:274-298 | the metaball block: head, materials through the registry, elements, closed only when nothing raised |
| Export.Exporter.DumpExtrmEntry | generic_export.py:330-332 | one extremity line: the lower-cased key and the four coordinates |
| Export.Exporter.DumpExtrm | generic_export.py:327-333 | the extremity block under its label, one line per key in dictionary order |
| Export.Exporter.DumpRoll | generic_export.py:335-339 | the roll block, one line per key in dictionary order |
| Export.Exporter.DumpMatrixRow | generic_export.py:346-351 | one matrix row: its values joined by blanks, between parentheses |
| Export.Exporter.DumpMatrixEntry | generic_export.py:344-352 | one matrix under its lower-cased key, one line per row |
| Export.Exporter.DumpMatrix | generic_export.py:341-353 | the matrix block, one entry per key in dictionary order |
| Export.Exporter.DumpBoneSpaces | generic_export.py:365-368 | the head, tail, roll and matrix blocks of a bone, in that order |
| Export.Exporter.DumpChildren | generic_export.py:372-376 | the `children` block with one `child_name` per child in order, and nothing for a bone without children |
| Export.Exporter.DumpBoneLinks | generic_export.py:370-376 | the parent line only for a bone with a parent, then the children block (`ArmatureEncoding.LinksOrder`) |
| Export.Exporter.DumpBone | generic_export.py:355-377 | one bone block |
| Export.Exporter.DumpBones | generic_export.py:385-386 | one bone block per bone, in dictionary order |
| Export.Exporter.DumpArmature | generic_export.py:380-387 | the armature block, with one bone block per bone (`ArmatureEncoding.ArmatureBones`) |
| Export.Exporter.DumpIk | generic_export.py:491-505 | the `ik` block only for a pose bone with IK (`PoseEncoding.IkFlags`) |
| Export.Exporter.DumpConstraints | generic_export.py:506-511 | the `constraints` block with one empty `const` per constraint, and nothing when there are none |
| Export.Exporter.DumpPoseBone | generic_export.py:488-512 | one pose bone block |
| Export.Exporter.DumpPose | generic_export.py:486-513 | the pose block, whose counts `PoseEncoding.PoseCounts` states |
| Export.Exporter.DumpPropsPart | generic_export.py:459-460 | the game properties only when the object has some |
| Export.Exporter.DumpIpoPart | generic_export.py:461-462 | the ipo block only when the object has one |
| Export.Exporter.DumpObjPrefix | generic_export.py:452-463 | the object head, optional properties and ipo, and the opening of the content block |
| Export.Exporter.DumpContentData | generic_export.py:470-483 | the data block of the object's type, through the material registry, as `ObjectEncoding.DataRun` |
| Export.Exporter.DumpPosePart | generic_export.py:485-513 | the pose only when the object has one |
| Export.Exporter.DumpObjEnd | generic_export.py:484-514 | the end of the content block, the pose when there is one, and the end of the object |
| Export.Exporter.DumpReusedContent | generic_export.py:465-466 | a registered content name gives only its `use_content` line, then the end of the object |
| Export.Exporter.DumpNewContent | generic_export.py:467-484 | a new content name is registered, written as `content_name`, then its data block is written in full |
| Export.Exporter.DumpObj | generic_export.py:451-514 | the object block and both registries as `ObjectEncoding.ObjectRun`; an object without a data block stops the export |
| Export.Exporter.DumpObjects | generic_export.py:529-530 | the object loop of a scene, stopping at the first object that raises |
| Export.Exporter.DumpScene | generic_export.py:522-532 | one scene block: name, active flag, layers, render settings, objects, closed only when nothing raised |
| Export.Exporter.DumpScenes | generic_export.py:521-532 | the scene loop, in model order, the registries carried from scene to scene |
| Export.Exporter.DumpBlend | generic_export.py:517-534 | the whole document from empty registries, as `BlendEncoding.BlendRun`; both registries end as the scene loop leaves them which, when nothing raised, is every object's content name and the materials of every data block written in full |
| Export.Exporter.DataListsOwnMaterials | generic_export.py:470-483 | the exporter's own content encoder adds exactly the materials of each data block that did not raise |
| Sexp.Quote | generic_export.py:67 | a string between double quotes, its content unchanged |
| Sexp.Unquote | generic_export.py:67 | takes back the string `Quote` wrapped |
| Sexp.BoolText | generic_export.py:36-38 | `true` exactly for a true value and `false` otherwise |
| Sexp.PyBoolText | generic_export.py:500-502 | Python's text for a boolean: `True` exactly for a true value |
| Sexp.JoinedText | generic_export.py:146-151 | the `sep` loop writes the words joined by single blanks |
| Sexp.SplitJoin | generic_export.py:384 | words without blanks, joined by blanks, split back into the same words |
| Sexp.LowerFacts | generic_export.py:331 | lower-casing is idempotent, leaves no capital letter, keeps every other character as it is and keeps a tag delimitable |
| Numerals.IntTextRoundTrip | generic_export.py:73 | an integer written with `%d` parses back to itself |
| Numerals.IntTextInjective | generic_export.py:73 | two different integers never share their `%d` text |
| Numerals.NatTextCanonical | generic_export.py:73 | a numeral has no leading zero except zero itself |
| Common.IntListRoundTrip | generic_export.py:458 | the layer list splits back into its numerals, each parsing to its layer |
| RowLists.RowCellsNewlines | generic_export.py:130-135 | a newline after exactly every `width`-th cell: the loop writes count div width of them |
| RowLists.RowsNewlines | generic_export.py:130-137 | with the closing newline, a row list has ceiling of count over width newlines and ends with one whenever it has a cell |
| Dedup.FirstOccurrenceRegistry | generic_export.py:118-122 | a name is at its first occurrence exactly when it is outside the registry built from the earlier names |
| Dedup.FirstOccurrenceShift | generic_export.py:117-121 | a name met after a run of names occurs for the first time exactly when it does against a registry that also holds that run's names |
| Dedup.ExactlyOneFirst | generic_export.py:118-122 | each new name of a list has exactly one first occurrence |
| HostTables.KeyOfRoundTrip | generic_export.py:82-87 | an injective lookup table can be read back: the word written determines the code |
| HostTables.DiffuseShadersInjective | generic_export.py:82-87 | no two diffuse shaders share a word |
| HostTables.SpecShadersInjective | generic_export.py:96-102 | no two specular shaders share a word |
| HostTables.FalloffsInjective | generic_export.py:256-262 | no two falloff types share a word |
| HostTables.MetaballTypesInjective | generic_export.py:282-288 | no two element types share a word |
| HostTables.AlignmentsInjective | generic_export.py:309-314 | no two alignments share a word |
| HostTables.ImageTypesInjective | generic_export.py:394-406 | no two image types share a word |
| HostTables.LampTypeCodesDistinct | generic_export.py:263-265 | no two lamp-type entries share a code |
| HostTables.ShadowsBit | generic_export.py:255 | the mode masked with the shadow bit is non-zero exactly when the mode is odd |
| MaterialEncoding.HeadTagsWithin | generic_export.py:66-81 | the material head opens only the fixed head tags |
| MaterialEncoding.MaterialTags | generic_export.py:65-111 | a material block opens its head tags, the diffuse shader and its extras, and the specular shader and its extras when that shader is in its table |
| MaterialEncoding.RoughnessIff | generic_export.py:89-90 | `roughness` is written exactly for Oren-Nayar |
| MaterialEncoding.ToonDiffuseIff | generic_export.py:91-93 | `diffuseSize` and `diffuseSmooth` are written exactly for toon diffuse |
| MaterialEncoding.DarknessIff | generic_export.py:94-95 | `diffuseDarkness` is written exactly for Minnaert |
| MaterialEncoding.DiffuseExtrasExact | generic_export.py:82-95 | the diffuse shader is always written, and each extra exactly for its shader; Lambert gets none |
| MaterialEncoding.SlopeIff | generic_export.py:104-106 | `surf_slope_std_dev` is written exactly for Ward isotropic |
| MaterialEncoding.SpecSizeIff | generic_export.py:107-108 | `spec_size` is written exactly for toon specular |
| MaterialEncoding.RefracIff | generic_export.py:109-110 | `refrac_index` is written exactly for Blinn |
| MaterialEncoding.SpecExtrasExact | generic_export.py:96-110 | the specular shader is always written, and each extra exactly for its shader; Cook-Torrance and Phong get none |
| MaterialEncoding.MaterialOutcome | generic_export.py:65-111 | the block opens `material`; it succeeds and closes exactly when both shaders are in their tables; a missing shader gives its own error and the shader line is not written |
| MaterialsList.MaterialsBodyStops | generic_export.py:117-122 | after a material raises, nothing more is written and the registry stays |
| MaterialsList.MaterialsFirstOccurrence | generic_export.py:117-122 | a material gets its full block exactly at its first occurrence in the list, given the registry before the list; every other occurrence gets `use_material`; the registry afterwards is the old one plus the names of the list |
| MaterialsList.MaterialsRegistryGrows | generic_export.py:117-122 | the material registry only grows, and only by names of the list |
| MaterialsList.MaterialsRunShape | generic_export.py:115-123 | the list opens `materials`, closes when no material raised, and then registers all its names |
| MeshEncoding.VerticesLines | generic_export.py:129-138 | the vertex rows have ceiling of count over 3 newlines and end with a newline whenever there is a vertex |
| MeshEncoding.FacesLines | generic_export.py:179-193 | the face rows have ceiling of count over 5 newlines and end with a newline whenever there is a face |
| MeshEncoding.FaceCellRoundTrip | generic_export.py:181-186 | a face's text is its indices joined by blanks between parentheses, and it reads back to the corner indices in order |
| MeshEncoding.CornerLineText | generic_export.py:145-152 | a corner line holds one tuple per corner, the j-th corner's tuple at place j, joined by blanks |
| MeshEncoding.VertexUvOneLine | generic_export.py:158-166 | the vertex UV list as written has no newline at all: every vertex is followed by a blank |
| MeshEncoding.MeshTagsExact | generic_export.py:126-193 | the tags of a mesh block are exactly the fixed ones plus one for each optional part that is present |
| MeshEncoding.MeshAlwaysTags | generic_export.py:129-193 | every mesh block has its vertices and faces lists |
| MeshEncoding.RenderColorLayerIff | generic_export.py:140-141 | the render colour layer line appears exactly for a non-empty layer name |
| MeshEncoding.VertexColorsIff | generic_export.py:143-153 | the vertex colour list appears exactly when the mesh has vertex colours |
| MeshEncoding.RenderUvLayerIff | generic_export.py:155-156 | the render UV layer line appears exactly for a non-empty layer name |
| MeshEncoding.VertexUvIff | generic_export.py:158-166 | the vertex UV list appears exactly when the mesh has vertex UVs |
| MeshEncoding.FaceUvIff | generic_export.py:168-177 | the face UV list appears exactly when the mesh has face UVs |
| MeshEncoding.MeshRunShape | generic_export.py:126-195 | the mesh block is its body, then its `materials` list; it closes exactly when no material raised; the material registry never shrinks and, on success, gains exactly the mesh's material names |
| CurveEncoding.NurbCellsCount | generic_export.py:209-222 | the sub-curve blocks open each tag as many times as the sub-curves' own counts add up to |
| CurveEncoding.OpensAreCounts | generic_export.py:209-222 | those counts are the number of NURBS, the number of Bezier curves, and the totals of points and triples |
| CurveEncoding.CurveCounts | generic_export.py:198-223 | a curve block has one `nurbs_curve` per NURBS, one `bezier_curve` per other sub-curve, one `point` per NURBS point and one `triple` per Bezier point |
| IpoEncoding.CurveCellsCount | generic_export.py:54-61 | the animation curve blocks open each tag as many times as the curves' own counts add up to |
| IpoEncoding.CurveOpensTotals | generic_export.py:54-61 | one `curve` per curve, one `bez_triple` and one `weight` per keyframe |
| IpoEncoding.IpoCounts | generic_export.py:52-62 | an ipo block has one curve block per curve and one keyframe block per keyframe |
| CameraEncoding.CameraTags | generic_export.py:226-243 | a camera block opens its fixed tags plus the fields of its type |
| CameraEncoding.ScaleIff | generic_export.py:232-235 | `scale` is written exactly for an ortho camera |
| CameraEncoding.AngleLensIff | generic_export.py:236-240 | `angle` and `lens` are written exactly for a perspective camera |
| CameraEncoding.CamTypeOnce | generic_export.py:232-242 | every camera block has exactly one `cam_type`, whatever the type |
| LampEncoding.ShadowsIff | generic_export.py:255 | `shadows` is true exactly when the mode has the shadow bit |
| LampEncoding.FalloffOutcome | generic_export.py:256-262 | the lamp raises exactly for a falloff outside the table; otherwise the falloff word read back through the table gives the lamp's falloff |
| LampEncoding.LampTypeOnce | generic_export.py:263-265 | a lamp type in the table gives exactly its one `lamp_type` line; a type outside it gives none |
| LampEncoding.LampTags | generic_export.py:246-271 | the tags of a lamp block besides `lamp_type` are the fixed ones plus its type's fields |
| LampEncoding.SpotIff | generic_export.py:266-268 | `spot_blend` and `spot_size` are written exactly for a spot lamp whose falloff is mapped |
| LampEncoding.AreaIff | generic_export.py:269-270 | `area_size` is written exactly for an area lamp whose falloff is mapped |
| MetaballEncoding.FirstUnmapped | generic_export.py:280-288 | the first element whose type is not in the table, or none when all are |
| MetaballEncoding.ElementOutcome | generic_export.py:281-296 | an element raises exactly when its type is not in the table; otherwise its type word reads back to its type |
| MetaballEncoding.ElementsOutcome | generic_export.py:280-296 | with all types mapped, one `element` and one `type` per element; otherwise the loop stops at the first unmapped element, after its opening line |
| MetaballEncoding.MetaballRunShape | generic_export.py:274-298 | head, materials, elements, close; it succeeds exactly when no material raised and every element type is mapped |
| TextEncoding.TextOutcome | generic_export.py:301-324 | the text block raises exactly for an alignment outside the table; the text, alignment and font file read back |
| RenderEncoding.RenderOutcome | generic_export.py:390-419 | the render block raises exactly for an image type outside the table; the image type reads back and `motion_blur` says whether motion blur is on |
| RenderEncoding.MotionBlurFactorIff | generic_export.py:414-418 | `motion_blur_factor` is written once exactly when motion blur is on |
| PropertiesEncoding.PropertyReadBack | generic_export.py:425-440 | a property's name, its type name and its value read back for integers, strings, booleans and the fallback |
| PropertiesEncoding.PropertiesCount | generic_export.py:422-441 | one `property`, `name`, `type` and `data` per property |
| ArmatureEncoding.ExtrmBlockCount | generic_export.py:327-333 | an extremity block opens its label once and one line per key |
| ArmatureEncoding.MatrixRowText | generic_export.py:346-351 | a matrix row is its values joined by blanks between parentheses |
| ArmatureEncoding.ParentPartCount | generic_export.py:370-371 | `parent_name` is written exactly when the bone has a parent |
| ArmatureEncoding.ChildrenPartCount | generic_export.py:372-376 | `children` is written exactly when the bone has children, with one `child_name` per child |
| ArmatureEncoding.LinksOrder | generic_export.py:370-376 | the parent line comes first, then the children block, with the children's names in order |
| ArmatureEncoding.BoneTagCount | generic_export.py:355-377 | a bone block opens `bone` once, plus its parent and children lines |
| ArmatureEncoding.ArmatureBones | generic_export.py:380-387 | an armature block has one bone block per bone |
| PoseEncoding.IkFlags | generic_export.py:491-505 | the IK block is written exactly when the bone has IK; its limit flags are `true` and its lock flags `True` exactly when set |
| PoseEncoding.ConstraintsCount | generic_export.py:506-511 | `constraints` is written exactly when the bone has constraints |
| PoseEncoding.PoseBonesCount | generic_export.py:487-512 | the pose bone blocks open each tag as many times as the bones' own counts add up to |
| PoseEncoding.BonesOpensTotals | generic_export.py:487-512 | one `pose_bone` per bone, one `ik` per bone with IK, one `const` per constraint |
| PoseEncoding.PoseCounts | generic_export.py:485-513 | a pose block opens `pose` once, with those counts |
| ObjectEncoding.ContentName | generic_export.py:444-448 | an object has a content name exactly when it has a data block |
| ObjectEncoding.ObjHeadReadBack | generic_export.py:452-454 | the object's type and name read back from the head |
| ObjectEncoding.ObjPrefixCount | generic_export.py:452-463 | one `obj` and one `content`; `game_properties` only with properties and `ipo` only with an ipo |
| ObjectEncoding.ObjEndCount | generic_export.py:484-514 | the pose block only with a pose, with one `pose_bone` per bone |
| ObjectEncoding.DataRunRegistry | generic_export.py:470-483 | writing a data block only grows the material registry, and only meshes and metaballs touch it |
| ObjectEncoding.DataListsMaterials | generic_export.py:470-483 | a data block that did not raise has registered exactly its own materials: a mesh's or a metaball's list, and nothing for the other types |
| ObjectEncoding.DataRunErrors | generic_export.py:470-483 | only meshes, lamps, metaballs and text can raise; a lamp exactly for an unmapped falloff, a text exactly for an unmapped alignment |
| ObjectEncoding.MissingDataOutcome | generic_export.py:463-464 | an object with no data block stops the export after the content opening |
| ObjectEncoding.ContentDedup | generic_export.py:463-469 | a new content name gives `content_name`, a registered one gives only `use_content` and leaves both registries untouched; the name is registered either way |
| ObjectEncoding.DefinedContentOutcome | generic_export.py:467-484 | a new content is followed by its full data block; the object closes exactly when that block did not raise |
| BlendEncoding.ObjectsBodyStops | generic_export.py:529-530 | after an object raises, nothing more is written |
| BlendEncoding.ObjectsRegistry | generic_export.py:529-530 | after a scene's objects, the content registry is the old one plus all their content names |
| BlendEncoding.ObjectsDedup | generic_export.py:464-469 | an object's data block is written in full exactly when its content name is at its first occurrence among the objects so far, given the registry before them |
| BlendEncoding.ObjectsRegistryGrows | generic_export.py:464-469 | over a scene both registries only grow |
| BlendEncoding.ActiveSceneFlag | generic_export.py:524 | `active_scene` is true exactly when the scene's name is the active scene's name |
| BlendEncoding.OneActive | generic_export.py:520-524 | with distinct scene names including the active one, exactly one scene is flagged active |
| BlendEncoding.SceneRunShape | generic_export.py:522-532 | a scene block is its head and render block, then its objects; it closes when nothing raised, and then (with a content-registering object encoder) has added exactly its objects' content names to the registry |
| BlendEncoding.ScenesRegistry | generic_export.py:521-532 | after all scenes, the content registry holds exactly the content names of every object of every scene |
| BlendEncoding.BlendRunShape | generic_export.py:519-533 | the document opens `blend`, holds the scenes, and closes when nothing raised; a document that did not raise leaves as content registry exactly the content names of all objects of all scenes |
| BlendEncoding.ExportContents | generic_export.py:519-533 | a complete export registers exactly the content names of all objects |
| BlendEncoding.ObjRegistersMaterials | generic_export.py:463-483 | an object that did not raise adds the materials of its data block when it defines its content, and none when it refers to a registered one |
| BlendEncoding.DefinedMaterialsAppend | generic_export.py:521-530 | the materials written in full over two runs of objects are those of the first run, then those of the second met with the first run's content names registered |
| BlendEncoding.ObjectsMaterials | generic_export.py:529-530 | after a scene's objects, the material registry is the old one plus the materials of the data blocks written in full, those of objects whose content name occurs for the first time |
| BlendEncoding.ScenesMaterials | generic_export.py:521-532 | the same across scenes: the material registry is shared by all scenes and gains exactly the materials of the data blocks written in full |
| BlendEncoding.ScenesRegistryGrows | generic_export.py:521-532 | over all scenes both registries only grow |
| BlendEncoding.MaterialsBefore | generic_export.py:521-530 | the material registry a given object of a given scene receives holds exactly the materials written in full before it in the document |
| BlendEncoding.DocumentMaterialFirst | generic_export.py:117-122 | a material of a data block is new to the registry it is given exactly when its name occurs for the first time in the document's sequence of listed materials |
| BlendEncoding.ExportMaterials | generic_export.py:519-533 | a complete export ends with the material registry holding exactly the materials of the data blocks written in full |

## Left out

- File handling, the file selector, and reading the scenes from the host module (`generic_export.py:518`, `520`, `534`, `537-538`). The exported scene is an input value (`BlendData.Blend`).
- `%g` rendering of floating-point numbers: floating point is outside the model. It is an abstract function `fmt` that the exporter is given.
- Host accessors (`getData`, `getTriple`, `isNurb`, `.xyzw`, `getFont().filename`, `hasParent`, `hasChildren`): foreign calls. Their results are plain fields of the input datatypes. The Blender enumeration constants are fixed integer codes.
- Python dictionary iteration order (`Lamp.Types`, a bone's head/tail/roll/matrix dictionaries, an armature's bones, a pose's bones): the input gives these as sequences, taken as the iteration order.
- A property's `type` string is the variant of `BlendData.PropValue`. The `str()` text of a value of an unknown type is an input field.
- Truthiness of `obj.ipo`, `obj.getPose()` and `obj.game_properties`: modelled as an `Option` or as a non-empty sequence.
- Textures: the script does not write them (the TODO at `generic_export.py:112`).
- Constraint internals: the script writes each constraint as an empty block.
- The free-text type names of `BlendData.PropValue.OtherProp`, `BlendData.ObData.OtherData` and `BlendData.ObData.NoData` are not restricted. They stand for property types and object types the script does not dispatch on. An input that gives one of them a dispatched name (`INT`, `Mesh`, ...) is written by the fallback branch, which the host never produces.
- Escaping of quotes, and bracket balance: the script does no escaping, so a name containing a quote or parenthesis breaks the document. No balance property is stated.
- ArmatureEncoding.ArmatureBones: counts bone blocks only for bones whose head/tail/roll/matrix dictionary keys do not lower-case to `bone` (`SpacesAvoid`), because such a key would open a `(bone` line of its own.
- ArmatureEncoding.BoneTagCount: same hypothesis (`SpacesAvoid`) for the tag counted.
- MeshEncoding.VertexUvOneLine: states the `vertex_uv` list as written. No row-grouping property is stated for it, because the script never breaks it into rows.
