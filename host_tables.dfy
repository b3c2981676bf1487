/** The host's enumeration codes and the exporter's tables from code to
    output word.  The codes are those Blender 2.49 hands out; what the
    exporter guarantees depends only on the keys of each table being
    distinct.  A code outside a table is a failed dictionary lookup. */
module HostTables {
  import opened Wrappers

  // Material.Shaders
  const DIFFUSE_LAMBERT: int := 0
  const DIFFUSE_ORENNAYAR: int := 1
  const DIFFUSE_TOON: int := 2
  const DIFFUSE_MINNAERT: int := 3
  const SPEC_COOKTORR: int := 0
  const SPEC_PHONG: int := 1
  const SPEC_BLINN: int := 2
  const SPEC_TOON: int := 3
  const SPEC_WARDISO: int := 4

  const DiffuseShaders: map<int, string> := map[
    DIFFUSE_LAMBERT := "diffuse_lambert",
    DIFFUSE_ORENNAYAR := "diffuse_orennayar",
    DIFFUSE_TOON := "diffuse_toon",
    DIFFUSE_MINNAERT := "diffuse_minnaert"]

  const SpecShaders: map<int, string> := map[
    SPEC_COOKTORR := "spec_cooktorr",
    SPEC_PHONG := "spec_phong",
    SPEC_BLINN := "spec_blinn",
    SPEC_TOON := "spec_toon",
    SPEC_WARDISO := "spec_wardiso"]

  // Lamp.Falloffs; the table's words carry their own quotes.
  const FALLOFF_CONSTANT: int := 0
  const FALLOFF_INVLINEAR: int := 1
  const FALLOFF_INVSQUARE: int := 2
  const FALLOFF_CUSTOM: int := 3
  const FALLOFF_LINQUAD: int := 4

  const Falloffs: map<int, string> := map[
    FALLOFF_CONSTANT := "\"constant\"",
    FALLOFF_INVLINEAR := "\"inverse_linear\"",
    FALLOFF_INVSQUARE := "\"inverse_square\"",
    FALLOFF_CUSTOM := "\"custom_curve\"",
    FALLOFF_LINQUAD := "\"Lin/Quad weighted\""]

  /** Lamp.Types, as the host's dictionary from type name to code. */
  const LampTypes: seq<(string, int)> := [
    ("Lamp", 0), ("Sun", 1), ("Spot", 2), ("Hemi", 3), ("Area", 4), ("Photon", 5)]

  const LAMP_SPOT: int := 2
  const LAMP_AREA: int := 4

  /** Lamp.Modes["Shadows"]. */
  const SHADOWS_MODE: nat := 1

  // Metaball.Types
  const MB_BALL: int := 0
  const MB_TUBE: int := 4
  const MB_PLANE: int := 5
  const MB_ELIPSOID: int := 6
  const MB_CUBE: int := 7

  const MetaballTypes: map<int, string> := map[
    MB_BALL := "ball",
    MB_TUBE := "tube",
    MB_PLANE := "plane",
    MB_ELIPSOID := "elipsoid",
    MB_CUBE := "cube"]

  // Text3d alignments
  const ALIGN_LEFT: int := 0
  const ALIGN_MIDDLE: int := 1
  const ALIGN_RIGHT: int := 2
  const ALIGN_FLUSH: int := 4

  const Alignments: map<int, string> := map[
    ALIGN_LEFT := "left",
    ALIGN_RIGHT := "right",
    ALIGN_MIDDLE := "middle",
    ALIGN_FLUSH := "flush"]

  // Scene.Render image types
  const IMG_TARGA: int := 0
  const IMG_IRIS: int := 1
  const IMG_HAMX: int := 2
  const IMG_JPEG: int := 4
  const IMG_RAWTGA: int := 14
  const IMG_AVIRAW: int := 15
  const IMG_AVIJPEG: int := 16
  const IMG_PNG: int := 17
  const IMG_AVICODEC: int := 18
  const IMG_QUICKTIME: int := 19
  const IMG_BMP: int := 20

  const ImageTypes: map<int, string> := map[
    IMG_AVIRAW := "aviraw",
    IMG_AVIJPEG := "avijpeg",
    IMG_AVICODEC := "avicodec",
    IMG_QUICKTIME := "quicktime",
    IMG_TARGA := "targa",
    IMG_RAWTGA := "rawtga",
    IMG_PNG := "png",
    IMG_BMP := "bmp",
    IMG_JPEG := "jpeg",
    IMG_HAMX := "hamx",
    IMG_IRIS := "iris"]

  // ---- Reading the words back -----------------------------------------------

  /** No two codes of a table share a word, so a reader can tell the code
      from the word. */
  predicate Injective(m: map<int, string>)
  {
    forall a, b :: a in m && b in m && m[a] == m[b] ==> a == b
  }

  /** The reader's lookup: the code whose word is `w`, if any. */
  ghost function KeyOf(m: map<int, string>, w: string): Option<int>
  {
    if exists k :: k in m && m[k] == w then Some(var k :| k in m && m[k] == w; k) else None
  }

  /** In an injective table the word written for a code leads back to that
      code, and any code the reader finds has the word it was given. */
  lemma KeyOfRoundTrip(m: map<int, string>, c: int, w: string)
    requires Injective(m)
    ensures c in m ==> KeyOf(m, m[c]) == Some(c)
    ensures KeyOf(m, w).Some? ==> KeyOf(m, w).value in m && m[KeyOf(m, w).value] == w
  {
    if c in m {
      var k :| k in m && m[k] == m[c];
      assert KeyOf(m, m[c]) == Some(k);
    }
  }

  // Every table of the exporter is injective.

  lemma DiffuseShadersInjective() ensures Injective(DiffuseShaders) {}

  lemma SpecShadersInjective() ensures Injective(SpecShaders) {}

  lemma FalloffsInjective() ensures Injective(Falloffs) {}

  lemma MetaballTypesInjective() ensures Injective(MetaballTypes) {}

  lemma AlignmentsInjective() ensures Injective(Alignments) {}

  lemma ImageTypesInjective() ensures Injective(ImageTypes) {}

  /** No two entries of the lamp-type table share a code. */
  lemma LampTypeCodesDistinct()
    ensures forall i, j :: 0 <= i < j < |LampTypes| ==> LampTypes[i].1 != LampTypes[j].1
  {
  }

  /** Bitwise and of two non-negative integers. */
  function BitAnd(a: nat, b: nat): nat
    decreases a
  {
    if a == 0 || b == 0 then 0
    else 2 * BitAnd(a / 2, b / 2) + (if a % 2 == 1 && b % 2 == 1 then 1 else 0)
  }

  /** Masking with the shadows bit keeps just the lowest bit of the mode. */
  lemma {:induction false} ShadowsBit(mode: nat)
    ensures BitAnd(mode, SHADOWS_MODE) != 0 <==> mode % 2 == 1
  {
    if mode != 0 {
      assert BitAnd(mode / 2, 0) == 0;
    }
  }
}
