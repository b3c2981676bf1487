/** What every encoder shares: the float formatter, the error an encoder can
    stop with, and the shape of an encoder's outcome. */
module Common {
  import opened Wrappers
  import opened Sexp
  import opened Numerals
  import opened BlendData

  /** Python's `%g` rendering of a float, a parameter of the whole exporter. */
  type Fmt = real -> string

  /** The exceptions the exporter can raise: a host code missing from one of
      its tables (a `KeyError`), or an object without a data block whose name
      is asked for (an `AttributeError`). */
  datatype ExportError =
    | UnmappedDiffuseShader(code: int)
    | UnmappedSpecShader(code: int)
    | UnmappedFalloff(code: int)
    | UnmappedMetaballType(code: int)
    | UnmappedAlignment(code: int)
    | UnmappedImageType(code: int)
    | MissingData(typeName: string)

  /** The writes an encoder made before it returned or raised, and what it
      raised. */
  datatype Emit = Emit(items: seq<Item>, error: Option<ExportError>)

  /** An encoder's outcome together with the registry of names after it. */
  datatype Run = Run(emit: Emit, seen: set<string>)

  /** The two registries: content names and material names. */
  datatype Registry = Registry(contents: set<string>, materials: set<string>)

  /** An encoder's outcome together with both registries after it. */
  datatype ObjRun = ObjRun(emit: Emit, reg: Registry)

  function G2(fmt: Fmt, x: real, y: real): string { fmt(x) + " " + fmt(y) }

  function G3(fmt: Fmt, v: Vec3): string { fmt(v.0) + " " + fmt(v.1) + " " + fmt(v.2) }

  function G4(fmt: Fmt, v: Vec4): string { fmt(v.0) + " " + fmt(v.1) + " " + fmt(v.2) + " " + fmt(v.3) }

  /** `str` of each integer. */
  function IntTexts(xs: seq<int>): (r: seq<string>)
    ensures |r| == |xs|
    ensures forall i :: 0 <= i < |xs| ==> r[i] == IntText(xs[i])
  {
    seq(|xs|, i requires 0 <= i < |xs| => IntText(xs[i]))
  }

  /** The `layers` field: `(layers (1 2 3))`, the layer numbers joined by
      blanks. */
  function LayersField(layers: seq<int>): Item
  {
    Field("layers", "(" + JoinSpace(IntTexts(layers)) + ")")
  }

  /** A blank-joined list of integers (a `layers` field, a face's vertex
      indices) can be read back: splitting it at the blanks gives one numeral
      per number, in order, and each numeral parses back to its number. */
  lemma IntListRoundTrip(xs: seq<int>)
    ensures SplitSpace(JoinSpace(IntTexts(xs))) == IntTexts(xs)
    ensures forall k :: 0 <= k < |xs| ==> ParseInt(IntTexts(xs)[k]) == xs[k]
  {
    var ts := IntTexts(xs);
    forall k | 0 <= k < |ts|
      ensures ts[k] != [] && ' ' !in ts[k]
    {
      IntTextWord(xs[k]);
    }
    SplitJoin(ts);
    forall k | 0 <= k < |xs|
      ensures ParseInt(ts[k]) == xs[k]
    {
      IntTextRoundTrip(xs[k]);
    }
  }
}
