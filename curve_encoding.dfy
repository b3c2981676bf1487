/** The `(curve ...)` block: the curve's settings, then each sub-curve as a
    `nurbs_curve` block of points or a `bezier_curve` block of triples. */
module CurveEncoding {
  import opened Sexp
  import opened Numerals
  import opened BlendData
  import opened Common

  function CurveHead(fmt: Fmt, c: Curve): seq<Item>
  {
    [Open("curve"),
     Field("bevresol", IntText(c.bevresol)),
     Field("extrude", fmt(c.ext1)),
     Field("bevel_depth", fmt(c.ext2)),
     Field("size", "(" + G3(fmt, c.size) + ")"),
     Field("path_length", IntText(c.pathlen)),
     Field("u_resolution", IntText(c.resolu)),
     Field("v_resolution", IntText(c.resolv))]
  }

  /** One NURBS point, indented by one blank. */
  function PointCell(fmt: Fmt, p: Vec3): seq<Item>
  {
    [PadField(" ", "point", G3(fmt, p))]
  }

  /** One Bezier triple: a block indented by one blank holding its three
      points, indented by two. */
  function TripleCell(fmt: Fmt, t: Triple): seq<Item>
  {
    [Tagged(" ", "triple", "\n"),
     Raw("  (" + G3(fmt, t.left) + ")\n"),
     Raw("  (" + G3(fmt, t.knot) + ")\n"),
     Raw("  (" + G3(fmt, t.right) + ")\n"),
     Raw(" )\n")]
  }

  function PointCells(fmt: Fmt, ps: seq<Vec3>): (r: seq<seq<Item>>)
    ensures |r| == |ps|
    ensures forall k :: 0 <= k < |ps| ==> r[k] == PointCell(fmt, ps[k])
  {
    seq(|ps|, k requires 0 <= k < |ps| => PointCell(fmt, ps[k]))
  }

  function TripleCells(fmt: Fmt, ts: seq<Triple>): (r: seq<seq<Item>>)
    ensures |r| == |ts|
    ensures forall k :: 0 <= k < |ts| ==> r[k] == TripleCell(fmt, ts[k])
  {
    seq(|ts|, k requires 0 <= k < |ts| => TripleCell(fmt, ts[k]))
  }

  /** The tag of a sub-curve's block, chosen by its kind. */
  function NurbTag(n: Nurb): string
  {
    if n.NurbsCurve? then "nurbs_curve" else "bezier_curve"
  }

  /** The points of a sub-curve. */
  function NurbBody(fmt: Fmt, n: Nurb): seq<Item>
  {
    match n
    case NurbsCurve(ps) => Concat(PointCells(fmt, ps))
    case BezierCurve(ts) => Concat(TripleCells(fmt, ts))
  }

  function NurbCell(fmt: Fmt, n: Nurb): seq<Item>
  {
    [Open(NurbTag(n))] + NurbBody(fmt, n) + [Close()]
  }

  function NurbCells(fmt: Fmt, ns: seq<Nurb>): (r: seq<seq<Item>>)
    ensures |r| == |ns|
    ensures forall k :: 0 <= k < |ns| ==> r[k] == NurbCell(fmt, ns[k])
  {
    seq(|ns|, k requires 0 <= k < |ns| => NurbCell(fmt, ns[k]))
  }

  /** The whole curve block; it ends without a newline. */
  function CurveItems(fmt: Fmt, c: Curve): seq<Item>
  {
    CurveHead(fmt, c) + Concat(NurbCells(fmt, c.nurbs)) + [Raw(")")]
  }

  // ---- Reference counts -----------------------------------------------------

  /** The number of NURBS sub-curves. */
  function NurbsCount(ns: seq<Nurb>): nat
    decreases |ns|
  {
    if ns == [] then 0 else NurbsCount(ns[..|ns| - 1]) + (if ns[|ns| - 1].NurbsCurve? then 1 else 0)
  }

  /** The number of points over all NURBS sub-curves. */
  function PointTotal(ns: seq<Nurb>): nat
    decreases |ns|
  {
    if ns == [] then 0
    else PointTotal(ns[..|ns| - 1]) + (match ns[|ns| - 1] case NurbsCurve(ps) => |ps| case BezierCurve(_) => 0)
  }

  /** The number of triples over all Bezier sub-curves. */
  function TripleTotal(ns: seq<Nurb>): nat
    decreases |ns|
  {
    if ns == [] then 0
    else TripleTotal(ns[..|ns| - 1]) + (match ns[|ns| - 1] case NurbsCurve(_) => 0 case BezierCurve(ts) => |ts|)
  }

  // ---- Properties -----------------------------------------------------------

  /** What one sub-curve's block opens with the tag `tag`: its own block,
      and its points or triples. */
  function NurbOpens(n: Nurb, tag: string): nat
  {
    (if tag == NurbTag(n) then 1 else 0)
      + (match n
         case NurbsCurve(ps) => if tag == "point" then |ps| else 0
         case BezierCurve(ts) => if tag == "triple" then |ts| else 0)
  }

  function NurbsOpens(ns: seq<Nurb>, tag: string): nat
    decreases |ns|
  {
    if ns == [] then 0 else NurbsOpens(ns[..|ns| - 1], tag) + NurbOpens(ns[|ns| - 1], tag)
  }

  lemma PointsCount(fmt: Fmt, ps: seq<Vec3>, tag: string)
    ensures CountTag(Concat(PointCells(fmt, ps)), tag) == if tag == "point" then |ps| else 0
  {
    var cells := PointCells(fmt, ps);
    var one := if tag == "point" then 1 else 0;
    forall k | 0 <= k < |cells|
      ensures CountTag(cells[k], tag) == one
    {
      CountTagOne(cells[k][0], tag);
    }
    CountTagConcat(cells, tag);
    CountTagUniform(cells, tag, one);
  }

  lemma TripleCellCount(fmt: Fmt, t: Triple, tag: string)
    ensures CountTag(TripleCell(fmt, t), tag) == if tag == "triple" then 1 else 0
  {
    var c := TripleCell(fmt, t);
    assert c == [c[0]] + c[1..];
    CountTagAppend([c[0]], c[1..], tag);
    CountTagOne(c[0], tag);
    CountTagUntagged(c[1..], tag);
  }

  lemma TriplesCount(fmt: Fmt, ts: seq<Triple>, tag: string)
    ensures CountTag(Concat(TripleCells(fmt, ts)), tag) == if tag == "triple" then |ts| else 0
  {
    var cells := TripleCells(fmt, ts);
    var one := if tag == "triple" then 1 else 0;
    forall k | 0 <= k < |cells|
      ensures CountTag(cells[k], tag) == one
    {
      TripleCellCount(fmt, ts[k], tag);
    }
    CountTagConcat(cells, tag);
    CountTagUniform(cells, tag, one);
  }

  lemma NurbCellCount(fmt: Fmt, n: Nurb, tag: string)
    ensures CountTag(NurbCell(fmt, n), tag) == NurbOpens(n, tag)
  {
    var body := NurbBody(fmt, n);
    CountTagAppend([Open(NurbTag(n))], body, tag);
    CountTagAppend([Open(NurbTag(n))] + body, [Close()], tag);
    CountTagOne(Close(), tag);
    CountTagOne(Open(NurbTag(n)), tag);
    match n
    case NurbsCurve(ps) => PointsCount(fmt, ps, tag);
    case BezierCurve(ts) => TriplesCount(fmt, ts, tag);
  }

  lemma {:induction false} NurbCellsCount(fmt: Fmt, ns: seq<Nurb>, tag: string)
    ensures CountTagIn(NurbCells(fmt, ns), tag) == NurbsOpens(ns, tag)
    decreases |ns|
  {
    if ns != [] {
      var p, last := ns[..|ns| - 1], ns[|ns| - 1];
      var cs, pc := NurbCells(fmt, ns), NurbCells(fmt, p);
      NurbCellsPrefix(fmt, ns);
      CountTagInLast(cs, tag);
      NurbCellsCount(fmt, p, tag);
      NurbCellCountAt(fmt, ns, |ns| - 1, tag);
      NurbsOpensLast(ns, tag);
    }
  }

  lemma NurbCellsPrefix(fmt: Fmt, ns: seq<Nurb>)
    requires ns != []
    ensures NurbCells(fmt, ns)[..|ns| - 1] == NurbCells(fmt, ns[..|ns| - 1])
  {
    var cs, pc := NurbCells(fmt, ns), NurbCells(fmt, ns[..|ns| - 1]);
    forall k | 0 <= k < |pc|
      ensures cs[..|cs| - 1][k] == pc[k]
    {
      assert pc[k] == NurbCell(fmt, ns[k]);
    }
  }

  lemma NurbCellCountAt(fmt: Fmt, ns: seq<Nurb>, k: nat, tag: string)
    requires k < |ns|
    ensures CountTag(NurbCells(fmt, ns)[k], tag) == NurbOpens(ns[k], tag)
  {
    NurbCellCount(fmt, ns[k], tag);
  }

  lemma NurbsOpensLast(ns: seq<Nurb>, tag: string)
    requires ns != []
    ensures NurbsOpens(ns, tag) == NurbsOpens(ns[..|ns| - 1], tag) + NurbOpens(ns[|ns| - 1], tag)
  {
  }

  /** The per-tag sums are the reference counts. */
  lemma {:induction false} OpensAreCounts(ns: seq<Nurb>)
    ensures NurbsOpens(ns, "nurbs_curve") == NurbsCount(ns)
    ensures NurbsOpens(ns, "bezier_curve") == |ns| - NurbsCount(ns)
    ensures NurbsOpens(ns, "point") == PointTotal(ns)
    ensures NurbsOpens(ns, "triple") == TripleTotal(ns)
    decreases |ns|
  {
    if ns != [] {
      OpensAreCounts(ns[..|ns| - 1]);
      NurbsCountBound(ns[..|ns| - 1]);
    }
  }

  lemma {:induction false} NurbsCountBound(ns: seq<Nurb>)
    ensures NurbsCount(ns) <= |ns|
    decreases |ns|
  {
    if ns != [] {
      NurbsCountBound(ns[..|ns| - 1]);
    }
  }

  /** The head opens none of the sub-curve tags. */
  lemma CurveHeadCounts(fmt: Fmt, c: Curve, tag: string)
    requires tag in {"nurbs_curve", "bezier_curve", "point", "triple"}
    ensures CountTag(CurveHead(fmt, c), tag) == 0
  {
    var h := CurveHead(fmt, c);
    assert forall j :: 0 <= j < |h| ==> h[j].Raw? || h[j].tag != tag;
    CountTagAbsent(h, tag);
  }

  /** For each sub-curve tag, the curve block counts what its sub-curves
      open. */
  lemma CurveOpensCount(fmt: Fmt, c: Curve, tag: string)
    requires tag in {"nurbs_curve", "bezier_curve", "point", "triple"}
    ensures CountTag(CurveItems(fmt, c), tag) == NurbsOpens(c.nurbs, tag)
  {
    var h := CurveHead(fmt, c);
    var b := Concat(NurbCells(fmt, c.nurbs));
    assert CurveItems(fmt, c) == h + b + [Raw(")")];
    CurveHeadCounts(fmt, c, tag);
    NurbCellsCount(fmt, c.nurbs, tag);
    CountTagConcat(NurbCells(fmt, c.nurbs), tag);
    CountTagAppend(h, b, tag);
    CountTagAppend(h + b, [Raw(")")], tag);
    CountTagOne(Raw(")"), tag);
  }

  /** The curve block opens one `nurbs_curve` block per NURBS sub-curve, one
      `bezier_curve` block per Bezier one, one `point` field per NURBS point
      and one `triple` block per Bezier triple. */
  lemma CurveCounts(fmt: Fmt, c: Curve)
    ensures CountTag(CurveItems(fmt, c), "nurbs_curve") == NurbsCount(c.nurbs)
    ensures CountTag(CurveItems(fmt, c), "bezier_curve") == |c.nurbs| - NurbsCount(c.nurbs)
    ensures CountTag(CurveItems(fmt, c), "point") == PointTotal(c.nurbs)
    ensures CountTag(CurveItems(fmt, c), "triple") == TripleTotal(c.nurbs)
  {
    OpensAreCounts(c.nurbs);
    CurveOpensCount(fmt, c, "nurbs_curve");
    CurveOpensCount(fmt, c, "bezier_curve");
    CurveOpensCount(fmt, c, "point");
    CurveOpensCount(fmt, c, "triple");
  }
}
