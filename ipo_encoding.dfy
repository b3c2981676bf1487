/** The `(ipo (...))` list of an object's animation curves: one `(curve ...)`
    block per curve, holding its name and the list of its Bezier points, each
    a `bez_triple` block with its weight, its tilt and its three points. */
module IpoEncoding {
  import opened Sexp
  import opened BlendData
  import opened Common

  function BezTripleCell(fmt: Fmt, t: BezTriple): seq<Item>
  {
    [Tagged(" ", "bez_triple", "\n"),
     PadField("  ", "weight", fmt(t.weight)),
     PadField("  ", "tilt", fmt(t.tilt)),
     Raw("  (" + G3(fmt, t.vec.left) + ")\n"),
     Raw("  (" + G3(fmt, t.vec.knot) + ")\n"),
     Raw("  (" + G3(fmt, t.vec.right) + ")\n"),
     Raw(" )\n")]
  }

  function BezTripleCells(fmt: Fmt, ts: seq<BezTriple>): (r: seq<seq<Item>>)
    ensures |r| == |ts|
    ensures forall k :: 0 <= k < |ts| ==> r[k] == BezTripleCell(fmt, ts[k])
  {
    seq(|ts|, k requires 0 <= k < |ts| => BezTripleCell(fmt, ts[k]))
  }

  /** One curve; its name is written as it is, without quotes. */
  function IpoCurveCell(fmt: Fmt, c: IpoCurve): seq<Item>
  {
    [Open("curve"), Field("name", c.name), OpenList("bezier_points")]
      + Concat(BezTripleCells(fmt, c.points)) + [CloseList(), Close()]
  }

  function IpoCurveCells(fmt: Fmt, cs: seq<IpoCurve>): (r: seq<seq<Item>>)
    ensures |r| == |cs|
    ensures forall k :: 0 <= k < |cs| ==> r[k] == IpoCurveCell(fmt, cs[k])
  {
    seq(|cs|, k requires 0 <= k < |cs| => IpoCurveCell(fmt, cs[k]))
  }

  function IpoItems(fmt: Fmt, ipo: Ipo): seq<Item>
  {
    [OpenList("ipo")] + Concat(IpoCurveCells(fmt, ipo.curves)) + [CloseList()]
  }

  /** The number of Bezier points over all curves. */
  function PointTotal(cs: seq<IpoCurve>): nat
    decreases |cs|
  {
    if cs == [] then 0 else PointTotal(cs[..|cs| - 1]) + |cs[|cs| - 1].points|
  }

  /** What one curve opens with the tag `tag`: its block, its name and its
      list once, and each point's block, weight and tilt once per point. */
  function CurveOpen(c: IpoCurve, tag: string): nat
  {
    (if tag == "curve" || tag == "name" || tag == "bezier_points" then 1 else 0)
      + (if tag == "bez_triple" || tag == "weight" || tag == "tilt" then |c.points| else 0)
  }

  // ---- Properties -----------------------------------------------------------

  /** A point opens its block and its weight and tilt fields once each. */
  lemma BezTripleCount(fmt: Fmt, t: BezTriple, tag: string)
    ensures CountTag(BezTripleCell(fmt, t), tag) ==
      (if tag == "bez_triple" || tag == "weight" || tag == "tilt" then 1 else 0)
  {
    var c := BezTripleCell(fmt, t);
    assert c == [c[0]] + [c[1]] + [c[2]] + c[3..];
    CountTagAppend([c[0]], [c[1]], tag);
    CountTagAppend([c[0]] + [c[1]], [c[2]], tag);
    CountTagAppend([c[0]] + [c[1]] + [c[2]], c[3..], tag);
    CountTagOne(c[0], tag);
    CountTagOne(c[1], tag);
    CountTagOne(c[2], tag);
    CountTagUntagged(c[3..], tag);
  }

  lemma CurveHeadCount(c: IpoCurve, tag: string)
    ensures CountTag([Open("curve"), Field("name", c.name), OpenList("bezier_points")], tag) ==
      (if tag == "curve" || tag == "name" || tag == "bezier_points" then 1 else 0)
  {
    var h := [Open("curve"), Field("name", c.name), OpenList("bezier_points")];
    assert h == [h[0]] + [h[1]] + [h[2]];
    CountTagAppend([h[0]], [h[1]], tag);
    CountTagAppend([h[0]] + [h[1]], [h[2]], tag);
    CountTagOne(h[0], tag);
    CountTagOne(h[1], tag);
    CountTagOne(h[2], tag);
  }

  lemma PointsCount(fmt: Fmt, ts: seq<BezTriple>, tag: string)
    ensures CountTag(Concat(BezTripleCells(fmt, ts)), tag) ==
      (if tag == "bez_triple" || tag == "weight" || tag == "tilt" then |ts| else 0)
  {
    var pts := BezTripleCells(fmt, ts);
    var one := if tag == "bez_triple" || tag == "weight" || tag == "tilt" then 1 else 0;
    forall k | 0 <= k < |pts|
      ensures CountTag(pts[k], tag) == one
    {
      BezTripleCount(fmt, ts[k], tag);
    }
    CountTagConcat(pts, tag);
    CountTagUniform(pts, tag, one);
  }

  /** A curve opens its block and its name once, and each of its points'
      tags once per point. */
  lemma IpoCurveCount(fmt: Fmt, c: IpoCurve, tag: string)
    ensures CountTag(IpoCurveCell(fmt, c), tag) == CurveOpen(c, tag)
  {
    var h := [Open("curve"), Field("name", c.name), OpenList("bezier_points")];
    var b := Concat(BezTripleCells(fmt, c.points));
    var t := [CloseList(), Close()];
    CurveHeadCount(c, tag);
    PointsCount(fmt, c.points, tag);
    CountTagUntagged(t, tag);
    CountTagAppend(h, b, tag);
    CountTagAppend(h + b, t, tag);
  }

  /** The per-curve sums of one tag's count. */
  function CurveOpens(cs: seq<IpoCurve>, tag: string): nat
    decreases |cs|
  {
    if cs == [] then 0 else CurveOpens(cs[..|cs| - 1], tag) + CurveOpen(cs[|cs| - 1], tag)
  }

  lemma {:induction false} CurveCellsCount(fmt: Fmt, cs: seq<IpoCurve>, tag: string)
    ensures CountTagIn(IpoCurveCells(fmt, cs), tag) == CurveOpens(cs, tag)
    decreases |cs|
  {
    if cs != [] {
      var cells := IpoCurveCells(fmt, cs);
      IpoCurveCellsPrefix(fmt, cs);
      CountTagInLast(cells, tag);
      CurveCellsCount(fmt, cs[..|cs| - 1], tag);
      IpoCurveCountAt(fmt, cs, |cs| - 1, tag);
      CurveOpensLast(cs, tag);
    }
  }

  lemma IpoCurveCellsPrefix(fmt: Fmt, cs: seq<IpoCurve>)
    requires cs != []
    ensures IpoCurveCells(fmt, cs)[..|cs| - 1] == IpoCurveCells(fmt, cs[..|cs| - 1])
  {
    var cells, pc := IpoCurveCells(fmt, cs), IpoCurveCells(fmt, cs[..|cs| - 1]);
    forall k | 0 <= k < |pc|
      ensures cells[..|cells| - 1][k] == pc[k]
    {
      assert pc[k] == IpoCurveCell(fmt, cs[k]);
    }
  }

  lemma IpoCurveCountAt(fmt: Fmt, cs: seq<IpoCurve>, k: nat, tag: string)
    requires k < |cs|
    ensures CountTag(IpoCurveCells(fmt, cs)[k], tag) == CurveOpen(cs[k], tag)
  {
    IpoCurveCount(fmt, cs[k], tag);
  }

  lemma CurveOpensLast(cs: seq<IpoCurve>, tag: string)
    requires cs != []
    ensures CurveOpens(cs, tag) == CurveOpens(cs[..|cs| - 1], tag) + CurveOpen(cs[|cs| - 1], tag)
  {
  }

  lemma {:induction false} CurveOpensTotals(cs: seq<IpoCurve>)
    ensures CurveOpens(cs, "curve") == |cs|
    ensures CurveOpens(cs, "bez_triple") == PointTotal(cs)
    ensures CurveOpens(cs, "weight") == PointTotal(cs)
    decreases |cs|
  {
    if cs != [] {
      CurveOpensTotals(cs[..|cs| - 1]);
    }
  }

  /** A tag no curve opens. */
  lemma {:induction false} CurveOpensOther(cs: seq<IpoCurve>, tag: string)
    requires tag != "curve" && tag != "name" && tag != "bezier_points"
    requires tag != "bez_triple" && tag != "weight" && tag != "tilt"
    ensures CurveOpens(cs, tag) == 0
    decreases |cs|
  {
    if cs != [] {
      CurveOpensOther(cs[..|cs| - 1], tag);
    }
  }

  /** The ipo list opens a tag as its curves do, and `ipo` once. */
  lemma IpoTagCount(fmt: Fmt, ipo: Ipo, tag: string)
    ensures CountTag(IpoItems(fmt, ipo), tag) == (if tag == "ipo" then 1 else 0) + CurveOpens(ipo.curves, tag)
  {
    var cells := IpoCurveCells(fmt, ipo.curves);
    CurveCellsCount(fmt, ipo.curves, tag);
    CountTagConcat(cells, tag);
    CountTagAppend([OpenList("ipo")], Concat(cells), tag);
    CountTagAppend([OpenList("ipo")] + Concat(cells), [CloseList()], tag);
    CountTagOne(OpenList("ipo"), tag);
    CountTagOne(CloseList(), tag);
  }

  /** The ipo list holds one curve block per curve, and one `bez_triple`
      block with one weight per Bezier point of all its curves. */
  lemma IpoCounts(fmt: Fmt, ipo: Ipo)
    ensures CountTag(IpoItems(fmt, ipo), "curve") == |ipo.curves|
    ensures CountTag(IpoItems(fmt, ipo), "bez_triple") == PointTotal(ipo.curves)
    ensures CountTag(IpoItems(fmt, ipo), "weight") == PointTotal(ipo.curves)
  {
    CurveOpensTotals(ipo.curves);
    IpoTagCount(fmt, ipo, "curve");
    IpoTagCount(fmt, ipo, "bez_triple");
    IpoTagCount(fmt, ipo, "weight");
  }
}
