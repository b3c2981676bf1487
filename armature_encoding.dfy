/** The `(armature ...)` block and its `(bone ...)` blocks.  A bone writes
    its settings, then four space blocks (its head and tail positions, its
    roll and its matrix, one entry per space, under the space's name in lower
    case), then its parent's name when it has a parent and a `children`
    block when it has children. */
module ArmatureEncoding {
  import opened Wrappers
  import opened Sexp
  import opened Numerals
  import opened BlendData
  import opened Common

  // ---- Space blocks ---------------------------------------------------------

  /** How many entries have a key that lowers to `tag`. */
  function KeyHits<T>(es: seq<(string, T)>, tag: string): nat
    decreases |es|
  {
    if es == [] then 0 else KeyHits(es[..|es| - 1], tag) + (if Lower(es[|es| - 1].0) == tag then 1 else 0)
  }

  /** One entry of a head or tail block: the key, then the four
      coordinates. */
  function ExtrmEntry(fmt: Fmt, e: (string, Vec4)): seq<Item>
  {
    [Tagged(" ", Lower(e.0), ""), Raw(" " + G4(fmt, e.1) + ")\n")]
  }

  function ExtrmEntries(fmt: Fmt, es: seq<(string, Vec4)>): (r: seq<seq<Item>>)
    ensures |r| == |es|
    ensures forall k :: 0 <= k < |es| ==> r[k] == ExtrmEntry(fmt, es[k])
  {
    seq(|es|, k requires 0 <= k < |es| => ExtrmEntry(fmt, es[k]))
  }

  function ExtrmBlock(fmt: Fmt, lbl: string, es: seq<(string, Vec4)>): seq<Item>
  {
    [Open(lbl)] + Concat(ExtrmEntries(fmt, es)) + [Close()]
  }

  function RollEntry(fmt: Fmt, e: (string, real)): seq<Item>
  {
    [PadField(" ", Lower(e.0), fmt(e.1))]
  }

  function RollEntries(fmt: Fmt, es: seq<(string, real)>): (r: seq<seq<Item>>)
    ensures |r| == |es|
    ensures forall k :: 0 <= k < |es| ==> r[k] == RollEntry(fmt, es[k])
  {
    seq(|es|, k requires 0 <= k < |es| => RollEntry(fmt, es[k]))
  }

  function RollBlock(fmt: Fmt, es: seq<(string, real)>): seq<Item>
  {
    [Open("roll")] + Concat(RollEntries(fmt, es)) + [Close()]
  }

  /** `%g` of each value. */
  function Fmts(fmt: Fmt, xs: seq<real>): (r: seq<string>)
    ensures |r| == |xs|
    ensures forall k :: 0 <= k < |xs| ==> r[k] == fmt(xs[k])
  {
    seq(|xs|, k requires 0 <= k < |xs| => fmt(xs[k]))
  }

  /** One row of a matrix: indented by three blanks, its values written with
      the `sep` idiom. */
  function MatrixRow(fmt: Fmt, row: seq<real>): seq<Item>
  {
    [Raw("   (")] + Joined(Fmts(fmt, row)) + [Raw(")\n")]
  }

  function MatrixRows(fmt: Fmt, rows: seq<seq<real>>): (r: seq<seq<Item>>)
    ensures |r| == |rows|
    ensures forall k :: 0 <= k < |rows| ==> r[k] == MatrixRow(fmt, rows[k])
  {
    seq(|rows|, k requires 0 <= k < |rows| => MatrixRow(fmt, rows[k]))
  }

  function MatrixEntry(fmt: Fmt, e: (string, seq<seq<real>>)): seq<Item>
  {
    [Tagged(" ", Lower(e.0), "\n")] + Concat(MatrixRows(fmt, e.1)) + [Raw(" )\n")]
  }

  function MatrixEntries(fmt: Fmt, es: seq<(string, seq<seq<real>>)>): (r: seq<seq<Item>>)
    ensures |r| == |es|
    ensures forall k :: 0 <= k < |es| ==> r[k] == MatrixEntry(fmt, es[k])
  {
    seq(|es|, k requires 0 <= k < |es| => MatrixEntry(fmt, es[k]))
  }

  function MatrixBlock(fmt: Fmt, es: seq<(string, seq<seq<real>>)>): seq<Item>
  {
    [Open("matrix")] + Concat(MatrixEntries(fmt, es)) + [Close()]
  }

  // ---- Bones and the armature -----------------------------------------------

  function BoneFields(fmt: Fmt, b: Bone): seq<Item>
  {
    [Field("bone_name", Quote(b.name)),
     Field("head_radius", fmt(b.headRadius)),
     Field("tail_radius", fmt(b.tailRadius)),
     Field("weight", fmt(b.weight)),
     Field("subdivisions", IntText(b.subdivisions)),
     Field("length", fmt(b.length)),
     Field("deform_dist", fmt(b.deformDist)),
     Field("layer_mask", IntText(b.layerMask))]
  }

  function BoneHead(fmt: Fmt, b: Bone): seq<Item>
  {
    [Open("bone")] + BoneFields(fmt, b)
  }

  /** The four space blocks of a bone. */
  function BoneSpaces(fmt: Fmt, b: Bone): seq<Item>
  {
    ExtrmBlock(fmt, "head", b.head) + ExtrmBlock(fmt, "tail", b.tail) + RollBlock(fmt, b.roll) + MatrixBlock(fmt, b.matrix)
  }

  function ParentPart(b: Bone): seq<Item>
  {
    if b.parent.Some? then [Field("parent_name", Quote(b.parent.value))] else []
  }

  /** One line per child, indented by one blank. */
  function ChildLines(cs: seq<string>): (r: seq<Item>)
    ensures |r| == |cs|
    ensures forall k :: 0 <= k < |cs| ==> r[k] == PadField(" ", "child_name", Quote(cs[k]))
  {
    seq(|cs|, k requires 0 <= k < |cs| => PadField(" ", "child_name", Quote(cs[k])))
  }

  function ChildrenPart(b: Bone): seq<Item>
  {
    if |b.children| > 0 then [Open("children")] + ChildLines(b.children) + [Close()] else []
  }

  /** The bone's links to other bones: its parent, then its children. */
  function BoneLinks(b: Bone): seq<Item>
  {
    ParentPart(b) + ChildrenPart(b)
  }

  function BoneItems(fmt: Fmt, b: Bone): seq<Item>
  {
    BoneHead(fmt, b) + BoneSpaces(fmt, b) + BoneLinks(b) + [Close()]
  }

  function BoneCells(fmt: Fmt, bs: seq<Bone>): (r: seq<seq<Item>>)
    ensures |r| == |bs|
    ensures forall k :: 0 <= k < |bs| ==> r[k] == BoneItems(fmt, bs[k])
  {
    seq(|bs|, k requires 0 <= k < |bs| => BoneItems(fmt, bs[k]))
  }

  function ArmatureHead(a: Armature): seq<Item>
  {
    [Open("armature"),
     Field("vertex_groups", BoolText(a.vertexGroups)),
     Field("envelopes", BoolText(a.envelopes)),
     LayersField(a.layers)]
  }

  /** The whole armature block; it ends without a newline. */
  function ArmatureItems(fmt: Fmt, a: Armature): seq<Item>
  {
    ArmatureHead(a) + Concat(BoneCells(fmt, a.bones)) + [Raw(")")]
  }

  // ---- Reference counts -----------------------------------------------------

  /** How many space entries of the bone have a key that lowers to `tag`. */
  function SpaceHits(b: Bone, tag: string): nat
  {
    KeyHits(b.head, tag) + KeyHits(b.tail, tag) + KeyHits(b.roll, tag) + KeyHits(b.matrix, tag)
  }

  /** No space of the bone is named `tag` once lowered. */
  predicate SpacesAvoid(b: Bone, tag: string)
  {
    && (forall k :: 0 <= k < |b.head| ==> Lower(b.head[k].0) != tag)
    && (forall k :: 0 <= k < |b.tail| ==> Lower(b.tail[k].0) != tag)
    && (forall k :: 0 <= k < |b.roll| ==> Lower(b.roll[k].0) != tag)
    && (forall k :: 0 <= k < |b.matrix| ==> Lower(b.matrix[k].0) != tag)
  }

  /** What the links of a bone open with the tag `tag`. */
  function LinkOpens(b: Bone, tag: string): nat
  {
    (if tag == "parent_name" && b.parent.Some? then 1 else 0)
      + (if tag == "children" && |b.children| > 0 then 1 else 0)
      + (if tag == "child_name" then |b.children| else 0)
  }

  // ---- Properties -----------------------------------------------------------

  lemma {:induction false} KeyHitsZero<T>(es: seq<(string, T)>, tag: string)
    requires forall k :: 0 <= k < |es| ==> Lower(es[k].0) != tag
    ensures KeyHits(es, tag) == 0
    decreases |es|
  {
    if es != [] {
      KeyHitsZero(es[..|es| - 1], tag);
    }
  }

  /** Parts, one per entry, each opening `tag` once when the entry's key
      lowers to it and never otherwise. */
  lemma {:induction false} HitsIn<T>(parts: seq<seq<Item>>, es: seq<(string, T)>, tag: string)
    requires |parts| == |es|
    requires forall k :: 0 <= k < |es| ==> CountTag(parts[k], tag) == (if Lower(es[k].0) == tag then 1 else 0)
    ensures CountTagIn(parts, tag) == KeyHits(es, tag)
    decreases |es|
  {
    if es != [] {
      HitsIn(parts[..|parts| - 1], es[..|es| - 1], tag);
    }
  }

  /** A head or tail block opens its label and one entry per space, under
      the space's lowered name. */
  lemma ExtrmBlockCount(fmt: Fmt, lbl: string, es: seq<(string, Vec4)>, tag: string)
    ensures CountTag(ExtrmBlock(fmt, lbl, es), tag) == (if lbl == tag then 1 else 0) + KeyHits(es, tag)
  {
    var parts := ExtrmEntries(fmt, es);
    forall k | 0 <= k < |es|
      ensures CountTag(parts[k], tag) == (if Lower(es[k].0) == tag then 1 else 0)
    {
      var e := ExtrmEntry(fmt, es[k]);
      assert e == [e[0]] + [e[1]];
      CountTagAppend([e[0]], [e[1]], tag);
      CountTagOne(e[0], tag);
      CountTagOne(e[1], tag);
    }
    HitsIn(parts, es, tag);
    CountTagConcat(parts, tag);
    CountTagBlock(lbl, Concat(parts), tag);
  }

  lemma RollBlockCount(fmt: Fmt, es: seq<(string, real)>, tag: string)
    ensures CountTag(RollBlock(fmt, es), tag) == (if tag == "roll" then 1 else 0) + KeyHits(es, tag)
  {
    var parts := RollEntries(fmt, es);
    forall k | 0 <= k < |es|
      ensures CountTag(parts[k], tag) == (if Lower(es[k].0) == tag then 1 else 0)
    {
      CountTagOne(parts[k][0], tag);
    }
    HitsIn(parts, es, tag);
    CountTagConcat(parts, tag);
    CountTagBlock("roll", Concat(parts), tag);
  }

  /** A matrix row is raw text: the values joined by blanks between
      parentheses. */
  lemma MatrixRowText(fmt: Fmt, row: seq<real>)
    ensures Tags(MatrixRow(fmt, row)) == {}
    ensures Text(MatrixRow(fmt, row)) == "   (" + JoinSpace(Fmts(fmt, row)) + ")\n"
  {
    var j := Joined(Fmts(fmt, row));
    JoinedUntagged(Fmts(fmt, row));
    JoinedText(Fmts(fmt, row));
    TagsAppend([Raw("   (")], j);
    TagsAppend([Raw("   (")] + j, [Raw(")\n")]);
    TagsOfOne(Raw("   ("));
    TagsOfOne(Raw(")\n"));
    TextAppend([Raw("   (")], j);
    TextAppend([Raw("   (")] + j, [Raw(")\n")]);
    assert Text([Raw("   (")]) == "   (" by {
      assert [Raw("   (")][..0] == [];
    }
    assert Text([Raw(")\n")]) == ")\n" by {
      assert [Raw(")\n")][..0] == [];
    }
  }

  lemma MatrixEntryCount(fmt: Fmt, e: (string, seq<seq<real>>), tag: string)
    ensures CountTag(MatrixEntry(fmt, e), tag) == if Lower(e.0) == tag then 1 else 0
  {
    var rows := MatrixRows(fmt, e.1);
    forall k | 0 <= k < |rows|
      ensures CountTag(rows[k], tag) == 0
    {
      MatrixRowText(fmt, e.1[k]);
      CountTagPresent(rows[k], tag);
    }
    CountTagConcat(rows, tag);
    CountTagUniform(rows, tag, 0);
    var h := Tagged(" ", Lower(e.0), "\n");
    CountTagAppend([h], Concat(rows), tag);
    CountTagAppend([h] + Concat(rows), [Raw(" )\n")], tag);
    CountTagOne(h, tag);
    CountTagOne(Raw(" )\n"), tag);
  }

  lemma MatrixBlockCount(fmt: Fmt, es: seq<(string, seq<seq<real>>)>, tag: string)
    ensures CountTag(MatrixBlock(fmt, es), tag) == (if tag == "matrix" then 1 else 0) + KeyHits(es, tag)
  {
    var parts := MatrixEntries(fmt, es);
    forall k | 0 <= k < |es|
      ensures CountTag(parts[k], tag) == (if Lower(es[k].0) == tag then 1 else 0)
    {
      MatrixEntryCount(fmt, es[k], tag);
    }
    HitsIn(parts, es, tag);
    CountTagConcat(parts, tag);
    CountTagBlock("matrix", Concat(parts), tag);
  }

  /** The bone's head opens the `bone` block and none of the link tags. */
  lemma BoneHeadCount(fmt: Fmt, b: Bone, tag: string)
    requires tag == "bone" || tag == "parent_name" || tag == "children" || tag == "child_name"
    ensures CountTag(BoneHead(fmt, b), tag) == if tag == "bone" then 1 else 0
  {
    CountTagAppend([Open("bone")], BoneFields(fmt, b), tag);
    CountTagOne(Open("bone"), tag);
    CountTagAbsent(BoneFields(fmt, b), tag);
  }

  /** The links open a `parent_name` field exactly when the bone has a
      parent, a `children` block exactly when it has children, and one
      `child_name` line per child. */
  lemma ParentPartCount(b: Bone, tag: string)
    ensures CountTag(ParentPart(b), tag) == (if tag == "parent_name" && b.parent.Some? then 1 else 0)
  {
    if b.parent.Some? {
      CountTagOne(ParentPart(b)[0], tag);
    }
  }

  lemma ChildLinesCount(cs: seq<string>, tag: string)
    ensures CountTag(ChildLines(cs), tag) == if tag == "child_name" then |cs| else 0
  {
    if tag == "child_name" {
      CountTagAll(ChildLines(cs), tag);
    } else {
      CountTagAbsent(ChildLines(cs), tag);
    }
  }

  lemma ChildrenPartCount(b: Bone, tag: string)
    ensures CountTag(ChildrenPart(b), tag) ==
      (if tag == "children" && |b.children| > 0 then 1 else 0) + (if tag == "child_name" then |b.children| else 0)
  {
    if |b.children| > 0 {
      CountTagBlock("children", ChildLines(b.children), tag);
      ChildLinesCount(b.children, tag);
    }
  }

  lemma LinksCount(b: Bone, tag: string)
    ensures CountTag(BoneLinks(b), tag) == LinkOpens(b, tag)
  {
    CountTagAppend(ParentPart(b), ChildrenPart(b), tag);
    ParentPartCount(b, tag);
    ChildrenPartCount(b, tag);
  }

  /** The links in order: the parent's name first when there is one, then
      the children block, whose lines name the children in order. */
  lemma LinksOrder(b: Bone)
    ensures b.parent.Some? ==> BoneLinks(b)[0] == Field("parent_name", Quote(b.parent.value))
    ensures var off := if b.parent.Some? then 1 else 0;
      |b.children| > 0 ==>
        && |BoneLinks(b)| == off + |b.children| + 2
        && BoneLinks(b)[off] == Open("children")
        && (forall k :: 0 <= k < |b.children| ==>
              BoneLinks(b)[off + 1 + k] == PadField(" ", "child_name", Quote(b.children[k])))
        && BoneLinks(b)[off + |b.children| + 1] == Close()
    ensures |b.children| == 0 ==> |BoneLinks(b)| == (if b.parent.Some? then 1 else 0)
  {
    var p := ParentPart(b);
    var c := ChildrenPart(b);
    assert BoneLinks(b) == p + c;
    if |b.children| > 0 {
      var ls := ChildLines(b.children);
      assert c == [Open("children")] + ls + [Close()];
      forall k | 0 <= k < |b.children|
        ensures BoneLinks(b)[|p| + 1 + k] == PadField(" ", "child_name", Quote(b.children[k]))
      {
        assert (p + c)[|p| + 1 + k] == c[1 + k] == ls[k];
      }
    }
  }

  /** The bone's block opens a tag as often as its head, its space labels,
      its spaces' lowered names and its links together do. */
  lemma BoneCount(fmt: Fmt, b: Bone, tag: string)
    ensures CountTag(BoneItems(fmt, b), tag) ==
      CountTag(BoneHead(fmt, b), tag)
        + (if tag == "head" then 1 else 0) + (if tag == "tail" then 1 else 0)
        + (if tag == "roll" then 1 else 0) + (if tag == "matrix" then 1 else 0)
        + SpaceHits(b, tag) + LinkOpens(b, tag)
  {
    var h := BoneHead(fmt, b);
    var e1 := ExtrmBlock(fmt, "head", b.head);
    var e2 := ExtrmBlock(fmt, "tail", b.tail);
    var r := RollBlock(fmt, b.roll);
    var m := MatrixBlock(fmt, b.matrix);
    ExtrmBlockCount(fmt, "head", b.head, tag);
    ExtrmBlockCount(fmt, "tail", b.tail, tag);
    RollBlockCount(fmt, b.roll, tag);
    MatrixBlockCount(fmt, b.matrix, tag);
    CountTagAppend(e1, e2, tag);
    CountTagAppend(e1 + e2, r, tag);
    CountTagAppend(e1 + e2 + r, m, tag);
    LinksCount(b, tag);
    CountTagAppend(h, BoneSpaces(fmt, b), tag);
    CountTagAppend(h + BoneSpaces(fmt, b), BoneLinks(b), tag);
    CountTagAppend(h + BoneSpaces(fmt, b) + BoneLinks(b), [Close()], tag);
    CountTagOne(Close(), tag);
  }

  /** A bone whose spaces are not named `bone` opens one `bone` block. */
  lemma OneBoneBlock(fmt: Fmt, b: Bone)
    requires SpacesAvoid(b, "bone")
    ensures CountTag(BoneItems(fmt, b), "bone") == 1
  {
    BoneTagCount(fmt, b, "bone");
    assert LinkOpens(b, "bone") == 0;
  }

  /** A bone's count of one of the link tags, or of `bone`, when no space
      is named so. */
  lemma BoneTagCount(fmt: Fmt, b: Bone, tag: string)
    requires tag == "bone" || tag == "parent_name" || tag == "children" || tag == "child_name"
    requires SpacesAvoid(b, tag)
    ensures CountTag(BoneItems(fmt, b), tag) == (if tag == "bone" then 1 else 0) + LinkOpens(b, tag)
  {
    BoneCount(fmt, b, tag);
    BoneHeadCount(fmt, b, tag);
    KeyHitsZero(b.head, tag);
    KeyHitsZero(b.tail, tag);
    KeyHitsZero(b.roll, tag);
    KeyHitsZero(b.matrix, tag);
  }

  lemma ArmatureHeadCount(a: Armature)
    ensures CountTag(ArmatureHead(a), "bone") == 0
  {
    CountTagAbsent(ArmatureHead(a), "bone");
  }

  lemma BoneCellsCount(fmt: Fmt, bs: seq<Bone>)
    requires forall k :: 0 <= k < |bs| ==> SpacesAvoid(bs[k], "bone")
    ensures CountTag(Concat(BoneCells(fmt, bs)), "bone") == |bs|
  {
    var cells := BoneCells(fmt, bs);
    forall k | 0 <= k < |cells|
      ensures CountTag(cells[k], "bone") == 1
    {
      OneBoneBlock(fmt, bs[k]);
    }
    CountTagConcat(cells, "bone");
    CountTagUniform(cells, "bone", 1);
  }

  /** Unless a space is named `bone`, the armature writes one bone block per
      bone. */
  lemma ArmatureBones(fmt: Fmt, a: Armature)
    requires forall k :: 0 <= k < |a.bones| ==> SpacesAvoid(a.bones[k], "bone")
    ensures CountTag(ArmatureItems(fmt, a), "bone") == |a.bones|
  {
    var h := ArmatureHead(a);
    var body := Concat(BoneCells(fmt, a.bones));
    BoneCellsCount(fmt, a.bones);
    ArmatureHeadCount(a);
    CountTagAppend(h, body, "bone");
    CountTagAppend(h + body, [Raw(")")], "bone");
    CountTagOne(Raw(")"), "bone");
  }
}
