/** The `(pose ...)` block of an object that has a pose: one `(pose_bone
    ...)` block per pose bone, holding its name, an `ik` block when the bone
    has inverse kinematics and a `constraints` block with one empty `const`
    block per constraint when it has constraints.  The three lock flags of
    the `ik` block are written as Python writes a boolean (`True`,
    `False`), the other flags in the grammar's words. */
module PoseEncoding {
  import opened Wrappers
  import opened Sexp
  import opened BlendData
  import opened Common

  function IkPart(fmt: Fmt, pb: PoseBone): seq<Item>
  {
    if pb.hasIK then
      [Open("ik"),
       PadField(" ", "limit_x", BoolText(pb.limitX)),
       PadField(" ", "limit_y", BoolText(pb.limitY)),
       PadField(" ", "limit_z", BoolText(pb.limitZ)),
       PadField(" ", "limit_max", G3(fmt, pb.limitMax)),
       PadField(" ", "limit_min", G3(fmt, pb.limitMin)),
       PadField(" ", "lock_x_rot", PyBoolText(pb.lockXRot)),
       PadField(" ", "lock_y_rot", PyBoolText(pb.lockYRot)),
       PadField(" ", "lock_z_rot", PyBoolText(pb.lockZRot)),
       PadField(" ", "stiff", G3(fmt, pb.stiff)),
       PadField(" ", "stretch", fmt(pb.stretch)),
       Close()]
    else []
  }

  /** An empty block per constraint. */
  function ConstCells(cs: seq<Constraint>): (r: seq<seq<Item>>)
    ensures |r| == |cs|
    ensures forall k :: 0 <= k < |cs| ==> r[k] == [Open("const"), Close()]
  {
    seq(|cs|, k requires 0 <= k < |cs| => [Open("const"), Close()])
  }

  function ConstraintsPart(pb: PoseBone): seq<Item>
  {
    if |pb.constraints| > 0 then [Open("constraints")] + Concat(ConstCells(pb.constraints)) + [Close()] else []
  }

  function PoseBoneItems(fmt: Fmt, pb: PoseBone): seq<Item>
  {
    [Open("pose_bone"), PadField(" ", "name", Quote(pb.name))] + IkPart(fmt, pb) + ConstraintsPart(pb) + [Close()]
  }

  function PoseBoneCells(fmt: Fmt, pbs: seq<PoseBone>): (r: seq<seq<Item>>)
    ensures |r| == |pbs|
    ensures forall k :: 0 <= k < |pbs| ==> r[k] == PoseBoneItems(fmt, pbs[k])
  {
    seq(|pbs|, k requires 0 <= k < |pbs| => PoseBoneItems(fmt, pbs[k]))
  }

  function PoseItems(fmt: Fmt, pbs: seq<PoseBone>): seq<Item>
  {
    [Open("pose")] + Concat(PoseBoneCells(fmt, pbs)) + [Close()]
  }

  /** The pose block of an object: written only when the object has a
      pose. */
  function PosePart(fmt: Fmt, pose: Option<seq<PoseBone>>): seq<Item>
  {
    if pose.Some? then PoseItems(fmt, pose.value) else []
  }

  // ---- Reference counts -----------------------------------------------------

  /** What one pose bone opens with the tag `tag`, for the block tags of the
      pose. */
  function BoneOpens(pb: PoseBone, tag: string): nat
  {
    (if tag == "pose_bone" then 1 else 0)
      + (if tag == "ik" && pb.hasIK then 1 else 0)
      + (if tag == "constraints" && |pb.constraints| > 0 then 1 else 0)
      + (if tag == "const" then |pb.constraints| else 0)
  }

  function BonesOpens(pbs: seq<PoseBone>, tag: string): nat
    decreases |pbs|
  {
    if pbs == [] then 0 else BonesOpens(pbs[..|pbs| - 1], tag) + BoneOpens(pbs[|pbs| - 1], tag)
  }

  /** How many pose bones have inverse kinematics. */
  function IkTotal(pbs: seq<PoseBone>): nat
    decreases |pbs|
  {
    if pbs == [] then 0 else IkTotal(pbs[..|pbs| - 1]) + (if pbs[|pbs| - 1].hasIK then 1 else 0)
  }

  /** How many constraints the pose bones have together. */
  function ConstTotal(pbs: seq<PoseBone>): nat
    decreases |pbs|
  {
    if pbs == [] then 0 else ConstTotal(pbs[..|pbs| - 1]) + |pbs[|pbs| - 1].constraints|
  }

  /** The tags the pose counts. */
  predicate PoseTag(tag: string)
  {
    tag == "pose" || tag == "pose_bone" || tag == "ik" || tag == "constraints" || tag == "const"
  }

  // ---- Properties -----------------------------------------------------------

  lemma IkCount(fmt: Fmt, pb: PoseBone, tag: string)
    requires PoseTag(tag)
    ensures CountTag(IkPart(fmt, pb), tag) == if tag == "ik" && pb.hasIK then 1 else 0
  {
    if pb.hasIK {
      var p := IkPart(fmt, pb);
      assert p == [p[0]] + p[1..];
      CountTagAppend([p[0]], p[1..], tag);
      CountTagOne(p[0], tag);
      CountTagAbsent(p[1..], tag);
    }
  }

  lemma ConstraintsCount(pb: PoseBone, tag: string)
    ensures CountTag(ConstraintsPart(pb), tag) ==
      (if tag == "constraints" && |pb.constraints| > 0 then 1 else 0)
        + (if tag == "const" then |pb.constraints| else 0)
  {
    if |pb.constraints| > 0 {
      var cells := ConstCells(pb.constraints);
      var one := if tag == "const" then 1 else 0;
      forall k | 0 <= k < |cells|
        ensures CountTag(cells[k], tag) == one
      {
        CountTagBlock("const", [], tag);
        assert [Open("const")] + [] + [Close()] == cells[k];
        assert CountTag([], tag) == 0;
      }
      CountTagConcat(cells, tag);
      CountTagUniform(cells, tag, one);
      CountTagBlock("constraints", Concat(cells), tag);
    }
  }

  /** A pose bone opens its block once, its `ik` block exactly when it has
      inverse kinematics, its `constraints` block exactly when it has
      constraints, and one `const` block per constraint. */
  lemma PoseBoneCount(fmt: Fmt, pb: PoseBone, tag: string)
    requires PoseTag(tag)
    ensures CountTag(PoseBoneItems(fmt, pb), tag) == BoneOpens(pb, tag)
  {
    var h := [Open("pose_bone"), PadField(" ", "name", Quote(pb.name))];
    var ik := IkPart(fmt, pb);
    var cs := ConstraintsPart(pb);
    CountTagAbsent(h[1..], tag);
    assert h == [h[0]] + h[1..];
    CountTagAppend([h[0]], h[1..], tag);
    CountTagOne(h[0], tag);
    IkCount(fmt, pb, tag);
    ConstraintsCount(pb, tag);
    CountTagAppend(h, ik, tag);
    CountTagAppend(h + ik, cs, tag);
    CountTagAppend(h + ik + cs, [Close()], tag);
    CountTagOne(Close(), tag);
  }

  /** The `ik` block, when written, holds the limits as grammar booleans and
      the locks as Python booleans, each true exactly when its flag is set. */
  lemma IkFlags(fmt: Fmt, pb: PoseBone)
    ensures pb.hasIK <==> |IkPart(fmt, pb)| > 0
    ensures pb.hasIK ==>
      var p := IkPart(fmt, pb);
      && |p| == 12
      && (p[1].value == "true" <==> pb.limitX) && (p[2].value == "true" <==> pb.limitY)
      && (p[3].value == "true" <==> pb.limitZ)
      && (p[6].value == "True" <==> pb.lockXRot) && (p[7].value == "True" <==> pb.lockYRot)
      && (p[8].value == "True" <==> pb.lockZRot)
  {
  }

  lemma PoseBoneCellsPrefix(fmt: Fmt, pbs: seq<PoseBone>)
    requires pbs != []
    ensures PoseBoneCells(fmt, pbs)[..|pbs| - 1] == PoseBoneCells(fmt, pbs[..|pbs| - 1])
  {
    var cells, pc := PoseBoneCells(fmt, pbs), PoseBoneCells(fmt, pbs[..|pbs| - 1]);
    forall k | 0 <= k < |pc|
      ensures cells[..|cells| - 1][k] == pc[k]
    {
      assert pc[k] == PoseBoneItems(fmt, pbs[k]);
    }
  }

  lemma PoseBoneCountAt(fmt: Fmt, pbs: seq<PoseBone>, k: nat, tag: string)
    requires k < |pbs| && PoseTag(tag)
    ensures CountTag(PoseBoneCells(fmt, pbs)[k], tag) == BoneOpens(pbs[k], tag)
  {
    PoseBoneCount(fmt, pbs[k], tag);
  }

  lemma BonesOpensLast(pbs: seq<PoseBone>, tag: string)
    requires pbs != []
    ensures BonesOpens(pbs, tag) == BonesOpens(pbs[..|pbs| - 1], tag) + BoneOpens(pbs[|pbs| - 1], tag)
  {
  }

  lemma {:induction false} PoseBonesCount(fmt: Fmt, pbs: seq<PoseBone>, tag: string)
    requires PoseTag(tag)
    ensures CountTagIn(PoseBoneCells(fmt, pbs), tag) == BonesOpens(pbs, tag)
    decreases |pbs|
  {
    if pbs != [] {
      var cells := PoseBoneCells(fmt, pbs);
      PoseBoneCellsPrefix(fmt, pbs);
      CountTagInLast(cells, tag);
      PoseBonesCount(fmt, pbs[..|pbs| - 1], tag);
      PoseBoneCountAt(fmt, pbs, |pbs| - 1, tag);
      BonesOpensLast(pbs, tag);
    }
  }

  lemma {:induction false} BonesOpensTotals(pbs: seq<PoseBone>)
    ensures BonesOpens(pbs, "pose") == 0
    ensures BonesOpens(pbs, "pose_bone") == |pbs|
    ensures BonesOpens(pbs, "ik") == IkTotal(pbs)
    ensures BonesOpens(pbs, "const") == ConstTotal(pbs)
    decreases |pbs|
  {
    if pbs != [] {
      BonesOpensTotals(pbs[..|pbs| - 1]);
    }
  }

  lemma PoseTagCount(fmt: Fmt, pbs: seq<PoseBone>, tag: string)
    requires PoseTag(tag)
    ensures CountTag(PoseItems(fmt, pbs), tag) == (if tag == "pose" then 1 else 0) + BonesOpens(pbs, tag)
  {
    PoseBonesCount(fmt, pbs, tag);
    CountTagConcat(PoseBoneCells(fmt, pbs), tag);
    CountTagBlock("pose", Concat(PoseBoneCells(fmt, pbs)), tag);
  }

  /** A pose writes one `pose` block, one `pose_bone` block per pose bone,
      one `ik` block per bone with inverse kinematics and one `const` block
      per constraint. */
  lemma PoseCounts(fmt: Fmt, pbs: seq<PoseBone>)
    ensures CountTag(PoseItems(fmt, pbs), "pose") == 1
    ensures CountTag(PoseItems(fmt, pbs), "pose_bone") == |pbs|
    ensures CountTag(PoseItems(fmt, pbs), "ik") == IkTotal(pbs)
    ensures CountTag(PoseItems(fmt, pbs), "const") == ConstTotal(pbs)
  {
    BonesOpensTotals(pbs);
    PoseTagCount(fmt, pbs, "pose");
    PoseTagCount(fmt, pbs, "pose_bone");
    PoseTagCount(fmt, pbs, "ik");
    PoseTagCount(fmt, pbs, "const");
  }
}
