/** The `(metaball ...)` block: the metaball's settings, its materials list,
    then one `(element ...)` block per element, whose type word comes from
    the metaball-type table; a type outside the table raises once that
    element's block is open. */
module MetaballEncoding {
  import opened Wrappers
  import opened Sexp
  import opened BlendData
  import opened HostTables
  import opened Common
  import opened MaterialsList

  function MetaHead(fmt: Fmt, mb: Metaball): seq<Item>
  {
    [Open("metaball"),
     Field("wiresize", fmt(mb.wiresize)),
     Field("rendersize", fmt(mb.rendersize)),
     Field("thresh", fmt(mb.thresh))]
  }

  /** An element's fields after its type line, and the element's close. */
  function ElementFields(fmt: Fmt, e: MetaElement): seq<Item>
  {
    [Field("radius", fmt(e.radius)),
     Field("coords", G3(fmt, e.co)),
     Field("dims", G3(fmt, e.dims)),
     Field("quat", G4(fmt, e.quat)),
     Field("stiffness", fmt(e.stiffness)),
     Close()]
  }

  /** One element: opened, then its type looked up, then its fields. */
  function ElementEmit(fmt: Fmt, e: MetaElement): Emit
  {
    if e.typ !in MetaballTypes then Emit([Open("element")], Some(UnmappedMetaballType(e.typ)))
    else Emit([Open("element"), Field("type", MetaballTypes[e.typ])] + ElementFields(fmt, e), None)
  }

  /** The loop over the elements; once an element raises, the loop stops. */
  function ElementsBody(fmt: Fmt, es: seq<MetaElement>): Emit
    decreases |es|
  {
    if es == [] then Emit([], None)
    else
      var r := ElementsBody(fmt, es[..|es| - 1]);
      if r.error.Some? then r
      else
        var e := ElementEmit(fmt, es[|es| - 1]);
        Emit(r.items + e.items, e.error)
  }

  /** The whole metaball block, from material registry `seen`; it ends
      without a newline. */
  function MetaballRun(fmt: Fmt, block: Material -> Emit, mb: Metaball, seen: set<string>): Run
  {
    var m := MaterialsRun(block, mb.materials, seen);
    if m.emit.error.Some? then Run(Emit(MetaHead(fmt, mb) + m.emit.items, m.emit.error), m.seen)
    else
      var b := ElementsBody(fmt, mb.elements);
      if b.error.Some? then Run(Emit(MetaHead(fmt, mb) + m.emit.items + b.items, b.error), m.seen)
      else Run(Emit(MetaHead(fmt, mb) + m.emit.items + b.items + [Raw(")")], None), m.seen)
  }

  // ---- Reference: the first element whose type is not in the table ---------

  function FirstUnmapped(es: seq<MetaElement>): (r: Option<nat>)
    ensures r.None? <==> forall k :: 0 <= k < |es| ==> es[k].typ in MetaballTypes
    ensures r.Some? ==>
      r.value < |es| && es[r.value].typ !in MetaballTypes
      && forall j :: 0 <= j < r.value ==> es[j].typ in MetaballTypes
    decreases |es|
  {
    if es == [] then None
    else
      var p := FirstUnmapped(es[..|es| - 1]);
      assert forall k :: 0 <= k < |es| - 1 ==> es[..|es| - 1][k] == es[k];
      if p.Some? then p
      else if es[|es| - 1].typ !in MetaballTypes then Some(|es| - 1)
      else None
  }

  // ---- Properties -----------------------------------------------------------

  /** One step of the loop, as the loop in the exporter takes it. */
  lemma ElementsBodySnoc(fmt: Fmt, es: seq<MetaElement>, i: nat)
    requires i < |es|
    ensures ElementsBody(fmt, es[..i + 1]) ==
      var r := ElementsBody(fmt, es[..i]);
      if r.error.Some? then r
      else
        var e := ElementEmit(fmt, es[i]);
        Emit(r.items + e.items, e.error)
  {
    assert es[..i + 1][..i] == es[..i];
  }

  /** After an element raises, the rest of the elements change nothing. */
  lemma {:induction false} ElementsBodyStops(fmt: Fmt, es: seq<MetaElement>, k: nat)
    requires k <= |es|
    requires ElementsBody(fmt, es[..k]).error.Some?
    ensures ElementsBody(fmt, es) == ElementsBody(fmt, es[..k])
    decreases |es| - k
  {
    if k < |es| {
      var p := es[..|es| - 1];
      assert p[..k] == es[..k];
      ElementsBodyStops(fmt, p, k);
    } else {
      assert es[..k] == es;
    }
  }

  /** An element raises exactly when its type is not in the table, right
      after opening its block; otherwise its `type` word leads a reader back
      to the element's type.  Either way it opens one `element` block, and
      it writes one `type` field exactly when it does not raise. */
  lemma ElementOutcome(fmt: Fmt, e: MetaElement)
    ensures var r := ElementEmit(fmt, e);
      && (r.error.Some? <==> e.typ !in MetaballTypes)
      && (r.error.Some? ==> r == Emit([Open("element")], Some(UnmappedMetaballType(e.typ))))
      && (r.error.None? ==> r.items[1].tag == "type" && KeyOf(MetaballTypes, r.items[1].value) == Some(e.typ))
      && CountTag(r.items, "element") == 1
      && CountTag(r.items, "type") == (if r.error.None? then 1 else 0)
  {
    var r := ElementEmit(fmt, e);
    MetaballTypesInjective();
    KeyOfRoundTrip(MetaballTypes, e.typ, "");
    CountTagOne(Open("element"), "element");
    CountTagOne(Open("element"), "type");
    if e.typ in MetaballTypes {
      var f := Field("type", MetaballTypes[e.typ]);
      var rest := ElementFields(fmt, e);
      assert r.items == [Open("element")] + ([f] + rest);
      CountTagAppend([Open("element")], [f] + rest, "element");
      CountTagAppend([Open("element")], [f] + rest, "type");
      CountTagAppend([f], rest, "element");
      CountTagAppend([f], rest, "type");
      CountTagOne(f, "element");
      CountTagOne(f, "type");
      CountTagAbsent(rest, "element");
      CountTagAbsent(rest, "type");
    }
  }

  /** The elements loop against the reference: with every type in the table
      it writes all elements in full; otherwise it raises for the first
      element whose type is missing, having written every element before it
      in full and opened that one's block. */
  lemma {:induction false} ElementsOutcome(fmt: Fmt, es: seq<MetaElement>)
    ensures var r := ElementsBody(fmt, es);
      match FirstUnmapped(es)
      case None =>
        r.error == None && CountTag(r.items, "element") == |es| && CountTag(r.items, "type") == |es|
      case Some(k) =>
        && r.error == Some(UnmappedMetaballType(es[k].typ))
        && r.items == ElementsBody(fmt, es[..k]).items + [Open("element")]
        && CountTag(r.items, "element") == k + 1 && CountTag(r.items, "type") == k
    decreases |es|
  {
    if es != [] {
      var p := es[..|es| - 1];
      var last := es[|es| - 1];
      ElementsOutcome(fmt, p);
      ElementOutcome(fmt, last);
      var r := ElementsBody(fmt, p);
      match FirstUnmapped(p)
      case None =>
        CountTagAppend(r.items, ElementEmit(fmt, last).items, "element");
        CountTagAppend(r.items, ElementEmit(fmt, last).items, "type");
        if last.typ !in MetaballTypes {
          assert p == es[..|es| - 1];
        }
      case Some(k) =>
        assert p[..k] == es[..k];
    }
  }

  /** The metaball block raises with its materials list's error if that
      raised, else with its elements' error; the registry after it is the
      one the materials list leaves.  A complete block is the head, the
      list, the elements and the close. */
  lemma MetaballRunShape(fmt: Fmt, block: Material -> Emit, mb: Metaball, seen: set<string>)
    ensures var r := MetaballRun(fmt, block, mb, seen);
      var m := MaterialsRun(block, mb.materials, seen);
      var b := ElementsBody(fmt, mb.elements);
      && r.emit.items[..4] == MetaHead(fmt, mb)
      && r.seen == m.seen
      && r.emit.error == (if m.emit.error.Some? then m.emit.error else b.error)
      && (r.emit.error == None <==> m.emit.error == None && FirstUnmapped(mb.elements) == None)
      && (r.emit.error == None ==> r.emit.items == MetaHead(fmt, mb) + m.emit.items + b.items + [Raw(")")])
  {
    ElementsOutcome(fmt, mb.elements);
  }
}
