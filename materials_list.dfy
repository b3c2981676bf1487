/** The `(materials ...)` list and its registry of material names.  The
    list is stated over any block encoder `block`, so that what is proved here
    does not depend on the content of a block; the exporter uses
    `MaterialEncoding.Block(fmt)`. */
module MaterialsList {
  import opened Wrappers
  import opened Sexp
  import opened BlendData
  import opened Common
  import opened Dedup

  /** The names of the materials, in list order. */
  function Names(ms: seq<Material>): (r: seq<string>)
    ensures |r| == |ms|
    ensures forall i :: 0 <= i < |ms| ==> r[i] == ms[i].name
  {
    seq(|ms|, i requires 0 <= i < |ms| => ms[i].name)
  }

  /** A later occurrence of a registered material. */
  function UseMaterial(m: Material): Item { Field("use_material", Quote(m.name)) }

  /** One turn of the loop, from registry `seen`: a registered name is
      referred to; a new one is registered, then written in full. */
  function MaterialEntry(block: Material -> Emit, seen: set<string>, m: Material): Run
  {
    if m.name in seen then Run(Emit([UseMaterial(m)], None), seen)
    else Run(block(m), seen + {m.name})
  }

  /** The loop of the materials list over `ms`, starting from registry
      `seen`; once a block raises, the loop stops. */
  function MaterialsBody(block: Material -> Emit, ms: seq<Material>, seen: set<string>): Run
    decreases |ms|
  {
    if ms == [] then Run(Emit([], None), seen)
    else
      var r := MaterialsBody(block, ms[..|ms| - 1], seen);
      if r.emit.error.Some? then r
      else
        var e := MaterialEntry(block, r.seen, ms[|ms| - 1]);
        Run(Emit(r.emit.items + e.emit.items, e.emit.error), e.seen)
  }

  /** The whole `(materials ...)` list. */
  function MaterialsRun(block: Material -> Emit, ms: seq<Material>, seen: set<string>): Run
  {
    var b := MaterialsBody(block, ms, seen);
    if b.emit.error.Some? then Run(Emit([Open("materials")] + b.emit.items, b.emit.error), b.seen)
    else Run(Emit([Open("materials")] + b.emit.items + [Close()], None), b.seen)
  }

  /** One step of the loop, as the loop in the exporter takes it. */
  lemma MaterialsBodySnoc(block: Material -> Emit, ms: seq<Material>, seen: set<string>, i: nat)
    requires i < |ms|
    ensures MaterialsBody(block, ms[..i + 1], seen) ==
      var r := MaterialsBody(block, ms[..i], seen);
      if r.emit.error.Some? then r
      else
        var e := MaterialEntry(block, r.seen, ms[i]);
        Run(Emit(r.emit.items + e.emit.items, e.emit.error), e.seen)
  {
    assert ms[..i + 1][..i] == ms[..i];
  }

  /** After a block raises, the rest of the list changes nothing. */
  lemma {:induction false} MaterialsBodyStops(block: Material -> Emit, ms: seq<Material>, seen: set<string>, k: nat)
    requires k <= |ms|
    requires MaterialsBody(block, ms[..k], seen).emit.error.Some?
    ensures MaterialsBody(block, ms, seen) == MaterialsBody(block, ms[..k], seen)
    decreases |ms| - k
  {
    if k < |ms| {
      var p := ms[..|ms| - 1];
      assert p[..k] == ms[..k];
      MaterialsBodyStops(block, p, seen, k);
    } else {
      assert ms[..k] == ms;
    }
  }

  /** The entry the list writes for index `k`, stated without a registry: the
      full block at the first occurrence of the name, a reference after. */
  function EntryByFirst(block: Material -> Emit, seen: set<string>, ms: seq<Material>, k: nat): seq<Item>
    requires k < |ms|
  {
    if FirstOccurrence(seen, Names(ms), k) then block(ms[k]).items else [UseMaterial(ms[k])]
  }

  function EntriesByFirst(block: Material -> Emit, seen: set<string>, ms: seq<Material>, n: nat): seq<Item>
    requires n <= |ms|
    decreases n
  {
    if n == 0 then [] else EntriesByFirst(block, seen, ms, n - 1) + EntryByFirst(block, seen, ms, n - 1)
  }

  /** The names of one more material of the list. */
  lemma NamesPrefixSnoc(ms: seq<Material>, k: nat)
    requires k < |ms|
    ensures Elems(Names(ms)[..k + 1]) == Elems(Names(ms)[..k]) + {ms[k].name}
  {
    var ns := Names(ms);
    assert ns[..k + 1] == ns[..k] + [ns[k]];
    ElemsAppend(ns[..k], [ns[k]]);
    assert Elems([ns[k]]) == {ns[k]};
  }

  /** A list whose blocks all succeed writes each new material name in full
      exactly at its first occurrence in list order and refers to it at every
      later one, and the registry ends as the old one plus all names. */
  lemma {:induction false} MaterialsFirstOccurrence(block: Material -> Emit, ms: seq<Material>, seen: set<string>, n: nat)
    requires n <= |ms|
    requires MaterialsBody(block, ms[..n], seen).emit.error == None
    ensures MaterialsBody(block, ms[..n], seen).emit.items == EntriesByFirst(block, seen, ms, n)
    ensures MaterialsBody(block, ms[..n], seen).seen == seen + Elems(Names(ms)[..n])
    decreases n
  {
    if n > 0 {
      var k := n - 1;
      MaterialsBodySnoc(block, ms, seen, k);
      MaterialsFirstOccurrence(block, ms, seen, k);
      FirstOccurrenceRegistry(seen, Names(ms), k);
      NamesPrefixSnoc(ms, k);
    } else {
      assert Names(ms)[..0] == [];
    }
  }

  /** The registry only grows, and gains only names from the list. */
  lemma {:induction false} MaterialsRegistryGrows(block: Material -> Emit, ms: seq<Material>, seen: set<string>)
    ensures seen <= MaterialsBody(block, ms, seen).seen <= seen + Elems(Names(ms))
    decreases |ms|
  {
    if ms != [] {
      var p := ms[..|ms| - 1];
      MaterialsRegistryGrows(block, p, seen);
      assert Names(p) == Names(ms)[..|ms| - 1];
      assert Elems(Names(p)) <= Elems(Names(ms));
    }
  }

  /** The materials list as a whole: opened and, unless a block raised,
      closed; the registry after it was a superset of the one before. */
  lemma MaterialsRunShape(block: Material -> Emit, ms: seq<Material>, seen: set<string>)
    ensures var r := MaterialsRun(block, ms, seen);
      && r.emit.items[0] == Open("materials")
      && seen <= r.seen
      && (r.emit.error == None ==> r.emit.items[|r.emit.items| - 1] == Close() && r.seen == seen + Elems(Names(ms)))
  {
    MaterialsRegistryGrows(block, ms, seen);
    if MaterialsBody(block, ms, seen).emit.error == None {
      TakeAll(ms);
      MaterialsFirstOccurrence(block, ms, seen, |ms|);
      assert Names(ms)[..|ms|] == Names(ms);
    }
  }
}
