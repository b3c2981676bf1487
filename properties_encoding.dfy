/** The `(game_properties ...)` block: one `(property ...)` block per
    game-logic property, holding its name, its type's name and its value,
    written as the type says. */
module PropertiesEncoding {
  import opened Sexp
  import opened Numerals
  import opened BlendData
  import opened Common

  /** The value field's text, chosen by the property's type: integers as
      numerals, floats and times through `%g`, strings between quotes,
      booleans in the grammar's words, and anything else as the text `str`
      made of it, between quotes. */
  function DataText(fmt: Fmt, v: PropValue): string
  {
    match v
    case IntProp(i) => IntText(i)
    case FloatProp(f) => fmt(f)
    case StringProp(s) => Quote(s)
    case BoolProp(b) => BoolText(b)
    case TimeProp(t) => fmt(t)
    case OtherProp(_, shown) => Quote(shown)
  }

  function PropertyItems(fmt: Fmt, p: Property): seq<Item>
  {
    [Open("property"),
     Field("name", Quote(p.name)),
     Field("type", Quote(PropTypeName(p.value))),
     Field("data", DataText(fmt, p.value)),
     Close()]
  }

  function PropertyCells(fmt: Fmt, ps: seq<Property>): (r: seq<seq<Item>>)
    ensures |r| == |ps|
    ensures forall k :: 0 <= k < |ps| ==> r[k] == PropertyItems(fmt, ps[k])
  {
    seq(|ps|, k requires 0 <= k < |ps| => PropertyItems(fmt, ps[k]))
  }

  function PropertiesItems(fmt: Fmt, ps: seq<Property>): seq<Item>
  {
    [Open("game_properties")] + Concat(PropertyCells(fmt, ps)) + [Close()]
  }

  // ---- Properties -----------------------------------------------------------

  /** A reader gets back the property's name and its type's name from
      between the quotes, and its value from the value field for integers,
      strings and booleans; for a type the exporter does not know, the text
      between the quotes is what `str` made of the value. */
  lemma PropertyReadBack(fmt: Fmt, p: Property)
    ensures var it := PropertyItems(fmt, p);
      && Unquote(it[1].value) == p.name
      && Unquote(it[2].value) == PropTypeName(p.value)
      && (p.value.IntProp? ==> ParseInt(it[3].value) == p.value.i)
      && (p.value.StringProp? ==> Unquote(it[3].value) == p.value.s)
      && (p.value.BoolProp? ==> (it[3].value == "true" <==> p.value.b) && (it[3].value == "false" <==> !p.value.b))
      && (p.value.OtherProp? ==> Unquote(it[3].value) == p.value.shown)
  {
    if p.value.IntProp? {
      IntTextRoundTrip(p.value.i);
    }
  }

  /** Every property block opens each of its four tags once. */
  lemma PropertyCount(fmt: Fmt, p: Property, tag: string)
    ensures CountTag(PropertyItems(fmt, p), tag) ==
      (if tag == "property" || tag == "name" || tag == "type" || tag == "data" then 1 else 0)
  {
    var it := PropertyItems(fmt, p);
    var body := it[1..4];
    assert it == [Open("property")] + body + [Close()];
    CountTagBlock("property", body, tag);
    assert body == [body[0]] + [body[1]] + [body[2]];
    CountTagAppend([body[0]], [body[1]], tag);
    CountTagAppend([body[0]] + [body[1]], [body[2]], tag);
    CountTagOne(body[0], tag);
    CountTagOne(body[1], tag);
    CountTagOne(body[2], tag);
  }

  /** The block holds one property block, one name, one type and one value
      per property, and opens `game_properties` once. */
  lemma PropertiesCount(fmt: Fmt, ps: seq<Property>, tag: string)
    ensures CountTag(PropertiesItems(fmt, ps), tag) ==
      (if tag == "game_properties" then 1 else 0)
        + (if tag == "property" || tag == "name" || tag == "type" || tag == "data" then |ps| else 0)
  {
    var cells := PropertyCells(fmt, ps);
    var one := if tag == "property" || tag == "name" || tag == "type" || tag == "data" then 1 else 0;
    forall k | 0 <= k < |cells|
      ensures CountTag(cells[k], tag) == one
    {
      PropertyCount(fmt, ps[k], tag);
    }
    CountTagConcat(cells, tag);
    CountTagUniform(cells, tag, one);
    CountTagBlock("game_properties", Concat(cells), tag);
  }
}
