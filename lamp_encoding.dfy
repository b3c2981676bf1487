/** The `(lamp ...)` block: colour, shadow and clipping settings, the mode
    bits and whether the shadow bit is set, the falloff word (a code outside
    the falloff table raises), the type's name, and the spot or area
    settings for those two types. */
module LampEncoding {
  import opened Wrappers
  import opened Sexp
  import opened Numerals
  import opened BlendData
  import opened HostTables
  import opened Common

  /** Whether the lamp's mode has the shadows bit. */
  function HasShadows(l: Lamp): bool
  {
    BitAnd(l.mode, SHADOWS_MODE) != 0
  }

  function LampHead(fmt: Fmt, l: Lamp): seq<Item>
  {
    [Open("lamp"),
     Field("lamp_color", fmt(l.r) + " " + fmt(l.g) + " " + fmt(l.b)),
     Field("bias", fmt(l.bias)),
     Field("softness", fmt(l.softness)),
     Field("clip_start", fmt(l.clipStart)),
     Field("clip_end", fmt(l.clipEnd)),
     Field("energy", fmt(l.energy)),
     Field("modes", IntText(l.mode)),
     Field("shadows", BoolText(HasShadows(l)))]
  }

  /** The loop over the host's lamp-type dictionary: a `lamp_type` line for
      every entry whose code is the lamp's type. */
  function LampTypeLines(entries: seq<(string, int)>, typ: int): seq<Item>
    decreases |entries|
  {
    if entries == [] then []
    else
      var last := entries[|entries| - 1];
      LampTypeLines(entries[..|entries| - 1], typ)
        + (if last.1 == typ then [Field("lamp_type", Quote(last.0))] else [])
  }

  function SpotPart(fmt: Fmt, l: Lamp): seq<Item>
  {
    if l.typ == LAMP_SPOT then [Field("spot_blend", fmt(l.spotBlend)), Field("spot_size", fmt(l.spotSize))] else []
  }

  function AreaPart(fmt: Fmt, l: Lamp): seq<Item>
  {
    if l.typ == LAMP_AREA then [Field("area_size", G2(fmt, l.areaSizeX, l.areaSizeY))] else []
  }

  /** Everything after the falloff line; the block ends without a newline. */
  function LampTail(fmt: Fmt, l: Lamp): seq<Item>
  {
    LampTypeLines(LampTypes, l.typ) + SpotPart(fmt, l) + AreaPart(fmt, l) + [Raw(")")]
  }

  /** The lamp block, or the head and the failed falloff lookup. */
  function LampEmit(fmt: Fmt, l: Lamp): Emit
  {
    if l.falloffType !in Falloffs then Emit(LampHead(fmt, l), Some(UnmappedFalloff(l.falloffType)))
    else Emit(LampHead(fmt, l) + [Field("falloff_type", Falloffs[l.falloffType])] + LampTail(fmt, l), None)
  }

  // ---- Properties -----------------------------------------------------------

  /** The shadows field says `true` exactly when the mode is odd, that is
      when its lowest bit, the shadows bit, is set. */
  lemma ShadowsIff(fmt: Fmt, l: Lamp)
    ensures LampHead(fmt, l)[8] == Field("shadows", "true") <==> l.mode % 2 == 1
    ensures LampHead(fmt, l)[8] == Field("shadows", "false") <==> l.mode % 2 == 0
  {
    ShadowsBit(l.mode);
  }

  /** The lamp raises exactly when its falloff code is not in the table, and
      then after the head; otherwise the falloff word it writes leads a
      reader back to the code. */
  lemma FalloffOutcome(fmt: Fmt, l: Lamp)
    ensures LampEmit(fmt, l).error.Some? <==> l.falloffType !in Falloffs
    ensures LampEmit(fmt, l).error.Some? ==>
      LampEmit(fmt, l) == Emit(LampHead(fmt, l), Some(UnmappedFalloff(l.falloffType)))
    ensures LampEmit(fmt, l).error.None? ==>
      var f := LampEmit(fmt, l).items[9];
      f.PadField? && f.tag == "falloff_type" && KeyOf(Falloffs, f.value) == Some(l.falloffType)
  {
    FalloffsInjective();
    KeyOfRoundTrip(Falloffs, l.falloffType, "");
  }

  /** With codes that are pairwise distinct, the lamp-type loop writes the
      one name whose code is the lamp's type, and nothing when no entry has
      that code. */
  lemma {:induction false} LampTypeLinesExact(entries: seq<(string, int)>, typ: int)
    requires forall i, j :: 0 <= i < j < |entries| ==> entries[i].1 != entries[j].1
    ensures forall k :: 0 <= k < |entries| && entries[k].1 == typ ==>
      LampTypeLines(entries, typ) == [Field("lamp_type", Quote(entries[k].0))]
    ensures (forall k :: 0 <= k < |entries| ==> entries[k].1 != typ) ==> LampTypeLines(entries, typ) == []
    decreases |entries|
  {
    if entries != [] {
      var p := entries[..|entries| - 1];
      LampTypeLinesExact(p, typ);
      var last := entries[|entries| - 1];
      if last.1 == typ {
        assert forall k :: 0 <= k < |p| ==> p[k].1 != typ by {
          forall k | 0 <= k < |p|
            ensures p[k].1 != typ
          {
            assert entries[k].1 != entries[|entries| - 1].1;
          }
        }
      } else {
        forall k | 0 <= k < |entries| && entries[k].1 == typ
          ensures LampTypeLines(entries, typ) == [Field("lamp_type", Quote(entries[k].0))]
        {
          assert k < |p| && p[k] == entries[k];
        }
      }
    }
  }

  /** The host's lamp types: the lamp's type name is written once when its
      code is one of the table's, and no name is written otherwise. */
  lemma LampTypeOnce(l: Lamp)
    ensures forall k :: 0 <= k < |LampTypes| && LampTypes[k].1 == l.typ ==>
      LampTypeLines(LampTypes, l.typ) == [Field("lamp_type", Quote(LampTypes[k].0))]
    ensures (forall k :: 0 <= k < |LampTypes| ==> LampTypes[k].1 != l.typ) ==> LampTypeLines(LampTypes, l.typ) == []
  {
    LampTypeCodesDistinct();
    LampTypeLinesExact(LampTypes, l.typ);
  }

  lemma {:induction false} LampTypeLinesTags(entries: seq<(string, int)>, typ: int)
    ensures Tags(LampTypeLines(entries, typ)) <= {"lamp_type"}
    decreases |entries|
  {
    if entries != [] {
      var p := entries[..|entries| - 1];
      var last := entries[|entries| - 1];
      LampTypeLinesTags(p, typ);
      var x := if last.1 == typ then [Field("lamp_type", Quote(last.0))] else [];
      TagsAppend(LampTypeLines(p, typ), x);
      if last.1 == typ {
        TagsOfOne(x[0]);
      }
    }
  }

  lemma LampHeadTags(fmt: Fmt, l: Lamp)
    ensures Tags(LampHead(fmt, l)) ==
      {"lamp", "lamp_color", "bias", "softness", "clip_start", "clip_end", "energy", "modes", "shadows"}
  {
    var h := LampHead(fmt, l);
    assert forall t :: t in Tags(h) <==> exists k :: 0 <= k < |h| && !h[k].Raw? && h[k].tag == t;
    assert h[0].tag == "lamp" && h[1].tag == "lamp_color" && h[2].tag == "bias";
    assert h[3].tag == "softness" && h[4].tag == "clip_start" && h[5].tag == "clip_end";
    assert h[6].tag == "energy" && h[7].tag == "modes" && h[8].tag == "shadows";
  }

  /** The tags of the lamp block apart from the head and the type name. */
  lemma LampTailTags(fmt: Fmt, l: Lamp)
    ensures Tags(LampTail(fmt, l)) - {"lamp_type"} ==
      (if l.typ == LAMP_SPOT then {"spot_blend", "spot_size"} else {})
      + (if l.typ == LAMP_AREA then {"area_size"} else {})
  {
    var a := LampTypeLines(LampTypes, l.typ);
    var s := SpotPart(fmt, l);
    var r := AreaPart(fmt, l);
    LampTypeLinesTags(LampTypes, l.typ);
    TagsAppend(a, s);
    TagsAppend(a + s, r);
    TagsAppend(a + s + r, [Raw(")")]);
    TagsOfOne(Raw(")"));
    if l.typ == LAMP_SPOT {
      assert s == [s[0]] + [s[1]];
      TagsAppend([s[0]], [s[1]]);
      TagsOfOne(s[0]);
      TagsOfOne(s[1]);
    }
    if l.typ == LAMP_AREA {
      TagsOfOne(r[0]);
    }
  }

  /** The tags of a lamp block that did not raise, besides its type name. */
  function LampTagSet(typ: int): set<string>
  {
    {"lamp", "lamp_color", "bias", "softness", "clip_start", "clip_end", "energy", "modes", "shadows", "falloff_type"}
      + (if typ == LAMP_SPOT then {"spot_blend", "spot_size"} else {})
      + (if typ == LAMP_AREA then {"area_size"} else {})
  }

  lemma LampTags(fmt: Fmt, l: Lamp)
    requires l.falloffType in Falloffs
    ensures Tags(LampEmit(fmt, l).items) - {"lamp_type"} == LampTagSet(l.typ)
  {
    var h := LampHead(fmt, l);
    var f := Field("falloff_type", Falloffs[l.falloffType]);
    LampHeadTags(fmt, l);
    LampTailTags(fmt, l);
    TagsAppend(h, [f]);
    TagsOfOne(f);
    TagsAppend(h + [f], LampTail(fmt, l));
  }

  lemma LampTagSetFacts(typ: int)
    ensures "spot_blend" in LampTagSet(typ) <==> typ == LAMP_SPOT
    ensures "spot_size" in LampTagSet(typ) <==> typ == LAMP_SPOT
    ensures "area_size" in LampTagSet(typ) <==> typ == LAMP_AREA
    ensures var head := {"lamp", "lamp_color", "bias", "softness", "clip_start", "clip_end", "energy", "modes", "shadows"};
      "spot_blend" !in head && "spot_size" !in head && "area_size" !in head
  {
  }

  /** A spot lamp, and only it, has its blend and size written, unless its
      falloff lookup raised first. */
  lemma SpotIff(fmt: Fmt, l: Lamp)
    ensures "spot_blend" in Tags(LampEmit(fmt, l).items) <==> l.falloffType in Falloffs && l.typ == LAMP_SPOT
    ensures "spot_size" in Tags(LampEmit(fmt, l).items) <==> l.falloffType in Falloffs && l.typ == LAMP_SPOT
  {
    LampTagSetFacts(l.typ);
    if l.falloffType in Falloffs {
      LampTags(fmt, l);
    } else {
      LampHeadTags(fmt, l);
    }
  }

  /** An area lamp, and only it, has its size written, unless its falloff
      lookup raised first. */
  lemma AreaIff(fmt: Fmt, l: Lamp)
    ensures "area_size" in Tags(LampEmit(fmt, l).items) <==> l.falloffType in Falloffs && l.typ == LAMP_AREA
  {
    LampTagSetFacts(l.typ);
    if l.falloffType in Falloffs {
      LampTags(fmt, l);
    } else {
      LampHeadTags(fmt, l);
    }
  }
}
