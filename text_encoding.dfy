/** The `(text3d ...)` block: the text and its frame, the alignment word
    (an alignment outside the table raises), then the bevel, extrusion, font
    and layout settings. */
module TextEncoding {
  import opened Wrappers
  import opened Sexp
  import opened Numerals
  import opened BlendData
  import opened HostTables
  import opened Common

  function TextHead(fmt: Fmt, t: Text3d): seq<Item>
  {
    [Open("text3d"),
     Field("text", Quote(t.text)),
     Field("shear", fmt(t.shear)),
     Field("total_frames", IntText(t.totalFrames)),
     Field("frame_height", fmt(t.frameHeight)),
     Field("frame_width", fmt(t.frameWidth)),
     Field("frame_xy", G2(fmt, t.frameX, t.frameY))]
  }

  /** Everything after the alignment line; the block ends without a
      newline. */
  function TextTail(fmt: Fmt, t: Text3d): seq<Item>
  {
    [Field("bevel_amount", fmt(t.bevelAmount)),
     Field("extrude_bevel_depth", fmt(t.extrudeBevelDepth)),
     Field("extrude_depth", fmt(t.extrudeDepth)),
     Field("getFont", Quote(t.fontFile)),
     Field("width", fmt(t.width)),
     Field("size", fmt(t.size)),
     Field("spacing", fmt(t.spacing)),
     Field("xy_offset", G2(fmt, t.xoffset, t.yoffset)),
     Field("line_separation", fmt(t.lineSeparation)),
     Raw(")")]
  }

  /** The text block, or its head and the failed alignment lookup. */
  function TextEmit(fmt: Fmt, t: Text3d): Emit
  {
    if t.alignment !in Alignments then Emit(TextHead(fmt, t), Some(UnmappedAlignment(t.alignment)))
    else Emit(TextHead(fmt, t) + [Field("alignment", Alignments[t.alignment])] + TextTail(fmt, t), None)
  }

  // ---- Properties -----------------------------------------------------------

  /** The text block raises exactly when the alignment is not in the table,
      and then after the head.  The text is written between quotes at the
      second write, so that a reader gets it back; a complete block has its
      alignment word, which leads back to the alignment, at the eighth write
      and the font's file name between quotes at the twelfth. */
  lemma TextOutcome(fmt: Fmt, t: Text3d)
    ensures var r := TextEmit(fmt, t);
      && (r.error.Some? <==> t.alignment !in Alignments)
      && (r.error.Some? ==> r == Emit(TextHead(fmt, t), Some(UnmappedAlignment(t.alignment))))
      && r.items[1].tag == "text" && Unquote(r.items[1].value) == t.text
      && (r.error.None? ==>
            && |r.items| == 18
            && r.items[7].tag == "alignment" && KeyOf(Alignments, r.items[7].value) == Some(t.alignment)
            && r.items[11].tag == "getFont" && Unquote(r.items[11].value) == t.fontFile
            && r.items[17] == Raw(")"))
  {
    AlignmentsInjective();
    KeyOfRoundTrip(Alignments, t.alignment, "");
  }
}
