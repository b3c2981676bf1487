/** The output grammar: a sink is a sequence of writes, each write an `Item`
    whose characters are `Render(item)`.  A `Tagged` item is a write that opens
    a parenthesised block, `pad + "(" + tag + rest`; a `PadField` is a whole
    one-line field, `pad + "(" + tag + " " + value + ")"` and a newline; every
    other write is `Raw`.  Alongside the writer's view this module gives the reader's view
    (`TagOf`, the tag a parser sees at the start of a write) and proves the two
    agree. */
module Sexp {

  datatype Item =
    | Tagged(pad: string, tag: string, rest: string)
    | PadField(pad: string, tag: string, value: string)
    | Raw(text: string)

  /** The exact characters of one write. */
  function Render(it: Item): string
  {
    match it
    case Tagged(pad, tag, rest) => pad + "(" + tag + rest
    case PadField(pad, tag, value) => pad + "(" + tag + " " + value + ")\n"
    case Raw(text) => text
  }

  /** The characters of a sequence of writes, in write order. */
  function Text(items: seq<Item>): string
    decreases |items|
  {
    if items == [] then "" else Text(items[..|items| - 1]) + Render(items[|items| - 1])
  }

  lemma {:induction false} TextAppend(a: seq<Item>, b: seq<Item>)
    ensures Text(a + b) == Text(a) + Text(b)
    decreases |b|
  {
    if b == [] {
      assert a + b == a;
    } else {
      var b' := b[..|b| - 1];
      var x := b[|b| - 1];
      assert (a + b)[..|a + b| - 1] == a + b';
      assert (a + b)[|a + b| - 1] == x;
      assert Text(a + b) == Text(a + b') + Render(x);
      assert Text(b) == Text(b') + Render(x);
      TextAppend(a, b');
      AppendAssoc(Text(a), Text(b'), Render(x));
    }
  }

  /** Taking the whole of a sequence gives it back. */
  lemma TakeAll<T>(s: seq<T>)
    ensures s[..|s|] == s
  {
  }

  /** Regrouping consecutive writes. */
  lemma AppendAssoc<T>(a: seq<T>, b: seq<T>, c: seq<T>)
    ensures a + b + c == a + (b + c)
  {
  }

  // ---- The shapes of write used by the encoders -----------------------------

  /** `(tag` and a newline: opens a block. */
  function Open(tag: string): Item { Tagged("", tag, "\n") }

  /** `(tag (` and a newline: opens a block whose body is a parenthesised list. */
  function OpenList(tag: string): Item { Tagged("", tag, " (\n") }

  /** `(tag value)` and a newline: a one-line field. */
  function Field(tag: string, value: string): Item { PadField("", tag, value) }

  /** `)` and a newline: closes a block. */
  function Close(): Item { Raw(")\n") }

  /** `))` and a newline: closes a list block. */
  function CloseList(): Item { Raw("))\n") }

  /** A string literal as the source writes it: between double quotes, with no
      escaping of the content. */
  function Quote(s: string): (r: string)
    ensures |r| == |s| + 2 && r[0] == '"' && r[|r| - 1] == '"' && r[1..|r| - 1] == s
  {
    "\"" + s + "\""
  }

  /** What a reader takes from a quoted value: what lies between the
      quotes. */
  function Unquote(v: string): (r: string)
    ensures forall s :: v == Quote(s) ==> r == s
  {
    if |v| >= 2 then v[1..|v| - 1] else v
  }

  /** The source's `bool` helper: the grammar's boolean literals. */
  function BoolText(b: bool): (r: string)
    ensures r == "true" || r == "false"
    ensures (r == "true") == b
  {
    if b then "true" else "false"
  }

  /** What `%s` makes of a Python boolean (used where the source does not call
      its `bool` helper). */
  function PyBoolText(b: bool): (r: string)
    ensures r == "True" || r == "False"
    ensures (r == "True") == b
  {
    if b then "True" else "False"
  }

  // ---- The reader's view: the tag at the start of a write -------------------

  predicate IsDelim(c: char) { c == ' ' || c == '\n' || c == '(' || c == ')' }

  /** A tag a reader can delimit: no blank, newline or parenthesis in it. */
  predicate IsName(s: string) { forall i :: 0 <= i < |s| ==> !IsDelim(s[i]) }

  predicate IsPad(s: string) { forall i :: 0 <= i < |s| ==> s[i] == ' ' }

  function TakeName(s: string): string
  {
    if s == [] || IsDelim(s[0]) then [] else [s[0]] + TakeName(s[1..])
  }

  /** The tag a reader sees in a write: after leading blanks, an open
      parenthesis, then everything up to the next delimiter ("" if the write
      does not open a block). */
  function TagOf(s: string): string
  {
    if s == [] then []
    else if s[0] == ' ' then TagOf(s[1..])
    else if s[0] == '(' then TakeName(s[1..])
    else []
  }

  lemma {:induction false} TakeNameOf(t: string, rest: string)
    requires IsName(t)
    requires rest == [] || IsDelim(rest[0])
    ensures TakeName(t + rest) == t
  {
    if t == [] {
      assert t + rest == rest;
    } else {
      assert (t + rest)[1..] == t[1..] + rest;
      TakeNameOf(t[1..], rest);
    }
  }

  lemma {:induction false} TagOfPadded(pad: string, s: string)
    requires IsPad(pad)
    ensures TagOf(pad + s) == TagOf(s)
  {
    if pad != [] {
      assert (pad + s)[1..] == pad[1..] + s;
      TagOfPadded(pad[1..], s);
    } else {
      assert pad + s == s;
    }
  }

  /** A write opening a block or field whose tag a reader can recover from
      its characters. */
  predicate WellTagged(it: Item)
  {
    match it
    case Tagged(pad, tag, rest) => IsPad(pad) && IsName(tag) && (rest == [] || IsDelim(rest[0]))
    case PadField(pad, tag, _) => IsPad(pad) && IsName(tag)
    case Raw(_) => false
  }

  /** The writer's tag and the reader's tag agree. */
  lemma TagOfRender(it: Item)
    requires WellTagged(it)
    ensures TagOf(Render(it)) == it.tag
  {
    var rest := if it.Tagged? then it.rest else " " + it.value + ")\n";
    var s := "(" + it.tag + rest;
    assert Render(it) == it.pad + s;
    TagOfPadded(it.pad, s);
    assert s[1..] == it.tag + rest;
    TakeNameOf(it.tag, rest);
  }

  // ---- Tags present in a sequence of writes ---------------------------------

  function Tags(items: seq<Item>): set<string>
  {
    set i | 0 <= i < |items| && !items[i].Raw? :: items[i].tag
  }

  lemma TagsAppend(a: seq<Item>, b: seq<Item>)
    ensures Tags(a + b) == Tags(a) + Tags(b)
  {
    forall t | t in Tags(a + b) ensures t in Tags(a) + Tags(b) {
      var i :| 0 <= i < |a + b| && !(a + b)[i].Raw? && (a + b)[i].tag == t;
      if i < |a| {
        assert a[i] == (a + b)[i];
      } else {
        assert b[i - |a|] == (a + b)[i];
      }
    }
    forall t | t in Tags(a) ensures t in Tags(a + b) {
      var i :| 0 <= i < |a| && !a[i].Raw? && a[i].tag == t;
      assert (a + b)[i] == a[i];
    }
    forall t | t in Tags(b) ensures t in Tags(a + b) {
      var i :| 0 <= i < |b| && !b[i].Raw? && b[i].tag == t;
      assert (a + b)[i + |a|] == b[i];
    }
  }

  lemma TagsOfOne(it: Item)
    ensures Tags([it]) == if !it.Raw? then {it.tag} else {}
  {
    if !it.Raw? {
      assert [it][0].tag == it.tag;
    }
  }

  /** How many writes open a block or field with the given tag. */
  function CountTag(items: seq<Item>, tag: string): (n: nat)
    decreases |items|
  {
    if items == [] then 0
    else CountTag(items[..|items| - 1], tag) + (if !items[|items| - 1].Raw? && items[|items| - 1].tag == tag then 1 else 0)
  }

  lemma {:induction false} CountTagAppend(a: seq<Item>, b: seq<Item>, tag: string)
    ensures CountTag(a + b, tag) == CountTag(a, tag) + CountTag(b, tag)
    decreases |b|
  {
    if b == [] {
      assert a + b == a;
    } else {
      var b' := b[..|b| - 1];
      assert (a + b)[..|a + b| - 1] == a + b';
      CountTagAppend(a, b', tag);
    }
  }

  /** A tag is counted exactly when it is present. */
  lemma {:induction false} CountTagPresent(items: seq<Item>, tag: string)
    ensures CountTag(items, tag) > 0 <==> tag in Tags(items)
    decreases |items|
  {
    if items != [] {
      var p := items[..|items| - 1];
      CountTagPresent(p, tag);
      assert items == p + [items[|items| - 1]];
      TagsAppend(p, [items[|items| - 1]]);
      TagsOfOne(items[|items| - 1]);
    }
  }

  /** Writes that open no block and no field. */
  predicate Untagged(items: seq<Item>) { forall j :: 0 <= j < |items| ==> items[j].Raw? }

  lemma UntaggedTags(items: seq<Item>)
    requires Untagged(items)
    ensures Tags(items) == {}
  {
  }

  /** The writes of several consecutive parts, in order. */
  function Concat(parts: seq<seq<Item>>): seq<Item>
    decreases |parts|
  {
    if parts == [] then [] else Concat(parts[..|parts| - 1]) + parts[|parts| - 1]
  }

  /** One more part, as a loop over the parts takes it. */
  lemma ConcatSnoc(parts: seq<seq<Item>>, j: nat)
    requires j < |parts|
    ensures Concat(parts[..j + 1]) == Concat(parts[..j]) + parts[j]
  {
    assert parts[..j + 1][..j] == parts[..j];
  }

  /** One more iteration of a loop that writes the parts in order. */
  lemma ConcatStep(start: seq<Item>, parts: seq<seq<Item>>, j: nat, now: seq<Item>)
    requires j < |parts|
    requires now == start + Concat(parts[..j]) + parts[j]
    ensures now == start + Concat(parts[..j + 1])
  {
    ConcatSnoc(parts, j);
    AppendAssoc(start, Concat(parts[..j]), parts[j]);
  }

  lemma {:induction false} ConcatUntagged(parts: seq<seq<Item>>)
    requires forall k :: 0 <= k < |parts| ==> Untagged(parts[k])
    ensures Untagged(Concat(parts))
    decreases |parts|
  {
    if parts != [] {
      ConcatUntagged(parts[..|parts| - 1]);
    }
  }

  /** The writes of one item. */
  lemma CountTagOne(it: Item, tag: string)
    ensures CountTag([it], tag) == if !it.Raw? && it.tag == tag then 1 else 0
  {
    assert [it][..0] == [];
  }

  lemma {:induction false} CountTagUntagged(items: seq<Item>, tag: string)
    requires Untagged(items)
    ensures CountTag(items, tag) == 0
    decreases |items|
  {
    if items != [] {
      CountTagUntagged(items[..|items| - 1], tag);
    }
  }

  /** Writes none of which opens `tag`. */
  lemma {:induction false} CountTagAbsent(items: seq<Item>, tag: string)
    requires forall j :: 0 <= j < |items| ==> items[j].Raw? || items[j].tag != tag
    ensures CountTag(items, tag) == 0
    decreases |items|
  {
    if items != [] {
      CountTagAbsent(items[..|items| - 1], tag);
    }
  }

  /** Writes each of which opens `tag`. */
  lemma {:induction false} CountTagAll(items: seq<Item>, tag: string)
    requires forall j :: 0 <= j < |items| ==> !items[j].Raw? && items[j].tag == tag
    ensures CountTag(items, tag) == |items|
    decreases |items|
  {
    if items != [] {
      CountTagAll(items[..|items| - 1], tag);
    }
  }

  /** A block: its opening, its body and its close. */
  lemma CountTagBlock(lbl: string, body: seq<Item>, tag: string)
    ensures CountTag([Open(lbl)] + body + [Close()], tag) == (if lbl == tag then 1 else 0) + CountTag(body, tag)
  {
    CountTagAppend([Open(lbl)], body, tag);
    CountTagAppend([Open(lbl)] + body, [Close()], tag);
    CountTagOne(Open(lbl), tag);
    CountTagOne(Close(), tag);
  }

  /** How many writes of several parts open a block or field with `tag`. */
  function CountTagIn(parts: seq<seq<Item>>, tag: string): nat
    decreases |parts|
  {
    if parts == [] then 0 else CountTagIn(parts[..|parts| - 1], tag) + CountTag(parts[|parts| - 1], tag)
  }

  /** The last part's count, added to the others'. */
  lemma CountTagInLast(parts: seq<seq<Item>>, tag: string)
    requires parts != []
    ensures CountTagIn(parts, tag) == CountTagIn(parts[..|parts| - 1], tag) + CountTag(parts[|parts| - 1], tag)
  {
  }

  lemma {:induction false} CountTagConcat(parts: seq<seq<Item>>, tag: string)
    ensures CountTag(Concat(parts), tag) == CountTagIn(parts, tag)
    decreases |parts|
  {
    if parts != [] {
      var p := parts[..|parts| - 1];
      CountTagConcat(p, tag);
      CountTagAppend(Concat(p), parts[|parts| - 1], tag);
    }
  }

  /** Parts that each open `tag` the same number of times. */
  lemma {:induction false} CountTagUniform(parts: seq<seq<Item>>, tag: string, n: nat)
    requires forall k :: 0 <= k < |parts| ==> CountTag(parts[k], tag) == n
    ensures CountTagIn(parts, tag) == n * |parts|
    decreases |parts|
  {
    if parts != [] {
      CountTagUniform(parts[..|parts| - 1], tag, n);
    }
  }

  // ---- Space-separated lists ------------------------------------------------

  /** Python's `' '.join(ts)`. */
  function JoinSpace(ts: seq<string>): string
    decreases |ts|
  {
    if ts == [] then ""
    else if |ts| == 1 then ts[0]
    else JoinSpace(ts[..|ts| - 1]) + " " + ts[|ts| - 1]
  }

  /** The index of the last blank in `s`. */
  function LastBlank(s: string): (k: nat)
    requires ' ' in s
    ensures k < |s| && s[k] == ' '
    ensures forall j :: k < j < |s| ==> s[j] != ' '
    decreases |s|
  {
    if s[|s| - 1] == ' ' then |s| - 1
    else
      assert ' ' in s[..|s| - 1] by {
        var j :| 0 <= j < |s| && s[j] == ' ';
        assert s[..|s| - 1][j] == ' ';
      }
      LastBlank(s[..|s| - 1])
  }

  /** The reader's inverse of `JoinSpace`: the words of a blank-separated
      list. */
  function SplitSpace(s: string): seq<string>
    decreases |s|
  {
    if s == [] then []
    else if ' ' !in s then [s]
    else
      var k := LastBlank(s);
      SplitSpace(s[..k]) + [s[k + 1..]]
  }

  /** Words that are not empty and hold no blank are read back from their
      blank-joined list, one by one and in order. */
  lemma {:induction false} SplitJoin(ts: seq<string>)
    requires forall k :: 0 <= k < |ts| ==> ts[k] != [] && ' ' !in ts[k]
    ensures SplitSpace(JoinSpace(ts)) == ts
    decreases |ts|
  {
    if |ts| == 1 {
    } else if |ts| > 1 {
      var p := ts[..|ts| - 1];
      var t := ts[|ts| - 1];
      var j := JoinSpace(p);
      var s := j + " " + t;
      assert s == JoinSpace(ts);
      assert s[|j|] == ' ';
      var k := LastBlank(s);
      assert k == |j|;
      assert s[..k] == j;
      assert s[k + 1..] == t;
      SplitJoin(p);
    }
  }

  /** The source's `sep` idiom: one write per element, every write after the
      first preceded by a blank. */
  function Joined(ts: seq<string>): seq<Item>
    decreases |ts|
  {
    if ts == [] then []
    else Joined(ts[..|ts| - 1]) + [Raw((if |ts| == 1 then "" else " ") + ts[|ts| - 1])]
  }

  /** Writing the elements one by one with the `sep` idiom produces exactly the
      joined string, and one write per element. */
  lemma {:induction false} JoinedText(ts: seq<string>)
    ensures |Joined(ts)| == |ts|
    ensures Text(Joined(ts)) == JoinSpace(ts)
    decreases |ts|
  {
    if ts != [] {
      var p, x := ts[..|ts| - 1], ts[|ts| - 1];
      var last := Raw((if |ts| == 1 then "" else " ") + x);
      assert Joined(ts) == Joined(p) + [last];
      JoinedText(p);
      TextAppend(Joined(p), [last]);
      assert Text([last]) == Render(last) by {
        assert [last][..0] == [];
      }
      if |ts| == 1 {
        assert p == [];
        assert JoinSpace(ts) == x;
        assert Text(Joined(ts)) == "" + ("" + x);
      } else {
        assert JoinSpace(ts) == JoinSpace(p) + " " + x;
        AppendAssoc(JoinSpace(p), " ", x);
      }
    }
  }

  /** The `j`-th write of the `sep` idiom is the `j`-th element, preceded by a
      blank unless it is the first. */
  lemma {:induction false} JoinedAt(ts: seq<string>, j: nat)
    requires j < |ts|
    ensures |Joined(ts)| == |ts|
    ensures Joined(ts)[j] == Raw((if j == 0 then "" else " ") + ts[j])
    decreases |ts|
  {
    var p := ts[..|ts| - 1];
    if j < |ts| - 1 {
      JoinedAt(p, j);
    } else if p != [] {
      JoinedAt(p, 0);
    }
  }

  /** Every write of `Joined(ts)` is raw: it opens no block. */
  lemma {:induction false} JoinedUntagged(ts: seq<string>)
    ensures Tags(Joined(ts)) == {}
    decreases |ts|
  {
    if ts != [] {
      var p := ts[..|ts| - 1];
      JoinedUntagged(p);
      TagsAppend(Joined(p), [Raw((if |ts| == 1 then "" else " ") + ts[|ts| - 1])]);
      TagsOfOne(Raw((if |ts| == 1 then "" else " ") + ts[|ts| - 1]));
    }
  }

  /** The step a `sep` loop takes after `j` elements. */
  lemma JoinedSnoc(ts: seq<string>, j: nat)
    requires j < |ts|
    ensures Joined(ts[..j + 1]) == Joined(ts[..j]) + [Raw((if j == 0 then "" else " ") + ts[j])]
  {
    assert ts[..j + 1][..j] == ts[..j];
  }

  // ---- Lower case -----------------------------------------------------------

  function LowerChar(c: char): char
  {
    if 'A' <= c <= 'Z' then (c as int - 'A' as int + 'a' as int) as char else c
  }

  /** `str.lower` on the ASCII letters. */
  function Lower(s: string): (r: string)
    ensures |r| == |s|
    ensures forall i :: 0 <= i < |s| ==> r[i] == LowerChar(s[i])
  {
    seq(|s|, i requires 0 <= i < |s| => LowerChar(s[i]))
  }

  /** Lowering is idempotent, keeps every non-letter as it is, and leaves no
      upper-case letter behind. */
  lemma LowerFacts(s: string)
    ensures Lower(Lower(s)) == Lower(s)
    ensures forall i :: 0 <= i < |s| ==> !('A' <= Lower(s)[i] <= 'Z')
    ensures forall i :: 0 <= i < |s| && !('A' <= s[i] <= 'Z') ==> Lower(s)[i] == s[i]
    ensures IsName(s) ==> IsName(Lower(s))
  {
  }
}
