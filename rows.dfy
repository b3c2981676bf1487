/** Lists written several cells to a line: after each cell the writer emits a
    newline when a wrapping counter reaches the last column and a blank
    otherwise, and after the list one more newline when the counter has not
    wrapped back to zero. */
module RowLists {
  import opened Sexp

  /** The separator written after the cell with index `k` in rows of `width`. */
  function Sep(k: nat, width: nat): Item
    requires width > 0
  {
    Raw(if k % width == width - 1 then "\n" else " ")
  }

  /** Every cell followed by its separator: what the counting loop writes. */
  function RowCells(cells: seq<seq<Item>>, width: nat): seq<Item>
    requires width > 0
    decreases |cells|
  {
    if cells == [] then []
    else RowCells(cells[..|cells| - 1], width) + cells[|cells| - 1] + [Sep(|cells| - 1, width)]
  }

  /** The whole list: the loop, then a newline exactly when the last row is
      incomplete. */
  function Rows(cells: seq<seq<Item>>, width: nat): seq<Item>
    requires width > 0
  {
    RowCells(cells, width) + (if |cells| % width != 0 then [Raw("\n")] else [])
  }

  /** One more iteration of the counting loop. */
  lemma RowCellsSnoc(cells: seq<seq<Item>>, c: seq<Item>, width: nat)
    requires width > 0
    ensures RowCells(cells + [c], width) == RowCells(cells, width) + c + [Sep(|cells|, width)]
  {
    assert (cells + [c])[..|cells|] == cells;
  }

  /** The loop's step after `i` cells, as one chunk. */
  lemma RowCellsPrefix(cells: seq<seq<Item>>, i: nat, width: nat)
    requires width > 0 && i < |cells|
    ensures RowCells(cells[..i + 1], width) == RowCells(cells[..i], width) + (cells[i] + [Sep(i, width)])
  {
    assert cells[..i + 1][..i] == cells[..i];
    AppendAssoc(RowCells(cells[..i], width), cells[i], [Sep(i, width)]);
  }

  /** The number of line breaks written as a write of their own. */
  function Newlines(items: seq<Item>): nat
    decreases |items|
  {
    if items == [] then 0
    else Newlines(items[..|items| - 1]) + (if items[|items| - 1] == Raw("\n") then 1 else 0)
  }

  lemma {:induction false} NewlinesAppend(a: seq<Item>, b: seq<Item>)
    ensures Newlines(a + b) == Newlines(a) + Newlines(b)
    decreases |b|
  {
    if b == [] {
      assert a + b == a;
    } else {
      var b' := b[..|b| - 1];
      assert (a + b)[..|a + b| - 1] == a + b';
      NewlinesAppend(a, b');
    }
  }

  predicate NoNewline(c: seq<Item>) { forall j :: 0 <= j < |c| ==> c[j] != Raw("\n") }

  lemma {:induction false} NoNewlineCount(c: seq<Item>)
    requires NoNewline(c)
    ensures Newlines(c) == 0
    decreases |c|
  {
    if c != [] {
      NoNewlineCount(c[..|c| - 1]);
    }
  }

  lemma DivUnique(a: nat, q: nat, r: nat, w: nat)
    requires 0 <= r < w && a == q * w + r
    ensures a / w == q && a % w == r
  {
    var q', r' := a / w, a % w;
    assert a == q' * w + r';
    assert (q - q') * w == r' - r;
    if q > q' {
      MulAtLeast(q - q', w);
    } else if q < q' {
      MulAtLeast(q' - q, w);
    }
  }

  lemma MulAtLeast(k: int, w: nat)
    requires k >= 1
    ensures k * w >= w
  {
    assert k * w == (k - 1) * w + w;
  }

  /** Counting one more cell: the quotient grows exactly when the counter wraps. */
  lemma DivStep(m: nat, w: nat)
    requires w > 0
    ensures (m + 1) / w == m / w + (if m % w == w - 1 then 1 else 0)
  {
    var q, r := m / w, m % w;
    assert m == q * w + r;
    if r == w - 1 {
      assert m + 1 == (q + 1) * w + 0;
      DivUnique(m + 1, q + 1, 0, w);
    } else {
      DivUnique(m + 1, q, r + 1, w);
    }
  }

  /** The wrapping counter after one more cell. */
  lemma ModStep(m: nat, w: nat)
    requires w > 0
    ensures (m % w + 1) % w == (m + 1) % w
  {
    var q, r := m / w, m % w;
    assert m == q * w + r;
    if r == w - 1 {
      DivUnique(m + 1, q + 1, 0, w);
      DivUnique(r + 1, 1, 0, w);
    } else {
      DivUnique(m + 1, q, r + 1, w);
      DivUnique(r + 1, 0, r + 1, w);
    }
  }

  lemma CeilStep(n: nat, w: nat)
    requires w > 0
    ensures (n + w - 1) / w == n / w + (if n % w != 0 then 1 else 0)
  {
    var q, r := n / w, n % w;
    assert n == q * w + r;
    if r == 0 {
      DivUnique(n + w - 1, q, w - 1, w);
    } else {
      assert n + w - 1 == (q + 1) * w + (r - 1);
      DivUnique(n + w - 1, q + 1, r - 1, w);
    }
  }

  /** The cell before a full row sits in the last column. */
  lemma LastColumn(n: nat, w: nat)
    requires w > 0 && (n + 1) % w == 0
    ensures n % w == w - 1
  {
    var r := n % w;
    ModStep(n, w);
    if r + 1 < w {
      DivUnique(r + 1, 0, r + 1, w);
    }
  }

  /** The loop breaks the line after every `width`-th cell and nowhere else. */
  lemma {:induction false} RowCellsNewlines(cells: seq<seq<Item>>, width: nat)
    requires width > 0
    requires forall k :: 0 <= k < |cells| ==> NoNewline(cells[k])
    ensures Newlines(RowCells(cells, width)) == |cells| / width
    decreases |cells|
  {
    if cells != [] {
      var n := |cells| - 1;
      var p := cells[..n];
      RowCellsNewlines(p, width);
      NewlinesAppend(RowCells(p, width) + cells[n], [Sep(n, width)]);
      NewlinesAppend(RowCells(p, width), cells[n]);
      NoNewlineCount(cells[n]);
      assert Newlines([Sep(n, width)]) == (if n % width == width - 1 then 1 else 0) by {
        assert [Sep(n, width)][..0] == [];
      }
      DivStep(n, width);
    }
  }

  /** A list of `n` cells takes exactly ceil(n / width) lines, and a non-empty
      list always ends its last line. */
  lemma RowsNewlines(cells: seq<seq<Item>>, width: nat)
    requires width > 0
    requires forall k :: 0 <= k < |cells| ==> NoNewline(cells[k])
    ensures Newlines(Rows(cells, width)) == (|cells| + width - 1) / width
    ensures |cells| > 0 ==> |Rows(cells, width)| > 0 && Rows(cells, width)[|Rows(cells, width)| - 1] == Raw("\n")
  {
    var tail: seq<Item> := if |cells| % width != 0 then [Raw("\n")] else [];
    RowCellsNewlines(cells, width);
    NewlinesAppend(RowCells(cells, width), tail);
    assert Newlines(tail) == (if |cells| % width != 0 then 1 else 0) by {
      if tail != [] {
        assert tail[..0] == [];
      }
    }
    CeilStep(|cells|, width);
    if |cells| > 0 && |cells| % width == 0 {
      LastColumn(|cells| - 1, width);
    }
  }

  /** A list of cells that open nothing opens nothing. */
  lemma {:induction false} RowCellsUntagged(cells: seq<seq<Item>>, width: nat)
    requires width > 0
    requires forall k :: 0 <= k < |cells| ==> Untagged(cells[k])
    ensures Untagged(RowCells(cells, width))
    decreases |cells|
  {
    if cells != [] {
      RowCellsUntagged(cells[..|cells| - 1], width);
    }
  }

  lemma RowsUntagged(cells: seq<seq<Item>>, width: nat)
    requires width > 0
    requires forall k :: 0 <= k < |cells| ==> Untagged(cells[k])
    ensures Untagged(Rows(cells, width))
  {
    RowCellsUntagged(cells, width);
  }
}
