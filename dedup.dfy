/** The registry discipline shared by contents and materials: a name is
    defined in full the first time it is met, and referred to afterwards.  This
    module states "first time" without any registry, as a property of the
    sequence of names met so far. */
module Dedup {

  /** The set of names in a sequence. */
  function Elems(xs: seq<string>): (r: set<string>)
    ensures forall i :: 0 <= i < |xs| ==> xs[i] in r
    ensures forall x :: x in r ==> exists i :: 0 <= i < |xs| && xs[i] == x
  {
    set x | x in xs
  }

  lemma ElemsAppend(a: seq<string>, b: seq<string>)
    ensures Elems(a + b) == Elems(a) + Elems(b)
  {
  }

  /** The name at index `i` is neither registered beforehand (`seen`) nor met
      earlier in the run. */
  predicate FirstOccurrence(seen: set<string>, xs: seq<string>, i: nat)
    requires i < |xs|
  {
    xs[i] !in seen && forall j :: 0 <= j < i ==> xs[j] != xs[i]
  }

  /** A registry that starts as `seen` and gains each name as it is met holds,
      before index `i`, exactly the names that make `i` not a first occurrence. */
  lemma FirstOccurrenceRegistry(seen: set<string>, xs: seq<string>, i: nat)
    requires i < |xs|
    ensures FirstOccurrence(seen, xs, i) <==> xs[i] !in seen + Elems(xs[..i])
  {
    if xs[i] in Elems(xs[..i]) {
      var j :| 0 <= j < i && xs[..i][j] == xs[i];
      assert xs[j] == xs[i];
    }
    if !FirstOccurrence(seen, xs, i) && xs[i] !in seen {
      var j :| 0 <= j < i && xs[j] == xs[i];
      assert xs[..i][j] == xs[i];
    }
  }

  /** Met after a run `pre`, a name occurs for the first time exactly when
      it does so against a registry that holds `pre`'s names as well. */
  lemma FirstOccurrenceShift(seen: set<string>, pre: seq<string>, ys: seq<string>, j: nat)
    requires j < |ys|
    ensures FirstOccurrence(seen + Elems(pre), ys, j) <==> FirstOccurrence(seen, pre + ys, |pre| + j)
  {
    FirstOccurrenceRegistry(seen + Elems(pre), ys, j);
    FirstOccurrenceRegistry(seen, pre + ys, |pre| + j);
    assert (pre + ys)[..|pre| + j] == pre + ys[..j];
    ElemsAppend(pre, ys[..j]);
  }

  /** Every name that is not registered beforehand and occurs in the run has
      exactly one first occurrence. */
  lemma ExactlyOneFirst(seen: set<string>, xs: seq<string>, x: string)
    requires x in Elems(xs) && x !in seen
    ensures exists i :: 0 <= i < |xs| && xs[i] == x && FirstOccurrence(seen, xs, i)
    ensures forall i, j ::
      (0 <= i < |xs| && 0 <= j < |xs| && xs[i] == x && xs[j] == x &&
       FirstOccurrence(seen, xs, i) && FirstOccurrence(seen, xs, j)) ==> i == j
  {
    var k :| 0 <= k < |xs| && xs[k] == x;
    var m := Earliest(xs, x, k);
    assert FirstOccurrence(seen, xs, m);
  }

  /** The earliest index at or before `k` that holds `x`. */
  lemma {:induction false} EarliestExists(xs: seq<string>, x: string, k: nat)
    requires k < |xs| && xs[k] == x
    ensures exists m :: 0 <= m <= k && xs[m] == x && forall j :: 0 <= j < m ==> xs[j] != x
    decreases k
  {
    if exists j :: 0 <= j < k && xs[j] == x {
      var j :| 0 <= j < k && xs[j] == x;
      EarliestExists(xs, x, j);
    }
  }

  ghost function Earliest(xs: seq<string>, x: string, k: nat): (m: nat)
    requires k < |xs| && xs[k] == x
    ensures m <= k && xs[m] == x && forall j :: 0 <= j < m ==> xs[j] != x
  {
    EarliestExists(xs, x, k);
    var m :| 0 <= m <= k && xs[m] == x && forall j :: 0 <= j < m ==> xs[j] != x;
    m
  }
}
