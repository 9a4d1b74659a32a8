/** Orders: names by code point, edges by the ranking key; and the fact that makes
    a sort deterministic, that a set has one strictly ordered listing.  */
module TagOrder {
  import opened Schema

  datatype TagDescriptor = TagDescriptor(name: string, translation: Option<string>)

  datatype Edge = Edge(
    left: TagDescriptor,
    right: TagDescriptor,
    leftCount: nat,
    rightCount: nat,
    cooccurrence: nat,
    support: int,
    jaccard: int,
    pmi: int)

  // ----- names

  predicate NameBefore(a: string, b: string) {
    if b == "" then false
    else if a == "" then true
    else a[0] < b[0] || (a[0] == b[0] && NameBefore(a[1..], b[1..]))
  }

  lemma {:induction false} NameIrreflexive(a: string)
    ensures !NameBefore(a, a)
  {
    if a != "" { NameIrreflexive(a[1..]); }
  }

  lemma {:induction false} NameTransitive(a: string, b: string, c: string)
    requires NameBefore(a, b) && NameBefore(b, c)
    ensures NameBefore(a, c)
  {
    if a != "" && a[0] == b[0] == c[0] { NameTransitive(a[1..], b[1..], c[1..]); }
  }

  lemma {:induction false} NameTotal(a: string, b: string)
    ensures a == b || NameBefore(a, b) || NameBefore(b, a)
  {
    if a != "" && b != "" && a[0] == b[0] {
      NameTotal(a[1..], b[1..]);
      if a[1..] == b[1..] { assert a == [a[0]] + a[1..] == b; }
    }
  }

  // ----- edges

  /** The sort key: most co-occurrences first, then Jaccard, then PMI, then names. */
  predicate EdgeBefore(e: Edge, f: Edge) {
    if e.cooccurrence != f.cooccurrence then e.cooccurrence > f.cooccurrence
    else if e.jaccard != f.jaccard then e.jaccard > f.jaccard
    else if e.pmi != f.pmi then e.pmi > f.pmi
    else if e.left.name != f.left.name then NameBefore(e.left.name, f.left.name)
    else NameBefore(e.right.name, f.right.name)
  }

  function Key(e: Edge): (string, string) {
    (e.left.name, e.right.name)
  }

  lemma EdgeIrreflexive(e: Edge)
    ensures !EdgeBefore(e, e)
  {
    NameIrreflexive(e.right.name);
  }

  lemma EdgeTransitive(e: Edge, f: Edge, g: Edge)
    requires EdgeBefore(e, f) && EdgeBefore(f, g)
    ensures EdgeBefore(e, g)
  {
    if NameBefore(e.left.name, f.left.name) && NameBefore(f.left.name, g.left.name) {
      NameTransitive(e.left.name, f.left.name, g.left.name);
      NameIrreflexive(e.left.name);
    }
    if NameBefore(e.right.name, f.right.name) && NameBefore(f.right.name, g.right.name) {
      NameTransitive(e.right.name, f.right.name, g.right.name);
    }
    if e.left.name == g.left.name && NameBefore(e.left.name, f.left.name) && NameBefore(f.left.name, g.left.name) {
      NameTransitive(e.left.name, f.left.name, g.left.name);
      NameIrreflexive(e.left.name);
    }
  }

  lemma EdgeTotal(e: Edge, f: Edge)
    ensures Key(e) == Key(f) || EdgeBefore(e, f) || EdgeBefore(f, e)
  {
    NameTotal(e.left.name, f.left.name);
    NameTotal(e.right.name, f.right.name);
  }

  // ----- sorted sequences

  ghost predicate Ascending<T>(xs: seq<T>, before: (T, T) -> bool) {
    forall i, k :: 0 <= i < k < |xs| ==> before(xs[i], xs[k])
  }

  ghost predicate Transitive<T(!new)>(before: (T, T) -> bool) {
    forall a, b, c :: before(a, b) && before(b, c) ==> before(a, c)
  }

  /** Insert into a sorted sequence; folding this is the sort. */
  function Insert<T>(xs: seq<T>, x: T, before: (T, T) -> bool): seq<T> {
    if xs == [] then [x]
    else if before(x, xs[0]) then [x] + xs
    else [xs[0]] + Insert(xs[1..], x, before)
  }

  lemma {:induction false} InsertAscends<T(!new)>(xs: seq<T>, x: T, before: (T, T) -> bool)
    requires Transitive(before) && Ascending(xs, before)
    requires forall y :: y in xs ==> before(x, y) || before(y, x)
    ensures Ascending(Insert(xs, x, before), before)
    ensures forall y :: y in Insert(xs, x, before) <==> y == x || y in xs
    ensures |Insert(xs, x, before)| == |xs| + 1
  {
    if xs == [] {
    } else if before(x, xs[0]) {
      forall k | 0 <= k < |xs| ensures before(x, xs[k]) {
        if k > 0 { assert before(xs[0], xs[k]); }
      }
    } else {
      InsertAscends(xs[1..], x, before);
      var tail := Insert(xs[1..], x, before);
      assert xs[0] in xs;
      forall k | 0 <= k < |tail| ensures before(xs[0], tail[k]) {
        assert tail[k] in tail;
      }
    }
  }

  /** A sort leaves no choice: one set of edges has one ranked listing. */
  lemma {:induction false} ListingIsUnique(xs: seq<Edge>, ys: seq<Edge>)
    requires Ascending(xs, EdgeBefore) && Ascending(ys, EdgeBefore)
    requires forall e :: e in xs <==> e in ys
    ensures xs == ys
    decreases |xs|
  {
    assert forall i :: 0 <= i < |ys| ==> ys[i] in ys && ys[i] in xs;
    if xs != [] {
      assert xs[0] in ys && ys[0] in xs;
      FirstIsSame(xs, ys);
      forall e ensures e in xs[1..] <==> e in ys[1..] {
        InTail(xs, e);
        InTail(ys, e);
      }
      ListingIsUnique(xs[1..], ys[1..]);
      assert xs == [xs[0]] + xs[1..] && ys == [ys[0]] + ys[1..];
    }
  }

  lemma FirstIsSame(xs: seq<Edge>, ys: seq<Edge>)
    requires Ascending(xs, EdgeBefore) && Ascending(ys, EdgeBefore)
    requires xs != [] && ys != [] && xs[0] in ys && ys[0] in xs
    ensures xs[0] == ys[0]
  {
    var i :| 0 <= i < |ys| && ys[i] == xs[0];
    var k :| 0 <= k < |xs| && xs[k] == ys[0];
    if i != 0 && k != 0 {
      EdgeTransitive(xs[0], ys[0], xs[0]);
      EdgeIrreflexive(xs[0]);
    }
  }

  lemma InTail(xs: seq<Edge>, e: Edge)
    requires Ascending(xs, EdgeBefore) && xs != []
    ensures e in xs[1..] <==> e in xs && e != xs[0]
  {
    EdgeIrreflexive(xs[0]);
    if e in xs[1..] {
      var i :| 0 <= i < |xs[1..]| && xs[1..][i] == e;
      assert xs[i + 1] == e && EdgeBefore(xs[0], e);
    }
    if e in xs && e != xs[0] {
      var i :| 0 <= i < |xs| && xs[i] == e;
      assert xs[1..][i - 1] == e;
    }
  }
}
