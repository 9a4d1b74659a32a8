/** The canonical form behind the approval fingerprint: lists are sorted at every
    depth by their own serialization, so the fingerprint sees a document up to
    reordering.  */
module CanonicalForm {
  import opened TagOrder
  import opened Json

  /** The layout of the sort key, and of the text behind the fingerprint. */
  const SORT_STYLE := Style(", ", ": ", true)
  const PREIMAGE_STYLE := Style(",", ":", false)

  /** What siblings are sorted by: their serialization. */
  ghost function SortText(value: Json): string {
    Dump(value, SORT_STYLE)
  }

  lemma SortTextIsInjective(a: Json, b: Json)
    ensures SortText(a) == SortText(b) ==> a == b
  {
    DumpIsInjective(a, b, SORT_STYLE);
  }

  // ----- sorting by key

  ghost function Insert(x: Json, sorted: seq<Json>): seq<Json> {
    if sorted == [] || !NameBefore(SortText(sorted[0]), SortText(x)) then [x] + sorted
    else [sorted[0]] + Insert(x, sorted[1..])
  }

  ghost function Sort(items: seq<Json>): seq<Json> {
    if items == [] then [] else Insert(items[0], Sort(items[1..]))
  }

  ghost predicate Sorted(items: seq<Json>) {
    forall i, k :: 0 <= i < k < |items| ==> !NameBefore(SortText(items[k]), SortText(items[i]))
  }

  lemma {:induction false} InsertKeeps(x: Json, sorted: seq<Json>)
    ensures multiset(Insert(x, sorted)) == multiset(sorted) + multiset{x}
  {
    if sorted != [] {
      assert sorted == [sorted[0]] + sorted[1..];
      InsertKeeps(x, sorted[1..]);
      hide NameBefore, SortText;
    }
  }

  /** What stands in the tail after an insertion was there or is the newcomer. */
  lemma Inserted(x: Json, sorted: seq<Json>, k: nat)
    requires k < |Insert(x, sorted)|
    ensures Insert(x, sorted)[k] == x || Insert(x, sorted)[k] in sorted
  {
    InsertKeeps(x, sorted);
    hide Insert;
    assert Insert(x, sorted)[k] in multiset(Insert(x, sorted));
  }

  lemma HeadFirst(head: Json, tail: seq<Json>)
    requires Sorted(tail) && forall k :: 0 <= k < |tail| ==> !NameBefore(SortText(tail[k]), SortText(head))
    ensures Sorted([head] + tail)
  {
    hide NameBefore, SortText;
  }

  lemma {:induction false} InsertSorts(x: Json, sorted: seq<Json>)
    requires Sorted(sorted)
    ensures Sorted(Insert(x, sorted))
    ensures multiset(Insert(x, sorted)) == multiset(sorted) + multiset{x}
  {
    InsertKeeps(x, sorted);
    if sorted != [] {
      var head, rest := sorted[0], sorted[1..];
      assert Sorted(rest) && forall k :: 0 <= k < |rest| ==> !NameBefore(SortText(rest[k]), SortText(head));
      if NameBefore(SortText(head), SortText(x)) {
        InsertSorts(x, rest);
        NotBefore(SortText(head), SortText(x));
        var tail := Insert(x, rest);
        assert Insert(x, sorted) == [head] + tail;
        hide *;
        forall k | 0 <= k < |tail| ensures !NameBefore(SortText(tail[k]), SortText(head)) { Inserted(x, rest, k); }
        HeadFirst(head, tail);
      } else {
        hide NameBefore, SortText, Sorted;
        forall k | 0 <= k < |sorted| ensures !NameBefore(SortText(sorted[k]), SortText(x)) {
          if k > 0 { assert sorted[k] == rest[k - 1]; }
          if k > 0 { NotBeforeEither(SortText(sorted[k]), SortText(head), SortText(x)); }
        }
        HeadFirst(x, sorted);
      }
    }
  }

  lemma NotBefore(a: string, b: string)
    requires NameBefore(a, b)
    ensures !NameBefore(b, a)
  {
    if NameBefore(b, a) {
      NameTransitive(a, b, a);
      NameIrreflexive(a);
    }
  }

  lemma NotBeforeEither(a: string, b: string, c: string)
    requires (a == b || !NameBefore(a, b)) && !NameBefore(b, c)
    ensures !NameBefore(a, c)
  {
    NameTotal(a, b);
    if NameBefore(b, a) && NameBefore(a, c) { NameTransitive(b, a, c); }
  }

  lemma {:induction false} SortSorts(items: seq<Json>)
    ensures Sorted(Sort(items))
    ensures multiset(Sort(items)) == multiset(items)
  {
    if items != [] {
      SortSorts(items[1..]);
      InsertSorts(items[0], Sort(items[1..]));
      assert items == [items[0]] + items[1..];
    }
  }

  lemma LeastIsSame(xs: seq<Json>, ys: seq<Json>)
    requires Sorted(xs) && Sorted(ys)
    requires xs != [] && ys != [] && xs[0] in ys && ys[0] in xs
    ensures xs[0] == ys[0]
  {
    var i :| 0 <= i < |ys| && ys[i] == xs[0];
    var k :| 0 <= k < |xs| && xs[k] == ys[0];
    NameIrreflexive(SortText(xs[0]));
    NameTotal(SortText(xs[0]), SortText(ys[0]));
    SortTextIsInjective(xs[0], ys[0]);
  }

  lemma TailBag(items: seq<Json>)
    requires items != []
    ensures multiset(items) == multiset(items[1..]) + multiset{items[0]}
  {
    assert items == [items[0]] + items[1..];
  }

  lemma TailsAgree(xs: seq<Json>, ys: seq<Json>)
    requires xs != [] && ys != [] && xs[0] == ys[0] && multiset(xs) == multiset(ys)
    ensures multiset(xs[1..]) == multiset(ys[1..])
  {
    TailBag(xs);
    TailBag(ys);
    assert multiset(xs[1..]) == multiset(xs) - multiset{xs[0]};
  }

  /** One multiset has one sorted order. */
  lemma {:induction false} SortedIsUnique(xs: seq<Json>, ys: seq<Json>)
    requires Sorted(xs) && Sorted(ys) && multiset(xs) == multiset(ys)
    ensures xs == ys
  {
    assert |xs| == |multiset(xs)| == |ys|;
    if xs != [] {
      assert xs[0] in multiset(ys) && ys[0] in multiset(xs);
      LeastIsSame(xs, ys);
      TailsAgree(xs, ys);
      SortedIsUnique(xs[1..], ys[1..]);
      hide *;
    }
  }

  // ----- the canonical form

  ghost function Canonical(value: Json): Json {
    match value
    case List(items) => List(Sort(Each(items)))
    case Dict(members) => Dict(map name | name in members :: Canonical(members[name]))
    case _ => value
  }

  ghost function Each(items: seq<Json>): seq<Json> {
    seq(|items|, i requires 0 <= i < |items| => Canonical(items[i]))
  }

  /** Equal up to the order of lists, at any depth. */
  ghost predicate Same(a: Json, b: Json)
    decreases a
  {
    match a
    case List(xs) => b.List? && exists ys: seq<Json> ::
      |ys| == |xs| && multiset(ys) == multiset(b.items) && forall i :: 0 <= i < |xs| ==> Same(xs[i], ys[i])
    case Dict(m) => b.Dict? && m.Keys == b.members.Keys && forall name :: name in m ==> Same(m[name], b.members[name])
    case _ => a == b
  }

  lemma SortIgnoresOrder(xs: seq<Json>, ys: seq<Json>)
    ensures Sort(xs) == Sort(ys) <==> multiset(xs) == multiset(ys)
  {
    SortSorts(xs);
    SortSorts(ys);
    if multiset(xs) == multiset(ys) { SortedIsUnique(Sort(xs), Sort(ys)); }
  }

  lemma EachOfParts(a: seq<Json>, b: seq<Json>)
    ensures Each(a + b) == Each(a) + Each(b)
  {
  }

  lemma EachOfOne(y: Json)
    ensures Each([y]) == [Canonical(y)]
  {
  }

  /** Reordering the children reorders their canonical forms. */
  lemma {:induction false} EachOfReordered(xs: seq<Json>, ys: seq<Json>)
    requires multiset(xs) == multiset(ys)
    ensures multiset(Each(xs)) == multiset(Each(ys))
    decreases |xs|
  {
    assert |xs| == |multiset(xs)| == |ys|;
    if xs != [] {
      assert xs[0] in multiset(ys);
      var k :| 0 <= k < |ys| && ys[k] == xs[0];
      var others := ys[..k] + ys[k + 1..];
      Without(ys, k);
      assert xs == [xs[0]] + xs[1..];
      assert multiset(xs[1..]) == multiset(xs) - multiset{xs[0]};
      EachOfReordered(xs[1..], others);
      EachWithout(ys, k);
      EachOfParts([xs[0]], xs[1..]);
      assert Each([xs[0]]) == [Canonical(xs[0])];
    }
  }

  lemma Without(ys: seq<Json>, k: nat)
    requires k < |ys|
    ensures multiset(ys[..k] + ys[k + 1..]) == multiset(ys) - multiset{ys[k]}
  {
    assert ys == ys[..k] + [ys[k]] + ys[k + 1..];
  }

  lemma EachWithout(ys: seq<Json>, k: nat)
    requires k < |ys|
    ensures multiset(Each(ys)) == multiset(Each(ys[..k] + ys[k + 1..])) + multiset{Canonical(ys[k])}
  {
    hide *;
    var front, x, back := ys[..k], ys[k], ys[k + 1..];
    assert ys == front + [x] + back;
    EachOfParts(front, back);
    EachOfMiddle(front, x, back);
    WithoutMiddle(Each(front), Canonical(x), Each(back));
  }

  lemma EachOfMiddle(front: seq<Json>, x: Json, back: seq<Json>)
    ensures Each(front + [x] + back) == Each(front) + [Canonical(x)] + Each(back)
  {
    assert |Each(front + [x] + back)| == |Each(front) + [Canonical(x)] + Each(back)|;
    hide Canonical;
  }

  lemma WithoutMiddle(front: seq<Json>, x: Json, back: seq<Json>)
    ensures multiset(front + [x] + back) == multiset(front + back) + multiset{x}
  {
  }

  /** If the canonical forms are a reordering, the children can be put in that order. */
  lemma {:induction false} Rearranged(forms: seq<Json>, ys: seq<Json>) returns (order: seq<Json>)
    requires multiset(forms) == multiset(Each(ys))
    ensures multiset(order) == multiset(ys) && Each(order) == forms
    decreases |forms|
  {
    hide *;
    if forms == [] {
      NoForms(forms, ys);
      order := [];
    } else {
      var k := FirstForm(forms, ys);
      var others := ys[..k] + ys[k + 1..];
      OtherForms(forms, ys, k);
      var rest := Rearranged(forms[1..], others);
      order := [ys[k]] + rest;
      PutBack(ys, k, rest);
    }
  }

  lemma NoForms(forms: seq<Json>, ys: seq<Json>)
    requires forms == [] && multiset(forms) == multiset(Each(ys))
    ensures ys == [] && Each([]) == []
  {
    assert |forms| == |multiset(forms)| == |Each(ys)|;
  }

  lemma OtherForms(forms: seq<Json>, ys: seq<Json>, k: nat)
    requires forms != [] && k < |ys| && Canonical(ys[k]) == forms[0] && multiset(forms) == multiset(Each(ys))
    ensures multiset(forms[1..]) == multiset(Each(ys[..k] + ys[k + 1..]))
  {
    hide *;
    EachWithout(ys, k);
    TailBag(forms);
    assert multiset(forms[1..]) == multiset(forms) - multiset{forms[0]};
  }

  lemma PutBack(ys: seq<Json>, k: nat, rest: seq<Json>)
    requires k < |ys| && multiset(rest) == multiset(ys[..k] + ys[k + 1..])
    ensures multiset([ys[k]] + rest) == multiset(ys)
    ensures Each([ys[k]] + rest) == [Canonical(ys[k])] + Each(rest)
  {
    Without(ys, k);
    EachOfParts([ys[k]], rest);
    EachOfOne(ys[k]);
    hide *;
  }

  lemma FirstForm(forms: seq<Json>, ys: seq<Json>) returns (k: nat)
    requires forms != [] && multiset(forms) == multiset(Each(ys))
    ensures k < |ys| && Canonical(ys[k]) == forms[0]
  {
    assert forms[0] in multiset(Each(ys));
    k :| 0 <= k < |ys| && Each(ys)[k] == forms[0];
    hide Canonical;
  }

  /** Equal canonical forms exactly when one document is a reordering of the other. */
  lemma {:induction false} CanonicalDecidesSame(a: Json, b: Json)
    ensures Canonical(a) == Canonical(b) <==> Same(a, b)
    decreases a, 1
  {
    if a.List? && b.List? {
      if Canonical(a) == Canonical(b) { FormsMeanSame(a, b); }
      if Same(a, b) { SameMeansForms(a, b); }
    } else if a.Dict? && b.Dict? {
      DictForms(a, b);
    }
  }

  lemma FormsMeanSame(a: Json, b: Json)
    requires a.List? && b.List? && Canonical(a) == Canonical(b)
    ensures Same(a, b)
    decreases a, 0
  {
    SortIgnoresOrder(Each(a.items), Each(b.items));
    var order := Rearranged(Each(a.items), b.items);
    forall i | 0 <= i < |a.items| ensures Same(a.items[i], order[i]) {
      assert Each(order)[i] == Each(a.items)[i];
      CanonicalDecidesSame(a.items[i], order[i]);
    }
  }

  lemma SameMeansForms(a: Json, b: Json)
    requires a.List? && b.List? && Same(a, b)
    ensures Canonical(a) == Canonical(b)
    decreases a, 0
  {
    var order: seq<Json> :| |order| == |a.items| && multiset(order) == multiset(b.items)
      && forall i :: 0 <= i < |a.items| ==> Same(a.items[i], order[i]);
    forall i | 0 <= i < |order| ensures Each(a.items)[i] == Each(order)[i] {
      CanonicalDecidesSame(a.items[i], order[i]);
    }
    assert Each(a.items) == Each(order);
    EachOfReordered(order, b.items);
    SortIgnoresOrder(Each(a.items), Each(b.items));
  }

  lemma DictForms(a: Json, b: Json)
    requires a.Dict? && b.Dict?
    ensures Canonical(a) == Canonical(b) <==> Same(a, b)
    decreases a, 0
  {
    var x, y := Canonical(a).members, Canonical(b).members;
    assert x.Keys == a.members.Keys && y.Keys == b.members.Keys;
    forall name | name in a.members && name in b.members
      ensures x[name] == y[name] <==> Same(a.members[name], b.members[name])
    {
      CanonicalDecidesSame(a.members[name], b.members[name]);
    }
  }

  /** A canonical form is its own canonical form, so a reordered document and its
      canonical form have one fingerprint.  */
  lemma {:induction false} CanonicalIsStable(value: Json)
    ensures Canonical(Canonical(value)) == Canonical(value)
  {
    match value
    case List(items) =>
      forall i | 0 <= i < |items| ensures Canonical(Canonical(items[i])) == Canonical(items[i]) { CanonicalIsStable(items[i]); }
      SortedIsStable(items);
    case Dict(members) =>
      forall name | name in members ensures Canonical(Canonical(members[name])) == Canonical(members[name]) {
        CanonicalIsStable(members[name]);
      }
      assert Canonical(Canonical(value)).members == Canonical(value).members;
    case _ =>
  }

  lemma SortedIsStable(items: seq<Json>)
    requires forall i :: 0 <= i < |items| ==> Canonical(Canonical(items[i])) == Canonical(items[i])
    ensures Sort(Each(Sort(Each(items)))) == Sort(Each(items))
  {
    var forms := Each(items);
    var sorted := Sort(forms);
    SortSorts(forms);
    SortSorts(sorted);
    SortedIsUnique(Sort(sorted), sorted);
    hide Sort, Sorted;
    EachStable(items);
    hide *;
    EachReordered(forms, sorted);
  }

  lemma EachStable(items: seq<Json>)
    requires forall i :: 0 <= i < |items| ==> Canonical(Canonical(items[i])) == Canonical(items[i])
    ensures Each(Each(items)) == Each(items)
  {
    hide Canonical;
  }

  lemma EachReordered(xs: seq<Json>, ys: seq<Json>)
    requires Each(xs) == xs && multiset(ys) == multiset(xs)
    ensures Each(ys) == ys
  {
    assert forall i :: 0 <= i < |xs| ==> Canonical(xs[i]) == Each(xs)[i] == xs[i];
    forall i | 0 <= i < |ys| ensures Canonical(ys[i]) == ys[i] {
      assert ys[i] in multiset(xs);
    }
    hide Canonical;
  }

  /** The text that is hashed into the fingerprint. */
  ghost function Preimage(approval: Json): string {
    Dump(Canonical(approval), PREIMAGE_STYLE)
  }

  /** Two approvals have one preimage exactly when one is a reordering of the other. */
  lemma PreimageDecidesSame(a: Json, b: Json)
    ensures Preimage(a) == Preimage(b) <==> Same(a, b)
  {
    hide Dump, Canonical, Same;
    DumpIsInjective(Canonical(a), Canonical(b), PREIMAGE_STYLE);
    CanonicalDecidesSame(a, b);
  }
}
