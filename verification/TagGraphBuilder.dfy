/** The loops that build a tag association graph, proved against its meaning. */
module TagGraphBuilder {
  import opened Schema
  import opened TagOrder
  import opened TagAssociations
  import opened TagRanking

  // ----- counters and combinations

  function Count<K>(counter: map<K, nat>, key: K): nat {
    if key in counter then counter[key] else 0
  }

  /** Counter.update: one more for every key in turn. */
  function Tally<K>(counter: map<K, nat>, keys: seq<K>): map<K, nat>
    decreases keys
  {
    if keys == [] then counter
    else Tally(counter[keys[0] := Count(counter, keys[0]) + 1], keys[1..])
  }

  lemma {:induction false} TallyCounts<K>(counter: map<K, nat>, keys: seq<K>)
    requires forall i, k :: 0 <= i < k < |keys| ==> keys[i] != keys[k]
    ensures forall key :: Count(Tally(counter, keys), key) == Count(counter, key) + if key in keys then 1 else 0
    ensures forall key :: key in Tally(counter, keys) <==> key in counter || key in keys
    decreases keys
  {
    if keys != [] {
      TallyCounts(counter[keys[0] := Count(counter, keys[0]) + 1], keys[1..]);
      assert keys == [keys[0]] + keys[1..];
    }
  }

  function PairsWith(first: string, rest: seq<string>): seq<(string, string)> {
    seq(|rest|, i requires 0 <= i < |rest| => (first, rest[i]))
  }

  function Combinations(names: seq<string>): seq<(string, string)> {
    if names == [] then [] else PairsWith(names[0], names[1..]) + Combinations(names[1..])
  }

  lemma PairsWithMembers(first: string, rest: seq<string>)
    ensures forall a, b :: (a, b) in PairsWith(first, rest) <==> a == first && b in rest
  {
    forall b | b in rest ensures (first, b) in PairsWith(first, rest) {
      var i :| 0 <= i < |rest| && rest[i] == b;
      assert PairsWith(first, rest)[i] == (first, b);
    }
  }

  /** Of a sorted sequence: every ordered pair of its names. */
  lemma {:induction false} CombinationsMembers(names: seq<string>)
    requires Ascending(names, NameBefore)
    ensures forall a, b :: (a, b) in Combinations(names) <==> a in names && b in names && NameBefore(a, b)
  {
    if names != [] {
      var first, rest := names[0], names[1..];
      CombinationsMembers(rest);
      PairsWithMembers(first, rest);
      NameIrreflexive(first);
      assert forall b :: b in rest ==> NameBefore(first, b);
      forall b | b in rest ensures !NameBefore(b, first) {
        if NameBefore(b, first) { NameTransitive(first, b, first); }
      }
      hide NameBefore, PairsWith;
      assert names == [first] + rest;
    }
  }

  /** No pair twice. */
  lemma {:induction false} CombinationsDiffer(names: seq<string>)
    requires Ascending(names, NameBefore)
    ensures forall i, k :: 0 <= i < k < |Combinations(names)| ==> Combinations(names)[i] != Combinations(names)[k]
  {
    if names != [] {
      var first, rest := names[0], names[1..];
      var heads, tails := PairsWith(first, rest), Combinations(rest);
      CombinationsDiffer(rest);
      forall i, k | 0 <= i < k < |heads| ensures heads[i] != heads[k] {
        assert NameBefore(rest[i], rest[k]);
        NameIrreflexive(rest[i]);
      }
      CombinationsMembers(rest);
      forall k | 0 <= k < |tails| ensures tails[k].0 != first {
        assert (tails[k].0, tails[k].1) in tails;
        NameIrreflexive(first);
      }
      hide NameBefore;
    }
  }

  method SortedNames(names: set<string>) returns (sorted: seq<string>)
    ensures Ascending(sorted, NameBefore)
    ensures forall name :: name in sorted <==> name in names
  {
    sorted := [];
    var rest := names;
    NamesAreOrdered();
    while rest != {}
      invariant rest <= names && Ascending(sorted, NameBefore)
      invariant forall name :: name in sorted <==> name in names - rest
    {
      var name :| name in rest;
      rest := rest - {name};
      forall other | other in sorted ensures NameBefore(name, other) || NameBefore(other, name) {
        NameTotal(name, other);
      }
      InsertAscends(sorted, name, NameBefore);
      sorted := Insert(sorted, name, NameBefore);
    }
  }

  lemma NamesAreOrdered()
    ensures Transitive(NameBefore)
  {
    forall a, b, c | NameBefore(a, b) && NameBefore(b, c) ensures NameBefore(a, c) {
      NameTransitive(a, b, c);
    }
  }

  lemma EdgesAreOrdered()
    ensures Transitive(EdgeBefore)
  {
    forall a, b, c | EdgeBefore(a, b) && EdgeBefore(b, c) ensures EdgeBefore(a, c) {
      EdgeTransitive(a, b, c);
    }
  }

  method SortedEdges(edges: seq<Edge>) returns (sorted: seq<Edge>)
    requires forall i, k :: 0 <= i < k < |edges| ==> Key(edges[i]) != Key(edges[k])
    ensures Ascending(sorted, EdgeBefore) && |sorted| == |edges|
    ensures forall e :: e in sorted <==> e in edges
    ensures forall i, k :: 0 <= i < k < |sorted| ==> Outranks(sorted[i], sorted[k])
  {
    sorted := [];
    EdgesAreOrdered();
    for i := 0 to |edges|
      invariant Ascending(sorted, EdgeBefore) && |sorted| == i
      invariant forall e :: e in sorted <==> e in edges[..i]
    {
      forall other | other in sorted ensures EdgeBefore(edges[i], other) || EdgeBefore(other, edges[i]) {
        EdgeTotal(edges[i], other);
      }
      InsertAscends(sorted, edges[i], EdgeBefore);
      sorted := Insert(sorted, edges[i], EdgeBefore);
    }
    assert edges[..|edges|] == edges;
    forall i, k | 0 <= i < k < |sorted| ensures Outranks(sorted[i], sorted[k]) { BeforeMeansOutranks(sorted[i], sorted[k]); }
  }

  // ----- what the counters hold after `n` works

  ghost predicate TagsCounted(works: seq<TaggedWork>, n: nat, tagCounts: map<string, nat>)
    requires n <= |works|
  {
    && (forall name :: Count(tagCounts, name) == |Carrying(works, n, {name})|)
    && tagCounts.Keys == Observed(works, n)
  }

  ghost predicate PairsCounted(works: seq<TaggedWork>, n: nat, pairCounts: map<(string, string), nat>)
    requires n <= |works|
  {
    && (forall a, b :: NameBefore(a, b) ==> Count(pairCounts, (a, b)) == |Carrying(works, n, {a, b})|)
    && (forall a, b :: (a, b) in pairCounts ==> NameBefore(a, b) && pairCounts[(a, b)] > 0)
  }

  /** Of the tags of the first `n` works and the first `j` of the next one: each is
      the one its name stands for, and nothing else is described.  */
  ghost predicate Described(works: seq<TaggedWork>, n: nat, j: nat, descriptors: map<string, TagDescriptor>)
    requires n <= |works|
  {
    && (forall tag :: Seen(works, n, j, tag) ==> tag.name in descriptors && descriptors[tag.name] == tag)
    && (forall name :: name in descriptors ==> descriptors[name].name == name && Seen(works, n, j, descriptors[name]))
  }

  lemma CarryingStep(works: seq<TaggedWork>, n: nat, wanted: set<string>)
    requires n < |works|
    ensures |Carrying(works, n + 1, wanted)|
         == |Carrying(works, n, wanted)| + if wanted <= Names(works[n]) then 1 else 0
  {
    if wanted <= Names(works[n]) {
      assert Carrying(works, n + 1, wanted) == Carrying(works, n, wanted) + {n};
    } else {
      assert Carrying(works, n + 1, wanted) == Carrying(works, n, wanted);
    }
  }

  lemma TagsCountedStep(works: seq<TaggedWork>, n: nat, tagCounts: map<string, nat>, names: seq<string>)
    requires n < |works| && TagsCounted(works, n, tagCounts)
    requires Ascending(names, NameBefore) && forall name :: name in names <==> name in Names(works[n])
    ensures TagsCounted(works, n + 1, Tally(tagCounts, names))
  {
    forall i, k | 0 <= i < k < |names| ensures names[i] != names[k] { NameIrreflexive(names[i]); }
    TallyCounts(tagCounts, names);
    forall name ensures Count(Tally(tagCounts, names), name) == |Carrying(works, n + 1, {name})| {
      CarryingStep(works, n, {name});
    }
    assert Observed(works, n + 1) == Observed(works, n) + Names(works[n]);
    assert forall name :: name in Tally(tagCounts, names) <==> name in Observed(works, n + 1);
  }

  lemma PairsCountedStep(works: seq<TaggedWork>, n: nat, pairCounts: map<(string, string), nat>, names: seq<string>)
    requires n < |works| && PairsCounted(works, n, pairCounts)
    requires Ascending(names, NameBefore) && forall name :: name in names <==> name in Names(works[n])
    ensures PairsCounted(works, n + 1, Tally(pairCounts, Combinations(names)))
  {
    var after := Tally(pairCounts, Combinations(names));
    CombinationsMembers(names);
    CombinationsDiffer(names);
    TallyCounts(pairCounts, Combinations(names));
    forall a, b | NameBefore(a, b) ensures Count(after, (a, b)) == |Carrying(works, n + 1, {a, b})| {
      CarryingStep(works, n, {a, b});
    }
    forall a, b | (a, b) in after ensures NameBefore(a, b) && after[(a, b)] > 0 {
      assert Count(after, (a, b)) == Count(pairCounts, (a, b)) + if (a, b) in Combinations(names) then 1 else 0;
    }
  }

  lemma DescribedMeansConsistent(works: seq<TaggedWork>, descriptors: map<string, TagDescriptor>)
    requires Described(works, |works|, 0, descriptors)
    ensures TranslationsOk(works)
  {
    forall i, k, a, b |
      && 0 <= i < |works| && 0 <= k < |works|
      && a in works[i].tags && b in works[k].tags && a.name == b.name
      ensures a == b
    {
      assert Seen(works, |works|, 0, a) && Seen(works, |works|, 0, b);
    }
  }

  /** The descriptors know of a conflict exactly when there is one. */
  lemma ConflictIsReal(works: seq<TaggedWork>, n: nat, j: nat, descriptors: map<string, TagDescriptor>)
    requires n < |works| && j < |works[n].tags| && Described(works, n, j, descriptors)
    ensures var tag := works[n].tags[j];
      Conflicts(works, n, j) <==> tag.name in descriptors && descriptors[tag.name].translation != tag.translation
    ensures Conflicts(works, n, j) ==> !SampleOk(works)
  {
    var tag := works[n].tags[j];
    assert tag in works[n].tags;
    if tag.name in descriptors && descriptors[tag.name].translation != tag.translation {
      assert Seen(works, n, j, descriptors[tag.name]);
    }
    if Conflicts(works, n, j) {
      var other :| Seen(works, n, j, other) && other.name == tag.name && other != tag;
      var i :| 0 <= i <= n && other in works[i].tags;
    }
  }

  lemma DescribedStep(works: seq<TaggedWork>, n: nat, j: nat, descriptors: map<string, TagDescriptor>)
    requires n < |works| && j < |works[n].tags| && Described(works, n, j, descriptors)
    requires var tag := works[n].tags[j];
      tag.name in descriptors ==> descriptors[tag.name].translation == tag.translation
    ensures var tag := works[n].tags[j]; Described(works, n, j + 1, descriptors[tag.name := tag])
  {
    var tag := works[n].tags[j];
    assert Seen(works, n, j + 1, tag);
    forall other ensures Seen(works, n, j + 1, other) <==> Seen(works, n, j, other) || other == tag { }
    hide Seen;
    assert tag.name in descriptors ==> descriptors[tag.name] == tag;
  }

  lemma DescribedNext(works: seq<TaggedWork>, n: nat, descriptors: map<string, TagDescriptor>)
    requires n < |works| && Described(works, n, |works[n].tags|, descriptors)
    ensures Described(works, n + 1, 0, descriptors)
  {
    forall tag ensures Seen(works, n + 1, 0, tag) <==> Seen(works, n, |works[n].tags|, tag) { }
  }

  lemma NamesInStep(tags: seq<TagDescriptor>, j: nat)
    requires j < |tags|
    ensures NamesIn(tags[..j + 1]) == NamesIn(tags[..j]) + {tags[j].name}
  {
    assert tags[..j + 1] == tags[..j] + [tags[j]];
  }

  // ----- the loops

  /** Read the tags of one work into the descriptors. */
  method ReadTags(works: seq<TaggedWork>, n: nat, before: map<string, TagDescriptor>)
    returns (failure: Option<GraphError>, descriptors: map<string, TagDescriptor>, names: set<string>)
    requires n < |works| && Described(works, n, 0, before)
    ensures failure == TagDefect(works, n, 0) && (failure.Some? ==> !SampleOk(works))
    ensures failure.None? ==>
      && Described(works, n + 1, 0, descriptors) && names == Names(works[n])
      && "" !in names
  {
    var tags := works[n].tags;
    failure, descriptors, names := None, before, {};
    for j := 0 to |tags|
      invariant Described(works, n, j, descriptors)
      invariant names == NamesIn(tags[..j]) && "" !in names
      invariant failure.None? && TagDefect(works, n, 0) == TagDefect(works, n, j)
    {
      var tag := tags[j];
      TagDefectAt(works, n, j);
      ConflictIsReal(works, n, j, descriptors);
      hide *;
      if tag.name == "" {
        EmptyNameIsReal(works, n, j);
        failure := Some(EmptyTagName);
        return;
      }
      if tag.name in descriptors && descriptors[tag.name].translation != tag.translation {
        failure := Some(ConflictingTranslation);
        return;
      }
      DescribedStep(works, n, j, descriptors);
      NamesInStep(tags, j);
      descriptors, names := descriptors[tag.name := tag], names + {tag.name};
    }
    DescribedNext(works, n, descriptors);
    assert tags[..|tags|] == tags;
  }

  lemma EmptyNameIsReal(works: seq<TaggedWork>, n: nat, j: nat)
    requires n < |works| && j < |works[n].tags| && works[n].tags[j].name == ""
    ensures !SampleOk(works)
  {
    assert works[n].tags[j] in works[n].tags;
  }

  lemma TagDefectAt(works: seq<TaggedWork>, n: nat, j: nat)
    requires n < |works| && j < |works[n].tags|
    ensures TagDefect(works, n, j) ==
      if works[n].tags[j].name == "" then Some(EmptyTagName)
      else if Conflicts(works, n, j) then Some(ConflictingTranslation)
      else TagDefect(works, n, j + 1)
  {
  }

  method BuildTagAssociationGraph(
    works: seq<TaggedWork>, pmi: Pmi, anchor: Option<string>, minimum: int, limit: int)
    returns (result: GraphResult)
    ensures result.Ok? <==> ArgumentError(works, anchor, minimum, limit).None? && SampleOk(works)
    ensures result.Ok? ==> IsGraph(works, pmi, anchor, minimum, limit, result.graph)
    ensures result.Ok? ==> BestFirst(works, pmi, anchor, minimum, limit, result.graph)
    ensures result.Err? ==>
      Some(result.error) ==
        if ArgumentError(works, anchor, minimum, limit).Some? then ArgumentError(works, anchor, minimum, limit)
        else FirstDefect(works, 0)
  {
    if |works| > MAX_WORK_SAMPLE { return Err(SampleTooLarge); }
    if !(1 <= minimum <= MAX_WORK_SAMPLE) { return Err(MinimumOutOfRange); }
    if !(1 <= limit <= MAX_EDGE_LIMIT) { return Err(LimitOutOfRange); }
    if anchor.Some? && anchor.value == "" { return Err(EmptyAnchor); }

    var failure, tagCounts, pairCounts, descriptors := CountTags(works);
    if failure.Some? { return Err(failure.value); }
    assert |tagCounts| == |tagCounts.Keys| == |Observed(works, |works|)|;
    hide *;
    var edges := CollectEdges(works, pmi, anchor, minimum, tagCounts, pairCounts, descriptors);
    edges := SortedEdges(edges);
    var graph := Graph(|works|, |tagCounts|, |edges|, |edges| > limit, anchor, minimum, Cut(edges, limit));
    IsGraphOf(works, pmi, anchor, minimum, limit, edges, graph);
    GraphIsBestFirst(works, pmi, anchor, minimum, limit, graph);
    return Ok(graph);
  }

  /** The pass over the works: what the four collections hold afterwards. */
  method CountTags(works: seq<TaggedWork>)
    returns (
      failure: Option<GraphError>, tagCounts: map<string, nat>, pairCounts: map<(string, string), nat>,
      descriptors: map<string, TagDescriptor>)
    ensures failure.None? <==> SampleOk(works)
    ensures failure == FirstDefect(works, 0)
    ensures failure.None? ==>
      && TagsCounted(works, |works|, tagCounts) && PairsCounted(works, |works|, pairCounts)
      && Described(works, |works|, 0, descriptors)
  {
    failure, tagCounts, pairCounts, descriptors := None, map[], map[], map[];
    var seen: set<string> := {};
    for n := 0 to |works|
      invariant failure.None? && FirstDefect(works, 0) == FirstDefect(works, n)
      invariant IdsSeen(works, n, seen) && SizesOk(works, n) && NamesOk(works, n)
      invariant TagsCounted(works, n, tagCounts) && PairsCounted(works, n, pairCounts)
      invariant Described(works, n, 0, descriptors)
    {
      FirstDefectAt(works, n);
      hide *;
      var work := works[n];
      IdsSeenStep(works, n, seen);
      if work.workId == "" || work.workId in seen { failure := Some(BadWorkId); return; }
      seen := seen + {work.workId};
      SizesStep(works, n);
      if |work.tags| > MAX_TAGS_PER_WORK { failure := Some(TooManyTags); return; }
      var names;
      failure, descriptors, names := ReadTags(works, n, descriptors);
      if failure.Some? { return; }
      NamesStep(works, n);
      var ordered := SortedNames(names);
      TagsCountedStep(works, n, tagCounts, ordered);
      PairsCountedStep(works, n, pairCounts, ordered);
      tagCounts := Tally(tagCounts, ordered);
      pairCounts := Tally(pairCounts, Combinations(ordered));
    }
    DescribedMeansConsistent(works, descriptors);
  }

  ghost predicate IdsSeen(works: seq<TaggedWork>, n: nat, seen: set<string>)
    requires n <= |works|
  {
    IdsOk(works, n) && forall id :: id in seen <==> exists i :: 0 <= i < n && works[i].workId == id
  }

  lemma IdsSeenStep(works: seq<TaggedWork>, n: nat, seen: set<string>)
    requires n < |works| && IdsSeen(works, n, seen)
    ensures var id := works[n].workId;
      && (id in seen <==> IdTaken(works, n))
      && if id == "" || id in seen then !SampleOk(works) else IdsSeen(works, n + 1, seen + {id})
  {
    var id := works[n].workId;
    if id in seen {
      var i :| 0 <= i < n && works[i].workId == id;
      assert !IdsOk(works, |works|);
    }
  }

  lemma FirstDefectAt(works: seq<TaggedWork>, n: nat)
    requires n < |works|
    ensures FirstDefect(works, n) ==
      if works[n].workId == "" || IdTaken(works, n) then Some(BadWorkId)
      else if |works[n].tags| > MAX_TAGS_PER_WORK then Some(TooManyTags)
      else if TagDefect(works, n, 0).Some? then TagDefect(works, n, 0)
      else FirstDefect(works, n + 1)
  {
  }

  lemma SizesStep(works: seq<TaggedWork>, n: nat)
    requires n < |works| && SizesOk(works, n)
    ensures if |works[n].tags| > MAX_TAGS_PER_WORK then !SampleOk(works) else SizesOk(works, n + 1)
  {
  }

  lemma NamesStep(works: seq<TaggedWork>, n: nat)
    requires n < |works| && NamesOk(works, n)
    ensures "" !in Names(works[n]) ==> NamesOk(works, n + 1)
  {
  }

  lemma IsGraphOf(
    works: seq<TaggedWork>, pmi: Pmi, anchor: Option<string>, minimum: int, limit: nat, full: seq<Edge>, graph: Graph)
    requires Reports(works, pmi, anchor, minimum, limit, full, graph)
    ensures IsGraph(works, pmi, anchor, minimum, limit, graph)
  {
  }

  /** The edge that the source appends for one counted pair. */
  function EdgeOf(
    sample: nat, pmi: Pmi, pair: (string, string), cooccurrence: nat,
    tagCounts: map<string, nat>, descriptors: map<string, TagDescriptor>): Edge
    requires pair.0 in descriptors && pair.1 in descriptors
  {
    var left, right := Count(tagCounts, pair.0), Count(tagCounts, pair.1);
    Edge(descriptors[pair.0], descriptors[pair.1], left, right, cooccurrence,
      RatioBasisPoints(cooccurrence, sample),
      RatioBasisPoints(cooccurrence, left + right - cooccurrence),
      pmi(cooccurrence, sample, left, right))
  }

  /** A counted pair is two observed tags with the counts that the sample gives them. */
  lemma CountedPair(
    works: seq<TaggedWork>, pair: (string, string),
    tagCounts: map<string, nat>, pairCounts: map<(string, string), nat>, descriptors: map<string, TagDescriptor>)
    requires TagsCounted(works, |works|, tagCounts) && PairsCounted(works, |works|, pairCounts)
    requires Described(works, |works|, 0, descriptors) && pair in pairCounts
    ensures NameBefore(pair.0, pair.1) && pairCounts[pair] == |Carrying(works, |works|, {pair.0, pair.1})|
    ensures pair.0 in descriptors && pair.1 in descriptors
    ensures Count(tagCounts, pair.0) == |Carrying(works, |works|, {pair.0})|
    ensures Count(tagCounts, pair.1) == |Carrying(works, |works|, {pair.1})|
  {
    assert pair == (pair.0, pair.1) && NameBefore(pair.0, pair.1);
    var both := Carrying(works, |works|, {pair.0, pair.1});
    assert |both| == Count(pairCounts, pair) > 0;
    var i :| i in both;
    assert pair.0 in Names(works[i]) && pair.1 in Names(works[i]);
    var a :| a in works[i].tags && a.name == pair.0;
    var b :| b in works[i].tags && b.name == pair.1;
    assert Seen(works, |works|, 0, a) && Seen(works, |works|, 0, b);
  }

  lemma DescriptorIsCarried(works: seq<TaggedWork>, descriptors: map<string, TagDescriptor>, name: string)
    requires Described(works, |works|, 0, descriptors) && name in descriptors
    ensures descriptors[name].name == name
    ensures exists i :: 0 <= i < |works| && descriptors[name] in works[i].tags
  {
    assert Seen(works, |works|, 0, descriptors[name]);
  }

  lemma EdgeOfIsEdge(
    works: seq<TaggedWork>, pmi: Pmi, pair: (string, string),
    tagCounts: map<string, nat>, pairCounts: map<(string, string), nat>, descriptors: map<string, TagDescriptor>)
    requires TagsCounted(works, |works|, tagCounts) && PairsCounted(works, |works|, pairCounts)
    requires Described(works, |works|, 0, descriptors) && pair in pairCounts
    ensures pair.0 in descriptors && pair.1 in descriptors
    ensures
      var e := EdgeOf(|works|, pmi, pair, pairCounts[pair], tagCounts, descriptors);
      && IsEdge(works, pmi, e) && Key(e) == pair && e.cooccurrence == pairCounts[pair]
      && forall f :: IsEdge(works, pmi, f) && Key(f) == pair ==> f == e
  {
    var e := BuiltEdge(works, pmi, pair, tagCounts, pairCounts, descriptors);
    DescribedMeansConsistent(works, descriptors);
    hide *;
    OnlyEdge(works, pmi, e);
  }

  lemma OnlyEdge(works: seq<TaggedWork>, pmi: Pmi, e: Edge)
    requires TranslationsOk(works) && IsEdge(works, pmi, e)
    ensures forall f :: IsEdge(works, pmi, f) && Key(f) == Key(e) ==> f == e
  {
    hide TranslationsOk, IsEdge;
    forall f | IsEdge(works, pmi, f) && Key(f) == Key(e) ensures f == e {
      SameDescriptor(works, pmi, e, f);
    }
  }

  lemma BuiltEdge(
    works: seq<TaggedWork>, pmi: Pmi, pair: (string, string),
    tagCounts: map<string, nat>, pairCounts: map<(string, string), nat>, descriptors: map<string, TagDescriptor>)
    returns (e: Edge)
    requires TagsCounted(works, |works|, tagCounts) && PairsCounted(works, |works|, pairCounts)
    requires Described(works, |works|, 0, descriptors) && pair in pairCounts
    ensures pair.0 in descriptors && pair.1 in descriptors
    ensures e == EdgeOf(|works|, pmi, pair, pairCounts[pair], tagCounts, descriptors)
    ensures IsEdge(works, pmi, e) && Key(e) == pair && e.cooccurrence == pairCounts[pair]
  {
    CountedPair(works, pair, tagCounts, pairCounts, descriptors);
    DescriptorIsCarried(works, descriptors, pair.0);
    DescriptorIsCarried(works, descriptors, pair.1);
    Overlap(works, |works|, pair.0, pair.1);
    hide TagsCounted, PairsCounted, Described, Carrying, NameBefore, RatioBasisPoints, Count;
    e := EdgeOf(|works|, pmi, pair, pairCounts[pair], tagCounts, descriptors);
    assert e.left == descriptors[pair.0] && e.right == descriptors[pair.1];
  }

  lemma EligibleIsCounted(
    works: seq<TaggedWork>, pmi: Pmi, anchor: Option<string>, minimum: int, pairCounts: map<(string, string), nat>, e: Edge)
    requires minimum >= 1 && PairsCounted(works, |works|, pairCounts)
    requires Eligible(works, pmi, anchor, minimum, e)
    ensures Key(e) in pairCounts
  {
    Overlap(works, |works|, e.left.name, e.right.name);
    assert Count(pairCounts, (e.left.name, e.right.name)) == e.cooccurrence;
  }

  method CollectEdges(
    works: seq<TaggedWork>, pmi: Pmi, anchor: Option<string>, minimum: int,
    tagCounts: map<string, nat>, pairCounts: map<(string, string), nat>, descriptors: map<string, TagDescriptor>)
    returns (edges: seq<Edge>)
    requires minimum >= 1
    requires TagsCounted(works, |works|, tagCounts) && PairsCounted(works, |works|, pairCounts)
    requires Described(works, |works|, 0, descriptors)
    ensures forall e :: e in edges <==> Eligible(works, pmi, anchor, minimum, e)
    ensures forall i, k :: 0 <= i < k < |edges| ==> Key(edges[i]) != Key(edges[k])
  {
    edges := [];
    var rest := pairCounts.Keys;
    hide IsEdge, TagsCounted, PairsCounted, Described;
    while rest != {}
      invariant rest <= pairCounts.Keys
      invariant forall e :: e in edges <==>
        Eligible(works, pmi, anchor, minimum, e) && Key(e) in pairCounts.Keys - rest
      invariant forall i, k :: 0 <= i < k < |edges| ==> Key(edges[i]) != Key(edges[k])
    {
      var pair :| pair in rest;
      assert forall k :: 0 <= k < |edges| ==> edges[k] in edges && Key(edges[k]) != pair;
      rest := rest - {pair};
      EdgeOfIsEdge(works, pmi, pair, tagCounts, pairCounts, descriptors);
      ghost var e := EdgeOf(|works|, pmi, pair, pairCounts[pair], tagCounts, descriptors);
      assert forall f :: Eligible(works, pmi, anchor, minimum, f) && Key(f) == pair ==> f == e;
      var wanted := pairCounts[pair] >= minimum &&
        (anchor.None? || anchor.value == pair.0 || anchor.value == pair.1);
      assert Eligible(works, pmi, anchor, minimum, e) <==> wanted;
      hide Eligible, EdgeOf;
      if wanted {
        edges := edges + [EdgeOf(|works|, pmi, pair, pairCounts[pair], tagCounts, descriptors)];
      }
    }
    forall e | Eligible(works, pmi, anchor, minimum, e) ensures Key(e) in pairCounts {
      EligibleIsCounted(works, pmi, anchor, minimum, pairCounts, e);
    }
  }

  // ----- the order of the sample does not matter

  lemma {:induction false} CarryingAppend(a: seq<TaggedWork>, b: seq<TaggedWork>, wanted: set<string>)
    ensures Support(a + b, wanted) == Support(a, wanted) + Support(b, wanted)
    decreases |b|
  {
    if b == [] {
      assert a + b == a;
    } else {
      var init, last := b[..|b| - 1], b[|b| - 1];
      CarryingAppend(a, init, wanted);
      CarryingStep(a + b, |a + init|, wanted);
      CarryingStep(b, |init|, wanted);
      CarryingOfPrefix(a + b, a + init, wanted);
      CarryingOfPrefix(b, init, wanted);
      assert (a + b)[|a + init|] == last;
    }
  }

  lemma CarryingOfPrefix(works: seq<TaggedWork>, prefix: seq<TaggedWork>, wanted: set<string>)
    requires prefix <= works
    ensures Carrying(works, |prefix|, wanted) == Carrying(prefix, |prefix|, wanted)
  {
  }

  lemma {:induction false} SupportIgnoresOrder(xs: seq<TaggedWork>, ys: seq<TaggedWork>, wanted: set<string>)
    requires multiset(xs) == multiset(ys)
    ensures Support(xs, wanted) == Support(ys, wanted)
    decreases |xs|
  {
    assert |xs| == |multiset(xs)| == |ys|;
    if xs != [] {
      var x, init := xs[|xs| - 1], xs[..|xs| - 1];
      assert xs == init + [x];
      assert x in multiset(ys);
      var j :| 0 <= j < |ys| && ys[j] == x;
      var others := ys[..j] + ys[j + 1..];
      assert ys == ys[..j] + ([x] + ys[j + 1..]);
      assert multiset(init) == multiset(xs) - multiset{x} == multiset(others);
      SupportIgnoresOrder(init, others, wanted);
      CarryingAppend(init, [x], wanted);
      CarryingAppend(ys[..j], [x] + ys[j + 1..], wanted);
      CarryingAppend([x], ys[j + 1..], wanted);
      CarryingAppend(ys[..j], ys[j + 1..], wanted);
    }
  }

  lemma CountsIgnoreOrder(xs: seq<TaggedWork>, ys: seq<TaggedWork>, a: string, b: string)
    requires multiset(xs) == multiset(ys)
    ensures |xs| == |ys|
    ensures |Carrying(xs, |xs|, {a})| == |Carrying(ys, |ys|, {a})|
    ensures |Carrying(xs, |xs|, {b})| == |Carrying(ys, |ys|, {b})|
    ensures |Carrying(xs, |xs|, {a}) * Carrying(xs, |xs|, {b})| == |Carrying(ys, |ys|, {a}) * Carrying(ys, |ys|, {b})|
    ensures |Carrying(xs, |xs|, {a}) + Carrying(xs, |xs|, {b})| == |Carrying(ys, |ys|, {a}) + Carrying(ys, |ys|, {b})|
  {
    SupportIgnoresOrder(xs, ys, {a});
    SupportIgnoresOrder(xs, ys, {b});
    SupportIgnoresOrder(xs, ys, {a, b});
    assert |xs| == |multiset(xs)| == |ys|;
    hide Carrying;
    Overlap(xs, |xs|, a, b);
    Overlap(ys, |ys|, a, b);
  }

  lemma EdgeIgnoresOrder(xs: seq<TaggedWork>, ys: seq<TaggedWork>, pmi: Pmi, e: Edge)
    requires multiset(xs) == multiset(ys) && IsEdge(xs, pmi, e)
    ensures IsEdge(ys, pmi, e)
  {
    hide Carrying, RatioBasisPoints, NameBefore;
    CountsIgnoreOrder(xs, ys, e.left.name, e.right.name);
    TagIgnoresOrder(xs, ys, e.left);
    TagIgnoresOrder(xs, ys, e.right);
  }

  lemma TagIgnoresOrder(xs: seq<TaggedWork>, ys: seq<TaggedWork>, tag: TagDescriptor)
    requires multiset(xs) == multiset(ys)
    ensures (exists i :: 0 <= i < |xs| && tag in xs[i].tags) ==> exists i :: 0 <= i < |ys| && tag in ys[i].tags
  {
    if i :| 0 <= i < |xs| && tag in xs[i].tags {
      assert xs[i] in multiset(ys);
    }
  }

  /** The graph does not depend on the order in which the works were sampled. */
  lemma GraphIgnoresOrder(
    xs: seq<TaggedWork>, ys: seq<TaggedWork>, pmi: Pmi, anchor: Option<string>, minimum: int, limit: nat, g: Graph, h: Graph)
    requires multiset(xs) == multiset(ys)
    requires IsGraph(xs, pmi, anchor, minimum, limit, g) && IsGraph(ys, pmi, anchor, minimum, limit, h)
    ensures g == h
  {
    var full: seq<Edge> :| Reports(xs, pmi, anchor, minimum, limit, full, g);
    var other: seq<Edge> :| Reports(ys, pmi, anchor, minimum, limit, other, h);
    ObservedIgnoresOrder(xs, ys);
    ObservedIgnoresOrder(ys, xs);
    assert Observed(xs, |xs|) == Observed(ys, |ys|);
    hide IsEdge, Observed;
    forall e ensures e in full <==> e in other {
      if IsEdge(xs, pmi, e) { EdgeIgnoresOrder(xs, ys, pmi, e); }
      if IsEdge(ys, pmi, e) { EdgeIgnoresOrder(ys, xs, pmi, e); }
      assert e in full <==> Eligible(xs, pmi, anchor, minimum, e);
      assert e in other <==> Eligible(ys, pmi, anchor, minimum, e);
    }
    ListingIsUnique(full, other);
  }

  lemma ObservedIgnoresOrder(xs: seq<TaggedWork>, ys: seq<TaggedWork>)
    requires multiset(xs) == multiset(ys)
    ensures |xs| == |ys| && Observed(xs, |xs|) <= Observed(ys, |ys|)
  {
    assert |xs| == |multiset(xs)| == |ys|;
    forall i, tag | 0 <= i < |xs| && tag in xs[i].tags ensures tag.name in Observed(ys, |ys|) {
      assert xs[i] in multiset(ys);
    }
  }
}
