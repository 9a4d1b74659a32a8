/** What a ranked graph promises its reader, key by key: the best edges come first, and
    none that was cut off beats one that is listed.  */
module TagRanking {
  import opened Schema
  import opened TagOrder
  import opened TagAssociations

  /** The order of strings by code point: at the first difference, or at the shorter's end. */
  ghost predicate Lexicographic(a: string, b: string) {
    exists n: nat :: n <= |a| && n <= |b| && DiffersAt(a, b, n)
  }

  predicate DiffersAt(a: string, b: string, n: nat)
    requires n <= |a| && n <= |b|
  {
    a[..n] == b[..n] && ((n == |a| && n < |b|) || (n < |a| && n < |b| && a[n] < b[n]))
  }

  lemma {:induction false} NamesAreLexicographic(a: string, b: string)
    ensures NameBefore(a, b) <==> Lexicographic(a, b)
  {
    forall n: nat | 0 < n <= |a| && n <= |b| && a[..n] == b[..n] ensures a[0] == b[0] { assert a[..n][0] == b[..n][0]; }
    if a == "" || b == "" || a[0] != b[0] {
      if NameBefore(a, b) { assert DiffersAt(a, b, 0); }
      if Lexicographic(a, b) {
        var n: nat :| n <= |a| && n <= |b| && DiffersAt(a, b, n);
      }
    } else {
      NamesAreLexicographic(a[1..], b[1..]);
      if NameBefore(a, b) {
        var n: nat :| n <= |a[1..]| && n <= |b[1..]| && DiffersAt(a[1..], b[1..], n);
        assert a[..n + 1] == [a[0]] + a[1..][..n] && b[..n + 1] == [b[0]] + b[1..][..n];
        assert DiffersAt(a, b, n + 1);
      }
      if Lexicographic(a, b) {
        var n: nat :| n <= |a| && n <= |b| && DiffersAt(a, b, n);
        assert n > 0;
        assert a[1..][..n - 1] == a[..n][1..] && b[1..][..n - 1] == b[..n][1..];
        assert DiffersAt(a[1..], b[1..], n - 1);
      }
    }
  }

  /** More co-occurrences; among equals a higher Jaccard; among those a higher PMI; among
      those the earlier pair of names.  */
  ghost predicate Outranks(e: Edge, f: Edge) {
    && e.cooccurrence >= f.cooccurrence
    && (e.cooccurrence == f.cooccurrence ==> e.jaccard >= f.jaccard)
    && (e.cooccurrence == f.cooccurrence && e.jaccard == f.jaccard ==> e.pmi >= f.pmi)
    && (e.cooccurrence == f.cooccurrence && e.jaccard == f.jaccard && e.pmi == f.pmi ==>
          || Lexicographic(e.left.name, f.left.name)
          || (e.left.name == f.left.name && Lexicographic(e.right.name, f.right.name)))
  }

  lemma BeforeMeansOutranks(e: Edge, f: Edge)
    requires EdgeBefore(e, f)
    ensures Outranks(e, f)
  {
    NamesAreLexicographic(e.left.name, f.left.name);
    NamesAreLexicographic(e.right.name, f.right.name);
    hide NameBefore, Lexicographic;
  }

  /** The listed edges are ranked, and each of them outranks every eligible edge that is not
      listed; edges are missing only for the limit, and the graph says so.  */
  ghost predicate BestFirst(works: seq<TaggedWork>, pmi: Pmi, anchor: Option<string>, minimum: int, limit: nat, graph: Graph) {
    && (forall i, k :: 0 <= i < k < |graph.edges| ==> Outranks(graph.edges[i], graph.edges[k]))
    && (forall i, f :: 0 <= i < |graph.edges| && Eligible(works, pmi, anchor, minimum, f) && f !in graph.edges ==>
          Outranks(graph.edges[i], f))
    && (forall e :: e in graph.edges ==> Eligible(works, pmi, anchor, minimum, e))
    && (graph.truncated <==> exists f :: Eligible(works, pmi, anchor, minimum, f) && f !in graph.edges)
    && (graph.truncated ==> |graph.edges| == limit)
  }

  lemma GraphIsBestFirst(works: seq<TaggedWork>, pmi: Pmi, anchor: Option<string>, minimum: int, limit: nat, graph: Graph)
    requires IsGraph(works, pmi, anchor, minimum, limit, graph)
    ensures BestFirst(works, pmi, anchor, minimum, limit, graph)
  {
    var full: seq<Edge> :| Reports(works, pmi, anchor, minimum, limit, full, graph);
    hide Eligible, Outranks, EdgeBefore;
    forall i, k | 0 <= i < k < |full| ensures Outranks(full[i], full[k]) { BeforeMeansOutranks(full[i], full[k]); }
    forall i, f | 0 <= i < |graph.edges| && Eligible(works, pmi, anchor, minimum, f) && f !in graph.edges
      ensures Outranks(graph.edges[i], f)
    {
      var k :| 0 <= k < |full| && full[k] == f;
      assert k >= |graph.edges|;
    }
    if graph.truncated {
      forall i | 0 <= i < limit ensures full[i] != full[limit] {
        assert EdgeBefore(full[i], full[limit]);
        EdgeIrreflexive(full[limit]);
      }
      assert full[limit] in full && full[limit] !in graph.edges;
    }
  }
}
