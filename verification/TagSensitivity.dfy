/** Threshold sensitivity: how the reported edges move as the co-occurrence
    threshold rises, and the evidence queued for human review.  */
module TagSensitivity {
  import opened Schema
  import opened TagOrder
  import opened TagAssociations
  import opened TagRanking
  import opened TagGraphBuilder

  const MAX_SENSITIVITY_THRESHOLDS := 8

  datatype Point = Point(
    minimum: int, eligibleEdges: nat, returnedEdges: nat, retention: int, comparable: bool)

  datatype Candidate = Candidate(
    rank: nat, left: TagDescriptor, right: TagDescriptor,
    cooccurrence: nat, support: int, jaccard: int, pmi: int, survives: seq<int>)

  datatype Report = Report(
    sampled: nat, anchor: Option<string>, thresholds: seq<int>,
    baselineEdges: nat, baselineTruncated: bool, points: seq<Point>, candidates: seq<Candidate>)

  datatype ReportResult = Reported(report: Report) | BadThresholds | BadCandidateLimit | BadGraph(error: GraphError)

  predicate Increasing(xs: seq<int>) {
    forall i, k :: 0 <= i < k < |xs| ==> xs[i] < xs[k]
  }

  predicate ThresholdsOk(thresholds: seq<int>) {
    && 0 < |thresholds| <= MAX_SENSITIVITY_THRESHOLDS
    && Increasing(thresholds) && thresholds[0] == 1
    && forall k :: 0 <= k < |thresholds| ==> 1 <= thresholds[k] <= MAX_WORK_SAMPLE
  }

  // ----- the report, as the source computes it from key sets

  function EdgeKeys(graph: Graph): set<(string, string)> {
    set e | e in graph.edges :: Key(e)
  }

  function Retention(baseline: set<(string, string)>, current: set<(string, string)>): int {
    RatioBasisPoints(|baseline * current|, |baseline|)
  }

  function Surviving(key: (string, string), thresholds: seq<int>, graphs: seq<Graph>): seq<int>
    requires |thresholds| == |graphs|
  {
    if thresholds == [] then []
    else (if key in EdgeKeys(graphs[0]) then [thresholds[0]] else []) + Surviving(key, thresholds[1..], graphs[1..])
  }

  function PointOf(minimum: int, baseline: Graph, graph: Graph): Point {
    Point(minimum, graph.eligibleEdges, |graph.edges|, Retention(EdgeKeys(baseline), EdgeKeys(graph)),
      !baseline.truncated && !graph.truncated)
  }

  function CandidateOf(rank: nat, edge: Edge, thresholds: seq<int>, graphs: seq<Graph>): Candidate
    requires |thresholds| == |graphs|
  {
    Candidate(rank, edge.left, edge.right, edge.cooccurrence, edge.support, edge.jaccard, edge.pmi,
      Surviving(Key(edge), thresholds, graphs))
  }

  function ReportOf(anchor: Option<string>, thresholds: seq<int>, limit: nat, graphs: seq<Graph>): Report
    requires 0 < |thresholds| == |graphs|
  {
    var baseline := graphs[0];
    var shown := Cut(baseline.edges, limit);
    Report(baseline.sampled, anchor, thresholds, |baseline.edges|, baseline.truncated,
      seq(|graphs|, k requires 0 <= k < |graphs| => PointOf(thresholds[k], baseline, graphs[k])),
      seq(|shown|, k requires 0 <= k < |shown| => CandidateOf(k + 1, shown[k], thresholds, graphs)))
  }

  /** One graph per threshold, all of one sample. */
  ghost predicate GraphsOf(works: seq<TaggedWork>, pmi: Pmi, anchor: Option<string>, thresholds: seq<int>, graphs: seq<Graph>) {
    && |graphs| == |thresholds|
    && forall k :: 0 <= k < |graphs| ==> IsGraph(works, pmi, anchor, thresholds[k], MAX_EDGE_LIMIT, graphs[k])
  }

  /** A report whose graphs come from one sound sample. */
  ghost predicate Sound(works: seq<TaggedWork>, pmi: Pmi, anchor: Option<string>, thresholds: seq<int>, graphs: seq<Graph>) {
    && ThresholdsOk(thresholds) && GraphsOf(works, pmi, anchor, thresholds, graphs)
    && SampleOk(works) && |works| <= MAX_WORK_SAMPLE && anchor != Some("")
  }

  /** The graphs built so far. */
  ghost predicate BuiltOk(works: seq<TaggedWork>, pmi: Pmi, anchor: Option<string>, thresholds: seq<int>, built: seq<Graph>) {
    |built| <= |thresholds|
    && forall k :: 0 <= k < |built| ==> IsGraph(works, pmi, anchor, thresholds[k], MAX_EDGE_LIMIT, built[k])
  }

  lemma BuiltOneMore(
    works: seq<TaggedWork>, pmi: Pmi, anchor: Option<string>, thresholds: seq<int>, built: seq<Graph>, graph: Graph)
    requires BuiltOk(works, pmi, anchor, thresholds, built) && |built| < |thresholds|
    requires IsGraph(works, pmi, anchor, thresholds[|built|], MAX_EDGE_LIMIT, graph)
    ensures BuiltOk(works, pmi, anchor, thresholds, built + [graph])
  {
    hide IsGraph;
  }

  method BuildReport(works: seq<TaggedWork>, pmi: Pmi, thresholds: seq<int>, anchor: Option<string>, limit: int)
    returns (result: ReportResult, ghost graphs: seq<Graph>)
    ensures result == BadThresholds <==> !ThresholdsOk(thresholds)
    ensures result == BadCandidateLimit <==> ThresholdsOk(thresholds) && !(1 <= limit <= MAX_EDGE_LIMIT)
    ensures result.Reported? <==>
      && ThresholdsOk(thresholds) && 1 <= limit <= MAX_EDGE_LIMIT
      && |works| <= MAX_WORK_SAMPLE && anchor != Some("") && SampleOk(works)
    ensures result.BadGraph? ==>
      Some(result.error) ==
        if ArgumentError(works, anchor, 1, MAX_EDGE_LIMIT).Some? then ArgumentError(works, anchor, 1, MAX_EDGE_LIMIT)
        else FirstDefect(works, 0)
    ensures result.Reported? ==>
      Sound(works, pmi, anchor, thresholds, graphs) && result.report == ReportOf(anchor, thresholds, limit, graphs)
  {
    graphs := [];
    if !ThresholdsOk(thresholds) { return BadThresholds, []; }
    if !(1 <= limit <= MAX_EDGE_LIMIT) { return BadCandidateLimit, []; }
    var built: seq<Graph> := [];
    for k := 0 to |thresholds|
      invariant |built| == k && BuiltOk(works, pmi, anchor, thresholds, built)
      invariant k > 0 ==> |works| <= MAX_WORK_SAMPLE && anchor != Some("") && SampleOk(works)
    {
      hide IsGraph, SampleOk, FirstDefect, BestFirst, ReportOf, BuiltOk;
      var graph := BuildTagAssociationGraph(works, pmi, anchor, thresholds[k], MAX_EDGE_LIMIT);
      if graph.Err? { return BadGraph(graph.error), []; }
      BuiltOneMore(works, pmi, anchor, thresholds, built, graph.graph);
      built := built + [graph.graph];
    }
    graphs := built;
    result := Reported(ReportOf(anchor, thresholds, limit, built));
  }

  // ----- the prefix law

  /** The first position whose edge falls below the threshold. */
  function Above(edges: seq<Edge>, minimum: int): (n: nat)
    ensures n <= |edges|
    ensures forall i :: 0 <= i < n ==> edges[i].cooccurrence >= minimum
    ensures n < |edges| ==> edges[n].cooccurrence < minimum
  {
    if edges == [] || edges[0].cooccurrence < minimum then 0 else 1 + Above(edges[1..], minimum)
  }

  /** In a ranked list the threshold separates a prefix from the rest. */
  lemma AboveSeparates(edges: seq<Edge>, minimum: int)
    requires Ascending(edges, EdgeBefore)
    ensures forall i :: 0 <= i < |edges| ==> (edges[i].cooccurrence >= minimum <==> i < Above(edges, minimum))
    ensures forall e :: e in edges[..Above(edges, minimum)] <==> e in edges && e.cooccurrence >= minimum
  {
    var n := Above(edges, minimum);
    forall i | n <= i < |edges| ensures edges[i].cooccurrence < minimum {
      if n < i { assert EdgeBefore(edges[n], edges[i]); }
    }
    hide EdgeBefore;
    forall e | e in edges && e.cooccurrence >= minimum ensures e in edges[..n] {
      var i :| 0 <= i < |edges| && edges[i] == e;
      assert edges[..n][i] == e;
    }
  }

  /** Raising the threshold cuts the ranking off at one place. */
  lemma RankingPrefix(
    works: seq<TaggedWork>, pmi: Pmi, anchor: Option<string>, low: int, high: int, xs: seq<Edge>, ys: seq<Edge>)
    requires low <= high && Ranking(works, pmi, anchor, low, xs) && Ranking(works, pmi, anchor, high, ys)
    ensures ys == xs[..Above(xs, high)]
  {
    AboveSeparates(xs, high);
    hide IsEdge, EdgeBefore;
    forall e ensures e in ys <==> e in xs[..Above(xs, high)] {
      assert e in ys <==> Eligible(works, pmi, anchor, high, e);
      assert e in xs <==> Eligible(works, pmi, anchor, low, e);
    }
    ListingIsUnique(xs[..Above(xs, high)], ys);
  }

  /** Even cut at the edge limit, the edges at a higher threshold are a prefix of the
      edges at a lower one, and hold exactly those of them that reach the threshold.  */
  lemma ThresholdPrefix(
    works: seq<TaggedWork>, pmi: Pmi, anchor: Option<string>, limit: nat, low: int, high: int, g: Graph, h: Graph)
    requires low <= high && IsGraph(works, pmi, anchor, low, limit, g) && IsGraph(works, pmi, anchor, high, limit, h)
    ensures h.edges <= g.edges && h.eligibleEdges <= g.eligibleEdges
    ensures forall e :: e in g.edges ==> (e in h.edges <==> e.cooccurrence >= high)
  {
    var xs: seq<Edge> :| Reports(works, pmi, anchor, low, limit, xs, g);
    var ys: seq<Edge> :| Reports(works, pmi, anchor, high, limit, ys, h);
    RankingPrefix(works, pmi, anchor, low, high, xs, ys);
    AboveSeparates(xs, high);
    CutsAgree(xs, ys, limit, high);
  }

  lemma CutsAgree(xs: seq<Edge>, ys: seq<Edge>, limit: nat, high: int)
    requires ys == xs[..Above(xs, high)]
    requires forall i :: 0 <= i < |xs| ==> (xs[i].cooccurrence >= high <==> i < Above(xs, high))
    ensures Cut(ys, limit) <= Cut(xs, limit)
    ensures forall e :: e in Cut(xs, limit) ==> (e in Cut(ys, limit) <==> e.cooccurrence >= high)
  {
    forall e | e in Cut(xs, limit) ensures e in Cut(ys, limit) <==> e.cooccurrence >= high {
      var i :| 0 <= i < |Cut(xs, limit)| && Cut(xs, limit)[i] == e;
      if i < |ys| { assert Cut(ys, limit)[i] == e; }
    }
  }

  // ----- what the report says

  lemma EdgesOfGraph(works: seq<TaggedWork>, pmi: Pmi, anchor: Option<string>, minimum: int, limit: nat, g: Graph)
    requires IsGraph(works, pmi, anchor, minimum, limit, g)
    ensures forall i, k :: 0 <= i < k < |g.edges| ==> EdgeBefore(g.edges[i], g.edges[k])
    ensures forall e :: e in g.edges ==> Eligible(works, pmi, anchor, minimum, e) && IsEdge(works, pmi, e)
  {
    var full: seq<Edge> :| Reports(works, pmi, anchor, minimum, limit, full, g);
    assert g.edges <= full;
    hide IsEdge, EdgeBefore;
    forall e | e in g.edges ensures Eligible(works, pmi, anchor, minimum, e) { assert e in full; }
  }

  lemma KeysDiffer(works: seq<TaggedWork>, pmi: Pmi, anchor: Option<string>, minimum: int, limit: nat, g: Graph)
    requires TranslationsOk(works) && IsGraph(works, pmi, anchor, minimum, limit, g)
    ensures forall i, k :: 0 <= i < k < |g.edges| ==> Key(g.edges[i]) != Key(g.edges[k])
    ensures forall e, f :: e in g.edges && f in g.edges && Key(e) == Key(f) ==> e == f
    ensures forall e :: e in g.edges ==> Eligible(works, pmi, anchor, minimum, e)
  {
    EdgesOfGraph(works, pmi, anchor, minimum, limit, g);
    hide *;
    forall e, f | e in g.edges && f in g.edges && Key(e) == Key(f) ensures e == f {
      SameDescriptor(works, pmi, e, f);
    }
    forall i, k | 0 <= i < k < |g.edges| ensures Key(g.edges[i]) != Key(g.edges[k]) {
      EdgeIrreflexive(g.edges[i]);
      assert g.edges[i] in g.edges && g.edges[k] in g.edges;
    }
  }

  lemma {:induction false} DistinctKeysCount(edges: seq<Edge>)
    requires forall i, k :: 0 <= i < k < |edges| ==> Key(edges[i]) != Key(edges[k])
    ensures |set e | e in edges :: Key(e)| == |edges|
  {
    if edges != [] {
      var rest := edges[..|edges| - 1];
      var last := edges[|edges| - 1];
      DistinctKeysCount(rest);
      assert edges == rest + [last];
      assert (set e | e in edges :: Key(e)) == (set e | e in rest :: Key(e)) + {Key(last)};
      assert Key(last) !in (set e | e in rest :: Key(e));
    }
  }

  /** Two graphs of one report: keys stand for edges, and the later is a prefix. */
  lemma GraphsAgree(
    works: seq<TaggedWork>, pmi: Pmi, anchor: Option<string>, thresholds: seq<int>, graphs: seq<Graph>, i: nat, k: nat)
    requires Sound(works, pmi, anchor, thresholds, graphs) && i <= k < |graphs| == |thresholds|
    ensures var g, h := graphs[i], graphs[k];
      && (forall e, f :: e in g.edges && f in g.edges && Key(e) == Key(f) ==> e == f)
      && (forall a, b :: 0 <= a < b < |g.edges| ==> Key(g.edges[a]) != Key(g.edges[b]))
      && h.edges <= g.edges && h.eligibleEdges <= g.eligibleEdges && (h.truncated ==> g.truncated)
      && (forall e :: e in g.edges ==> (e in h.edges <==> e.cooccurrence >= thresholds[k]))
  {
    var g, h := graphs[i], graphs[k];
    assert IsGraph(works, pmi, anchor, thresholds[i], MAX_EDGE_LIMIT, g) && IsGraph(works, pmi, anchor, thresholds[k], MAX_EDGE_LIMIT, h);
    assert thresholds[i] <= thresholds[k] && TranslationsOk(works);
    TruncationFalls(works, pmi, anchor, thresholds[i], g);
    TruncationFalls(works, pmi, anchor, thresholds[k], h);
    hide *;
    KeysDiffer(works, pmi, anchor, thresholds[i], MAX_EDGE_LIMIT, g);
    ThresholdPrefix(works, pmi, anchor, MAX_EDGE_LIMIT, thresholds[i], thresholds[k], g, h);
  }

  /** Membership by key is membership of the edge. */
  lemma KeyMeansEdge(
    works: seq<TaggedWork>, pmi: Pmi, anchor: Option<string>, thresholds: seq<int>, graphs: seq<Graph>, i: nat, k: nat, e: Edge)
    requires Sound(works, pmi, anchor, thresholds, graphs) && i <= k < |graphs| == |thresholds| && e in graphs[i].edges
    ensures Key(e) in EdgeKeys(graphs[k]) <==> e.cooccurrence >= thresholds[k]
  {
    GraphsAgree(works, pmi, anchor, thresholds, graphs, i, k);
    hide *;
    KeyInPrefix(graphs[i], graphs[k], e);
  }

  lemma KeyInPrefix(g: Graph, h: Graph, e: Edge)
    requires h.edges <= g.edges && e in g.edges
    requires forall a, b :: a in g.edges && b in g.edges && Key(a) == Key(b) ==> a == b
    ensures Key(e) in EdgeKeys(h) <==> e in h.edges
  {
    hide Key;
    if f :| f in h.edges && Key(f) == Key(e) {
      assert f in g.edges;
    }
  }

  /** The number of leading thresholds that do not exceed `bound`. */
  function Reached(thresholds: seq<int>, bound: int): (n: nat)
    ensures n <= |thresholds|
    ensures forall k :: 0 <= k < n ==> thresholds[k] <= bound
    ensures n < |thresholds| ==> bound < thresholds[n]
  {
    if thresholds == [] || bound < thresholds[0] then 0 else 1 + Reached(thresholds[1..], bound)
  }

  lemma {:induction false} SurvivingByCount(key: (string, string), thresholds: seq<int>, graphs: seq<Graph>, bound: int)
    requires |thresholds| == |graphs| && Increasing(thresholds)
    requires forall k :: 0 <= k < |graphs| ==> (key in EdgeKeys(graphs[k]) <==> thresholds[k] <= bound)
    ensures Surviving(key, thresholds, graphs) == thresholds[..Reached(thresholds, bound)]
  {
    if thresholds != [] {
      SurvivingByCount(key, thresholds[1..], graphs[1..], bound);
      if thresholds[0] <= bound {
        assert thresholds[..Reached(thresholds, bound)] == [thresholds[0]] + thresholds[1..][..Reached(thresholds[1..], bound)];
      } else {
        assert Reached(thresholds[1..], bound) == 0 by {
          assert |thresholds| > 1 ==> thresholds[0] < thresholds[1];
        }
      }
    }
  }

  /** What a candidate is said to survive is exactly the thresholds that its own
      count reaches, however many edges the lists cut off.  */
  lemma SurvivalIsExact(
    works: seq<TaggedWork>, pmi: Pmi, anchor: Option<string>, thresholds: seq<int>, limit: nat, graphs: seq<Graph>, r: nat)
    requires Sound(works, pmi, anchor, thresholds, graphs) && 0 < |thresholds| == |graphs|
    requires r < |ReportOf(anchor, thresholds, limit, graphs).candidates|
    ensures var c := ReportOf(anchor, thresholds, limit, graphs).candidates[r];
      && c.survives == thresholds[..Reached(thresholds, c.cooccurrence)]
      && forall t :: t in c.survives <==> t in thresholds && t <= c.cooccurrence
  {
    var e := CandidateAt(anchor, thresholds, limit, graphs, r);
    BaselineSurvival(works, pmi, anchor, thresholds, graphs, e);
    hide *;
  }

  /** Candidate number `r` is about the baseline's edge number `r`. */
  lemma CandidateAt(anchor: Option<string>, thresholds: seq<int>, limit: nat, graphs: seq<Graph>, r: nat)
    returns (e: Edge)
    requires 0 < |thresholds| == |graphs| && r < |ReportOf(anchor, thresholds, limit, graphs).candidates|
    ensures r < |graphs[0].edges| && e == graphs[0].edges[r] && e in graphs[0].edges
    ensures var c := ReportOf(anchor, thresholds, limit, graphs).candidates[r];
      && c == Candidate(r + 1, e.left, e.right, e.cooccurrence, e.support, e.jaccard, e.pmi,
              Surviving(Key(e), thresholds, graphs))
  {
    e := Cut(graphs[0].edges, limit)[r];
  }

  lemma BaselineSurvival(
    works: seq<TaggedWork>, pmi: Pmi, anchor: Option<string>, thresholds: seq<int>, graphs: seq<Graph>, e: Edge)
    requires Sound(works, pmi, anchor, thresholds, graphs) && 0 < |thresholds| == |graphs| && e in graphs[0].edges
    ensures Surviving(Key(e), thresholds, graphs) == thresholds[..Reached(thresholds, e.cooccurrence)]
    ensures forall t :: t in Surviving(Key(e), thresholds, graphs) <==> t in thresholds && t <= e.cooccurrence
  {
    assert Increasing(thresholds);
    hide *;
    forall k | 0 <= k < |graphs| ensures Key(e) in EdgeKeys(graphs[k]) <==> thresholds[k] <= e.cooccurrence {
      KeyMeansEdge(works, pmi, anchor, thresholds, graphs, 0, k, e);
    }
    SurvivingByCount(Key(e), thresholds, graphs, e.cooccurrence);
    ReachedMembers(thresholds, e.cooccurrence);
  }

  lemma ReachedMembers(thresholds: seq<int>, bound: int)
    requires Increasing(thresholds)
    ensures forall t :: t in thresholds[..Reached(thresholds, bound)] <==> t in thresholds && t <= bound
  {
    var n := Reached(thresholds, bound);
    assert forall i :: n <= i < |thresholds| ==> thresholds[n] <= thresholds[i];
    forall t | t in thresholds && t <= bound ensures t in thresholds[..n] {
      var i :| 0 <= i < |thresholds| && thresholds[i] == t;
      assert thresholds[..n][i] == t;
    }
  }

  lemma RetainedKeys(
    works: seq<TaggedWork>, pmi: Pmi, anchor: Option<string>, thresholds: seq<int>, graphs: seq<Graph>, k: nat)
    requires Sound(works, pmi, anchor, thresholds, graphs) && k < |graphs| == |thresholds|
    ensures |EdgeKeys(graphs[0])| == |graphs[0].edges|
    ensures |EdgeKeys(graphs[0]) * EdgeKeys(graphs[k])| == |graphs[k].edges|
  {
    var g, h := graphs[0], graphs[k];
    GraphsAgree(works, pmi, anchor, thresholds, graphs, 0, k);
    hide *;
    KeysOfPrefix(g, h);
  }

  lemma KeysOfPrefix(g: Graph, h: Graph)
    requires h.edges <= g.edges
    requires forall i, k :: 0 <= i < k < |g.edges| ==> Key(g.edges[i]) != Key(g.edges[k])
    ensures |EdgeKeys(g)| == |g.edges|
    ensures |EdgeKeys(g) * EdgeKeys(h)| == |h.edges|
  {
    hide Key;
    DistinctKeysCount(g.edges);
    DistinctKeysCount(h.edges);
    assert forall e :: e in h.edges ==> e in g.edges;
    assert EdgeKeys(g) * EdgeKeys(h) == EdgeKeys(h);
  }

  /** Retention is the share of the baseline's edges still listed; it starts at all
      of them and never rises with the threshold.  */
  lemma RetentionFalls(
    works: seq<TaggedWork>, pmi: Pmi, anchor: Option<string>, thresholds: seq<int>, limit: nat, graphs: seq<Graph>, i: nat, k: nat)
    requires Sound(works, pmi, anchor, thresholds, graphs) && i <= k < |graphs| == |thresholds|
    ensures var points := ReportOf(anchor, thresholds, limit, graphs).points;
      && points[k].retention == RatioBasisPoints(points[k].returnedEdges, points[0].returnedEdges)
      && 0 <= points[k].retention <= points[i].retention <= 10_000
      && points[k].eligibleEdges <= points[i].eligibleEdges
      && points[k].returnedEdges <= points[i].returnedEdges
      && (points[0].returnedEdges > 0 ==> points[0].retention == 10_000)
      && (points[i].comparable ==> points[k].comparable)
  {
    GraphsAgree(works, pmi, anchor, thresholds, graphs, i, k);
    GraphsAgree(works, pmi, anchor, thresholds, graphs, 0, i);
    RetainedKeys(works, pmi, anchor, thresholds, graphs, 0);
    RetainedKeys(works, pmi, anchor, thresholds, graphs, i);
    RetainedKeys(works, pmi, anchor, thresholds, graphs, k);
    hide Sound, EdgeKeys, RatioBasisPoints, Key;
    var n, a, b := |graphs[0].edges|, |graphs[i].edges|, |graphs[k].edges|;
    RatioGrows(b, a, n);
    RatioBounds(n, n);
    RatioBounds(a, n);
    RatioBounds(b, n);
  }

  /** A point counts the eligible edges of its threshold, of which at most the edge limit are
      returned, and is comparable exactly if neither it nor the baseline was cut.  */
  lemma PointsTell(
    works: seq<TaggedWork>, pmi: Pmi, anchor: Option<string>, thresholds: seq<int>, limit: nat, graphs: seq<Graph>, k: nat)
    requires Sound(works, pmi, anchor, thresholds, graphs) && k < |graphs| == |thresholds|
    ensures var points := ReportOf(anchor, thresholds, limit, graphs).points; var p := points[k];
      && p.minimum == thresholds[k]
      && (exists full: seq<Edge> :: Ranking(works, pmi, anchor, thresholds[k], full) && |full| == p.eligibleEdges)
      && p.returnedEdges == (if p.eligibleEdges > MAX_EDGE_LIMIT then MAX_EDGE_LIMIT else p.eligibleEdges)
      && (p.comparable <==> points[0].eligibleEdges <= MAX_EDGE_LIMIT && p.eligibleEdges <= MAX_EDGE_LIMIT)
  {
    assert IsGraph(works, pmi, anchor, thresholds[k], MAX_EDGE_LIMIT, graphs[k]);
    assert IsGraph(works, pmi, anchor, thresholds[0], MAX_EDGE_LIMIT, graphs[0]);
    TruncationFalls(works, pmi, anchor, thresholds[0], graphs[0]);
    TruncationFalls(works, pmi, anchor, thresholds[k], graphs[k]);
    var full: seq<Edge> :| Reports(works, pmi, anchor, thresholds[k], MAX_EDGE_LIMIT, full, graphs[k]);
    hide Sound, IsEdge, EdgeBefore, Retention, Surviving;
    assert Ranking(works, pmi, anchor, thresholds[k], full);
  }

  lemma TruncationFalls(works: seq<TaggedWork>, pmi: Pmi, anchor: Option<string>, minimum: int, g: Graph)
    requires IsGraph(works, pmi, anchor, minimum, MAX_EDGE_LIMIT, g)
    ensures g.truncated <==> g.eligibleEdges > MAX_EDGE_LIMIT
  {
  }

  /** The evidence that a review decision will accept, string lengths and the range
      of the mutual information aside.  */
  predicate CanonicalEvidence(report: Report, c: Candidate) {
    && 1 <= report.sampled <= 5_000
    && report.anchor != Some("")
    && 1 <= |report.thresholds| <= 8 && report.thresholds[0] == 1 && Increasing(report.thresholds)
    && report.thresholds[|report.thresholds| - 1] <= 5_000
    && c.left.name != "" && c.right.name != "" && NameBefore(c.left.name, c.right.name)
    && 1 <= c.cooccurrence <= 5_000
    && 0 <= c.support <= 10_000 && 0 <= c.jaccard <= 10_000
    && 1 <= |c.survives| <= 8 && c.survives[0] == 1 && Increasing(c.survives)
    && c.survives[|c.survives| - 1] <= c.cooccurrence
    && forall t :: t in c.survives ==> t in report.thresholds
  }

  /** Every candidate the report produces is canonical evidence. */
  lemma CandidatesAreCanonical(
    works: seq<TaggedWork>, pmi: Pmi, anchor: Option<string>, thresholds: seq<int>, limit: nat, graphs: seq<Graph>, r: nat)
    requires Sound(works, pmi, anchor, thresholds, graphs) && 0 < |thresholds| == |graphs|
    requires r < |ReportOf(anchor, thresholds, limit, graphs).candidates|
    ensures var report := ReportOf(anchor, thresholds, limit, graphs);
      && CanonicalEvidence(report, report.candidates[r])
      && report.candidates[r].rank == r + 1
  {
    var report := ReportOf(anchor, thresholds, limit, graphs);
    assert report.sampled == graphs[0].sampled && report.anchor == anchor && report.thresholds == thresholds;
    var e := CandidateAt(anchor, thresholds, limit, graphs, r);
    assert ThresholdsOk(thresholds) && anchor != Some("") && |works| <= MAX_WORK_SAMPLE;
    BaselineEdge(works, pmi, anchor, thresholds, graphs, e);
    BaselineSurvival(works, pmi, anchor, thresholds, graphs, e);
    hide *;
    EvidenceFits(report, report.candidates[r]);
  }

  lemma EvidenceFits(report: Report, c: Candidate)
    requires ThresholdsOk(report.thresholds) && report.anchor != Some("") && 1 <= report.sampled <= MAX_WORK_SAMPLE
    requires c.left.name != "" && c.right.name != "" && NameBefore(c.left.name, c.right.name)
    requires 1 <= c.cooccurrence <= report.sampled && 0 <= c.support <= 10_000 && 0 <= c.jaccard <= 10_000
    requires c.survives == report.thresholds[..Reached(report.thresholds, c.cooccurrence)]
    ensures CanonicalEvidence(report, c)
  {
    assert |c.survives| > 0 && Increasing(c.survives);
    hide NameBefore;
  }

  lemma BaselineEdge(
    works: seq<TaggedWork>, pmi: Pmi, anchor: Option<string>, thresholds: seq<int>, graphs: seq<Graph>, e: Edge)
    requires Sound(works, pmi, anchor, thresholds, graphs) && 0 < |graphs| && e in graphs[0].edges
    ensures graphs[0].sampled == |works| && 1 <= |works|
    ensures e.left.name != "" && e.right.name != "" && NameBefore(e.left.name, e.right.name)
    ensures 1 <= e.cooccurrence <= |works| && 0 <= e.support <= 10_000 && 0 <= e.jaccard <= 10_000
  {
    assert IsGraph(works, pmi, anchor, 1, MAX_EDGE_LIMIT, graphs[0]);
    assert TranslationsOk(works) && NamesOk(works, |works|);
    hide Sound, TranslationsOk, Carrying, RatioBasisPoints, NameBefore;
    KeysDiffer(works, pmi, anchor, 1, MAX_EDGE_LIMIT, graphs[0]);
    assert Eligible(works, pmi, anchor, 1, e);
    EdgeBounds(works, pmi, e);
  }
}
