/** The tag association graph: what its counters mean, and the loops that fill them. */
module TagAssociations {
  import opened Schema
  import opened TagOrder

  const MAX_WORK_SAMPLE := 5_000
  const MAX_TAGS_PER_WORK := 64
  const MAX_EDGE_LIMIT := 200

  datatype TaggedWork = TaggedWork(workId: string, tags: seq<TagDescriptor>)

  datatype Graph = Graph(
    sampled: nat,
    observedTags: nat,
    eligibleEdges: nat,
    truncated: bool,
    anchor: Option<string>,
    minimum: int,
    edges: seq<Edge>)

  datatype GraphError =
    | SampleTooLarge | MinimumOutOfRange | LimitOutOfRange | EmptyAnchor
    | BadWorkId | TooManyTags | EmptyTagName | ConflictingTranslation

  datatype GraphResult = Ok(graph: Graph) | Err(error: GraphError)

  /** Pointwise mutual information in milli-bits, rounded from floating point:
      any function of the four counts (co-occurrences, sample, left, right).  */
  type Pmi = (nat, nat, nat, nat) -> int

  // ----- what is counted

  function NamesIn(tags: seq<TagDescriptor>): set<string> {
    set tag | tag in tags :: tag.name
  }

  function Names(work: TaggedWork): set<string> {
    NamesIn(work.tags)
  }

  /** The positions, among the first `n` works, of those that carry every wanted tag. */
  function Carrying(works: seq<TaggedWork>, n: nat, wanted: set<string>): set<nat>
    requires n <= |works|
  {
    set i: nat | i < n && wanted <= Names(works[i])
  }

  /** The number of works that carry every wanted tag. */
  function Support(works: seq<TaggedWork>, wanted: set<string>): nat {
    |Carrying(works, |works|, wanted)|
  }

  ghost function Observed(works: seq<TaggedWork>, n: nat): set<string>
    requires n <= |works|
  {
    set i: nat, tag | i < n && tag in works[i].tags :: tag.name
  }

  // ----- what a sample must be

  ghost predicate IdsOk(works: seq<TaggedWork>, n: nat)
    requires n <= |works|
  {
    && (forall i :: 0 <= i < n ==> works[i].workId != "")
    && (forall i, k :: 0 <= i < k < n ==> works[i].workId != works[k].workId)
  }

  ghost predicate SizesOk(works: seq<TaggedWork>, n: nat)
    requires n <= |works|
  {
    forall i :: 0 <= i < n ==> |works[i].tags| <= MAX_TAGS_PER_WORK
  }

  ghost predicate NamesOk(works: seq<TaggedWork>, n: nat)
    requires n <= |works|
  {
    forall i, tag :: 0 <= i < n && tag in works[i].tags ==> tag.name != ""
  }

  /** One name, one translation, over the whole sample. */
  ghost predicate TranslationsOk(works: seq<TaggedWork>) {
    forall i, k, a, b ::
      && 0 <= i < |works| && 0 <= k < |works|
      && a in works[i].tags && b in works[k].tags && a.name == b.name
      ==> a == b
  }

  ghost predicate SampleOk(works: seq<TaggedWork>) {
    && IdsOk(works, |works|) && SizesOk(works, |works|) && NamesOk(works, |works|)
    && TranslationsOk(works)
  }

  /** The argument checks, in order. */
  function ArgumentError(works: seq<TaggedWork>, anchor: Option<string>, minimum: int, limit: int): Option<GraphError> {
    if |works| > MAX_WORK_SAMPLE then Some(SampleTooLarge)
    else if !(1 <= minimum <= MAX_WORK_SAMPLE) then Some(MinimumOutOfRange)
    else if !(1 <= limit <= MAX_EDGE_LIMIT) then Some(LimitOutOfRange)
    else if anchor == Some("") then Some(EmptyAnchor)
    else None
  }

  /** A tag of the first `n` works, or one of the first `j` tags of the next one. */
  ghost predicate Seen(works: seq<TaggedWork>, n: nat, j: nat, tag: TagDescriptor)
    requires n <= |works|
  {
    || (exists i :: 0 <= i < n && tag in works[i].tags)
    || (n < |works| && exists k :: 0 <= k < j && k < |works[n].tags| && tag == works[n].tags[k])
  }

  /** A tag seen before gives the name another translation. */
  ghost predicate Conflicts(works: seq<TaggedWork>, n: nat, j: nat)
    requires n < |works| && j < |works[n].tags|
  {
    exists tag :: Seen(works, n, j, tag) && tag.name == works[n].tags[j].name && tag != works[n].tags[j]
  }

  /** The first defect of one work's tags, from tag `j` on. */
  ghost function TagDefect(works: seq<TaggedWork>, n: nat, j: nat): Option<GraphError>
    requires n < |works|
    decreases |works[n].tags| - j
  {
    if j >= |works[n].tags| then None
    else if works[n].tags[j].name == "" then Some(EmptyTagName)
    else if Conflicts(works, n, j) then Some(ConflictingTranslation)
    else TagDefect(works, n, j + 1)
  }

  ghost predicate IdTaken(works: seq<TaggedWork>, n: nat)
    requires n < |works|
  {
    exists i :: 0 <= i < n && works[i].workId == works[n].workId
  }

  /** The first defect of the sample, from work `n` on, in reading order. */
  ghost function FirstDefect(works: seq<TaggedWork>, n: nat): Option<GraphError>
    decreases |works| - n
  {
    if n >= |works| then None
    else if works[n].workId == "" || IdTaken(works, n) then Some(BadWorkId)
    else if |works[n].tags| > MAX_TAGS_PER_WORK then Some(TooManyTags)
    else if TagDefect(works, n, 0).Some? then TagDefect(works, n, 0)
    else FirstDefect(works, n + 1)
  }

  // ----- what an edge must say

  /** A share in basis points, rounded half up. */
  function RatioBasisPoints(numerator: int, denominator: int): (r: int)
    ensures denominator > 0 ==> 2 * (r * denominator) <= 20_000 * numerator + denominator < 2 * (r * denominator) + 2 * denominator
  {
    if denominator <= 0 then 0 else
    Quotient(numerator * 10_000 + denominator / 2, denominator);
    (numerator * 10_000 + denominator / 2) / denominator
  }

  lemma Quotient(n: int, d: int)
    requires d > 0
    ensures (n / d) * d <= n < (n / d) * d + d
  {
    var q, r := n / d, n % d;
    assert n == q * d + r;
  }

  lemma Ordered(a: int, b: int, d: int)
    requires d > 0
    ensures a * d < b * d + d ==> a <= b
  {
    if a > b {
      var gap := a - b - 1;
      assert gap * d >= 0;
      assert a * d == gap * d + b * d + d;
    }
  }

  /** A share of a whole lies in 0 to 10000, and only the whole is sure of 10000. */
  lemma RatioBounds(part: nat, whole: nat)
    requires part <= whole
    ensures 0 <= RatioBasisPoints(part, whole) <= 10_000
    ensures 0 < part == whole ==> RatioBasisPoints(part, whole) == 10_000
  {
    if whole > 0 {
      Ordered(0, RatioBasisPoints(part, whole), whole);
      Ordered(RatioBasisPoints(part, whole), 10_000, whole);
      if part == whole { Ordered(10_000, RatioBasisPoints(part, whole), whole); }
    }
  }

  /** A larger part never rounds to less. */
  lemma RatioGrows(a: int, b: int, whole: int)
    requires a <= b
    ensures RatioBasisPoints(a, whole) <= RatioBasisPoints(b, whole)
  {
    if whole > 0 { Ordered(RatioBasisPoints(a, whole), RatioBasisPoints(b, whole), whole); }
  }

  /** The same part of a larger whole never rounds to more. */
  lemma RatioShrinks(part: nat, small: nat, large: nat)
    requires 0 < small <= large
    ensures RatioBasisPoints(part, large) <= RatioBasisPoints(part, small)
  {
    var x, y := RatioBasisPoints(part, large), RatioBasisPoints(part, small);
    hide RatioBasisPoints;
    RatioStep(part, large, x, small, y);
  }

  /** Two rounded quotients of one number, from their bounds. */
  lemma RatioStep(part: nat, large: nat, x: int, small: nat, y: int)
    requires 0 < small <= large
    requires 2 * (x * large) <= 20_000 * part + large
    requires 20_000 * part + small < 2 * (y * small) + 2 * small
    ensures x <= y
  {
    if x >= 1 {
      Products(2 * x - 1, small, large);
      Doubled(x, large);
      Doubled(x, small);
      Ordered(x, y, small);
    } else {
      Ordered(0, y, small);
    }
  }

  lemma Doubled(x: int, d: int)
    ensures (2 * x - 1) * d == 2 * (x * d) - d
  {
  }

  lemma Products(k: nat, small: nat, large: nat)
    requires small <= large
    ensures k * small <= k * large
  {
    assert k * large - k * small == k * (large - small);
  }

  /** Both tags are in the sample, in canonical order, and every number on the edge
      is the count or the ratio of counts that it claims to be.  */
  ghost predicate IsEdge(works: seq<TaggedWork>, pmi: Pmi, e: Edge) {
    var n := |works|;
    var left, right := Carrying(works, n, {e.left.name}), Carrying(works, n, {e.right.name});
    && NameBefore(e.left.name, e.right.name)
    && (exists i :: 0 <= i < n && e.left in works[i].tags)
    && (exists i :: 0 <= i < n && e.right in works[i].tags)
    && e.leftCount == |left| && e.rightCount == |right| && e.cooccurrence == |left * right|
    && e.support == RatioBasisPoints(|left * right|, n)
    && e.jaccard == RatioBasisPoints(|left * right|, |left + right|)
    && e.pmi == pmi(|left * right|, n, |left|, |right|)
  }

  ghost predicate Eligible(works: seq<TaggedWork>, pmi: Pmi, anchor: Option<string>, minimum: int, e: Edge) {
    && IsEdge(works, pmi, e)
    && e.cooccurrence >= minimum
    && (anchor.None? || anchor.value == e.left.name || anchor.value == e.right.name)
  }

  /** `full` lists the eligible edges, best first. */
  ghost predicate Ranking(
    works: seq<TaggedWork>, pmi: Pmi, anchor: Option<string>, minimum: int, full: seq<Edge>)
  {
    && Ascending(full, EdgeBefore)
    && forall e :: e in full <==> Eligible(works, pmi, anchor, minimum, e)
  }

  function Cut(full: seq<Edge>, limit: nat): seq<Edge> {
    if |full| > limit then full[..limit] else full
  }

  /** `graph` reports the first `limit` edges of the ranking and its true size. */
  ghost predicate Reports(
    works: seq<TaggedWork>, pmi: Pmi, anchor: Option<string>, minimum: int, limit: nat, full: seq<Edge>, graph: Graph)
  {
    && Ranking(works, pmi, anchor, minimum, full)
    && graph == Graph(
         |works|, |Observed(works, |works|)|, |full|, |full| > limit, anchor, minimum, Cut(full, limit))
  }

  ghost predicate IsGraph(
    works: seq<TaggedWork>, pmi: Pmi, anchor: Option<string>, minimum: int, limit: nat, graph: Graph)
  {
    exists full :: Reports(works, pmi, anchor, minimum, limit, full, graph)
  }

  // ----- consequences

  /** The two tags' works overlap exactly in the works that carry both. */
  lemma Overlap(works: seq<TaggedWork>, n: nat, a: string, b: string)
    requires n <= |works|
    ensures Carrying(works, n, {a, b}) == Carrying(works, n, {a}) * Carrying(works, n, {b})
    ensures |Carrying(works, n, {a}) + Carrying(works, n, {b})|
         == |Carrying(works, n, {a})| + |Carrying(works, n, {b})| - |Carrying(works, n, {a, b})|
  {
  }

  lemma CarryingBounded(works: seq<TaggedWork>, n: nat, s: set<nat>)
    requires n <= |works| && forall i :: i in s ==> i < n
    ensures |s| <= n
    decreases n
  {
    if n > 0 {
      CarryingBounded(works, n - 1, s - {n - 1});
      assert |s| <= |s - {n - 1}| + 1;
    } else {
      assert s == {};
    }
  }

  /** The numbers on an edge are consistent with one another. */
  lemma EdgeBounds(works: seq<TaggedWork>, pmi: Pmi, e: Edge)
    requires IsEdge(works, pmi, e) && e.cooccurrence >= 1
    ensures 1 <= e.cooccurrence <= e.leftCount <= |works|
    ensures e.cooccurrence <= e.rightCount <= |works|
    ensures 0 <= e.support <= 10_000 && 0 <= e.jaccard <= 10_000
    ensures e.support <= e.jaccard
    ensures e.leftCount == e.rightCount == e.cooccurrence ==> e.jaccard == 10_000
  {
    var n := |works|;
    var left, right := Carrying(works, n, {e.left.name}), Carrying(works, n, {e.right.name});
    CarryingBounded(works, n, left);
    CarryingBounded(works, n, right);
    CarryingBounded(works, n, left + right);
    SubsetSize(left * right, left);
    SubsetSize(left * right, right);
    SubsetSize(left * right, left + right);
    Overlap(works, n, e.left.name, e.right.name);
    RatioShrinks(|left * right|, |left + right|, n);
    RatioBounds(|left * right|, n);
    RatioBounds(|left * right|, |left + right|);
  }

  lemma SubsetSize(a: set<nat>, b: set<nat>)
    requires a <= b
    ensures |a| <= |b|
  {
    assert b == a + (b - a);
  }

  /** No unordered pair of tags has two edges. */
  lemma OneEdgePerPair(works: seq<TaggedWork>, pmi: Pmi, e: Edge, f: Edge)
    requires TranslationsOk(works) && IsEdge(works, pmi, e) && IsEdge(works, pmi, f)
    requires {e.left.name, e.right.name} == {f.left.name, f.right.name}
    ensures e == f
  {
    SamePair(e.left.name, e.right.name, f.left.name, f.right.name);
    SameDescriptor(works, pmi, e, f);
  }

  lemma SamePair(a: string, b: string, c: string, d: string)
    requires NameBefore(a, b) && NameBefore(c, d) && {a, b} == {c, d}
    ensures a == c && b == d
  {
    assert a in {c, d} && b in {c, d};
    NameIrreflexive(a);
    if a != c { NameTransitive(a, b, a); }
  }

  lemma SameDescriptor(works: seq<TaggedWork>, pmi: Pmi, e: Edge, f: Edge)
    requires TranslationsOk(works) && IsEdge(works, pmi, e) && IsEdge(works, pmi, f)
    requires Key(e) == Key(f)
    ensures e == f
  {
    assert e.left == f.left;
    assert e.right == f.right;
  }
}
