/** Ranked pages by key: following the encoded cursors of a fixed table. */
module RankPaging {
  import opened Schema
  import opened TagOrder
  import opened Cursor

  datatype Item = Item(score: nat, rowId: nat)

  datatype Page = Page(items: seq<Item>, next: Option<string>)

  /** Highest score first, then lowest key. */
  predicate Above(a: Item, b: Item) {
    a.score > b.score || (a.score == b.score && a.rowId < b.rowId)
  }

  predicate Storable(item: Item) {
    item.score < LIMIT && 0 < item.rowId < LIMIT
  }

  /** The table in ranking order, with keys and scores that a cursor can hold. */
  ghost predicate TableOk(ranked: seq<Item>) {
    Ascending(ranked, Above) && forall i :: 0 <= i < |ranked| ==> Storable(ranked[i])
  }

  /** The rows that the keyset condition lets through, in order. */
  function Selected(ranked: seq<Item>, after: Option<RankKey>): (rows: seq<Item>)
    ensures |rows| <= |ranked|
  {
    if ranked == [] then []
    else
      var rest := Selected(ranked[1..], after);
      if after.None? || ranked[0].score < after.value.score
         || (ranked[0].score == after.value.score && ranked[0].rowId > after.value.rowId)
      then [ranked[0]] + rest else rest
  }

  /** One more row than the page holds is fetched, to learn whether there is a next page. */
  function PageOf(ranked: seq<Item>, after: Option<RankKey>, limit: nat, namespace: string, hash: Hash): Page
    requires limit > 0 && Wide(hash)
  {
    var selected := Selected(ranked, after);
    var rows := if |selected| > limit + 1 then selected[..limit + 1] else selected;
    if |rows| > limit then
      var last := rows[limit - 1];
      var text := EncodeRankCursor(last.score, last.rowId, namespace, hash);
      Page(rows[..limit], if text.Ok? then Some(text.value) else None)
    else Page(rows, None)
  }

  function KeyOf(item: Item): RankKey {
    RankKey(item.score, item.rowId)
  }

  /** Position `n` of the ranking as a cursor: what comes after the first `n` rows. */
  ghost predicate At(ranked: seq<Item>, after: Option<RankKey>, n: nat) {
    n <= |ranked| && (if n == 0 then after == None else after == Some(KeyOf(ranked[n - 1])))
  }

  lemma {:induction false} SelectedSuffix(ranked: seq<Item>, after: Option<RankKey>, n: nat)
    requires n <= |ranked| && (after.None? ==> n == 0)
    requires after.Some? ==> forall i :: 0 <= i < |ranked| ==>
      (Above(Item(after.value.score, after.value.rowId), ranked[i]) <==> n <= i)
    ensures Selected(ranked, after) == ranked[n..]
  {
    if ranked != [] {
      SelectedSuffix(ranked[1..], after, if n == 0 then 0 else n - 1);
      assert n == 0 ==> ranked == [ranked[0]] + ranked[1..];
    }
  }

  /** The keyset condition leaves exactly the rows behind the cursor's row. */
  lemma SelectedAt(ranked: seq<Item>, after: Option<RankKey>, n: nat)
    requires Ascending(ranked, Above) && At(ranked, after, n)
    ensures Selected(ranked, after) == ranked[n..]
  {
    if n > 0 {
      forall i | 0 <= i < |ranked| ensures Above(ranked[n - 1], ranked[i]) <==> n <= i {
        if i < n - 1 { assert Above(ranked[i], ranked[n - 1]); }
      }
    }
    SelectedSuffix(ranked, after, n);
  }

  /** A page from position `n` holds the next rows, and its cursor is the position behind them. */
  lemma PageAt(ranked: seq<Item>, after: Option<RankKey>, n: nat, limit: nat, namespace: string, hash: Hash)
    requires limit > 0 && Wide(hash) && NamespaceOk(namespace) && TableOk(ranked) && At(ranked, after, n)
    ensures var page := PageOf(ranked, after, limit, namespace, hash);
      if |ranked| - n > limit then
        && page.items == ranked[n..n + limit] && page.next.Some?
        && DecodeRankCursor(page.next.value, namespace, hash).Ok?
        && At(ranked, Some(DecodeRankCursor(page.next.value, namespace, hash).value), n + limit)
      else page == Page(ranked[n..], None)
  {
    SelectedAt(ranked, after, n);
    if |ranked| - n > limit {
      var last := ranked[n + limit - 1];
      assert Storable(last);
      hide DecodeRankCursor, EncodeRankCursor, Selected, TableOk, Wide, NamespaceOk;
      CursorReadsBack(last, namespace, hash);
    }
  }

  lemma CursorReadsBack(item: Item, namespace: string, hash: Hash)
    requires Wide(hash) && NamespaceOk(namespace) && Storable(item)
    ensures var text := EncodeRankCursor(item.score, item.rowId, namespace, hash);
      text.Ok? && DecodeRankCursor(text.value, namespace, hash) == Ok(KeyOf(item))
  {
    var text := EncodeRankCursor(item.score, item.rowId, namespace, hash).value;
    hide DecodeRankCursor, RankPayload;
    var payload := RankPayload(KeyOf(item), namespace, hash);
    DecodeEncoded(payload + hash(payload)[..CHECKSUM_SIZE]);
    EncodedIsUnpadded(payload + hash(payload)[..CHECKSUM_SIZE]);
    assert UrlText(Unpadded(text)) == text && |text| <= MAX_RANK_CURSOR;
    hide DecodeRankCursor, EncodeRankCursor;
    RankCursorRoundTrip(text, KeyOf(item), namespace, hash);
  }

  /** The pages read by asking again with each cursor that is handed out. */
  ghost function Crawl(
    ranked: seq<Item>, after: Option<RankKey>, n: nat, limit: nat, namespace: string, hash: Hash): seq<seq<Item>>
    requires limit > 0 && Wide(hash) && NamespaceOk(namespace) && TableOk(ranked) && At(ranked, after, n)
    decreases |ranked| - n
  {
    PageAt(ranked, after, n, limit, namespace, hash);
    var page := PageOf(ranked, after, limit, namespace, hash);
    if page.next.None? then [page.items]
    else
      var key := DecodeRankCursor(page.next.value, namespace, hash).value;
      [page.items] + Crawl(ranked, Some(key), n + limit, limit, namespace, hash)
  }

  function Concat(pages: seq<seq<Item>>): seq<Item> {
    if pages == [] then [] else pages[0] + Concat(pages[1..])
  }

  /** The pages hold the rows, each once and in order; all are full but the last,
      which is empty only if there are no rows.  */
  ghost predicate Fills(pages: seq<seq<Item>>, rows: seq<Item>, limit: nat) {
    && Concat(pages) == rows && |pages| > 0
    && (forall i :: 0 <= i < |pages| - 1 ==> |pages[i]| == limit)
    && |pages[|pages| - 1]| <= limit
    && (rows != [] ==> pages[|pages| - 1] != [])
  }

  /** Following the cursors from any position reads every later row once, in order, in
      full pages except the last, and then stops.  */
  lemma {:induction false} CrawlReadsEachRowOnce(
    ranked: seq<Item>, after: Option<RankKey>, n: nat, limit: nat, namespace: string, hash: Hash)
    requires limit > 0 && Wide(hash) && NamespaceOk(namespace) && TableOk(ranked)
    requires n <= |ranked| && At(ranked, after, n)
    ensures Fills(Crawl(ranked, after, n, limit, namespace, hash), ranked[n..], limit)
    decreases |ranked| - n
  {
    hide *;
    if PageOf(ranked, after, limit, namespace, hash).next.Some? {
      var key := CrawlStep(ranked, after, n, limit, namespace, hash);
      CrawlReadsEachRowOnce(ranked, Some(key), n + limit, limit, namespace, hash);
    } else {
      LastCrawl(ranked, after, n, limit, namespace, hash);
    }
  }

  lemma CrawlStep(ranked: seq<Item>, after: Option<RankKey>, n: nat, limit: nat, namespace: string, hash: Hash)
    returns (key: RankKey)
    requires limit > 0 && Wide(hash) && NamespaceOk(namespace) && TableOk(ranked) && At(ranked, after, n)
    requires PageOf(ranked, after, limit, namespace, hash).next.Some?
    ensures n + limit < |ranked| && At(ranked, Some(key), n + limit)
    ensures Fills(Crawl(ranked, Some(key), n + limit, limit, namespace, hash), ranked[n + limit..], limit)
      ==> Fills(Crawl(ranked, after, n, limit, namespace, hash), ranked[n..], limit)
  {
    hide *;
    var rest;
    key, rest := NextCrawl(ranked, after, n, limit, namespace, hash);
    if Fills(rest, ranked[n + limit..], limit) { OnePageMore(ranked, n, limit, rest); }
  }

  lemma LastCrawl(ranked: seq<Item>, after: Option<RankKey>, n: nat, limit: nat, namespace: string, hash: Hash)
    requires limit > 0 && Wide(hash) && NamespaceOk(namespace) && TableOk(ranked) && At(ranked, after, n)
    requires PageOf(ranked, after, limit, namespace, hash).next.None?
    ensures n <= |ranked| && Fills(Crawl(ranked, after, n, limit, namespace, hash), ranked[n..], limit)
  {
    PageAt(ranked, after, n, limit, namespace, hash);
    hide PageOf, DecodeRankCursor, TableOk, Wide, NamespaceOk;
    OnePage(ranked[n..], limit);
  }

  lemma OnePage(page: seq<Item>, limit: nat)
    requires |page| <= limit
    ensures Fills([page], page, limit)
  {
    assert page + [] == page;
  }

  /** One page, then the crawl from behind it. */
  lemma NextCrawl(ranked: seq<Item>, after: Option<RankKey>, n: nat, limit: nat, namespace: string, hash: Hash)
    returns (key: RankKey, rest: seq<seq<Item>>)
    requires limit > 0 && Wide(hash) && NamespaceOk(namespace) && TableOk(ranked) && At(ranked, after, n)
    requires PageOf(ranked, after, limit, namespace, hash).next.Some?
    ensures n + limit < |ranked| && At(ranked, Some(key), n + limit)
    ensures rest == Crawl(ranked, Some(key), n + limit, limit, namespace, hash)
    ensures Crawl(ranked, after, n, limit, namespace, hash) == [ranked[n..n + limit]] + rest
  {
    PageAt(ranked, after, n, limit, namespace, hash);
    var page := PageOf(ranked, after, limit, namespace, hash);
    key := DecodeRankCursor(page.next.value, namespace, hash).value;
    hide PageOf, DecodeRankCursor, TableOk, Wide, NamespaceOk, At;
    rest := Crawl(ranked, Some(key), n + limit, limit, namespace, hash);
  }

  lemma OnePageMore(ranked: seq<Item>, n: nat, limit: nat, rest: seq<seq<Item>>)
    requires n + limit < |ranked| && Fills(rest, ranked[n + limit..], limit)
    ensures Fills([ranked[n..n + limit]] + rest, ranked[n..], limit)
  {
    var pages := [ranked[n..n + limit]] + rest;
    assert pages[1..] == rest;
    assert ranked[n..] == ranked[n..n + limit] + ranked[n + limit..];
  }
}
