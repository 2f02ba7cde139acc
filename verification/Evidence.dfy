/**
  From query results to the evidence of a section: deduplication, bundles, the shared registry and the lookup
  (writing-service/app/agents/coverage_evaluator.py and app/schemas/evidence.py).
 */
module Evidence {
  import opened Common
  import Decimals

  datatype Result = Result(
    docId: string,
    title: string,
    snippet: string,
    source: string,
    score: real,
    docType: Option<string>,
    date: Option<string>,
    url: Option<string>)

  datatype QueryResults = QueryResults(queryId: string, results: seq<Result>)

  // Content, source, title, type, date and confidence of an item are those of the result it was made from.
  datatype Item = Item(id: string, made: Result, queryIds: seq<string>, scores: map<string, real>)

  datatype Bundle = Bundle(sectionId: string, evidenceIds: seq<string>)

  datatype Shared = Shared(evidenceId: string, sectionIds: seq<string>, interpretation: string)

  // One result of one query.
  datatype Hit = Hit(query: string, result: Result)

  // ---- Deduplication: specification ----------------------------------------------------

  function HitsOf(query: string, results: seq<Result>): (hits: seq<Hit>)
    ensures |hits| == |results|
  {
    seq(|results|, i requires 0 <= i < |results| => Hit(query, results[i]))
  }

  // All results in the order they are processed.
  function Hits(all: seq<QueryResults>): seq<Hit> {
    if all == [] then []
    else Hits(all[..|all| - 1]) + HitsOf(all[|all| - 1].queryId, all[|all| - 1].results)
  }

  function EvidenceId(n: nat): string {
    "ev_" + Decimals.Padded(n)
  }

  function IndexOf(pool: seq<Item>, docId: string): (k: nat)
    ensures k <= |pool| && (k < |pool| ==> pool[k].made.docId == docId)
  {
    if pool == [] || pool[0].made.docId == docId then 0 else 1 + IndexOf(pool[1..], docId)
  }

  lemma {:induction false} IndexOfFirst(pool: seq<Item>, docId: string)
    ensures forall j :: 0 <= j < IndexOf(pool, docId) ==> pool[j].made.docId != docId
  {
    if pool != [] && pool[0].made.docId != docId {
      IndexOfFirst(pool[1..], docId);
      assert forall j :: 1 <= j < |pool| ==> pool[j] == pool[1..][j - 1];
    }
  }

  lemma IndexOfIs(pool: seq<Item>, docId: string, k: nat)
    requires k <= |pool| && (k < |pool| ==> pool[k].made.docId == docId)
    requires forall j :: 0 <= j < k ==> pool[j].made.docId != docId
    ensures IndexOf(pool, docId) == k
  {
    IndexOfFirst(pool, docId);
  }

  function Noted(item: Item, hit: Hit): Item {
    item.(
      queryIds := if hit.query in item.queryIds then item.queryIds else item.queryIds + [hit.query],
      scores := item.scores[hit.query := hit.result.score])
  }

  function NewItem(n: nat, hit: Hit): Item {
    Item(EvidenceId(n), hit.result, [hit.query], map[hit.query := hit.result.score])
  }

  function Record(pool: seq<Item>, hit: Hit): seq<Item> {
    var k := IndexOf(pool, hit.result.docId);
    if k == |pool| then pool + [NewItem(|pool| + 1, hit)] else pool[k := Noted(pool[k], hit)]
  }

  function Pool(hits: seq<Hit>): seq<Item> {
    if hits == [] then [] else Record(Pool(hits[..|hits| - 1]), hits[|hits| - 1])
  }

  // The queries that returned a document, once per result.
  function DocQueries(hits: seq<Hit>, docId: string): seq<string> {
    if hits == [] then []
    else
      var last := hits[|hits| - 1];
      DocQueries(hits[..|hits| - 1], docId) + (if last.result.docId == docId then [last.query] else [])
  }

  // ---- What the pool means -------------------------------------------------------------

  predicate Is(hit: Hit, query: string, docId: string) {
    hit.query == query && hit.result.docId == docId
  }

  predicate Returned(hits: seq<Hit>, query: string, docId: string) {
    exists k :: 0 <= k < |hits| && Is(hits[k], query, docId)
  }

  predicate LastScore(hits: seq<Hit>, query: string, docId: string, score: real) {
    exists k :: 0 <= k < |hits| && Is(hits[k], query, docId) && hits[k].result.score == score
                && forall j :: k < j < |hits| ==> !Is(hits[j], query, docId)
  }

  // Where a document first appears; the number of hits if it does not.
  function FirstHit(hits: seq<Hit>, docId: string): (k: nat)
    ensures k <= |hits| && (k < |hits| ==> hits[k].result.docId == docId)
    ensures forall j :: 0 <= j < k ==> hits[j].result.docId != docId
  {
    if hits == [] || hits[0].result.docId == docId then 0 else 1 + FirstHit(hits[1..], docId)
  }

  // The item shows its document as first returned, and lists exactly the queries that returned it, once each, with the
  // score each gave it last.
  ghost predicate Faithful(hits: seq<Hit>, item: Item) {
    var docId := item.made.docId;
    && FirstHit(hits, docId) < |hits| && item.made == hits[FirstHit(hits, docId)].result
    && NoRepeats(item.queryIds)
    && (forall q :: q in item.queryIds <==> Returned(hits, q, docId))
    && (forall q :: q in item.scores <==> q in item.queryIds)
    && (forall q :: q in item.scores ==> LastScore(hits, q, docId, item.scores[q]))
  }

  lemma FirstHitMore(hits: seq<Hit>, hit: Hit, docId: string)
    ensures var more := FirstHit(hits + [hit], docId);
            more == if FirstHit(hits, docId) < |hits| then FirstHit(hits, docId)
                    else if hit.result.docId == docId then |hits| else |hits| + 1
  {
    var all := hits + [hit];
    var k := FirstHit(all, docId);
    assert forall j :: 0 <= j < |hits| ==> all[j] == hits[j];
    assert all[|hits|] == hit;
  }

  lemma ReturnedMore(hits: seq<Hit>, hit: Hit, query: string, docId: string)
    ensures Returned(hits + [hit], query, docId) <==> Returned(hits, query, docId) || Is(hit, query, docId)
  {
    var all := hits + [hit];
    if Returned(hits, query, docId) {
      var k :| 0 <= k < |hits| && Is(hits[k], query, docId);
      assert Is(all[k], query, docId);
    }
    if Is(hit, query, docId) {
      assert Is(all[|hits|], query, docId);
    }
  }

  lemma LastScoreMore(hits: seq<Hit>, hit: Hit, query: string, docId: string, score: real)
    ensures LastScore(hits + [hit], query, docId, score) <==>
            if Is(hit, query, docId) then score == hit.result.score else LastScore(hits, query, docId, score)
  {
    var all := hits + [hit];
    if Is(hit, query, docId) {
      assert Is(all[|hits|], query, docId);
    } else {
      if LastScore(hits, query, docId, score) {
        var k :| 0 <= k < |hits| && Is(hits[k], query, docId) && hits[k].result.score == score
                 && forall j :: k < j < |hits| ==> !Is(hits[j], query, docId);
        assert Is(all[k], query, docId) && all[k].result.score == score;
        assert forall j :: k < j < |all| ==> !Is(all[j], query, docId);
      }
      if LastScore(all, query, docId, score) {
        var k :| 0 <= k < |all| && Is(all[k], query, docId) && all[k].result.score == score
                 && forall j :: k < j < |all| ==> !Is(all[j], query, docId);
        assert k < |hits| && hits[k] == all[k];
        forall j | k < j < |hits| ensures !Is(hits[j], query, docId) {
          assert hits[j] == all[j];
        }
        assert Is(hits[k], query, docId) && hits[k].result.score == score;
      }
    }
  }

  lemma FaithfulOther(hits: seq<Hit>, hit: Hit, item: Item)
    requires Faithful(hits, item) && hit.result.docId != item.made.docId
    ensures Faithful(hits + [hit], item)
  {
    var docId := item.made.docId;
    FirstHitMore(hits, hit, docId);
    hide Returned, LastScore, NoRepeats;
    forall q ensures Returned(hits + [hit], q, docId) <==> Returned(hits, q, docId) {
      ReturnedMore(hits, hit, q, docId);
    }
    forall q | q in item.scores ensures LastScore(hits + [hit], q, docId, item.scores[q]) {
      LastScoreMore(hits, hit, q, docId, item.scores[q]);
    }
  }

  lemma FaithfulNoted(hits: seq<Hit>, hit: Hit, item: Item)
    requires Faithful(hits, item) && hit.result.docId == item.made.docId
    ensures Faithful(hits + [hit], Noted(item, hit))
  {
    var docId := item.made.docId;
    var noted := Noted(item, hit);
    FirstHitMore(hits, hit, docId);
    hide Returned, LastScore;
    forall q ensures Returned(hits + [hit], q, docId) <==> Returned(hits, q, docId) || q == hit.query {
      ReturnedMore(hits, hit, q, docId);
    }
    forall q | q in noted.scores ensures LastScore(hits + [hit], q, docId, noted.scores[q]) {
      LastScoreMore(hits, hit, q, docId, noted.scores[q]);
    }
  }

  lemma FaithfulNew(hits: seq<Hit>, hit: Hit, n: nat)
    requires FirstHit(hits, hit.result.docId) == |hits|
    ensures Faithful(hits + [hit], NewItem(n, hit))
  {
    var docId := hit.result.docId;
    FirstHitMore(hits, hit, docId);
    forall q ensures Returned(hits + [hit], q, docId) <==> q == hit.query {
      ReturnedMore(hits, hit, q, docId);
    }
    LastScoreMore(hits, hit, hit.query, docId, hit.result.score);
  }

  // One item per document returned, numbered in the order of first appearance.
  ghost predicate PoolKept(hits: seq<Hit>, pool: seq<Item>) {
    && (forall i :: 0 <= i < |pool| ==> pool[i].id == EvidenceId(i + 1) && Faithful(hits, pool[i]))
    && (forall i, j :: 0 <= i < j < |pool| ==> FirstHit(hits, pool[i].made.docId) < FirstHit(hits, pool[j].made.docId))
    && (forall docId :: FirstHit(hits, docId) < |hits| <==> IndexOf(pool, docId) < |pool|)
  }

  // The first hits and the items of the next pool.
  lemma RecordShape(hits: seq<Hit>, hit: Hit, pool: seq<Item>)
    requires PoolKept(hits, pool)
    ensures var next := Record(pool, hit);
            var k := IndexOf(pool, hit.result.docId);
            && |next| == (if k < |pool| then |pool| else |pool| + 1)
            && (k < |pool| <==> FirstHit(hits, hit.result.docId) < |hits|)
            && (forall i :: 0 <= i < |pool| && i != k ==> next[i] == pool[i] && pool[i].made.docId != hit.result.docId)
            && (k < |pool| ==> next[k] == Noted(pool[k], hit))
            && (k == |pool| ==> next[k] == NewItem(|pool| + 1, hit))
  {
  }

  lemma RecordFaithful(hits: seq<Hit>, hit: Hit, pool: seq<Item>, i: nat)
    requires PoolKept(hits, pool) && i < |Record(pool, hit)|
    ensures var item := Record(pool, hit)[i];
            && item.id == EvidenceId(i + 1) && Faithful(hits + [hit], item)
            && (i < |pool| ==> item.made == pool[i].made)
            && (i == |pool| ==> item.made == hit.result)
  {
    hide Faithful, EvidenceId, Record;
    RecordShape(hits, hit, pool);
    var k := IndexOf(pool, hit.result.docId);
    if i != k {
      FaithfulOther(hits, hit, pool[i]);
    } else if k < |pool| {
      FaithfulNoted(hits, hit, pool[k]);
    } else {
      FaithfulNew(hits, hit, |pool| + 1);
    }
  }

  lemma RecordOrdered(hits: seq<Hit>, hit: Hit, pool: seq<Item>, i: nat, j: nat)
    requires PoolKept(hits, pool) && i < j < |Record(pool, hit)|
    ensures var next := Record(pool, hit);
            FirstHit(hits + [hit], next[i].made.docId) < FirstHit(hits + [hit], next[j].made.docId)
  {
    RecordShape(hits, hit, pool);
    RecordFaithful(hits, hit, pool, i);
    RecordFaithful(hits, hit, pool, j);
    PoolFirst(hits, pool, i);
    if j < |pool| {
      PoolFirst(hits, pool, j);
    }
    hide Faithful, EvidenceId, Record, NewItem, Noted;
    FirstHitMore(hits, hit, pool[i].made.docId);
    FirstHitMore(hits, hit, if j < |pool| then pool[j].made.docId else hit.result.docId);
  }

  lemma RecordKept(hits: seq<Hit>, hit: Hit, pool: seq<Item>)
    requires PoolKept(hits, pool)
    ensures PoolKept(hits + [hit], Record(pool, hit))
  {
    hide Faithful, EvidenceId, Record;
    var next := Record(pool, hit);
    forall i | 0 <= i < |next| ensures next[i].id == EvidenceId(i + 1) && Faithful(hits + [hit], next[i]) {
      RecordFaithful(hits, hit, pool, i);
    }
    forall i, j | 0 <= i < j < |next|
      ensures FirstHit(hits + [hit], next[i].made.docId) < FirstHit(hits + [hit], next[j].made.docId)
    {
      RecordOrdered(hits, hit, pool, i, j);
    }
    forall docId ensures FirstHit(hits + [hit], docId) < |hits + [hit]| <==> IndexOf(next, docId) < |next| {
      FirstHitMore(hits, hit, docId);
      RecordIndexOf(hits, hit, pool, docId);
      RecordShape(hits, hit, pool);
    }
  }

  lemma PoolFirst(hits: seq<Hit>, pool: seq<Item>, i: nat)
    requires PoolKept(hits, pool) && i < |pool|
    ensures FirstHit(hits, pool[i].made.docId) < |hits|
  {
  }

  lemma RecordIndexOf(hits: seq<Hit>, hit: Hit, pool: seq<Item>, d: string)
    requires PoolKept(hits, pool)
    ensures var next := Record(pool, hit);
            IndexOf(next, d) ==
              (if IndexOf(pool, d) < |pool| then IndexOf(pool, d) else if d == hit.result.docId then |pool| else |next|)
  {
    hide PoolKept, Record, IndexOf, EvidenceId, FirstHit, Faithful;
    RecordShape(hits, hit, pool);
    IndexOfFirst(pool, d);
    var next := Record(pool, hit);
    assert forall i :: 0 <= i < |pool| ==> next[i].made == pool[i].made;
    hide Noted, NewItem;
    var k := IndexOf(pool, d);
    IndexOfIs(next, d, if k < |pool| then k else if d == hit.result.docId then |pool| else |next|);
  }

  lemma {:induction false} PoolMeans(hits: seq<Hit>)
    ensures PoolKept(hits, Pool(hits))
  {
    hide PoolKept, Record;
    if hits == [] {
      PoolNothing();
    } else {
      var front := hits[..|hits| - 1];
      PoolMeans(front);
      RecordKept(front, hits[|hits| - 1], Pool(front));
      assert front + [hits[|hits| - 1]] == hits;
    }
  }

  lemma PoolNothing()
    ensures PoolKept([], Pool([]))
  {
  }

  // ---- Deduplication: the code ---------------------------------------------------------

  // Evidence ids are never shared.
  lemma EvidenceIdsDiffer(i: nat, j: nat)
    requires EvidenceId(i) == EvidenceId(j)
    ensures i == j
  {
    assert EvidenceId(i)[3..] == Decimals.Padded(i) && EvidenceId(j)[3..] == Decimals.Padded(j);
    Decimals.PaddedReads(i);
    Decimals.PaddedReads(j);
  }

  // The dictionaries agree with the pool on this document.
  predicate IndexedAt(hits: seq<Hit>, pool: seq<Item>, seen: set<string>, ids: map<string, string>,
                      queries: map<string, seq<string>>, d: string) {
    && (d in seen <==> IndexOf(pool, d) < |pool|)
    && (d in ids <==> d in seen) && (d in queries <==> d in seen)
    && (d in seen ==> ids[d] == EvidenceId(IndexOf(pool, d) + 1) && queries[d] == DocQueries(hits, d))
  }

  ghost predicate Indexed(hits: seq<Hit>, pool: seq<Item>, seen: set<string>, ids: map<string, string>,
                          queries: map<string, seq<string>>) {
    pool == Pool(hits) && forall d :: IndexedAt(hits, pool, seen, ids, queries, d)
  }

  lemma DocQueriesNone(hits: seq<Hit>, d: string)
    requires FirstHit(hits, d) == |hits|
    ensures DocQueries(hits, d) == []
  {
  }

  // The hits are the results of one query after another, each query's in their order.
  lemma {:induction false} HitsSplit(a: seq<QueryResults>, b: seq<QueryResults>)
    ensures Hits(a + b) == Hits(a) + Hits(b)
  {
    hide HitsOf;
    if b == [] {
      assert a + b == a;
    } else {
      assert (a + b)[..|a + b| - 1] == a + b[..|b| - 1];
      HitsSplit(a, b[..|b| - 1]);
    }
  }

  lemma HitsOfOne(results: QueryResults)
    ensures |Hits([results])| == |results.results| && Hits([]) == []
    ensures forall i :: 0 <= i < |results.results| ==> Hits([results])[i] == Hit(results.queryId, results.results[i])
  {
    assert [results][..0] == [];
  }

  lemma {:induction false} HitIff(all: seq<QueryResults>, hit: Hit)
    ensures hit in Hits(all) <==>
            exists q, r :: 0 <= q < |all| && 0 <= r < |all[q].results| && hit == Hit(all[q].queryId, all[q].results[r])
  {
    if all != [] {
      var front, last := all[..|all| - 1], all[|all| - 1];
      HitIff(front, hit);
      var own := HitsOf(last.queryId, last.results);
      if hit in own {
        var r :| 0 <= r < |own| && own[r] == hit;
        assert all[|all| - 1] == last && hit == Hit(last.queryId, last.results[r]);
      }
      if hit in Hits(front) {
        var q, r :|
          0 <= q < |front| && 0 <= r < |front[q].results| && hit == Hit(front[q].queryId, front[q].results[r]);
        assert all[q] == front[q];
      }
      if q, r :| 0 <= q < |all| && 0 <= r < |all[q].results| && hit == Hit(all[q].queryId, all[q].results[r]) {
        if q < |front| {
          assert front[q] == all[q];
        } else {
          assert own[r] == hit;
        }
      }
    }
  }

  // The queries of a document, in the order of its results and once for each.
  lemma {:induction false} DocQueriesSplit(a: seq<Hit>, b: seq<Hit>, docId: string)
    ensures DocQueries(a + b, docId) == DocQueries(a, docId) + DocQueries(b, docId)
  {
    if b == [] {
      assert a + b == a;
    } else {
      assert (a + b)[..|a + b| - 1] == a + b[..|b| - 1];
      DocQueriesSplit(a, b[..|b| - 1], docId);
    }
  }

  lemma DocQueriesOfOne(hit: Hit, docId: string)
    ensures DocQueries([hit], docId) == if hit.result.docId == docId then [hit.query] else []
    ensures DocQueries([], docId) == []
  {
    assert [hit][..0] == [];
  }

  // An item's id is its number, in three digits at least.
  lemma EvidenceIdIs(n: nat)
    ensures EvidenceId(n)[..3] == "ev_" && Decimals.Number(EvidenceId(n)[3..]) == n
    ensures |EvidenceId(n)| >= 6 && (n < 1000 ==> |EvidenceId(n)| == 6)
  {
    assert EvidenceId(n)[3..] == Decimals.Padded(n);
    Decimals.PaddedReads(n);
    Decimals.PaddedShape(n);
  }

  lemma RecordSteps(hits: seq<Hit>, hit: Hit)
    ensures Pool(hits + [hit]) == Record(Pool(hits), hit)
    ensures forall d ::
            DocQueries(hits + [hit], d) == DocQueries(hits, d) + (if hit.result.docId == d then [hit.query] else [])
  {
  }

  lemma IndexedAtMore(hits: seq<Hit>, hit: Hit, seen: set<string>, ids: map<string, string>,
                      queries: map<string, seq<string>>, e: string)
    requires Indexed(hits, Pool(hits), seen, ids, queries)
    ensures var d, pool := hit.result.docId, Pool(hits);
            && (d in seen ==> d in queries)
            && IndexedAt(hits + [hit], Record(pool, hit), seen + {d},
                         if d in seen then ids else ids[d := EvidenceId(|pool| + 1)],
                         queries[d := if d in seen then queries[d] + [hit.query] else [hit.query]], e)
  {
    hide PoolKept, Record, EvidenceId, IndexOf, DocQueries, FirstHit, Pool, NewItem, Noted;
    var d, pool := hit.result.docId, Pool(hits);
    assert IndexedAt(hits, pool, seen, ids, queries, d) && IndexedAt(hits, pool, seen, ids, queries, e);
    PoolMeans(hits);
    RecordSteps(hits, hit);
    RecordIndexOf(hits, hit, pool, e);
    RecordShape(hits, hit, pool);
    if d !in seen {
      DocQueriesNone(hits, d);
      assert [] + [hit.query] == [hit.query];
    }
  }

  lemma IndexedMore(hits: seq<Hit>, hit: Hit, pool: seq<Item>, seen: set<string>, ids: map<string, string>,
                    queries: map<string, seq<string>>)
    requires Indexed(hits, pool, seen, ids, queries)
    ensures var d := hit.result.docId;
            && (d in seen ==> d in queries)
            && Indexed(hits + [hit], Record(pool, hit), seen + {d},
                       if d in seen then ids else ids[d := EvidenceId(|pool| + 1)],
                       queries[d := if d in seen then queries[d] + [hit.query] else [hit.query]])
  {
    hide IndexedAt, Record, EvidenceId, Pool;
    var d := hit.result.docId;
    IndexedAtMore(hits, hit, seen, ids, queries, d);
    var ids' := if d in seen then ids else ids[d := EvidenceId(|pool| + 1)];
    var queries' := queries[d := if d in seen then queries[d] + [hit.query] else [hit.query]];
    forall e ensures IndexedAt(hits + [hit], Record(pool, hit), seen + {d}, ids', queries', e) {
      IndexedAtMore(hits, hit, seen, ids, queries, e);
    }
    RecordSteps(hits, hit);
  }

  lemma StartsIndexed()
    ensures Indexed([], [], {}, map[], map[])
  {
  }

  lemma PoolIds(hits: seq<Hit>, i: nat)
    requires i < |Pool(hits)|
    ensures Pool(hits)[i].id == EvidenceId(i + 1)
  {
    PoolMeans(hits);
    hide EvidenceId, Faithful, Pool;
  }

  // Looking a document up finds its item, and finds it by its id.
  lemma SeenIndexed(hits: seq<Hit>, pool: seq<Item>, seen: set<string>, ids: map<string, string>,
                    queries: map<string, seq<string>>, d: string)
    requires Indexed(hits, pool, seen, ids, queries)
    ensures d in seen <==> IndexOf(pool, d) < |pool|
    ensures d in seen ==> d in ids && d in queries
    ensures d in seen ==>
            pool[IndexOf(pool, d)].id == ids[d] && forall j :: 0 <= j < IndexOf(pool, d) ==> pool[j].id != ids[d]
  {
    hide EvidenceId, Pool, IndexOf, DocQueries;
    assert IndexedAt(hits, pool, seen, ids, queries, d);
    if d in seen {
      IdsDiffer(hits, IndexOf(pool, d));
    }
  }

  lemma IdsDiffer(hits: seq<Hit>, k: nat)
    requires k < |Pool(hits)|
    ensures Pool(hits)[k].id == EvidenceId(k + 1) && forall j :: 0 <= j < k ==> Pool(hits)[j].id != EvidenceId(k + 1)
  {
    hide EvidenceId, Pool;
    PoolIds(hits, k);
    forall j | 0 <= j < k ensures Pool(hits)[j].id != EvidenceId(k + 1) {
      PoolIds(hits, j);
      if EvidenceId(j + 1) == EvidenceId(k + 1) {
        EvidenceIdsDiffer(j + 1, k + 1);
      }
    }
  }

  lemma AllIndexed(hits: seq<Hit>, pool: seq<Item>, seen: set<string>, ids: map<string, string>,
                   queries: map<string, seq<string>>)
    requires Indexed(hits, pool, seen, ids, queries)
    ensures pool == Pool(hits)
    ensures forall d :: d in queries <==> FirstHit(hits, d) < |hits|
    ensures forall d :: d in queries ==> queries[d] == DocQueries(hits, d)
  {
    hide EvidenceId, DocQueries, Pool, FirstHit, IndexOf;
    forall d ensures d in queries <==> FirstHit(hits, d) < |hits| {
      assert IndexedAt(hits, pool, seen, ids, queries, d);
      PoolHas(hits, d);
    }
    forall d | d in queries ensures queries[d] == DocQueries(hits, d) {
      assert IndexedAt(hits, pool, seen, ids, queries, d);
    }
  }

  lemma PoolHas(hits: seq<Hit>, d: string)
    ensures FirstHit(hits, d) < |hits| <==> IndexOf(Pool(hits), d) < |Pool(hits)|
  {
    hide EvidenceId, Faithful, Pool, FirstHit, IndexOf;
    PoolMeans(hits);
  }

  lemma RecordCases(pool: seq<Item>, hit: Hit)
    ensures var k := IndexOf(pool, hit.result.docId);
            Record(pool, hit) ==
              if k == |pool| then pool + [NewItem(|pool| + 1, hit)] else pool[k := Noted(pool[k], hit)]
  {
  }

  // The search for the item to update; k is where it is.
  method UpdateItem(pool: seq<Item>, id: string, hit: Hit, ghost k: nat) returns (next: seq<Item>)
    requires k < |pool| && pool[k].id == id && forall j :: 0 <= j < k ==> pool[j].id != id
    ensures next == pool[k := Noted(pool[k], hit)]
  {
    next := pool;
    for m := 0 to |pool|
      invariant m <= k && next == pool
    {
      var item := next[m];
      if item.id == id {
        if hit.query !in item.queryIds {
          item := item.(queryIds := item.queryIds + [hit.query]);
        }
        item := item.(scores := item.scores[hit.query := hit.result.score]);
        next := next[m := item];
        break;
      }
    }
  }

  // deduplicate_results
  method DeduplicateResults(queryResults: seq<QueryResults>) returns (pool: seq<Item>,
                                                                      queries: map<string, seq<string>>)
    ensures pool == Pool(Hits(queryResults))
    ensures forall d :: d in queries <==> FirstHit(Hits(queryResults), d) < |Hits(queryResults)|
    ensures forall d :: d in queries ==> queries[d] == DocQueries(Hits(queryResults), d)
  {
    var seen: set<string> := {};
    var ids: map<string, string> := map[];
    var counter := 1;
    pool, queries := [], map[];
    ghost var hits: seq<Hit> := [];
    hide PoolKept, Record, EvidenceId, FirstHit, DocQueries, Indexed;
    StartsIndexed();
    for q := 0 to |queryResults|
      invariant hits == Hits(queryResults[..q]) && counter == |pool| + 1
      invariant Indexed(hits, pool, seen, ids, queries)
    {
      var qr := queryResults[q];
      ghost var before := hits;
      for r := 0 to |qr.results|
        invariant hits == before + HitsOf(qr.queryId, qr.results)[..r] && counter == |pool| + 1
        invariant Indexed(hits, pool, seen, ids, queries)
      {
        var result := qr.results[r];
        ghost var hit := Hit(qr.queryId, result);
        IndexedMore(hits, hit, pool, seen, ids, queries);
        SeenIndexed(hits, pool, seen, ids, queries, result.docId);
        RecordCases(pool, hit);
        if result.docId !in seen {
          seen := seen + {result.docId};
          var id := EvidenceId(counter);
          counter := counter + 1;
          ids := ids[result.docId := id];
          queries := queries[result.docId := [qr.queryId]];
          pool := pool + [Item(id, result, [qr.queryId], map[qr.queryId := result.score])];
        } else {
          queries := queries[result.docId := queries[result.docId] + [qr.queryId]];
          pool := UpdateItem(pool, ids[result.docId], Hit(qr.queryId, result), IndexOf(pool, result.docId));
          assert seen == seen + {result.docId};
        }
        hits := hits + [hit];
      }
      assert HitsOf(qr.queryId, qr.results)[..|qr.results|] == HitsOf(qr.queryId, qr.results);
      assert queryResults[..q + 1][..q] == queryResults[..q];
    }
    assert queryResults[..|queryResults|] == queryResults;
    AllIndexed(hits, pool, seen, ids, queries);
  }

  // ---- Grouping ------------------------------------------------------------------------

  // A dictionary of sets, with its keys in the order they were inserted.
  datatype Groups = Groups(order: seq<string>, sets: map<string, set<string>>)

  function AddTo(g: Groups, key: string, x: string): Groups {
    if key in g.sets then Groups(g.order, g.sets[key := g.sets[key] + {x}])
    else Groups(g.order + [key], g.sets[key := {x}])
  }

  function AddAll(pairs: seq<(string, string)>): Groups {
    if pairs == [] then Groups([], map[])
    else
      var last := pairs[|pairs| - 1];
      AddTo(AddAll(pairs[..|pairs| - 1]), last.0, last.1)
  }

  lemma AddAllNothing()
    ensures AddAll([]) == Groups([], map[])
  {
  }

  lemma AddAllStep(pairs: seq<(string, string)>, key: string, x: string)
    ensures AddAll(pairs + [(key, x)]) == AddTo(AddAll(pairs), key, x)
  {
  }

  // The dictionary holds exactly the pairs added, each key once.
  lemma {:induction false} AddAllHolds(pairs: seq<(string, string)>)
    ensures var g := AddAll(pairs);
            && NoRepeats(g.order)
            && (forall key :: key in g.order <==> key in g.sets)
            && (forall key :: key in g.sets ==> g.sets[key] != {})
            && (forall key, x :: key in g.sets && x in g.sets[key] <==> (key, x) in pairs)
  {
    if pairs != [] {
      var front, last := pairs[..|pairs| - 1], pairs[|pairs| - 1];
      AddAllHolds(front);
      assert forall key, x :: (key, x) in pairs <==> (key, x) in front || (key, x) == last;
    }
  }

  // ---- Bundles -------------------------------------------------------------------------

  function SectionPairs(sections: seq<string>, id: string): seq<(string, string)> {
    if sections == [] then [] else SectionPairs(sections[..|sections| - 1], id) + [(sections[|sections| - 1], id)]
  }

  function QueryPairs(queryIds: seq<string>, id: string, toSections: map<string, seq<string>>): seq<(string, string)> {
    if queryIds == [] then []
    else
      var query := queryIds[|queryIds| - 1];
      QueryPairs(queryIds[..|queryIds| - 1], id, toSections) +
        (if query in toSections then SectionPairs(toSections[query], id) else [])
  }

  function PoolPairs(pool: seq<Item>, toSections: map<string, seq<string>>): seq<(string, string)> {
    if pool == [] then []
    else
      var item := pool[|pool| - 1];
      PoolPairs(pool[..|pool| - 1], toSections) + QueryPairs(item.queryIds, item.id, toSections)
  }

  predicate Assigned(toSections: map<string, seq<string>>, query: string, section: string) {
    query in toSections && section in toSections[query]
  }

  // Some query that returned the item is assigned to the section.
  predicate Feeds(item: Item, toSections: map<string, seq<string>>, section: string) {
    exists query :: query in item.queryIds && Assigned(toSections, query, section)
  }

  lemma {:induction false} SectionPairsHold(sections: seq<string>, id: string, section: string, x: string)
    ensures (section, x) in SectionPairs(sections, id) <==> x == id && section in sections
  {
    if sections != [] {
      SectionPairsHold(sections[..|sections| - 1], id, section, x);
    }
  }

  lemma {:induction false} QueryPairsHold(queryIds: seq<string>, id: string, toSections: map<string, seq<string>>,
                                          section: string, x: string)
    ensures (section, x) in QueryPairs(queryIds, id, toSections) <==>
            x == id && exists query :: query in queryIds && Assigned(toSections, query, section)
  {
    if queryIds != [] {
      var front, query := queryIds[..|queryIds| - 1], queryIds[|queryIds| - 1];
      QueryPairsHold(front, id, toSections, section, x);
      if query in toSections {
        SectionPairsHold(toSections[query], id, section, x);
      }
      assert Assigned(toSections, query, section) || !Assigned(toSections, query, section);
    }
  }

  lemma {:induction false} PoolPairsHold(pool: seq<Item>, toSections: map<string, seq<string>>, section: string,
                                         x: string)
    ensures (section, x) in PoolPairs(pool, toSections) <==>
            exists i :: 0 <= i < |pool| && pool[i].id == x && Feeds(pool[i], toSections, section)
  {
    hide QueryPairs;
    if pool != [] {
      var front, item := pool[..|pool| - 1], pool[|pool| - 1];
      PoolPairsHold(front, toSections, section, x);
      QueryPairsHold(item.queryIds, item.id, toSections, section, x);
      assert Feeds(item, toSections, section) <==>
             exists query :: query in item.queryIds && Assigned(toSections, query, section);
      hide Feeds;
      assert forall i :: 0 <= i < |front| ==> pool[i] == front[i];
    }
  }

  // One bundle a section, listing each item that some query assigned to the section returned, and no other, once.
  ghost predicate Bundled(bundles: seq<Bundle>, pool: seq<Item>, toSections: map<string, seq<string>>) {
    && (forall i, j :: 0 <= i < j < |bundles| ==> bundles[i].sectionId != bundles[j].sectionId)
    && (forall b :: 0 <= b < |bundles| ==> NoRepeats(bundles[b].evidenceIds) && bundles[b].evidenceIds != [])
    && (forall section, x ::
          InBundle(bundles, section, x) <==>
            exists i :: 0 <= i < |pool| && pool[i].id == x && Feeds(pool[i], toSections, section))
  }

  predicate InBundle(bundles: seq<Bundle>, section: string, x: string) {
    exists b :: 0 <= b < |bundles| && bundles[b].sectionId == section && x in bundles[b].evidenceIds
  }

  lemma GroupsBundled(bundles: seq<Bundle>, g: Groups, pool: seq<Item>, toSections: map<string, seq<string>>)
    requires g == AddAll(PoolPairs(pool, toSections)) && |bundles| == |g.order|
    requires forall b :: 0 <= b < |bundles| ==> Lists(bundles[b], g, g.order[b])
    ensures Bundled(bundles, pool, toSections)
  {
    hide AddAll, PoolPairs, Feeds;
    AddAllHolds(PoolPairs(pool, toSections));
    forall section, x ensures InBundle(bundles, section, x) <==>
      exists i :: 0 <= i < |pool| && pool[i].id == x && Feeds(pool[i], toSections, section)
    {
      PoolPairsHold(pool, toSections, section, x);
      if section in g.sets && x in g.sets[section] {
        var b :| 0 <= b < |g.order| && g.order[b] == section;
        assert Lists(bundles[b], g, g.order[b]);
      }
    }
    forall b | 0 <= b < |bundles| ensures bundles[b].evidenceIds != [] {
      var x :| x in g.sets[g.order[b]];
      assert x in bundles[b].evidenceIds;
    }
  }

  predicate Lists(bundle: Bundle, g: Groups, section: string) {
    && section in g.sets && bundle.sectionId == section && NoRepeats(bundle.evidenceIds)
    && (forall x :: x in bundle.evidenceIds ==> x in g.sets[section])
    && (forall x :: x in g.sets[section] ==> x in bundle.evidenceIds)
  }

  lemma PairsOfNothing(id: string, toSections: map<string, seq<string>>)
    ensures SectionPairs([], id) == QueryPairs([], id, toSections) == PoolPairs([], toSections) == []
  {
  }

  lemma SectionPairsStep(sections: seq<string>, id: string, k: nat)
    requires k < |sections|
    ensures SectionPairs(sections[..k + 1], id) == SectionPairs(sections[..k], id) + [(sections[k], id)]
  {
    assert sections[..k + 1][..k] == sections[..k];
  }

  lemma QueryPairsStep(queryIds: seq<string>, id: string, toSections: map<string, seq<string>>, j: nat)
    requires j < |queryIds|
    ensures QueryPairs(queryIds[..j + 1], id, toSections) ==
            QueryPairs(queryIds[..j], id, toSections) +
              (if queryIds[j] in toSections then SectionPairs(toSections[queryIds[j]], id) else [])
  {
    hide SectionPairs;
    assert queryIds[..j + 1][..j] == queryIds[..j];
  }

  lemma PoolPairsStep(pool: seq<Item>, toSections: map<string, seq<string>>, i: nat)
    requires i < |pool|
    ensures PoolPairs(pool[..i + 1], toSections) ==
            PoolPairs(pool[..i], toSections) + QueryPairs(pool[i].queryIds, pool[i].id, toSections)
  {
    hide QueryPairs;
    assert pool[..i + 1][..i] == pool[..i];
  }

  // The first half of assign_bundles: from sections to evidence ids.
  method SectionGroups(pool: seq<Item>, toSections: map<string, seq<string>>) returns (g: Groups)
    ensures g == AddAll(PoolPairs(pool, toSections))
  {
    hide *;
    AddAllNothing();
    PairsOfNothing("", toSections);
    g := Groups([], map[]);
    ghost var pairs: seq<(string, string)> := [];
    for i := 0 to |pool|
      invariant pairs == PoolPairs(pool[..i], toSections) && g == AddAll(pairs)
    {
      var item := pool[i];
      ghost var before := pairs;
      PairsOfNothing(item.id, toSections);
      PoolPairsStep(pool, toSections, i);
      for j := 0 to |item.queryIds|
        invariant pairs == before + QueryPairs(item.queryIds[..j], item.id, toSections) && g == AddAll(pairs)
      {
        var query := item.queryIds[j];
        QueryPairsStep(item.queryIds, item.id, toSections, j);
        if query in toSections {
          var sections := toSections[query];
          ghost var outer := pairs;
          for k := 0 to |sections|
            invariant pairs == outer + SectionPairs(sections[..k], item.id) && g == AddAll(pairs)
          {
            SectionPairsStep(sections, item.id, k);
            AddAllStep(pairs, sections[k], item.id);
            g := AddTo(g, sections[k], item.id);
            pairs := pairs + [(sections[k], item.id)];
          }
          assert sections[..|sections|] == sections;
        }
      }
      assert item.queryIds[..|item.queryIds|] == item.queryIds;
    }
    assert pool[..|pool|] == pool;
  }

  // assign_bundles
  method AssignBundles(pool: seq<Item>, toSections: map<string, seq<string>>) returns (bundles: seq<Bundle>)
    ensures Bundled(bundles, pool, toSections)
  {
    hide AddAll, PoolPairs, Bundled;
    var g := SectionGroups(pool, toSections);
    AddAllHolds(PoolPairs(pool, toSections));
    bundles := [];
    for b := 0 to |g.order|
      invariant |bundles| == b && forall c :: 0 <= c < b ==> Lists(bundles[c], g, g.order[c])
    {
      var ids := ListOf(g.sets[g.order[b]]);
      bundles := bundles + [Bundle(g.order[b], ids)];
    }
    GroupsBundled(bundles, g, pool, toSections);
  }

  // ---- The shared registry -------------------------------------------------------------

  function BundlePairs(sectionId: string, ids: seq<string>): seq<(string, string)> {
    if ids == [] then [] else BundlePairs(sectionId, ids[..|ids| - 1]) + [(ids[|ids| - 1], sectionId)]
  }

  function AllBundlePairs(bundles: seq<Bundle>): seq<(string, string)> {
    if bundles == [] then []
    else
      var last := bundles[|bundles| - 1];
      AllBundlePairs(bundles[..|bundles| - 1]) + BundlePairs(last.sectionId, last.evidenceIds)
  }

  lemma {:induction false} BundlePairsHold(sectionId: string, ids: seq<string>, x: string, section: string)
    ensures (x, section) in BundlePairs(sectionId, ids) <==> section == sectionId && x in ids
  {
    if ids != [] {
      BundlePairsHold(sectionId, ids[..|ids| - 1], x, section);
    }
  }

  lemma {:induction false} AllBundlePairsHold(bundles: seq<Bundle>, x: string, section: string)
    ensures (x, section) in AllBundlePairs(bundles) <==> InBundle(bundles, section, x)
  {
    hide BundlePairs;
    if bundles != [] {
      var front, bundle := bundles[..|bundles| - 1], bundles[|bundles| - 1];
      AllBundlePairsHold(front, x, section);
      BundlePairsHold(bundle.sectionId, bundle.evidenceIds, x, section);
      assert forall b :: 0 <= b < |front| ==> bundles[b] == front[b];
    }
  }

  const DEFAULT_INTERPRETATION := "Evidence used across multiple sections."

  // Of several interpretations of an item the last is used.
  function Interpretation(interpretations: seq<(string, string)>, id: string): string {
    if interpretations == [] then DEFAULT_INTERPRETATION
    else if interpretations[|interpretations| - 1].0 == id then interpretations[|interpretations| - 1].1
    else Interpretation(interpretations[..|interpretations| - 1], id)
  }

  predicate LastFor(interpretations: seq<(string, string)>, id: string, i: int) {
    && 0 <= i < |interpretations| && interpretations[i].0 == id
    && forall j :: i < j < |interpretations| ==> interpretations[j].0 != id
  }

  // What the last pair for this id gives, and a stock phrase if there is none.
  lemma {:induction false} InterpretationIs(interpretations: seq<(string, string)>, id: string, i: int)
    ensures (forall j :: 0 <= j < |interpretations| ==> interpretations[j].0 != id) ==>
            Interpretation(interpretations, id) == "Evidence used across multiple sections."
    ensures LastFor(interpretations, id, i) ==> Interpretation(interpretations, id) == interpretations[i].1
  {
    if interpretations != [] {
      InterpretationIs(interpretations[..|interpretations| - 1], id, i);
    }
  }

  predicate InTwoBundles(bundles: seq<Bundle>, x: string) {
    exists a, b :: 0 <= a < |bundles| && 0 <= b < |bundles| && bundles[a].sectionId != bundles[b].sectionId
                   && x in bundles[a].evidenceIds && x in bundles[b].evidenceIds
  }

  predicate Listed(shared: seq<Shared>, x: string) {
    exists i :: 0 <= i < |shared| && shared[i].evidenceId == x
  }

  lemma NoneListed()
    ensures forall x :: !Listed([], x)
  {
  }

  lemma ListedMore(shared: seq<Shared>, entry: Shared)
    ensures forall x :: Listed(shared + [entry], x) <==> Listed(shared, x) || entry.evidenceId == x
  {
    var more := shared + [entry];
    assert more[|shared|] == entry;
    assert forall i :: 0 <= i < |shared| ==> more[i] == shared[i];
  }

  lemma NotListed(shared: seq<Shared>, x: string)
    requires !Listed(shared, x)
    ensures forall i :: 0 <= i < |shared| ==> shared[i].evidenceId != x
  {
  }

  // One entry for each item in the bundles of two or more sections, and no other, listing exactly those sections, once.
  ghost predicate Registered(shared: seq<Shared>, bundles: seq<Bundle>, interpretations: seq<(string, string)>) {
    && (forall i, j :: 0 <= i < j < |shared| ==> shared[i].evidenceId != shared[j].evidenceId)
    && (forall x :: Listed(shared, x) <==> InTwoBundles(bundles, x))
    && (forall i :: 0 <= i < |shared| ==> Entry(shared[i], bundles, interpretations))
  }

  ghost predicate Entry(entry: Shared, bundles: seq<Bundle>, interpretations: seq<(string, string)>) {
    && NoRepeats(entry.sectionIds)
    && (forall section :: section in entry.sectionIds <==> InBundle(bundles, section, entry.evidenceId))
    && entry.interpretation == Interpretation(interpretations, entry.evidenceId)
  }

  lemma TwoInSet(s: set<string>, a: string, b: string)
    requires a in s && b in s && a != b
    ensures |s| >= 2
  {
    assert s == {a} + ({b} + (s - {a} - {b}));
  }

  lemma SharedIff(bundles: seq<Bundle>, g: Groups, x: string)
    requires g == AddAll(AllBundlePairs(bundles)) && x in g.sets
    ensures |g.sets[x]| >= 2 <==> InTwoBundles(bundles, x)
    ensures forall section :: section in g.sets[x] <==> InBundle(bundles, section, x)
  {
    hide AddAll, AllBundlePairs;
    AddAllHolds(AllBundlePairs(bundles));
    forall section ensures section in g.sets[x] <==> InBundle(bundles, section, x) {
      AllBundlePairsHold(bundles, x, section);
    }
    if InTwoBundles(bundles, x) {
      var a, b :| 0 <= a < |bundles| && 0 <= b < |bundles| && bundles[a].sectionId != bundles[b].sectionId
                  && x in bundles[a].evidenceIds && x in bundles[b].evidenceIds;
      TwoInSet(g.sets[x], bundles[a].sectionId, bundles[b].sectionId);
    }
    if |g.sets[x]| >= 2 {
      var s :| s in g.sets[x];
      assert |g.sets[x] - {s}| >= 1;
      var t :| t in g.sets[x] - {s};
      assert InBundle(bundles, s, x) && InBundle(bundles, t, x);
    }
  }

  lemma SharedInGroups(bundles: seq<Bundle>, g: Groups, x: string)
    requires g == AddAll(AllBundlePairs(bundles)) && InTwoBundles(bundles, x)
    ensures x in g.sets
  {
    hide AddAll, AllBundlePairs;
    AddAllHolds(AllBundlePairs(bundles));
    var a :| 0 <= a < |bundles| && x in bundles[a].evidenceIds;
    AllBundlePairsHold(bundles, x, bundles[a].sectionId);
  }

  // The first loop of build_shared_registry: from evidence ids to sections.
  method EvidenceGroups(bundles: seq<Bundle>) returns (g: Groups)
    ensures g == AddAll(AllBundlePairs(bundles))
  {
    hide AddTo, AddAll;
    AddAllNothing();
    g := Groups([], map[]);
    ghost var pairs: seq<(string, string)> := [];
    for i := 0 to |bundles|
      invariant pairs == AllBundlePairs(bundles[..i]) && g == AddAll(pairs)
    {
      var bundle := bundles[i];
      ghost var before := pairs;
      for j := 0 to |bundle.evidenceIds|
        invariant pairs == before + BundlePairs(bundle.sectionId, bundle.evidenceIds[..j]) && g == AddAll(pairs)
      {
        assert bundle.evidenceIds[..j + 1][..j] == bundle.evidenceIds[..j];
        AddAllStep(pairs, bundle.evidenceIds[j], bundle.sectionId);
        g := AddTo(g, bundle.evidenceIds[j], bundle.sectionId);
        pairs := pairs + [(bundle.evidenceIds[j], bundle.sectionId)];
      }
      assert bundle.evidenceIds[..|bundle.evidenceIds|] == bundle.evidenceIds;
      assert bundles[..i + 1][..i] == bundles[..i];
    }
    assert bundles[..|bundles|] == bundles;
  }

  // The interpretations as a dictionary.
  method Interpretations(interpretations: seq<(string, string)>) returns (llm: map<string, string>)
    ensures forall id :: Interpretation(interpretations, id) == if id in llm then llm[id] else DEFAULT_INTERPRETATION
  {
    llm := map[];
    for i := 0 to |interpretations|
      invariant forall id ::
        Interpretation(interpretations[..i], id) == if id in llm then llm[id] else DEFAULT_INTERPRETATION
    {
      assert interpretations[..i + 1][..i] == interpretations[..i];
      llm := llm[interpretations[i].0 := interpretations[i].1];
    }
    assert interpretations[..|interpretations|] == interpretations;
  }

  // An entry with the sections of a group is an entry of the registry.
  lemma EntryOfGroup(bundles: seq<Bundle>, interpretations: seq<(string, string)>, g: Groups, entry: Shared)
    requires g == AddAll(AllBundlePairs(bundles)) && entry.evidenceId in g.sets && NoRepeats(entry.sectionIds)
    requires forall section :: section in entry.sectionIds <==> section in g.sets[entry.evidenceId]
    requires entry.interpretation == Interpretation(interpretations, entry.evidenceId)
    ensures Entry(entry, bundles, interpretations)
  {
    hide AddAll, AllBundlePairs, InBundle, InTwoBundles, Interpretation, NoRepeats;
    SharedIff(bundles, g, entry.evidenceId);
  }

  // build_shared_registry; interpretations: the shared items of the assessment, in order.
  method BuildSharedRegistry(bundles: seq<Bundle>, interpretations: seq<(string, string)>) returns (shared: seq<Shared>)
    ensures Registered(shared, bundles, interpretations)
  {
    hide AddAll, AddTo, InTwoBundles, InBundle, AllBundlePairs, Listed, Interpretation, Entry, BundlePairs, NoRepeats;
    var g := EvidenceGroups(bundles);
    AddAllHolds(AllBundlePairs(bundles));
    var llm := Interpretations(interpretations);
    shared := [];
    NoneListed();
    for i := 0 to |g.order|
      invariant forall a, b :: 0 <= a < b < |shared| ==> shared[a].evidenceId != shared[b].evidenceId
      invariant forall x :: Listed(shared, x) <==> x in g.order[..i] && InTwoBundles(bundles, x)
      invariant forall k :: 0 <= k < |shared| ==> Entry(shared[k], bundles, interpretations)
    {
      var id := g.order[i];
      SharedIff(bundles, g, id);
      assert g.order[..i + 1] == g.order[..i] + [id];
      if |g.sets[id]| >= 2 {
        var sections := ListOf(g.sets[id]);
        var entry := Shared(id, sections, if id in llm then llm[id] else DEFAULT_INTERPRETATION);
        EntryOfGroup(bundles, interpretations, g, entry);
        ListedMore(shared, entry);
        NotListed(shared, id);
        shared := shared + [entry];
      }
    }
    assert g.order[..|g.order|] == g.order;
    forall x | InTwoBundles(bundles, x) ensures x in g.order {
      SharedInGroups(bundles, g, x);
    }
  }

  // ---- End to end ----------------------------------------------------------------------

  datatype Package = Package(pool: seq<Item>, bundles: seq<Bundle>, shared: seq<Shared>)

  // CoverageEvaluator.evaluate, the steps not left to the model.
  method Evaluate(queryResults: seq<QueryResults>, toSections: map<string, seq<string>>,
                  interpretations: seq<(string, string)>)
    returns (package: Package)
    ensures package.pool == Pool(Hits(queryResults))
    ensures Bundled(package.bundles, package.pool, toSections)
    ensures Registered(package.shared, package.bundles, interpretations)
  {
    var pool, queries := DeduplicateResults(queryResults);
    var bundles := AssignBundles(pool, toSections);
    var shared := BuildSharedRegistry(bundles, interpretations);
    package := Package(pool, bundles, shared);
  }

  // get_section_bundle
  function SectionBundle(bundles: seq<Bundle>, section: string): (bundle: Option<Bundle>)
    ensures bundle.Some? ==> bundle.value in bundles && bundle.value.sectionId == section
    ensures bundle.None? ==> forall b :: 0 <= b < |bundles| ==> bundles[b].sectionId != section
  {
    if bundles == [] then None
    else if bundles[0].sectionId == section then Some(bundles[0])
    else SectionBundle(bundles[1..], section)
  }

  function Selected(pool: seq<Item>, ids: seq<string>): seq<Item> {
    if pool == [] then []
    else Selected(pool[..|pool| - 1], ids) + (if pool[|pool| - 1].id in ids then [pool[|pool| - 1]] else [])
  }

  // get_evidence_for_section
  function EvidenceForSection(package: Package, section: string): seq<Item> {
    match SectionBundle(package.bundles, section)
    case None => []
    case Some(bundle) => Selected(package.pool, bundle.evidenceIds)
  }

  // A selection of the pool in its order.
  predicate Ordered(hits: seq<Hit>, items: seq<Item>) {
    forall i, j :: 0 <= i < j < |items| ==> FirstHit(hits, items[i].made.docId) < FirstHit(hits, items[j].made.docId)
  }

  lemma {:induction false} SelectedItems(hits: seq<Hit>, pool: seq<Item>, ids: seq<string>)
    requires Ordered(hits, pool)
    ensures forall item :: item in Selected(pool, ids) <==> item in pool && item.id in ids
    ensures Ordered(hits, Selected(pool, ids))
  {
    hide FirstHit;
    if pool != [] {
      var front, last := pool[..|pool| - 1], pool[|pool| - 1];
      SelectedItems(hits, front, ids);
      var before := Selected(front, ids);
      forall i | 0 <= i < |before| ensures FirstHit(hits, before[i].made.docId) < FirstHit(hits, last.made.docId) {
        assert before[i] in front;
      }
    }
  }

  lemma InSectionIff(pool: seq<Item>, bundles: seq<Bundle>, toSections: map<string, seq<string>>, section: string,
                     x: string)
    requires Bundled(bundles, pool, toSections)
    ensures InBundle(bundles, section, x) <==>
            var bundle := SectionBundle(bundles, section); bundle.Some? && x in bundle.value.evidenceIds
  {
  }

  // Some query assigned to the section returned the document.
  predicate Wanted(hits: seq<Hit>, toSections: map<string, seq<string>>, section: string, docId: string) {
    exists k :: 0 <= k < |hits| && hits[k].result.docId == docId && Assigned(toSections, hits[k].query, section)
  }

  lemma WantedIff(hits: seq<Hit>, item: Item, toSections: map<string, seq<string>>, section: string)
    requires Faithful(hits, item)
    ensures Feeds(item, toSections, section) <==> Wanted(hits, toSections, section, item.made.docId)
  {
  }

  lemma SameIdSameItem(hits: seq<Hit>, i: nat, j: nat)
    requires i < |Pool(hits)| && j < |Pool(hits)| && Pool(hits)[i].id == Pool(hits)[j].id
    ensures i == j
  {
    PoolIds(hits, i);
    PoolIds(hits, j);
    EvidenceIdsDiffer(i + 1, j + 1);
  }

  // The items of a section are those of the pool whose document some query assigned to it returned.
  lemma SectionItems(hits: seq<Hit>, package: Package, toSections: map<string, seq<string>>, section: string,
                     item: Item)
    requires package.pool == Pool(hits) && Bundled(package.bundles, package.pool, toSections)
    ensures item in EvidenceForSection(package, section) <==>
            item in Pool(hits) && Wanted(hits, toSections, section, item.made.docId)
  {
    PoolMeans(hits);
    var pool := package.pool;
    InSectionIff(pool, package.bundles, toSections, section, item.id);
    var bundle := SectionBundle(package.bundles, section);
    if bundle.Some? {
      SelectedItems(hits, pool, bundle.value.evidenceIds);
    }
    hide Pool, EvidenceId, Feeds, Wanted, Selected, InBundle;
    if item in pool {
      var j :| 0 <= j < |pool| && pool[j] == item;
      WantedIff(hits, item, toSections, section);
      if InBundle(package.bundles, section, item.id) {
        var i :| 0 <= i < |pool| && pool[i].id == item.id && Feeds(pool[i], toSections, section);
        SameIdSameItem(hits, i, j);
      }
    }
  }

  // End to end: a section's evidence is, in the order of first appearance and without repetition, exactly the documents
  // returned by some query assigned to the section; every item is faithful to all the results.
  lemma SectionEvidence(hits: seq<Hit>, package: Package, toSections: map<string, seq<string>>, section: string)
    requires package.pool == Pool(hits) && Bundled(package.bundles, package.pool, toSections)
    ensures var evidence := EvidenceForSection(package, section);
            && (forall docId :: Wanted(hits, toSections, section, docId) <==>
                exists i :: 0 <= i < |evidence| && evidence[i].made.docId == docId)
            && (forall i, j :: 0 <= i < j < |evidence| ==>
                FirstHit(hits, evidence[i].made.docId) < FirstHit(hits, evidence[j].made.docId))
            && (forall i :: 0 <= i < |evidence| ==> Faithful(hits, evidence[i]))
  {
    PoolMeans(hits);
    var pool, evidence := package.pool, EvidenceForSection(package, section);
    var bundle := SectionBundle(package.bundles, section);
    if bundle.Some? {
      SelectedItems(hits, pool, bundle.value.evidenceIds);
    }
    hide Pool, EvidenceId, Faithful, Bundled, Selected, EvidenceForSection, FirstHit, IndexOf;
    forall i | 0 <= i < |evidence|
      ensures Faithful(hits, evidence[i]) && Wanted(hits, toSections, section, evidence[i].made.docId)
    {
      SectionItems(hits, package, toSections, section, evidence[i]);
      assert evidence[i] in pool;
    }
    forall docId | Wanted(hits, toSections, section, docId)
      ensures exists i :: 0 <= i < |evidence| && evidence[i].made.docId == docId
    {
      assert FirstHit(hits, docId) < |hits|;
      var item := pool[IndexOf(pool, docId)];
      SectionItems(hits, package, toSections, section, item);
      assert item in evidence;
    }
  }

  // The registry lists exactly the items that are evidence of two or more sections, with exactly those sections.
  lemma SharedEvidence(hits: seq<Hit>, package: Package, toSections: map<string, seq<string>>,
                       interpretations: seq<(string, string)>, item: Item)
    requires package.pool == Pool(hits) && Bundled(package.bundles, package.pool, toSections) && item in Pool(hits)
    requires Registered(package.shared, package.bundles, interpretations)
    ensures Listed(package.shared, item.id) <==>
            exists a, b :: a != b && item in EvidenceForSection(package, a) && item in EvidenceForSection(package, b)
    ensures forall i :: 0 <= i < |package.shared| && package.shared[i].evidenceId == item.id ==>
            forall section :: section in package.shared[i].sectionIds <==> item in EvidenceForSection(package, section)
  {
    forall section
      ensures InBundle(package.bundles, section, item.id) <==> item in EvidenceForSection(package, section)
    {
      ItemInBundle(hits, package, toSections, section, item);
    }
    TwoBundlesIff(package.bundles, item.id);
    hide Pool, EvidenceForSection, Bundled, InTwoBundles, InBundle;
    assert InTwoBundles(package.bundles, item.id) <==>
      exists a, b :: a != b && item in EvidenceForSection(package, a) && item in EvidenceForSection(package, b);
  }

  lemma TwoBundlesIff(bundles: seq<Bundle>, x: string)
    ensures InTwoBundles(bundles, x) <==> exists a, b :: a != b && InBundle(bundles, a, x) && InBundle(bundles, b, x)
  {
    if InTwoBundles(bundles, x) {
      var a, b :| 0 <= a < |bundles| && 0 <= b < |bundles| && bundles[a].sectionId != bundles[b].sectionId
                  && x in bundles[a].evidenceIds && x in bundles[b].evidenceIds;
      assert InBundle(bundles, bundles[a].sectionId, x) && InBundle(bundles, bundles[b].sectionId, x);
    }
  }

  lemma ItemInBundle(hits: seq<Hit>, package: Package, toSections: map<string, seq<string>>, section: string,
                     item: Item)
    requires package.pool == Pool(hits) && Bundled(package.bundles, package.pool, toSections) && item in Pool(hits)
    ensures InBundle(package.bundles, section, item.id) <==> item in EvidenceForSection(package, section)
  {
    PoolMeans(hits);
    InSectionIff(package.pool, package.bundles, toSections, section, item.id);
    var bundle := SectionBundle(package.bundles, section);
    if bundle.Some? {
      SelectedItems(hits, package.pool, bundle.value.evidenceIds);
    }
  }

  // A document is evidence of a section exactly when some query assigned to the section returned it, whatever the order
  // of the queries and of their results.
  lemma EvidenceOf(queryResults: seq<QueryResults>, package: Package, toSections: map<string, seq<string>>,
                   section: string, docId: string)
    requires package.pool == Pool(Hits(queryResults)) && Bundled(package.bundles, package.pool, toSections)
    ensures var evidence := EvidenceForSection(package, section);
            (exists i :: 0 <= i < |evidence| && evidence[i].made.docId == docId) <==>
            exists q, r ::
              && 0 <= q < |queryResults| && 0 <= r < |queryResults[q].results|
              && queryResults[q].results[r].docId == docId
              && queryResults[q].queryId in toSections && section in toSections[queryResults[q].queryId]
  {
    hide Hits, Pool, Bundled, EvidenceForSection, Faithful;
    var hits := Hits(queryResults);
    SectionEvidence(hits, package, toSections, section);
    if Wanted(hits, toSections, section, docId) {
      var k :| 0 <= k < |hits| && hits[k].result.docId == docId && Assigned(toSections, hits[k].query, section);
      HitIff(queryResults, hits[k]);
    }
    forall q, r |
      && 0 <= q < |queryResults| && 0 <= r < |queryResults[q].results| && queryResults[q].results[r].docId == docId
      && queryResults[q].queryId in toSections && section in toSections[queryResults[q].queryId]
      ensures Wanted(hits, toSections, section, docId)
    {
      var hit := Hit(queryResults[q].queryId, queryResults[q].results[r]);
      HitIff(queryResults, hit);
      var k :| 0 <= k < |hits| && hits[k] == hit;
      assert Assigned(toSections, hits[k].query, section);
    }
  }
}
