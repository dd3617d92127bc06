/** Hybrid retrieval: two ranked legs read under row-level security, fused, cut to top_k, hydrated by
    a second read whose rows come back in any order, and put back in rank order. */
module HybridSearch {
  import opened Prelude
  import opened Fusion
  import opened FusionTheorems

  datatype Chunk = Chunk(orgPk: nat, content: string, documentId: string, page: int, charStart: Option<int>,
                         charEnd: Option<int>, elementType: string, embedded: bool)

  // The organisation and chunks tables as one statement sees them.
  datatype Snapshot = Snapshot(orgs: map<string, nat>, chunks: map<int, Chunk>)

  datatype ChunkHit = ChunkHit(chunkId: int, content: string, documentId: string, page: int, charStart: Option<int>,
                               charEnd: Option<int>, elementType: string, score: real)

  datatype RRFWeights = RRFWeights(dense: real, sparse: real)

  datatype SearchError = Unscoped | ScopedToAnother | EmptyEmbedding | NegativeLimit | DivisionByZero

  // The statements a search sends on the session.
  datatype Query = ReadScope | DenseLeg | SparseLeg | Hydrate

  type Answer = Result<seq<ChunkHit>, SearchError>

  // `current_setting('app.org_id', true)`: never set is NULL, reset is the empty string.
  type Setting = Option<string>

  predicate Visible(db: Snapshot, scope: Setting, id: int) {
    && id in db.chunks
    && scope.Some?
    && scope.value in db.orgs
    && db.orgs[scope.value] == db.chunks[id].orgPk
  }

  predicate Matches(db: Snapshot, scope: Setting, document: Option<string>, id: int) {
    Visible(db, scope, id) && (document.Some? ==> db.chunks[id].documentId == document.value)
  }

  /** What the database may answer before LIMIT: a ranking without repeats of visible chunks of the document. */
  ghost predicate Candidates(db: Snapshot, scope: Setting, document: Option<string>, dense: seq<int>, sparse: seq<int>) {
    && NoRepeats(dense) && NoRepeats(sparse)
    && (forall id :: id in dense ==> Matches(db, scope, document, id) && db.chunks[id].embedded)
    && (forall id :: id in sparse ==> Matches(db, scope, document, id))
  }

  // ---------- the specification ----------

  function FetchK(topK: int, legK: Option<int>): (r: int)
    ensures legK.Some? ==> r == legK.value
    ensures legK.None? ==> r >= 20 && r >= 4 * topK && (r == 20 || r == 4 * topK)
  {
    if legK.Some? then legK.value else if topK * 4 > 20 then topK * 4 else 20
  }

  function WeightMap(weights: RRFWeights): Weights {
    map["dense" := weights.dense, "sparse" := weights.sparse]
  }

  /** Python's `s[:n]`: a negative bound drops from the end. */
  function UpTo<T>(s: seq<T>, n: int): (r: seq<T>)
    ensures r <= s
    ensures n >= 0 ==> |r| == if n < |s| then n else |s|
    ensures n < 0 ==> |r| == if |s| + n > 0 then |s| + n else 0
  {
    if n >= |s| then s else if n >= 0 then s[..n] else if |s| + n >= 0 then s[..|s| + n] else []
  }

  function Hit(db: Snapshot, item: Item): ChunkHit
    requires item.0 in db.chunks
  {
    var c := db.chunks[item.0];
    ChunkHit(item.0, c.content, c.documentId, c.page, c.charStart, c.charEnd, c.elementType, item.1)
  }

  /** The visible ones of `items`, in the order of `items`. */
  function VisibleHits(db: Snapshot, scope: Setting, items: seq<Item>): seq<ChunkHit> {
    if items == [] then []
    else
      var n := |items| - 1;
      VisibleHits(db, scope, items[..n]) + (if Visible(db, scope, items[n].0) then [Hit(db, items[n])] else [])
  }

  ghost predicate SearchAnswers(now: Snapshot, later: Snapshot, scope: Setting, dense: seq<int>, sparse: seq<int>,
                                embedding: seq<real>, topK: int, weights: RRFWeights, k: int, legK: Option<int>, r: Answer) {
    var limit := FetchK(topK, legK);
    if embedding == [] then r == Failure(EmptyEmbedding)
    else if limit < 0 then r == Failure(NegativeLimit)
    else
      var legs := CutLegs(TwoLegs(dense, sparse), limit);
      if DividesByZero(legs, WeightMap(weights), k) then r == Failure(DivisionByZero)
      else exists fused :: IsFusion(fused, legs, WeightMap(weights), k)
                           && r == Success(VisibleHits(later, scope, UpTo(fused, topK)))
  }

  // ---------- hydration ----------

  function Ids(items: seq<Item>): set<int> {
    set x | x in items :: x.0
  }

  /** `WHERE id = ANY(:ids)`: each visible one once, in an order the database chooses. */
  method SelectByIds(db: Snapshot, scope: Setting, ids: set<int>) returns (rows: seq<int>)
    ensures NoRepeats(rows)
    ensures forall id :: id in rows <==> id in ids && Visible(db, scope, id)
  {
    rows := [];
    var todo := ids;
    while todo != {}
      invariant todo <= ids
      invariant NoRepeats(rows)
      invariant forall id :: id in rows <==> id in ids && id !in todo && Visible(db, scope, id)
      decreases todo
    {
      var id := AnyOf(todo);
      if Visible(db, scope, id) {
        rows := rows + [id];
      }
      todo := todo - {id};
    }
  }

  ghost predicate Ranked(hits: seq<ChunkHit>, rank: map<int, nat>) {
    && (forall h :: h in hits ==> h.chunkId in rank)
    && (forall i, j :: 0 <= i < j < |hits| ==> Rank(rank, hits[i]) < Rank(rank, hits[j]))
  }

  function Rank(rank: map<int, nat>, hit: ChunkHit): nat {
    if hit.chunkId in rank then rank[hit.chunkId] else 0
  }

  function InsertHit(x: ChunkHit, hits: seq<ChunkHit>, rank: map<int, nat>): seq<ChunkHit> {
    if hits == [] || Rank(rank, x) < Rank(rank, hits[0]) then [x] + hits else [hits[0]] + InsertHit(x, hits[1..], rank)
  }

  lemma {:induction false} InsertHitRanked(x: ChunkHit, hits: seq<ChunkHit>, rank: map<int, nat>)
    requires Ranked(hits, rank) && x.chunkId in rank && forall y :: y in hits ==> Rank(rank, y) != Rank(rank, x)
    ensures Ranked(InsertHit(x, hits, rank), rank)
    ensures forall y :: y in InsertHit(x, hits, rank) <==> y == x || y in hits
  {
    var r := InsertHit(x, hits, rank);
    if hits != [] && Rank(rank, x) >= Rank(rank, hits[0]) {
      assert hits[0] in hits;
      assert Ranked(hits[1..], rank);
      InsertHitRanked(x, hits[1..], rank);
      var t := InsertHit(x, hits[1..], rank);
      assert forall y :: y in hits <==> y == hits[0] || y in hits[1..];
      forall j | 0 < j < |r| ensures Rank(rank, r[0]) < Rank(rank, r[j]) {
        assert r[j] == t[j - 1] && t[j - 1] in t;
        if r[j] != x {
          var i :| 0 <= i < |hits[1..]| && hits[1..][i] == r[j];
          assert hits[1..][i] == hits[i + 1];
        }
      }
    }
  }

  lemma RankedTwice(a: seq<ChunkHit>, b: seq<ChunkHit>, rank: map<int, nat>)
    requires Ranked(a, rank) && Ranked(b, rank)
    requires forall h :: h in a <==> h in b
    ensures a == b
  {
    var less := (x: ChunkHit, y: ChunkHit) => Rank(rank, x) < Rank(rank, y);
    assert Sorted(a, less) && Sorted(b, less);
    SortedUnique(a, b, less);
  }

  /** `rank_of`: position in the fused list; also `score_of`. */
  ghost predicate RankOf(rank: map<int, nat>, score: map<int, real>, items: seq<Item>) {
    && rank.Keys == score.Keys == Ids(items)
    && forall i :: 0 <= i < |items| ==> items[i].0 in rank && rank[items[i].0] == i && score[items[i].0] == items[i].1
  }

  ghost predicate DistinctIds(items: seq<Item>) {
    forall i, j :: 0 <= i < j < |items| ==> items[i].0 != items[j].0
  }

  method Index(items: seq<Item>) returns (rank: map<int, nat>, score: map<int, real>)
    requires DistinctIds(items)
    ensures RankOf(rank, score, items)
  {
    rank, score := map[], map[];
    var i := 0;
    while i < |items|
      invariant 0 <= i <= |items|
      invariant rank.Keys == score.Keys == Ids(items[..i])
      invariant forall j :: 0 <= j < i ==> items[j].0 in rank && rank[items[j].0] == j
      invariant forall j :: 0 <= j < i ==> items[j].0 in score && score[items[j].0] == items[j].1
    {
      IdsGrow(items, i);
      rank, score := rank[items[i].0 := i], score[items[i].0 := items[i].1];
      i := i + 1;
    }
    assert items[..i] == items;
  }

  lemma IdsGrow(items: seq<Item>, i: nat)
    requires i < |items|
    ensures Ids(items[..i + 1]) == Ids(items[..i]) + {items[i].0}
  {
    assert items[..i + 1] == items[..i] + [items[i]];
  }

  lemma {:induction false} VisibleHitsMember(db: Snapshot, scope: Setting, items: seq<Item>, h: ChunkHit)
    ensures h in VisibleHits(db, scope, items) <==> exists x :: x in items && Visible(db, scope, x.0) && h == Hit(db, x)
    decreases |items|
  {
    if items != [] {
      var n := |items| - 1;
      VisibleHitsMember(db, scope, items[..n], h);
      assert items == items[..n] + [items[n]];
    }
  }

  lemma {:induction false} VisibleHitsRanked(db: Snapshot, scope: Setting, items: seq<Item>, m: nat, rank: map<int, nat>, score: map<int, real>)
    requires RankOf(rank, score, items) && m <= |items|
    ensures Ranked(VisibleHits(db, scope, items[..m]), rank)
    ensures forall h :: h in VisibleHits(db, scope, items[..m]) ==> Rank(rank, h) < m
    decreases m
  {
    if m > 0 {
      VisibleHitsRanked(db, scope, items, m - 1, rank, score);
      assert items[..m][..m - 1] == items[..m - 1];
      var r := VisibleHits(db, scope, items[..m - 1]);
      assert forall i :: 0 <= i < |r| ==> r[i] in r;
      assert items[..m][m - 1] == items[m - 1];
    }
  }

  /** Hydrates the winners and restores their order: the result does not depend on the order of the rows. */
  method HydrateInOrder(db: Snapshot, scope: Setting, fused: seq<Item>) returns (hits: seq<ChunkHit>)
    requires DistinctIds(fused)
    ensures hits == VisibleHits(db, scope, fused)
  {
    var rank, score := Index(fused);
    var rows := SelectByIds(db, scope, rank.Keys);
    hits := [];
    var i := 0;
    while i < |rows|
      invariant 0 <= i <= |rows|
      invariant Ranked(hits, rank)
      invariant forall h :: h in hits <==> h.chunkId in rows[..i] && h == Hit(db, (h.chunkId, score[h.chunkId]))
    {
      var id := rows[i];
      assert id in rows;
      var x := Hit(db, (id, score[id]));
      assert rows[..i + 1] == rows[..i] + [id];
      forall y | y in hits ensures Rank(rank, y) != Rank(rank, x) {
        DistinctRanks(fused, rank, score, y.chunkId, id);
      }
      InsertHitRanked(x, hits, rank);
      hits := InsertHit(x, hits, rank);
      i := i + 1;
    }
    assert rows[..i] == rows && fused[..|fused|] == fused;
    VisibleHitsRanked(db, scope, fused, |fused|, rank, score);
    forall h ensures h in hits <==> h in VisibleHits(db, scope, fused) {
      VisibleHitsMember(db, scope, fused, h);
      SameHits(db, scope, fused, rank, score, h);
    }
    RankedTwice(hits, VisibleHits(db, scope, fused), rank);
  }

  lemma DistinctRanks(items: seq<Item>, rank: map<int, nat>, score: map<int, real>, a: int, b: int)
    requires RankOf(rank, score, items) && a in rank && b in rank && a != b
    ensures rank[a] != rank[b]
  {
    var x :| x in items && x.0 == a;
    var y :| y in items && y.0 == b;
    var i :| 0 <= i < |items| && items[i] == x;
    var j :| 0 <= j < |items| && items[j] == y;
  }

  lemma SameHits(db: Snapshot, scope: Setting, items: seq<Item>, rank: map<int, nat>, score: map<int, real>, h: ChunkHit)
    requires RankOf(rank, score, items)
    ensures (h.chunkId in rank && Visible(db, scope, h.chunkId) && h == Hit(db, (h.chunkId, score[h.chunkId])))
            <==> exists x :: x in items && Visible(db, scope, x.0) && h == Hit(db, x)
  {
    if h.chunkId in rank && Visible(db, scope, h.chunkId) && h == Hit(db, (h.chunkId, score[h.chunkId])) {
      var x :| x in items && x.0 == h.chunkId;
      var i :| 0 <= i < |items| && items[i] == x;
      assert x == (h.chunkId, score[h.chunkId]);
    }
    if x :| x in items && Visible(db, scope, x.0) && h == Hit(db, x) {
      var i :| 0 <= i < |items| && items[i] == x;
      assert x == (h.chunkId, score[h.chunkId]);
    }
  }

  // ---------- the search ----------

  lemma FusedIdsAreDistinct(fused: seq<Item>, legs: seq<Leg>, weights: Weights, k: int, topK: int)
    requires IsFusion(fused, legs, weights, k)
    ensures DistinctIds(fused) && DistinctIds(UpTo(fused, topK))
  {
    assert forall i :: 0 <= i < |fused| ==> fused[i] in fused;
    forall i, j | 0 <= i < j < |fused| ensures fused[i].0 != fused[j].0 {
      assert Before(fused[i], fused[j]);
    }
  }

  /** `now` is what the legs see and `later` what the hydration sees; the transaction's scope is `scope`. */
  method Search(now: Snapshot, later: Snapshot, scope: Setting, document: Option<string>, dense: seq<int>, sparse: seq<int>,
                embedding: seq<real>, topK: int, weights: RRFWeights, k: int, legK: Option<int>)
      returns (r: Answer, sent: seq<Query>)
    requires Candidates(now, scope, document, dense, sparse)
    ensures SearchAnswers(now, later, scope, dense, sparse, embedding, topK, weights, k, legK, r)
    ensures sent <= [DenseLeg, SparseLeg, Hydrate]
    ensures sent == [] <==> r == Failure(EmptyEmbedding)
  {
    var limit := FetchK(topK, legK);
    if embedding == [] {
      return Failure(EmptyEmbedding), [];
    }
    if limit < 0 {
      return Failure(NegativeLimit), [DenseLeg];
    }
    sent := [DenseLeg, SparseLeg];
    var legs := [Leg("dense", Cut(dense, limit)), Leg("sparse", Cut(sparse, limit))];
    assert legs == CutLegs(TwoLegs(dense, sparse), limit);
    var ranking := ReciprocalRankFusion(legs, WeightMap(weights), k);
    if ranking.None? {
      return Failure(DivisionByZero), sent;
    }
    FusedIdsAreDistinct(ranking.value, legs, WeightMap(weights), k, topK);
    var fused := UpTo(ranking.value, topK);
    var hits := [];
    if fused != [] {
      hits := HydrateInOrder(later, scope, fused);
      sent := sent + [Hydrate];
    }
    r := Success(hits);
    DefinedWhenFused(legs, WeightMap(weights), k, r, later, scope, topK, ranking.value);
  }

  lemma DefinedWhenFused(legs: seq<Leg>, weights: Weights, k: int, r: Answer, db: Snapshot, scope: Setting, topK: int, fused: seq<Item>)
    requires IsFusion(fused, legs, weights, k) && r == Success(VisibleHits(db, scope, UpTo(fused, topK)))
    ensures exists f :: IsFusion(f, legs, weights, k) && r == Success(VisibleHits(db, scope, UpTo(f, topK)))
  {
  }

  /** The guard: an unset or empty setting, or another org's, ends the call before any retrieval query. */
  method OrgScopedSearch(now: Snapshot, later: Snapshot, scope: Setting, orgId: string, document: Option<string>,
                         dense: seq<int>, sparse: seq<int>, embedding: seq<real>, topK: int, weights: RRFWeights,
                         k: int, legK: Option<int>)
      returns (r: Answer, sent: seq<Query>)
    requires Candidates(now, scope, document, dense, sparse)
    ensures r == Failure(Unscoped) <==> scope == None || scope == Some("")
    ensures r == Failure(ScopedToAnother) <==> scope.Some? && scope.value != "" && scope.value != orgId
    ensures r == Failure(Unscoped) || r == Failure(ScopedToAnother) ==> sent == [ReadScope]
    ensures scope == Some(orgId) && orgId != "" ==>
              SearchAnswers(now, later, scope, dense, sparse, embedding, topK, weights, k, legK, r)
    ensures r.Success? ==> forall h :: h in r.value ==> BelongsTo(later, orgId, h)
  {
    if scope == None || scope == Some("") {
      return Failure(Unscoped), [ReadScope];
    }
    if scope.value != orgId {
      return Failure(ScopedToAnother), [ReadScope];
    }
    r, sent := Search(now, later, scope, document, dense, sparse, embedding, topK, weights, k, legK);
    sent := [ReadScope] + sent;
    if r.Success? {
      AnswersStayInOrg(now, later, orgId, dense, sparse, embedding, topK, weights, k, legK, r);
    }
  }

  predicate BelongsTo(db: Snapshot, orgId: string, h: ChunkHit) {
    && orgId in db.orgs
    && h.chunkId in db.chunks
    && db.chunks[h.chunkId].orgPk == db.orgs[orgId]
    && h == Hit(db, (h.chunkId, h.score))
  }

  lemma AnswersStayInOrg(now: Snapshot, later: Snapshot, orgId: string, dense: seq<int>, sparse: seq<int>, embedding: seq<real>,
                         topK: int, weights: RRFWeights, k: int, legK: Option<int>, r: Answer)
    requires SearchAnswers(now, later, Some(orgId), dense, sparse, embedding, topK, weights, k, legK, r)
    requires r.Success?
    ensures forall h :: h in r.value ==> BelongsTo(later, orgId, h)
  {
    var legs := CutLegs(TwoLegs(dense, sparse), FetchK(topK, legK));
    var fused :| IsFusion(fused, legs, WeightMap(weights), k) && r == Success(VisibleHits(later, Some(orgId), UpTo(fused, topK)));
    forall h | h in r.value ensures BelongsTo(later, orgId, h) {
      VisibleHitsMember(later, Some(orgId), UpTo(fused, topK), h);
    }
  }

  // ---------- what the answers mean ----------

  /** The answer is determined: it does not depend on the order in which any dictionary or query returned its rows. */
  lemma AnswerIsDetermined(now: Snapshot, later: Snapshot, scope: Setting, dense: seq<int>, sparse: seq<int>, embedding: seq<real>,
                           topK: int, weights: RRFWeights, k: int, legK: Option<int>, r: Answer, r': Answer)
    requires SearchAnswers(now, later, scope, dense, sparse, embedding, topK, weights, k, legK, r)
    requires SearchAnswers(now, later, scope, dense, sparse, embedding, topK, weights, k, legK, r')
    ensures r == r'
  {
    if embedding != [] && FetchK(topK, legK) >= 0 {
      var legs := CutLegs(TwoLegs(dense, sparse), FetchK(topK, legK));
      if !DividesByZero(legs, WeightMap(weights), k) {
        var f :| IsFusion(f, legs, WeightMap(weights), k) && r == Success(VisibleHits(later, scope, UpTo(f, topK)));
        var f' :| IsFusion(f', legs, WeightMap(weights), k) && r' == Success(VisibleHits(later, scope, UpTo(f', topK)));
        FusionIsUnique(f, f', legs, WeightMap(weights), k);
      }
    }
  }

  /** When nothing changed between the two reads, and top_k is not negative, the hits are the first
      top_k fused items, one hit per item. */
  lemma UnchangedTablesHydrateAll(db: Snapshot, scope: Setting, document: Option<string>, dense: seq<int>, sparse: seq<int>,
                                  limit: nat, weights: Weights, k: int, topK: nat, fused: seq<Item>)
    requires Candidates(db, scope, document, dense, sparse)
    requires IsFusion(fused, CutLegs(TwoLegs(dense, sparse), limit), weights, k)
    ensures var hits := VisibleHits(db, scope, UpTo(fused, topK));
            && |hits| == (if topK < |fused| then topK else |fused|)
            && forall i :: 0 <= i < |hits| ==> hits[i].chunkId == fused[i].0 && hits[i].score == fused[i].1
                                               && Matches(db, scope, document, fused[i].0)
  {
    var legs := CutLegs(TwoLegs(dense, sparse), limit);
    forall x | x in fused ensures Matches(db, scope, document, x.0) {
      var leg :| leg in legs && x.0 in leg.ranked;
      assert leg == legs[0] || leg == legs[1];
      assert x.0 in dense || x.0 in sparse;
    }
    AllVisible(db, scope, UpTo(fused, topK));
    assert forall i :: 0 <= i < |fused| ==> fused[i] in fused;
  }

  lemma {:induction false} AllVisible(db: Snapshot, scope: Setting, items: seq<Item>)
    requires forall x :: x in items ==> Visible(db, scope, x.0)
    ensures var hits := VisibleHits(db, scope, items);
            |hits| == |items| && forall i :: 0 <= i < |hits| ==> Visible(db, scope, items[i].0) && hits[i] == Hit(db, items[i])
    decreases |items|
  {
    if items != [] {
      AllVisible(db, scope, items[..|items| - 1]);
      assert items == items[..|items| - 1] + [items[|items| - 1]];
    }
  }

  ghost predicate InBoth(dense: seq<int>, sparse: seq<int>, id: int) {
    id in dense && id in sparse
  }

  /** By default (equal positive weights, k = 60, no leg_k) and for 0 <= top_k <= 15, no hit found by only
      one leg comes before a hit found by both. */
  lemma DefaultsPutBothLegsFirst(dense: seq<int>, sparse: seq<int>, w: real, topK: nat, fused: seq<Item>, i: nat, j: nat)
    requires w > 0.0 && topK <= 15 && NoRepeats(dense) && NoRepeats(sparse)
    requires IsFusion(fused, CutLegs(TwoLegs(dense, sparse), FetchK(topK, None)), WeightMap(RRFWeights(w, w)), RRF_K)
    requires i < j < |fused|
    ensures var limit := FetchK(topK, None);
            InBoth(Cut(dense, limit), Cut(sparse, limit), fused[j].0) ==> InBoth(Cut(dense, limit), Cut(sparse, limit), fused[i].0)
  {
    var limit := FetchK(topK, None);
    var d, s := Cut(dense, limit), Cut(sparse, limit);
    assert CutLegs(TwoLegs(dense, sparse), limit) == TwoLegs(d, s);
    assert WeightMap(RRFWeights(w, w)) == EqualWeights(w);
    assert fused[i] in fused && fused[j] in fused;
    var leg :| leg in TwoLegs(d, s) && fused[i].0 in leg.ranked;
    assert fused[i].0 in d || fused[i].0 in s;
    assert Before(fused[i], fused[j]);
    if InBoth(d, s, fused[j].0) && !InBoth(d, s, fused[i].0) {
      BothLegsFirst(d, s, w, RRF_K, fused[j].0, fused[i].0);
      assert false;
    }
  }

  /** Fifteen is exact: from top_k = 16 on the legs may hold 62 ids and more, and then a chunk that one leg found
      can be the first hit and one that both found the second. */
  lemma SixteenIsTooMany(w: real, topK: nat) returns (dense: seq<int>, sparse: seq<int>, both: int, one: int)
    requires w > 0.0 && topK >= 16
    ensures NoRepeats(dense) && NoRepeats(sparse)
    ensures var limit := FetchK(topK, None);
            && InBoth(Cut(dense, limit), Cut(sparse, limit), both) && !InBoth(dense, sparse, one)
            && forall fused: seq<Item> :: IsFusion(fused, CutLegs(TwoLegs(dense, sparse), limit), WeightMap(RRFWeights(w, w)), RRF_K) ==>
                 var hits := UpTo(fused, topK); |hits| >= 2 && hits[0].0 == one && hits[1].0 == both
  {
    dense, sparse, both, one := TieDense(RRF_K), TieSparse(RRF_K), RRF_K + 1, 0;
    assert dense[RRF_K + 1] == both && sparse[RRF_K + 1] == both;
    assert CutLegs(TwoLegs(dense, sparse), FetchK(topK, None)) == TwoLegs(dense, sparse);
    assert WeightMap(RRFWeights(w, w)) == EqualWeights(w);
    forall fused: seq<Item> | IsFusion(fused, TwoLegs(dense, sparse), EqualWeights(w), RRF_K)
      ensures |fused| >= 2 && fused[0].0 == one && fused[1].0 == both
    {
      TieOpensTheRanking(w, RRF_K, fused);
    }
  }
}
