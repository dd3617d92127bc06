/** What a search answers, said without its algorithm: places in the two legs, the caller's two weights,
    and the columns of the chunks shown. */
module SearchMeaning {
  import opened Prelude
  import opened Fusion
  import opened FusionTheorems
  import opened HybridSearch

  /** The 1-based place of an id in a ranking, 0 when it is not there. */
  function Place(ranked: seq<int>, id: int): (r: nat)
    ensures r == 0 <==> id !in ranked
    ensures r > 0 ==> r <= |ranked| && ranked[r - 1] == id
  {
    if ranked == [] then 0
    else if ranked[|ranked| - 1] == id then |ranked|
    else Place(ranked[..|ranked| - 1], id)
  }

  function Share(ranked: seq<int>, w: real, k: nat, id: int): real {
    if Place(ranked, id) == 0 then 0.0 else w / ((k + Place(ranked, id)) as real)
  }

  /** The dense weight over k plus the dense place, and the sparse weight over k plus the sparse place. */
  function Worth(dense: seq<int>, sparse: seq<int>, weights: RRFWeights, k: nat, id: int): real {
    Share(dense, weights.dense, k, id) + Share(sparse, weights.sparse, k, id)
  }

  predicate Better(dense: seq<int>, sparse: seq<int>, weights: RRFWeights, k: nat, a: int, b: int) {
    var x, y := Worth(dense, sparse, weights, k, a), Worth(dense, sparse, weights, k, b);
    x > y || (x == y && a < b)
  }

  /** Every id of a leg that is not weighted zero, once, best first. */
  ghost predicate IsRanking(ids: seq<int>, dense: seq<int>, sparse: seq<int>, weights: RRFWeights, k: nat) {
    && (forall i, j :: 0 <= i < j < |ids| ==> Better(dense, sparse, weights, k, ids[i], ids[j]))
    && (forall id :: id in ids <==> (weights.dense != 0.0 && id in dense) || (weights.sparse != 0.0 && id in sparse))
  }

  predicate InOrg(db: Snapshot, orgId: string, id: int) {
    id in db.chunks && orgId in db.orgs && db.chunks[id].orgPk == db.orgs[orgId]
  }

  /** The ids of the org's chunks, in their order. */
  function OfOrg(db: Snapshot, orgId: string, ids: seq<int>): seq<int> {
    if ids == [] then []
    else OfOrg(db, orgId, ids[..|ids| - 1]) + (if InOrg(db, orgId, ids[|ids| - 1]) then [ids[|ids| - 1]] else [])
  }

  /** A hit shows the columns of its chunk. */
  predicate Shows(db: Snapshot, h: ChunkHit) {
    && h.chunkId in db.chunks
    && var c := db.chunks[h.chunkId];
       && h.content == c.content && h.documentId == c.documentId && h.page == c.page
       && h.charStart == c.charStart && h.charEnd == c.charEnd && h.elementType == c.elementType
  }

  // ---------- scores ----------

  lemma LegScoreIsShare(ranked: seq<int>, w: real, k: nat, id: int)
    requires NoRepeats(ranked)
    ensures LegScore(ranked, w, k, id) == Share(ranked, w, k, id)
  {
    var r := Place(ranked, id);
    if r == 0 {
      LegScoreAbsent(ranked, w, k, id);
    } else {
      LegScoreAt(ranked, w, k, r - 1);
    }
  }

  lemma ZeroShare(ranked: seq<int>, k: nat, id: int)
    ensures Share(ranked, 0.0, k, id) == 0.0
  {
  }

  lemma LegWeights(weights: RRFWeights)
    ensures WeightOf(WeightMap(weights), "dense") == weights.dense
    ensures WeightOf(WeightMap(weights), "sparse") == weights.sparse
  {
    assert |"dense"| != |"sparse"|;
  }

  lemma ContributionIsShare(name: string, ranked: seq<int>, weights: RRFWeights, k: nat, id: int)
    requires NoRepeats(ranked)
    ensures Contribution(Leg(name, ranked), WeightMap(weights), k, id) == Share(ranked, WeightOf(WeightMap(weights), name), k, id)
  {
    LegScoreIsShare(ranked, WeightOf(WeightMap(weights), name), k, id);
    ZeroShare(ranked, k, id);
  }

  lemma ScoreIsWorth(dense: seq<int>, sparse: seq<int>, weights: RRFWeights, k: nat, id: int)
    requires NoRepeats(dense) && NoRepeats(sparse)
    ensures Score(TwoLegs(dense, sparse), WeightMap(weights), k, id) == Worth(dense, sparse, weights, k, id)
  {
    var legs := TwoLegs(dense, sparse);
    assert legs[..1] == [legs[0]] && legs[..1][..0] == [];
    assert Score(legs[..1], WeightMap(weights), k, id) == Contribution(legs[0], WeightMap(weights), k, id);
    LegWeights(weights);
    ContributionIsShare("dense", dense, weights, k, id);
    ContributionIsShare("sparse", sparse, weights, k, id);
  }

  lemma ListedMeans(dense: seq<int>, sparse: seq<int>, weights: RRFWeights, id: int)
    ensures Listed(TwoLegs(dense, sparse), WeightMap(weights), id) <==>
            (weights.dense != 0.0 && id in dense) || (weights.sparse != 0.0 && id in sparse)
  {
    var legs := TwoLegs(dense, sparse);
    LegWeights(weights);
    assert legs[0] in legs && legs[1] in legs;
    assert forall leg :: leg in legs ==> leg == legs[0] || leg == legs[1];
  }

  // ---------- from the fused list to the ranking ----------

  function Firsts(items: seq<Item>): (r: seq<int>)
    ensures |r| == |items| && forall i :: 0 <= i < |r| ==> r[i] == items[i].0
  {
    seq(|items|, i requires 0 <= i < |items| => items[i].0)
  }

  lemma FusionIsRanking(fused: seq<Item>, dense: seq<int>, sparse: seq<int>, weights: RRFWeights, k: nat)
    requires NoRepeats(dense) && NoRepeats(sparse) && IsFusion(fused, TwoLegs(dense, sparse), WeightMap(weights), k)
    ensures IsRanking(Firsts(fused), dense, sparse, weights, k)
    ensures forall i :: 0 <= i < |fused| ==> fused[i].1 == Worth(dense, sparse, weights, k, fused[i].0)
  {
    var legs, ids := TwoLegs(dense, sparse), Firsts(fused);
    forall i | 0 <= i < |fused| ensures fused[i].1 == Worth(dense, sparse, weights, k, fused[i].0) {
      assert fused[i] in fused;
      ScoreIsWorth(dense, sparse, weights, k, fused[i].0);
    }
    forall i, j | 0 <= i < j < |ids| ensures Better(dense, sparse, weights, k, ids[i], ids[j]) {
      assert Before(fused[i], fused[j]);
    }
    forall id ensures id in ids <==> (weights.dense != 0.0 && id in dense) || (weights.sparse != 0.0 && id in sparse) {
      ListedMeans(dense, sparse, weights, id);
      var x := (id, Score(legs, WeightMap(weights), k, id));
      if x in fused {
        var i :| 0 <= i < |fused| && fused[i] == x;
        assert ids[i] == id;
      }
      if id in ids {
        var i :| 0 <= i < |ids| && ids[i] == id;
        assert fused[i] in fused;
      }
    }
  }

  lemma {:induction false} HitsAreOfOrg(db: Snapshot, orgId: string, items: seq<Item>)
    ensures var hits, ids := VisibleHits(db, Some(orgId), items), OfOrg(db, orgId, Firsts(items));
            && |hits| == |ids|
            && forall n :: 0 <= n < |hits| ==> hits[n].chunkId == ids[n] && Shows(db, hits[n]) && (hits[n].chunkId, hits[n].score) in items
    decreases |items|
  {
    if items != [] {
      var n := |items| - 1;
      HitsAreOfOrg(db, orgId, items[..n]);
      assert Firsts(items)[..n] == Firsts(items[..n]);
      assert items == items[..n] + [items[n]];
    }
  }

  lemma PrefixOfFirsts(items: seq<Item>, n: int)
    ensures Firsts(UpTo(items, n)) == UpTo(Firsts(items), n)
  {
  }

  lemma NoDivisionByZero(legs: seq<Leg>, weights: Weights, k: nat)
    ensures !DividesByZero(legs, weights, k)
  {
  }

  /** A search that succeeds, for k of zero or more: there is one ranking of the candidates that the two legs
      fetched, by the caller's own weights; the hits are the org's chunks among its first top_k, in its order,
      each with its worth and its chunk's columns. */
  ghost predicate HitsFollow(hits: seq<ChunkHit>, db: Snapshot, orgId: string, ids: seq<int>, topK: int,
                             dense: seq<int>, sparse: seq<int>, weights: RRFWeights, k: nat) {
    var shown := OfOrg(db, orgId, UpTo(ids, topK));
    && IsRanking(ids, dense, sparse, weights, k)
    && |hits| == |shown|
    && forall n :: 0 <= n < |hits| ==>
         hits[n].chunkId == shown[n] && Shows(db, hits[n]) && hits[n].score == Worth(dense, sparse, weights, k, shown[n])
  }

  lemma FusedHitsFollow(later: Snapshot, orgId: string, topK: int, d: seq<int>, s: seq<int>, weights: RRFWeights, k: nat, fused: seq<Item>)
    requires NoRepeats(d) && NoRepeats(s) && IsFusion(fused, TwoLegs(d, s), WeightMap(weights), k)
    ensures HitsFollow(VisibleHits(later, Some(orgId), UpTo(fused, topK)), later, orgId, Firsts(fused), topK, d, s, weights, k)
  {
    var hits := VisibleHits(later, Some(orgId), UpTo(fused, topK));
    FusionIsRanking(fused, d, s, weights, k);
    HitsAreOfOrg(later, orgId, UpTo(fused, topK));
    PrefixOfFirsts(fused, topK);
    forall n | 0 <= n < |hits| ensures hits[n].score == Worth(d, s, weights, k, hits[n].chunkId) {
      var x := (hits[n].chunkId, hits[n].score);
      assert x in UpTo(fused, topK);
      var i :| 0 <= i < |UpTo(fused, topK)| && UpTo(fused, topK)[i] == x;
      assert fused[i] == x;
    }
  }

  /** The failures of a search with k of zero or more. */
  lemma SearchFailsExactly(now: Snapshot, later: Snapshot, scope: Setting, dense: seq<int>, sparse: seq<int>, embedding: seq<real>,
                           topK: int, weights: RRFWeights, k: nat, legK: Option<int>, r: Answer)
    requires SearchAnswers(now, later, scope, dense, sparse, embedding, topK, weights, k, legK, r)
    ensures r == Failure(EmptyEmbedding) <==> embedding == []
    ensures r == Failure(NegativeLimit) <==> embedding != [] && legK.Some? && legK.value < 0
    ensures r.Success? <==> embedding != [] && (legK.None? || legK.value >= 0)
  {
    if FetchK(topK, legK) >= 0 {
      NoDivisionByZero(CutLegs(TwoLegs(dense, sparse), FetchK(topK, legK)), WeightMap(weights), k);
    }
  }

  lemma CutKeepsApart(ranked: seq<int>, limit: nat)
    requires NoRepeats(ranked)
    ensures NoRepeats(Cut(ranked, limit))
  {
  }

  lemma SearchMeans(now: Snapshot, later: Snapshot, orgId: string, document: Option<string>, dense: seq<int>, sparse: seq<int>,
                    embedding: seq<real>, topK: int, weights: RRFWeights, k: nat, legK: Option<int>, r: Answer) returns (ids: seq<int>)
    requires Candidates(now, Some(orgId), document, dense, sparse)
    requires SearchAnswers(now, later, Some(orgId), dense, sparse, embedding, topK, weights, k, legK, r) && r.Success?
    ensures var n := if legK.Some? then legK.value else FetchK(topK, None);
            n >= 0 && HitsFollow(r.value, later, orgId, ids, topK, Cut(dense, n), Cut(sparse, n), weights, k)
  {
    var limit := FetchK(topK, legK);
    SearchFailsExactly(now, later, Some(orgId), dense, sparse, embedding, topK, weights, k, legK, r);
    var d, s := Cut(dense, limit), Cut(sparse, limit);
    CutKeepsApart(dense, limit);
    CutKeepsApart(sparse, limit);
    var legs := CutLegs(TwoLegs(dense, sparse), limit);
    assert legs == TwoLegs(d, s);
    var fused :| IsFusion(fused, legs, WeightMap(weights), k) && r == Success(VisibleHits(later, Some(orgId), UpTo(fused, topK)));
    ids := Firsts(fused);
    FusedHitsFollow(later, orgId, topK, d, s, weights, k, fused);
  }

  // ---------- whose weight is whose ----------

  lemma RankingIsUnique(a: seq<int>, b: seq<int>, dense: seq<int>, sparse: seq<int>, weights: RRFWeights, k: nat)
    requires IsRanking(a, dense, sparse, weights, k) && IsRanking(b, dense, sparse, weights, k)
    ensures a == b
  {
    var less := (x: int, y: int) => Better(dense, sparse, weights, k, x, y);
    assert Sorted(a, less) && Sorted(b, less);
    SortedUnique(a, b, less);
  }

  lemma PlaceAt(ranked: seq<int>, i: nat)
    requires NoRepeats(ranked) && i < |ranked|
    ensures Place(ranked, ranked[i]) == i + 1
  {
    assert ranked[i] in ranked;
    var r := Place(ranked, ranked[i]);
    assert ranked[r - 1] == ranked[i];
  }

  lemma EarlierIsWorthMore(ranked: seq<int>, w: real, k: nat, i: nat, j: nat)
    requires NoRepeats(ranked) && i < j < |ranked| && w > 0.0
    ensures Share(ranked, w, k, ranked[i]) > Share(ranked, w, k, ranked[j])
  {
    PlaceAt(ranked, i);
    PlaceAt(ranked, j);
    CloserIsMore(w, (k + i + 1) as real, (k + j + 1) as real);
  }

  lemma CloserIsMore(w: real, a: real, b: real)
    requires w > 0.0 && 0.0 < a < b
    ensures w / a > w / b
  {
    var q, r := w / a, w / b;
    assert q * a == w && r * b == w;
    assert r <= 0.0 ==> r * b <= 0.0;
    assert q <= r ==> q * a <= r * a;
    assert r > 0.0 ==> r * a < r * b;
  }

  /** With the sparse weight zero the ranking is the dense leg itself. */
  lemma DenseOnly(ids: seq<int>, dense: seq<int>, sparse: seq<int>, w: real, k: nat)
    requires w > 0.0 && NoRepeats(dense) && IsRanking(ids, dense, sparse, RRFWeights(w, 0.0), k)
    ensures ids == dense
  {
    forall i, j | 0 <= i < j < |dense| ensures Better(dense, sparse, RRFWeights(w, 0.0), k, dense[i], dense[j]) {
      EarlierIsWorthMore(dense, w, k, i, j);
      ZeroShare(sparse, k, dense[i]);
      ZeroShare(sparse, k, dense[j]);
    }
    RankingIsUnique(ids, dense, dense, sparse, RRFWeights(w, 0.0), k);
  }

  /** With the dense weight zero it is the sparse leg. */
  lemma SparseOnly(ids: seq<int>, dense: seq<int>, sparse: seq<int>, w: real, k: nat)
    requires w > 0.0 && NoRepeats(sparse) && IsRanking(ids, dense, sparse, RRFWeights(0.0, w), k)
    ensures ids == sparse
  {
    forall i, j | 0 <= i < j < |sparse| ensures Better(dense, sparse, RRFWeights(0.0, w), k, sparse[i], sparse[j]) {
      EarlierIsWorthMore(sparse, w, k, i, j);
      ZeroShare(dense, k, sparse[i]);
      ZeroShare(dense, k, sparse[j]);
    }
    RankingIsUnique(ids, sparse, dense, sparse, RRFWeights(0.0, w), k);
  }

  /** Of two chunks at the same place, each found by one leg, the one of the heavier leg comes first. */
  lemma HeavierLegFirst(ids: seq<int>, dense: seq<int>, sparse: seq<int>, weights: RRFWeights, k: nat, i: nat, a: nat, b: nat)
    requires NoRepeats(dense) && NoRepeats(sparse) && IsRanking(ids, dense, sparse, weights, k)
    requires i < |dense| && i < |sparse| && dense[i] !in sparse && sparse[i] !in dense
    requires a < |ids| && b < |ids| && ids[a] == dense[i] && ids[b] == sparse[i]
    ensures weights.dense > weights.sparse ==> a < b
    ensures weights.dense < weights.sparse ==> b < a
  {
    assert sparse[i] in sparse;
    PlaceAt(dense, i);
    PlaceAt(sparse, i);
    var d := (k + i + 1) as real;
    MoreOverSame(weights.dense, weights.sparse, d);
    assert Worth(dense, sparse, weights, k, ids[a]) == weights.dense / d;
    assert Worth(dense, sparse, weights, k, ids[b]) == weights.sparse / d;
    assert a < b ==> Better(dense, sparse, weights, k, ids[a], ids[b]);
    assert b < a ==> Better(dense, sparse, weights, k, ids[b], ids[a]);
  }

  lemma MoreOverSame(v: real, w: real, d: real)
    requires d > 0.0
    ensures v > w <==> v / d > w / d
  {
    var p, q := v / d, w / d;
    assert p * d == v && q * d == w;
    assert p > q ==> (p - q) * d > 0.0;
    assert p <= q ==> (q - p) * d >= 0.0;
  }

  /** For any k: the search divides by zero exactly when -k is a place in a leg that is not weighted zero. */
  lemma SearchDividesExactly(now: Snapshot, later: Snapshot, scope: Setting, dense: seq<int>, sparse: seq<int>, embedding: seq<real>,
                             topK: int, weights: RRFWeights, k: int, legK: Option<int>, r: Answer)
    requires SearchAnswers(now, later, scope, dense, sparse, embedding, topK, weights, k, legK, r)
    ensures var n := if legK.Some? then legK.value else FetchK(topK, None);
            r == Failure(DivisionByZero) <==>
              && embedding != [] && n >= 0
              && ((weights.dense != 0.0 && 0 < -k <= |Cut(dense, n)|) || (weights.sparse != 0.0 && 0 < -k <= |Cut(sparse, n)|))
  {
    var n := FetchK(topK, legK);
    if embedding != [] && n >= 0 {
      var legs := CutLegs(TwoLegs(dense, sparse), n);
      LegWeights(weights);
      assert legs == [Leg("dense", Cut(dense, n)), Leg("sparse", Cut(sparse, n))];
      assert legs[0] in legs && legs[1] in legs;
      assert forall leg :: leg in legs ==> leg == legs[0] || leg == legs[1];
    }
  }

  function HitIds(hits: seq<ChunkHit>): (r: seq<int>)
    ensures |r| == |hits| && forall i :: 0 <= i < |r| ==> r[i] == hits[i].chunkId
  {
    seq(|hits|, i requires 0 <= i < |hits| => hits[i].chunkId)
  }

  /** With one leg switched off, the hits are the org's chunks among the first top_k of what the other leg
      fetched, in that leg's own order. */
  lemma OneLegSearch(now: Snapshot, later: Snapshot, orgId: string, document: Option<string>, dense: seq<int>, sparse: seq<int>,
                     embedding: seq<real>, topK: int, weights: RRFWeights, k: nat, legK: Option<int>, r: Answer)
    requires Candidates(now, Some(orgId), document, dense, sparse)
    requires SearchAnswers(now, later, Some(orgId), dense, sparse, embedding, topK, weights, k, legK, r) && r.Success?
    ensures var n := if legK.Some? then legK.value else FetchK(topK, None);
            && n >= 0
            && (weights.sparse == 0.0 < weights.dense ==> HitIds(r.value) == OfOrg(later, orgId, UpTo(Cut(dense, n), topK)))
            && (weights.dense == 0.0 < weights.sparse ==> HitIds(r.value) == OfOrg(later, orgId, UpTo(Cut(sparse, n), topK)))
  {
    var n := FetchK(topK, legK);
    var ids := SearchMeans(now, later, orgId, document, dense, sparse, embedding, topK, weights, k, legK, r);
    var d, s := Cut(dense, n), Cut(sparse, n);
    if weights.sparse == 0.0 < weights.dense {
      DenseOnly(ids, d, s, weights.dense, k);
    } else if weights.dense == 0.0 < weights.sparse {
      SparseOnly(ids, d, s, weights.sparse, k);
    }
    assert HitIds(r.value) == OfOrg(later, orgId, UpTo(ids, topK));
  }
}
