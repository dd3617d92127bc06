/** What the fused ranking means: it is unique, indifferent to the order of the legs and to the
    scale of the weights, tells how much leg truncation can cost, and puts chunks found by both
    legs first. */
module FusionTheorems {
  import opened Prelude
  import opened Fusion

  // ---------- uniqueness ----------

  /** A strictly sorted sequence is determined by its elements. */
  lemma {:induction false} SortedUnique<T(!new)>(a: seq<T>, b: seq<T>, less: (T, T) -> bool)
    requires forall x, y :: less(x, y) ==> !less(y, x)
    requires Sorted(a, less) && Sorted(b, less)
    requires forall x :: x in a <==> x in b
    ensures a == b
    decreases |a|
  {
    assert b != [] ==> b[0] in b && b[0] in a;
    if a != [] {
      assert a[0] in a && a[0] in b;
      assert b[0] in b && b[0] in a;
      var j :| 0 <= j < |b| && b[j] == a[0];
      var i :| 0 <= i < |a| && a[i] == b[0];
      assert a[0] == b[0];
      forall x ensures x in a[1..] <==> x in b[1..] {
        TailMember(a, less, x);
        TailMember(b, less, x);
      }
      SortedUnique(a[1..], b[1..], less);
      assert a == [a[0]] + a[1..] && b == [b[0]] + b[1..];
    }
  }

  lemma TailMember<T(!new)>(a: seq<T>, less: (T, T) -> bool, x: T)
    requires forall x, y :: less(x, y) ==> !less(y, x)
    requires a != [] && Sorted(a, less)
    ensures x in a[1..] <==> x in a && x != a[0]
  {
    if x in a && x != a[0] {
      var i :| 0 <= i < |a| && a[i] == x;
      assert a[1..][i - 1] == x;
    }
    if x in a[1..] {
      var i :| 0 <= i < |a[1..]| && a[1..][i] == x;
      assert a[i + 1] == x && less(a[0], a[i + 1]);
    }
  }

  lemma FusionIsUnique(r: seq<Item>, r': seq<Item>, legs: seq<Leg>, weights: Weights, k: int)
    requires IsFusion(r, legs, weights, k) && IsFusion(r', legs, weights, k)
    ensures r == r'
  {
    SortedUnique(r, r', Before);
  }

  // ---------- leg order ----------

  lemma {:induction false} ScoreAppend(legs: seq<Leg>, more: seq<Leg>, weights: Weights, k: int, id: int)
    ensures Score(legs + more, weights, k, id) == Score(legs, weights, k, id) + Score(more, weights, k, id)
    decreases |more|
  {
    if more == [] {
      assert legs + more == legs;
    } else {
      var n := |more| - 1;
      assert (legs + more)[..|legs + more| - 1] == legs + more[..n];
      ScoreAppend(legs, more[..n], weights, k, id);
    }
  }

  lemma SplitAt(legs: seq<Leg>, x: Leg) returns (a: seq<Leg>, b: seq<Leg>)
    requires x in legs
    ensures legs == a + ([x] + b) && multiset(a + b) == multiset(legs) - multiset{x}
  {
    var i :| 0 <= i < |legs| && legs[i] == x;
    a, b := legs[..i], legs[i + 1..];
    assert legs == a + ([x] + b);
    assert multiset(legs) == multiset(a) + (multiset{x} + multiset(b));
  }

  lemma ScoreWithout(a: seq<Leg>, x: Leg, b: seq<Leg>, weights: Weights, k: int, id: int)
    ensures Score(a + ([x] + b), weights, k, id) == Score(a + b, weights, k, id) + Contribution(x, weights, k, id)
  {
    ScoreAppend(a, [x] + b, weights, k, id);
    ScoreAppend([x], b, weights, k, id);
    ScoreAppend(a, b, weights, k, id);
    assert [x][..0] == [];
  }

  lemma {:induction false} ScoreOfPermutation(legs: seq<Leg>, legs': seq<Leg>, weights: Weights, k: int, id: int)
    requires multiset(legs) == multiset(legs')
    ensures Score(legs, weights, k, id) == Score(legs', weights, k, id)
    decreases |legs|
  {
    if legs == [] {
      assert |multiset(legs')| == |legs'|;
    } else {
      var n := |legs| - 1;
      var x := legs[n];
      assert legs == legs[..n] + [x];
      assert x in multiset(legs');
      var a, b := SplitAt(legs', x);
      ScoreOfPermutation(legs[..n], a + b, weights, k, id);
      ScoreWithout(a, x, b, weights, k, id);
    }
  }

  /** The legs' dict order does not matter. */
  lemma LegOrderIsIrrelevant(r: seq<Item>, legs: seq<Leg>, legs': seq<Leg>, weights: Weights, k: int)
    requires multiset(legs) == multiset(legs') && IsFusion(r, legs, weights, k)
    ensures IsFusion(r, legs', weights, k)
  {
    assert forall leg :: leg in legs <==> leg in multiset(legs);
    assert forall leg :: leg in legs' <==> leg in multiset(legs');
    forall x ensures x in r <==> Listed(legs', weights, x.0) && x.1 == Score(legs', weights, k, x.0) {
      ScoreOfPermutation(legs, legs', weights, k, x.0);
    }
  }

  // ---------- scaling ----------

  function Scaled(weights: Weights, c: real): Weights {
    map name | name in weights :: c * weights[name]
  }

  function Scale(y: Item, c: real): Item {
    (y.0, c * y.1)
  }

  function ScaledItems(r: seq<Item>, c: real): (s: seq<Item>)
    ensures |s| == |r| && forall i :: 0 <= i < |r| ==> s[i] == Scale(r[i], c)
  {
    seq(|r|, i requires 0 <= i < |r| => Scale(r[i], c))
  }

  lemma TermScales(w: real, c: real, k: int, rank: nat)
    ensures Term(c * w, k, rank) == c * Term(w, k, rank)
  {
    if k + rank != 0 {
      var d := (k + rank) as real;
      QuotientScales(w, c, d);
    }
  }

  lemma QuotientScales(w: real, c: real, d: real)
    requires d != 0.0
    ensures (c * w) / d == c * (w / d)
  {
    var q := w / d;
    assert q * d == w;
    assert (c * q) * d == c * (q * d);
    assert ((c * q) * d) / d == c * q;
  }

  lemma Distributes(c: real, a: real, b: real)
    ensures c * (a + b) == c * a + c * b
  {
  }

  function TermAt(hit: bool, w: real, k: int, rank: nat): real {
    if hit then Term(w, k, rank) else 0.0
  }

  lemma TermAtScales(hit: bool, w: real, c: real, k: int, rank: nat)
    ensures TermAt(hit, c * w, k, rank) == c * TermAt(hit, w, k, rank)
  {
    TermScales(w, c, k, rank);
  }

  lemma {:induction false} LegScoreScales(ranked: seq<int>, w: real, w': real, c: real, k: int, id: int)
    requires w' == c * w
    ensures LegScore(ranked, w', k, id) == c * LegScore(ranked, w, k, id)
    decreases |ranked|
  {
    if ranked != [] {
      var n := |ranked|;
      var hit := ranked[n - 1] == id;
      LegScoreScales(ranked[..n - 1], w, w', c, k, id);
      TermAtScales(hit, w, c, k, n);
      Distributes(c, LegScore(ranked[..n - 1], w, k, id), TermAt(hit, w, k, n));
      assert LegScore(ranked, w', k, id) == LegScore(ranked[..n - 1], w', k, id) + TermAt(hit, w', k, n);
      assert LegScore(ranked, w, k, id) == LegScore(ranked[..n - 1], w, k, id) + TermAt(hit, w, k, n);
    }
  }

  lemma ContributionScales(leg: Leg, weights: Weights, c: real, k: int, id: int)
    requires c > 0.0
    ensures Contribution(leg, Scaled(weights, c), k, id) == c * Contribution(leg, weights, k, id)
  {
    var w, w' := WeightOf(weights, leg.name), WeightOf(Scaled(weights, c), leg.name);
    ScaledWeight(weights, c, leg.name);
    LegScoreScales(leg.ranked, w, w', c, k, id);
    assert c * 0.0 == 0.0;
  }

  lemma {:induction false} ScoreScales(legs: seq<Leg>, weights: Weights, c: real, k: int, id: int)
    requires c > 0.0
    ensures Score(legs, Scaled(weights, c), k, id) == c * Score(legs, weights, k, id)
    decreases |legs|
  {
    if legs != [] {
      var n := |legs| - 1;
      ScoreScales(legs[..n], weights, c, k, id);
      ContributionScales(legs[n], weights, c, k, id);
      Distributes(c, Score(legs[..n], weights, k, id), Contribution(legs[n], weights, k, id));
    }
  }

  lemma ScaledWeight(weights: Weights, c: real, name: string)
    requires c > 0.0
    ensures WeightOf(Scaled(weights, c), name) == c * WeightOf(weights, name)
    ensures WeightOf(Scaled(weights, c), name) == 0.0 <==> WeightOf(weights, name) == 0.0
  {
  }

  lemma ListedScales(legs: seq<Leg>, weights: Weights, c: real, id: int)
    requires c > 0.0
    ensures Listed(legs, Scaled(weights, c), id) <==> Listed(legs, weights, id)
  {
    forall leg | leg in legs
      ensures WeightOf(Scaled(weights, c), leg.name) == 0.0 <==> WeightOf(weights, leg.name) == 0.0
    {
      ScaledWeight(weights, c, leg.name);
    }
  }

  lemma BeforeScales(a: Item, b: Item, c: real)
    requires c > 0.0
    ensures Before(Scale(a, c), Scale(b, c)) <==> Before(a, b)
  {
  }

  lemma ScaledMember(r: seq<Item>, c: real, x: Item)
    requires c > 0.0
    ensures x in ScaledItems(r, c) <==> exists y :: y in r && Scale(y, c) == x
  {
    var s := ScaledItems(r, c);
    if x in s {
      var i :| 0 <= i < |s| && s[i] == x;
      assert r[i] in r;
    }
    if y :| y in r && Scale(y, c) == x {
      var i :| 0 <= i < |r| && r[i] == y;
      assert s[i] == Scale(y, c);
    }
  }

  /** Multiplying every weight by the same positive factor multiplies the scores and keeps the order. */
  lemma WeightScaleIsIrrelevant(r: seq<Item>, legs: seq<Leg>, weights: Weights, c: real, k: int)
    requires c > 0.0 && IsFusion(r, legs, weights, k)
    ensures IsFusion(ScaledItems(r, c), legs, Scaled(weights, c), k)
  {
    var s := ScaledItems(r, c);
    forall i, j | 0 <= i < j < |s| ensures Before(s[i], s[j]) {
      BeforeScales(r[i], r[j], c);
    }
    forall x ensures x in s <==> Listed(legs, Scaled(weights, c), x.0) && x.1 == Score(legs, Scaled(weights, c), k, x.0) {
      ScaledEntry(r, legs, weights, c, k, x);
    }
  }

  lemma ScaledEntry(r: seq<Item>, legs: seq<Leg>, weights: Weights, c: real, k: int, x: Item)
    requires c > 0.0 && IsFusion(r, legs, weights, k)
    ensures x in ScaledItems(r, c) <==> Listed(legs, Scaled(weights, c), x.0) && x.1 == Score(legs, Scaled(weights, c), k, x.0)
  {
    var y := (x.0, Score(legs, weights, k, x.0));
    assert Score(legs, Scaled(weights, c), k, x.0) == Scale(y, c).1 by {
      ScoreScales(legs, weights, c, k, x.0);
    }
    ListedScales(legs, weights, c, x.0);
    ScaledMember(r, c, x);
    assert y in r <==> Listed(legs, weights, x.0);
    assert forall z :: z in r && z.0 == x.0 ==> z == y;
    assert forall z :: z in r && Scale(z, c) == x ==> z.0 == x.0 && z == y;
    assert x in ScaledItems(r, c) <==> y in r && Scale(y, c) == x;
  }

  // ---------- truncation ----------

  ghost predicate NoRepeats(s: seq<int>) {
    forall i, j :: 0 <= i < j < |s| ==> s[i] != s[j]
  }

  function Cut(ranked: seq<int>, limit: nat): seq<int> {
    if |ranked| <= limit then ranked else ranked[..limit]
  }

  function CutLegs(legs: seq<Leg>, limit: nat): (r: seq<Leg>)
    ensures |r| == |legs| && forall i :: 0 <= i < |legs| ==> r[i] == Leg(legs[i].name, Cut(legs[i].ranked, limit))
  {
    seq(|legs|, i requires 0 <= i < |legs| => Leg(legs[i].name, Cut(legs[i].ranked, limit)))
  }

  function TotalWeight(legs: seq<Leg>, weights: Weights): real {
    if legs == [] then 0.0 else TotalWeight(legs[..|legs| - 1], weights) + WeightOf(weights, legs[|legs| - 1].name)
  }

  lemma QuotientShrinks(w: real, a: real, b: real)
    requires w >= 0.0 && 0.0 < a <= b
    ensures 0.0 <= w / b <= w / a
  {
    var q, r := w / a, w / b;
    assert q * a == w && r * b == w;
    assert r < 0.0 ==> r * b < 0.0;
    assert q < 0.0 ==> q * a < 0.0;
    assert r > q ==> r * b > q * b;
    assert q * b >= q * a;
  }

  /** In a leg without repeats an id scores one term, at its own rank. */
  lemma {:induction false} LegScoreAt(ranked: seq<int>, w: real, k: int, i: nat)
    requires NoRepeats(ranked) && i < |ranked|
    ensures LegScore(ranked, w, k, ranked[i]) == Term(w, k, i + 1)
    decreases |ranked|
  {
    var n := |ranked| - 1;
    if i == n {
      LegScoreAbsent(ranked[..n], w, k, ranked[i]);
    } else {
      LegScoreAt(ranked[..n], w, k, i);
    }
  }

  lemma {:induction false} LegScoreAbsent(ranked: seq<int>, w: real, k: int, id: int)
    requires id !in ranked
    ensures LegScore(ranked, w, k, id) == 0.0
    decreases |ranked|
  {
    if ranked != [] {
      LegScoreAbsent(ranked[..|ranked| - 1], w, k, id);
    }
  }

  lemma CutCosts(ranked: seq<int>, limit: nat, w: real, k: nat, id: int)
    requires NoRepeats(ranked) && w >= 0.0
    ensures 0.0 <= LegScore(ranked, w, k, id) - LegScore(Cut(ranked, limit), w, k, id) <= Term(w, k, limit + 1)
  {
    QuotientShrinks(w, (k + limit + 1) as real, (k + limit + 1) as real);
    if id !in ranked {
      LegScoreAbsent(ranked, w, k, id);
      LegScoreAbsent(Cut(ranked, limit), w, k, id);
    } else {
      var i :| 0 <= i < |ranked| && ranked[i] == id;
      LegScoreAt(ranked, w, k, i);
      if i < limit {
        assert Cut(ranked, limit)[i] == id;
        LegScoreAt(Cut(ranked, limit), w, k, i);
      } else {
        LegScoreAbsent(Cut(ranked, limit), w, k, id);
        QuotientShrinks(w, (k + limit + 1) as real, (k + i + 1) as real);
      }
    }
  }

  ghost predicate Proper(legs: seq<Leg>, weights: Weights) {
    forall leg :: leg in legs ==> NoRepeats(leg.ranked) && WeightOf(weights, leg.name) >= 0.0
  }

  lemma CutContribution(leg: Leg, weights: Weights, limit: nat, k: nat, id: int)
    requires NoRepeats(leg.ranked) && WeightOf(weights, leg.name) >= 0.0
    ensures 0.0 <= Contribution(leg, weights, k, id) - Contribution(Leg(leg.name, Cut(leg.ranked, limit)), weights, k, id)
                <= Term(WeightOf(weights, leg.name), k, limit + 1)
  {
    var w, d := WeightOf(weights, leg.name), (k + limit + 1) as real;
    CutCosts(leg.ranked, limit, w, k, id);
    QuotientShrinks(w, d, d);
  }

  lemma CutScore(legs: seq<Leg>, weights: Weights, limit: nat, k: nat, id: int)
    requires legs != []
    ensures var n := |legs| - 1;
            Score(CutLegs(legs, limit), weights, k, id) ==
            Score(CutLegs(legs[..n], limit), weights, k, id)
            + Contribution(Leg(legs[n].name, Cut(legs[n].ranked, limit)), weights, k, id)
  {
    var n := |legs| - 1;
    assert CutLegs(legs, limit)[..n] == CutLegs(legs[..n], limit);
  }

  /** The sum of what each leg can lose: one term just past the cut. */
  function Losses(legs: seq<Leg>, weights: Weights, limit: nat, k: nat): real {
    if legs == [] then 0.0
    else Losses(legs[..|legs| - 1], weights, limit, k) + Term(WeightOf(weights, legs[|legs| - 1].name), k, limit + 1)
  }

  lemma {:induction false} CutLoses(legs: seq<Leg>, weights: Weights, limit: nat, k: nat, id: int)
    requires Proper(legs, weights)
    ensures 0.0 <= Score(legs, weights, k, id) - Score(CutLegs(legs, limit), weights, k, id) <= Losses(legs, weights, limit, k)
    decreases |legs|
  {
    if legs != [] {
      var n := |legs| - 1;
      assert legs[n] in legs;
      CutLoses(legs[..n], weights, limit, k, id);
      CutScore(legs, weights, limit, k, id);
      CutContribution(legs[n], weights, limit, k, id);
    }
  }

  lemma {:induction false} LossesTotal(legs: seq<Leg>, weights: Weights, limit: nat, k: nat)
    ensures Losses(legs, weights, limit, k) == TotalWeight(legs, weights) / ((k + limit + 1) as real)
    decreases |legs|
  {
    if legs != [] {
      var n := |legs| - 1;
      LossesTotal(legs[..n], weights, limit, k);
      SumOfQuotients(TotalWeight(legs[..n], weights), WeightOf(weights, legs[n].name), (k + limit + 1) as real);
    }
  }

  /** Cutting every leg to `limit` lowers a score by at most (sum of the weights) / (k + limit + 1). */
  lemma TruncationError(legs: seq<Leg>, weights: Weights, limit: nat, k: nat, id: int)
    requires Proper(legs, weights)
    ensures 0.0 <= Score(legs, weights, k, id) - Score(CutLegs(legs, limit), weights, k, id)
                <= TotalWeight(legs, weights) / ((k + limit + 1) as real)
  {
    CutLoses(legs, weights, limit, k, id);
    LossesTotal(legs, weights, limit, k);
  }

  lemma SumOfQuotients(a: real, b: real, d: real)
    requires d > 0.0
    ensures a / d + b / d == (a + b) / d
  {
    var p, q := a / d, b / d;
    assert p * d == a && q * d == b;
    assert (p + q) * d == a + b;
    assert ((p + q) * d) / d == p + q;
  }

  /** Pairs further apart than the bound keep their order in the full fusion; in particular a hit that
      scores above the bound outranks every chunk that the cut legs do not list at all. */
  lemma TruncationKeepsClearOrder(legs: seq<Leg>, weights: Weights, limit: nat, k: nat, a: int, b: int)
    requires Proper(legs, weights)
    requires var cut := CutLegs(legs, limit);
             Score(cut, weights, k, a) - Score(cut, weights, k, b) > TotalWeight(legs, weights) / ((k + limit + 1) as real)
    ensures Score(legs, weights, k, a) > Score(legs, weights, k, b)
  {
    TruncationError(legs, weights, limit, k, a);
    TruncationError(legs, weights, limit, k, b);
  }

  lemma {:induction false} UnlistedScoresZero(legs: seq<Leg>, weights: Weights, k: int, id: int)
    requires !Listed(legs, weights, id)
    ensures Score(legs, weights, k, id) == 0.0
    decreases |legs|
  {
    if legs != [] {
      var leg := legs[|legs| - 1];
      assert leg in legs;
      assert !Listed(legs[..|legs| - 1], weights, id);
      UnlistedScoresZero(legs[..|legs| - 1], weights, k, id);
      if WeightOf(weights, leg.name) != 0.0 {
        LegScoreAbsent(leg.ranked, WeightOf(weights, leg.name), k, id);
      }
    }
  }

  lemma ClearHitOutranksTheCutOff(legs: seq<Leg>, weights: Weights, limit: nat, k: nat, hit: int, off: int)
    requires Proper(legs, weights)
    requires Score(CutLegs(legs, limit), weights, k, hit) > TotalWeight(legs, weights) / ((k + limit + 1) as real)
    requires !Listed(CutLegs(legs, limit), weights, off)
    ensures Score(legs, weights, k, hit) > Score(legs, weights, k, off)
  {
    UnlistedScoresZero(CutLegs(legs, limit), weights, k, off);
    TruncationKeepsClearOrder(legs, weights, limit, k, hit, off);
  }

  // ---------- both legs first ----------

  function TwoLegs(dense: seq<int>, sparse: seq<int>): seq<Leg> {
    [Leg("dense", dense), Leg("sparse", sparse)]
  }

  function EqualWeights(w: real): Weights {
    map["dense" := w, "sparse" := w]
  }

  lemma TwoLegScore(dense: seq<int>, sparse: seq<int>, w: real, k: int, id: int)
    requires w > 0.0
    ensures Score(TwoLegs(dense, sparse), EqualWeights(w), k, id) == LegScore(dense, w, k, id) + LegScore(sparse, w, k, id)
  {
    var legs := TwoLegs(dense, sparse);
    assert legs[..1] == [legs[0]] && legs[..1][..0] == [];
    assert Score(legs[..1], EqualWeights(w), k, id) == Contribution(legs[0], EqualWeights(w), k, id);
  }

  lemma LegScoreBounds(ranked: seq<int>, w: real, k: nat, id: int)
    requires NoRepeats(ranked) && |ranked| <= k + 1 && w > 0.0 && id in ranked
    ensures Term(w, k, k + 1) <= LegScore(ranked, w, k, id) <= Term(w, k, 1)
  {
    var i :| 0 <= i < |ranked| && ranked[i] == id;
    LegScoreAt(ranked, w, k, i);
    QuotientShrinks(w, (k + 1) as real, (k + i + 1) as real);
    QuotientShrinks(w, (k + i + 1) as real, (k + k + 1) as real);
  }

  /** Two terms at the far end of legs of length k + 1 beat one term at the head of a leg. */
  lemma TwoFarBeatOneNear(w: real, k: nat)
    requires w > 0.0
    ensures 2.0 * Term(w, k, k + 1) > Term(w, k, 1)
  {
    var far, near := Term(w, k, k + 1), Term(w, k, 1);
    var d := (k + 1) as real;
    assert near * d == w && far * (2.0 * d - 1.0) == w;
    assert far <= 0.0 ==> far * (2.0 * d - 1.0) <= 0.0;
    assert far * (2.0 * d - 1.0) == (2.0 * far) * d - far;
    assert 2.0 * far <= near ==> (2.0 * far) * d <= near * d;
  }

  /** With equal positive weights and legs of at most k + 1 ids, a chunk found by both legs comes
      before every chunk found by one. */
  lemma BothLegsFirst(dense: seq<int>, sparse: seq<int>, w: real, k: nat, both: int, one: int)
    requires w > 0.0 && NoRepeats(dense) && NoRepeats(sparse) && |dense| <= k + 1 && |sparse| <= k + 1
    requires both in dense && both in sparse
    requires (one in dense) != (one in sparse)
    ensures Score(TwoLegs(dense, sparse), EqualWeights(w), k, both) > Score(TwoLegs(dense, sparse), EqualWeights(w), k, one)
  {
    TwoLegScore(dense, sparse, w, k, both);
    TwoLegScore(dense, sparse, w, k, one);
    LegScoreBounds(dense, w, k, both);
    LegScoreBounds(sparse, w, k, both);
    TwoFarBeatOneNear(w, k);
    if one in dense {
      LegScoreBounds(dense, w, k, one);
      LegScoreAbsent(sparse, w, k, one);
    } else {
      LegScoreBounds(sparse, w, k, one);
      LegScoreAbsent(dense, w, k, one);
    }
  }

  function TieDense(k: nat): (r: seq<int>)
    ensures |r| == k + 2 && NoRepeats(r) && forall i :: 0 <= i < k + 2 ==> r[i] == i
  {
    seq(k + 2, i => i)
  }

  function TieSparse(k: nat): (r: seq<int>)
    ensures |r| == k + 2 && NoRepeats(r) && r[k + 1] == k + 1 && 0 !in r
  {
    seq(k + 2, i => if i == k + 1 then k + 1 else i + k + 2)
  }

  /** The length bound is exact: at k + 2 ids there are legs where a chunk at the end of both legs ties
      with the head of one, and the smaller id of the single one puts it first. */
  lemma OneLongerAndTheyTie(w: real, k: nat) returns (dense: seq<int>, sparse: seq<int>, both: int, one: int)
    requires w > 0.0
    ensures NoRepeats(dense) && NoRepeats(sparse) && |dense| == |sparse| == k + 2
    ensures both in dense && both in sparse && one in dense && one !in sparse
    ensures Before((one, Score(TwoLegs(dense, sparse), EqualWeights(w), k, one)),
                   (both, Score(TwoLegs(dense, sparse), EqualWeights(w), k, both)))
  {
    dense, sparse := TieDense(k), TieSparse(k);
    both, one := k + 1, 0;
    assert dense[k + 1] == both && sparse[k + 1] == both && dense[0] == one;
    TwoLegScore(dense, sparse, w, k, both);
    TwoLegScore(dense, sparse, w, k, one);
    LegScoreAt(dense, w, k, k + 1);
    LegScoreAt(sparse, w, k, k + 1);
    LegScoreAt(dense, w, k, 0);
    LegScoreAbsent(sparse, w, k, one);
    TwoFartherTieOneNear(w, k);
  }

  /** What any id scores in those legs: no more than a head of a leg, and as much only for the two heads and
      for the chunk at the end of both. */
  lemma TieScores(w: real, k: nat, id: int)
    requires w > 0.0
    ensures var near, score := Term(w, k, 1), Score(TwoLegs(TieDense(k), TieSparse(k)), EqualWeights(w), k, id);
            && score <= near
            && (id == 0 || id == k + 1 ==> score == near)
            && (score == near ==> id == 0 || id >= k + 1)
  {
    var dense, sparse := TieDense(k), TieSparse(k);
    TwoLegScore(dense, sparse, w, k, id);
    TwoFartherTieOneNear(w, k);
    var near := Term(w, k, 1);
    assert dense[k + 1] == k + 1 && sparse[k + 1] == k + 1 && dense[0] == 0;
    if id == k + 1 {
      LegScoreAt(dense, w, k, k + 1);
      LegScoreAt(sparse, w, k, k + 1);
    } else if 0 <= id <= k {
      assert dense[id] == id;
      LegScoreAt(dense, w, k, id);
      LegScoreAbsent(sparse, w, k, id);
      LaterIsLess(w, k, id);
    } else {
      LegScoreAbsent(dense, w, k, id);
      if id in sparse {
        var i :| 0 <= i < |sparse| && sparse[i] == id;
        LegScoreAt(sparse, w, k, i);
        LaterIsLess(w, k, i);
      } else {
        LegScoreAbsent(sparse, w, k, id);
        LaterIsLess(w, k, 1);
        QuotientShrinks(w, (k + 1) as real, (k + 1) as real);
      }
    }
  }

  lemma LaterIsLess(w: real, k: nat, i: nat)
    requires w > 0.0
    ensures 0.0 < Term(w, k, i + 1) <= Term(w, k, 1)
    ensures i > 0 ==> Term(w, k, i + 1) < Term(w, k, 1)
  {
    var far, near := Term(w, k, i + 1), Term(w, k, 1);
    var a, b := (k + 1) as real, (k + i + 1) as real;
    assert near * a == w && far * b == w;
    assert far <= 0.0 ==> far * b <= 0.0;
    QuotientShrinks(w, a, b);
    assert far == near ==> near * (b - a) == 0.0;
    assert i > 0 && near > 0.0 ==> near * (b - a) > 0.0;
  }

  /** So they open the fused ranking: the chunk of one leg first, the chunk of both second. */
  lemma TieOpensTheRanking(w: real, k: nat, fused: seq<Item>)
    requires w > 0.0 && IsFusion(fused, TwoLegs(TieDense(k), TieSparse(k)), EqualWeights(w), k)
    ensures |fused| >= 2 && fused[0].0 == 0 && fused[1].0 == k + 1
  {
    var legs, weights := TwoLegs(TieDense(k), TieSparse(k)), EqualWeights(w);
    var one, both := (0, Score(legs, weights, k, 0)), (k + 1, Score(legs, weights, k, k + 1));
    assert legs[0].ranked[0] == 0 && legs[0].ranked[k + 1] == k + 1;
    assert legs[0] in legs && Listed(legs, weights, 0) && Listed(legs, weights, k + 1);
    assert one in fused && both in fused;
    var i :| 0 <= i < |fused| && fused[i] == one;
    var j :| 0 <= j < |fused| && fused[j] == both;
    TieScores(w, k, 0);
    TieScores(w, k, k + 1);
    assert Before(one, both) && !Before(both, one);
    assert i < j;
    NothingBetween(w, k, fused, 0, i, j);
    NothingBetween(w, k, fused, 1, i, j);
  }

  lemma NothingBetween(w: real, k: nat, fused: seq<Item>, n: nat, i: nat, j: nat)
    requires w > 0.0 && IsFusion(fused, TwoLegs(TieDense(k), TieSparse(k)), EqualWeights(w), k)
    requires i < j < |fused| && fused[i].0 == 0 && fused[j].0 == k + 1 && n < |fused|
    ensures n < j ==> n == i
  {
    assert fused[n] in fused && fused[i] in fused && fused[j] in fused;
    TieScores(w, k, fused[n].0);
    TieScores(w, k, fused[j].0);
    if n < j {
      assert Before(fused[n], fused[j]);
      assert fused[n].0 == 0;
      assert n < i ==> Before(fused[n], fused[i]);
      assert i < n ==> Before(fused[i], fused[n]);
    }
  }

  lemma TwoFartherTieOneNear(w: real, k: nat)
    ensures 2.0 * Term(w, k, k + 2) == Term(w, k, 1)
  {
    var far, near, d := Term(w, k, k + 2), Term(w, k, 1), (k + 1) as real;
    assert far * (2.0 * d) == w && near * d == w;
    assert (2.0 * far) * d == near * d;
    assert ((2.0 * far) * d) / d == 2.0 * far && (near * d) / d == near;
  }
}
