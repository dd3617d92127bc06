/** Reciprocal Rank Fusion. Scores are mathematical reals; the rounding of floats is abstracted. */
module Fusion {
  import opened Prelude

  // One entry of the `legs` dict, in insertion order.
  datatype Leg = Leg(name: string, ranked: seq<int>)

  type Weights = map<string, real>
  type Item = (int, real)

  const RRF_K := 60

  function WeightOf(weights: Weights, name: string): real {
    if name in weights then weights[name] else 0.0
  }

  // ---------- the specification ----------

  /** weight / (k + rank); the division by zero is reported by DividesByZero, not here. */
  function Term(w: real, k: int, rank: nat): real {
    if k + rank == 0 then 0.0 else w / ((k + rank) as real)
  }

  /** What one leg adds to `id`: a term for each 1-based rank at which it lists it. */
  function LegScore(ranked: seq<int>, w: real, k: int, id: int): real {
    if ranked == [] then 0.0
    else
      var n := |ranked|;
      LegScore(ranked[..n - 1], w, k, id) + (if ranked[n - 1] == id then Term(w, k, n) else 0.0)
  }

  function Contribution(leg: Leg, weights: Weights, k: int, id: int): real {
    var w := WeightOf(weights, leg.name);
    if w == 0.0 then 0.0 else LegScore(leg.ranked, w, k, id)
  }

  function Score(legs: seq<Leg>, weights: Weights, k: int, id: int): real {
    if legs == [] then 0.0
    else Score(legs[..|legs| - 1], weights, k, id) + Contribution(legs[|legs| - 1], weights, k, id)
  }

  /** The ids listed by the legs that are not weighted zero. */
  ghost predicate Listed(legs: seq<Leg>, weights: Weights, id: int) {
    exists leg :: leg in legs && WeightOf(weights, leg.name) != 0.0 && id in leg.ranked
  }

  predicate DividesByZero(legs: seq<Leg>, weights: Weights, k: int) {
    exists leg :: leg in legs && WeightOf(weights, leg.name) != 0.0 && 0 < -k <= |leg.ranked|
  }

  /** Best first: higher score, then lower id. */
  predicate Before(a: Item, b: Item) {
    a.1 > b.1 || (a.1 == b.1 && a.0 < b.0)
  }

  ghost predicate Sorted<T(!new)>(s: seq<T>, less: (T, T) -> bool) {
    forall i, j :: 0 <= i < j < |s| ==> less(s[i], s[j])
  }

  /** `r` lists each listed id exactly once with its score, strictly ordered. */
  ghost predicate IsFusion(r: seq<Item>, legs: seq<Leg>, weights: Weights, k: int) {
    && Sorted(r, Before)
    && (forall x :: x in r <==> Listed(legs, weights, x.0) && x.1 == Score(legs, weights, k, x.0))
  }

  // ---------- sorting ----------

  function InsertItem(x: Item, s: seq<Item>): seq<Item> {
    if s == [] || Before(x, s[0]) then [x] + s else [s[0]] + InsertItem(x, s[1..])
  }

  lemma {:induction false} InsertItemSorted(x: Item, s: seq<Item>)
    requires Sorted(s, Before) && forall y :: y in s ==> y.0 != x.0
    ensures Sorted(InsertItem(x, s), Before)
    ensures forall y :: y in InsertItem(x, s) <==> y == x || y in s
  {
    var r := InsertItem(x, s);
    if s == [] {
    } else if Before(x, s[0]) {
      assert forall i :: 0 < i < |s| ==> Before(s[0], s[i]);
    } else {
      assert s[0] in s;
      assert Sorted(s[1..], Before);
      InsertItemSorted(x, s[1..]);
      var t := InsertItem(x, s[1..]);
      assert forall y :: y in s <==> y == s[0] || y in s[1..];
      forall j | 0 < j < |r| ensures Before(r[0], r[j]) {
        assert r[j] == t[j - 1] && t[j - 1] in t;
        if r[j] != x {
          var i :| 0 <= i < |s[1..]| && s[1..][i] == r[j];
          assert s[1..][i] == s[i + 1];
        }
      }
    }
  }

  /** Dictionary items come in an order of their own. */
  method AnyOf(ids: set<int>) returns (id: int)
    requires ids != {}
    ensures id in ids
  {
    assert (forall x :: x !in ids) ==> ids == {};
    id :| id in ids;
  }

  /** `sorted(scores.items(), key=(-score, id))`. */
  method SortedItems(scores: map<int, real>) returns (r: seq<Item>)
    ensures Sorted(r, Before)
    ensures forall x :: x in r <==> x.0 in scores && x.1 == scores[x.0]
  {
    r := [];
    var todo := scores.Keys;
    while todo != {}
      invariant todo <= scores.Keys
      invariant Sorted(r, Before)
      invariant forall x :: x in r <==> x.0 in scores && x.0 !in todo && x.1 == scores[x.0]
      decreases todo
    {
      var id := AnyOf(todo);
      var x := (id, scores[id]);
      InsertItemSorted(x, r);
      r := InsertItem(x, r);
      todo := todo - {id};
    }
  }

  // ---------- the algorithm ----------

  function Get(scores: map<int, real>, id: int): real {
    if id in scores then scores[id] else 0.0
  }

  lemma LegScorePrefix(ranked: seq<int>, j: nat, w: real, k: int, id: int)
    requires j < |ranked|
    ensures LegScore(ranked[..j + 1], w, k, id) ==
            LegScore(ranked[..j], w, k, id) + (if ranked[j] == id then Term(w, k, j + 1) else 0.0)
  {
    assert ranked[..j + 1][..j] == ranked[..j];
  }

  lemma ScorePrefix(legs: seq<Leg>, i: nat, weights: Weights, k: int, id: int)
    requires i < |legs|
    ensures Score(legs[..i + 1], weights, k, id) == Score(legs[..i], weights, k, id) + Contribution(legs[i], weights, k, id)
  {
    assert legs[..i + 1][..i] == legs[..i];
  }

  /** Adds one leg's terms into the scores; None is the division by zero. */
  method AddLeg(scores: map<int, real>, ranked: seq<int>, w: real, k: int) returns (r: Option<map<int, real>>)
    ensures r.None? <==> 0 < -k <= |ranked|
    ensures r.Some? ==> forall id :: Get(r.value, id) == Get(scores, id) + LegScore(ranked, w, k, id)
    ensures r.Some? ==> forall id :: id in r.value <==> id in scores || id in ranked
  {
    var acc := scores;
    var j := 0;
    while j < |ranked|
      invariant 0 <= j <= |ranked|
      invariant forall id :: Get(acc, id) == Get(scores, id) + LegScore(ranked[..j], w, k, id)
      invariant forall id :: id in acc <==> id in scores || id in ranked[..j]
      invariant !(0 < -k <= j)
    {
      var rank := j + 1;
      if k + rank == 0 {
        return None;
      }
      var id := ranked[j];
      ghost var before := acc;
      acc := acc[id := Get(acc, id) + w / ((k + rank) as real)];
      forall other ensures Get(acc, other) == Get(scores, other) + LegScore(ranked[..j + 1], w, k, other) {
        LegScorePrefix(ranked, j, w, k, other);
        assert Get(before, other) == Get(scores, other) + LegScore(ranked[..j], w, k, other);
      }
      assert ranked[..j + 1] == ranked[..j] + [id];
      j := j + 1;
    }
    assert ranked[..j] == ranked;
    r := Some(acc);
  }

  method ReciprocalRankFusion(legs: seq<Leg>, weights: Weights, k: int) returns (r: Option<seq<Item>>)
    ensures r.None? <==> DividesByZero(legs, weights, k)
    ensures r.Some? ==> IsFusion(r.value, legs, weights, k)
  {
    var scores: map<int, real> := map[];
    var i := 0;
    while i < |legs|
      invariant 0 <= i <= |legs|
      invariant forall id :: Get(scores, id) == Score(legs[..i], weights, k, id)
      invariant forall id :: id in scores <==> Listed(legs[..i], weights, id)
      invariant !DividesByZero(legs[..i], weights, k)
    {
      var leg := legs[i];
      var w := WeightOf(weights, leg.name);
      assert legs[..i + 1] == legs[..i] + [leg];
      ListedGrows(legs[..i], leg, weights);
      forall id ensures Score(legs[..i + 1], weights, k, id) == Score(legs[..i], weights, k, id) + Contribution(leg, weights, k, id) {
        ScorePrefix(legs, i, weights, k, id);
      }
      if w != 0.0 {
        var added := AddLeg(scores, leg.ranked, w, k);
        if added.None? {
          assert leg in legs;
          return None;
        }
        ghost var before := scores;
        scores := added.value;
        forall id ensures Get(scores, id) == Score(legs[..i + 1], weights, k, id) {
          assert Get(before, id) == Score(legs[..i], weights, k, id);
        }
      }
      i := i + 1;
    }
    assert legs[..i] == legs;
    var items := SortedItems(scores);
    forall x ensures x in items <==> Listed(legs, weights, x.0) && x.1 == Score(legs, weights, k, x.0) {
      assert Get(scores, x.0) == Score(legs[..i], weights, k, x.0);
    }
    r := Some(items);
  }

  lemma ListedGrows(legs: seq<Leg>, leg: Leg, weights: Weights)
    ensures forall id :: Listed(legs + [leg], weights, id) <==>
              Listed(legs, weights, id) || (WeightOf(weights, leg.name) != 0.0 && id in leg.ranked)
  {
    forall id ensures Listed(legs + [leg], weights, id) <==>
                      Listed(legs, weights, id) || (WeightOf(weights, leg.name) != 0.0 && id in leg.ranked)
    {
      assert leg in legs + [leg];
      if Listed(legs, weights, id) {
        var l :| l in legs && WeightOf(weights, l.name) != 0.0 && id in l.ranked;
        assert l in legs + [leg];
      }
    }
  }
}
