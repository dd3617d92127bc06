/** Embedding any number of texts through a provider that takes a bounded batch a request and may
    answer a batch in any order. */
module Embedding {
  import opened Prelude

  const MAX_BATCH := 128

  datatype Float = Finite(value: real) | NaN | Infinite

  type Vector = seq<Float>

  datatype Entry = Entry(index: int, embedding: Vector)

  // What comes back from one POST; `data` is None when it is not a list.
  datatype Response = Unreachable | Answered(statusCode: int, data: Option<seq<Entry>>)

  datatype EmbeddingError = RequestFailed | BadStatus | NoEmbeddings | WrongCount | WrongDimension | NonFinite | AllZero

  // The provider's answer to the n-th request of a call.
  type Provider = (nat, seq<string>) -> Response

  // ---------- checks ----------

  predicate SaneVector(v: Vector, dimension: nat) {
    && |v| == dimension
    && (forall i :: 0 <= i < |v| ==> v[i].Finite?)
    && (exists i :: 0 <= i < |v| && v[i] != Finite(0.0))
  }

  function Sane(v: Vector, dimension: nat): (r: Result<Vector, EmbeddingError>)
    ensures r.Success? <==> && |v| == dimension
                            && (forall i :: 0 <= i < |v| ==> v[i].Finite?)
                            && (exists i :: 0 <= i < |v| && v[i] != Finite(0.0))
    ensures r.Success? <==> SaneVector(v, dimension)
    ensures r.Success? ==> r.value == v
    ensures r == Failure(WrongDimension) <==> |v| != dimension
    ensures r == Failure(NonFinite) <==> |v| == dimension && exists i :: 0 <= i < |v| && !v[i].Finite?
  {
    if |v| != dimension then Failure(WrongDimension)
    else if exists i :: 0 <= i < |v| && !v[i].Finite? then Failure(NonFinite)
    else if forall i :: 0 <= i < |v| ==> v[i] == Finite(0.0) then Failure(AllZero)
    else Success(v)
  }

  /** `_post`: the entries, when there is one for each text. */
  function Checked(response: Response, count: nat): (r: Result<seq<Entry>, EmbeddingError>)
    ensures r.Success? <==> response.Answered? && response.statusCode == 200 && response.data.Some? && 0 < |response.data.value| == count
    ensures r.Success? ==> r.value == response.data.value
    ensures r.Success? <==> Complete(response, count)
  {
    match response
    case Unreachable => Failure(RequestFailed)
    case Answered(code, data) =>
      if code != 200 then Failure(BadStatus)
      else if data.None? || data.value == [] then Failure(NoEmbeddings)
      else if |data.value| != count then Failure(WrongCount)
      else Success(data.value)
  }

  predicate Complete(response: Response, count: nat) {
    && response.Answered? && response.statusCode == 200 && response.data.Some?
    && response.data.value != [] && |response.data.value| == count
  }

  // ---------- ordering a batch ----------

  function Insert(x: Entry, s: seq<Entry>): seq<Entry> {
    if s == [] || x.index <= s[0].index then [x] + s else [s[0]] + Insert(x, s[1..])
  }

  /** Python's stable `sorted` by index. */
  function ByIndex(s: seq<Entry>): (r: seq<Entry>)
    ensures |r| == |s|
  {
    if s == [] then []
    else
      InsertLength(s[0], ByIndex(s[1..]));
      Insert(s[0], ByIndex(s[1..]))
  }

  lemma InsertLength(x: Entry, s: seq<Entry>)
    ensures |Insert(x, s)| == |s| + 1
  {
  }

  ghost predicate Ascending(s: seq<Entry>) {
    forall i, j :: 0 <= i <= j < |s| ==> s[i].index <= s[j].index
  }

  function Where(s: seq<Entry>, index: int): seq<Entry> {
    if s == [] then [] else (if s[0].index == index then [s[0]] else []) + Where(s[1..], index)
  }

  lemma {:induction false} InsertMember(x: Entry, s: seq<Entry>)
    ensures multiset(Insert(x, s)) == multiset(s) + multiset{x}
  {
    if s != [] && x.index > s[0].index {
      InsertMember(x, s[1..]);
      assert s == [s[0]] + s[1..];
    }
  }

  lemma ConsAscends(x: Entry, t: seq<Entry>)
    requires Ascending(t) && forall e :: e in t ==> x.index <= e.index
    ensures Ascending([x] + t)
  {
  }

  lemma {:induction false} InsertAscends(x: Entry, s: seq<Entry>)
    requires Ascending(s)
    ensures Ascending(Insert(x, s))
  {
    if s == [] || x.index <= s[0].index {
      ConsAscends(x, s);
    } else {
      var t := Insert(x, s[1..]);
      InsertAscends(x, s[1..]);
      InsertMember(x, s[1..]);
      forall e | e in t ensures s[0].index <= e.index {
        assert e in multiset(t);
        assert e == x || e in s[1..];
      }
      ConsAscends(s[0], t);
    }
  }

  lemma WhereCons(x: Entry, s: seq<Entry>, index: int)
    ensures Where([x] + s, index) == Match(x, index) + Where(s, index)
  {
    assert ([x] + s)[1..] == s;
  }

  function Match(x: Entry, index: int): seq<Entry> {
    if x.index == index then [x] else []
  }

  lemma {:induction false} InsertWhere(x: Entry, s: seq<Entry>, index: int)
    ensures Where(Insert(x, s), index) == Match(x, index) + Where(s, index)
  {
    if s == [] || x.index <= s[0].index {
      WhereCons(x, s, index);
    } else {
      InsertWhere(x, s[1..], index);
      WhereCons(s[0], Insert(x, s[1..]), index);
      assert Match(s[0], index) + (Match(x, index) + Where(s[1..], index)) == Match(x, index) + (Match(s[0], index) + Where(s[1..], index));
    }
  }

  lemma {:induction false} ByIndexKeepsEntries(s: seq<Entry>)
    ensures multiset(ByIndex(s)) == multiset(s)
  {
    if s != [] {
      ByIndexKeepsEntries(s[1..]);
      InsertMember(s[0], ByIndex(s[1..]));
      assert s == [s[0]] + s[1..];
    }
  }

  lemma {:induction false} ByIndexAscends(s: seq<Entry>)
    ensures Ascending(ByIndex(s))
  {
    if s != [] {
      ByIndexAscends(s[1..]);
      InsertAscends(s[0], ByIndex(s[1..]));
    }
  }

  lemma {:induction false} ByIndexKeepsOrder(s: seq<Entry>, index: int)
    ensures Where(ByIndex(s), index) == Where(s, index)
  {
    if s != [] {
      ByIndexKeepsOrder(s[1..], index);
      InsertWhere(s[0], ByIndex(s[1..]), index);
    }
  }

  /** Sorting yields ascending indices, the same entries, and keeps the order of equal indices. */
  lemma ByIndexIsStableSort(s: seq<Entry>, index: int)
    ensures Ascending(ByIndex(s))
    ensures multiset(ByIndex(s)) == multiset(s)
    ensures Where(ByIndex(s), index) == Where(s, index)
  {
    ByIndexAscends(s);
    ByIndexKeepsEntries(s);
    ByIndexKeepsOrder(s, index);
  }

  lemma ByIndexMember(s: seq<Entry>, e: Entry)
    ensures e in ByIndex(s) <==> e in s
  {
    ByIndexIsStableSort(s, 0);
    assert e in s <==> e in multiset(s);
    assert e in ByIndex(s) <==> e in multiset(ByIndex(s));
  }

  /** The indices are 0, 1, ..., n - 1 in some order. */
  ghost predicate IsPermutation(s: seq<Entry>) {
    && (forall i :: 0 <= i < |s| ==> 0 <= s[i].index < |s|)
    && (forall i, j :: 0 <= i < j < |s| ==> s[i].index != s[j].index)
  }

  lemma {:induction false} CountAtMostOne(s: seq<Entry>, index: int)
    requires forall i, j :: 0 <= i < j < |s| ==> s[i].index != s[j].index
    ensures |Where(s, index)| <= 1
    ensures |Where(s, index)| == 1 ==> exists i :: 0 <= i < |s| && s[i].index == index
    decreases |s|
  {
    if s != [] {
      CountAtMostOne(s[1..], index);
      assert forall i :: 0 <= i < |s[1..]| ==> s[1..][i] == s[i + 1];
    }
  }

  lemma {:induction false} TwoCountTwice(s: seq<Entry>, i: nat, j: nat)
    requires i < j < |s| && s[i].index == s[j].index
    ensures |Where(s, s[i].index)| >= 2
    decreases |s|
  {
    if i > 0 {
      TwoCountTwice(s[1..], i - 1, j - 1);
    } else {
      OneCountsOnce(s[1..], j - 1);
    }
  }

  lemma {:induction false} OneCountsOnce(s: seq<Entry>, i: nat)
    requires i < |s|
    ensures |Where(s, s[i].index)| >= 1
    decreases |s|
  {
    if i > 0 {
      OneCountsOnce(s[1..], i - 1);
    }
  }

  /** When the indices are a permutation, position j of the sorted batch holds the entry with index j. */
  lemma SortedPermutation(s: seq<Entry>, j: nat)
    requires IsPermutation(s) && j < |s|
    ensures ByIndex(s)[j].index == j && ByIndex(s)[j] in s
  {
    var r := ByIndex(s);
    ByIndexIsStableSort(s, 0);
    forall a, b | 0 <= a < b < |r| ensures r[a].index < r[b].index {
      ByIndexIsStableSort(s, r[a].index);
      CountAtMostOne(s, r[a].index);
      if r[a].index == r[b].index {
        TwoCountTwice(r, a, b);
      }
    }
    forall a | 0 <= a < |r| ensures 0 <= r[a].index < |r| {
      assert r[a] in multiset(r);
    }
    assert r[j] in multiset(r);
    AtLeastPosition(r, j);
    AtMostPosition(r, j);
  }

  lemma {:induction false} AtLeastPosition(r: seq<Entry>, j: nat)
    requires j < |r| && r[0].index >= 0 && forall a, b :: 0 <= a < b < |r| ==> r[a].index < r[b].index
    ensures r[j].index >= j
  {
    if j > 0 {
      AtLeastPosition(r, j - 1);
    }
  }

  lemma {:induction false} AtMostPosition(r: seq<Entry>, j: nat)
    requires j < |r| && r[|r| - 1].index < |r| && forall a, b :: 0 <= a < b < |r| ==> r[a].index < r[b].index
    ensures r[j].index <= j
    decreases |r| - j
  {
    if j < |r| - 1 {
      AtMostPosition(r, j + 1);
    }
  }

  // ---------- batches ----------

  /** The least number of batches that holds `n` inputs. */
  function Posts(n: nat): (r: nat)
    ensures n <= r * 128 < n + 128
  {
    (n + MAX_BATCH - 1) / MAX_BATCH
  }

  function Batch(inputs: seq<string>, b: nat): seq<string>
    requires b < Posts(|inputs|)
  {
    var start := b * MAX_BATCH;
    if start + MAX_BATCH <= |inputs| then inputs[start..start + MAX_BATCH] else inputs[start..]
  }

  lemma BatchSlice(inputs: seq<string>, b: nat)
    requires b * MAX_BATCH < |inputs|
    ensures b < Posts(|inputs|)
    ensures var start := b * MAX_BATCH;
            Batch(inputs, b) == inputs[start..if start + MAX_BATCH <= |inputs| then start + MAX_BATCH else |inputs|]
  {
  }

  function Data(response: Response): seq<Entry> {
    if response.Answered? && response.data.Some? then response.data.value else []
  }

  ghost predicate AllSane(rows: seq<Entry>, dimension: nat) {
    forall e :: e in rows ==> SaneVector(e.embedding, dimension)
  }

  function Reply(inputs: seq<string>, provider: Provider, b: nat): Response
    requires b < Posts(|inputs|)
  {
    provider(b, Batch(inputs, b))
  }

  /** The answer to batch `b` is complete and every vector in it is sane. */
  ghost predicate Acceptable(inputs: seq<string>, provider: Provider, dimension: nat, b: nat)
    requires b < Posts(|inputs|)
  {
    Complete(Reply(inputs, provider, b), |Batch(inputs, b)|) && AllSane(Data(Reply(inputs, provider, b)), dimension)
  }

  /** The vectors of batch `b`, in order of index, stand at the positions of its inputs. */
  ghost predicate Placed(vectors: seq<Vector>, inputs: seq<string>, provider: Provider, b: nat)
    requires b < Posts(|inputs|)
  {
    var rows := ByIndex(Data(Reply(inputs, provider, b)));
    && |rows| == |Batch(inputs, b)|
    && b * MAX_BATCH + |rows| <= |vectors|
    && forall i :: 0 <= i < |rows| ==> vectors[b * MAX_BATCH + i] == rows[i].embedding
  }

  /** Appends the sane vectors of one batch, in order of index; fails at the first that is not. */
  method AppendBatch(vectors: seq<Vector>, rows: seq<Entry>, dimension: nat) returns (r: Result<seq<Vector>, EmbeddingError>)
    ensures r.Success? <==> AllSane(rows, dimension)
    ensures r.Success? ==> |r.value| == |vectors| + |rows| && vectors <= r.value
    ensures r.Success? ==> forall i :: 0 <= i < |rows| ==> r.value[|vectors| + i] == ByIndex(rows)[i].embedding
    ensures r.Failure? ==> exists i :: 0 <= i < |rows| && Sane(ByIndex(rows)[i].embedding, dimension) == Failure(r.error)
                                       && forall j :: 0 <= j < i ==> SaneVector(ByIndex(rows)[j].embedding, dimension)
  {
    forall e ensures e in ByIndex(rows) <==> e in rows {
      ByIndexMember(rows, e);
    }
    var sorted := ByIndex(rows);
    var out := vectors;
    var i := 0;
    while i < |sorted|
      invariant 0 <= i <= |sorted| && |out| == |vectors| + i && vectors <= out
      invariant forall j :: 0 <= j < i ==> SaneVector(sorted[j].embedding, dimension)
      invariant forall j :: 0 <= j < i ==> out[|vectors| + j] == sorted[j].embedding
    {
      var checked := Sane(sorted[i].embedding, dimension);
      if checked.Failure? {
        assert sorted[i] in sorted;
        return Failure(checked.error);
      }
      out := out + [checked.value];
      i := i + 1;
    }
    r := Success(out);
  }

  /** `posts` counts the requests made: all of them, or up to the first answer that is refused. */
  method Embed(inputs: seq<string>, provider: Provider, dimension: nat) returns (r: Result<seq<Vector>, EmbeddingError>, posts: nat)
    ensures posts <= Posts(|inputs|)
    ensures r.Success? ==> posts == Posts(|inputs|) && |r.value| == |inputs|
    ensures r.Success? ==> forall b :: 0 <= b < posts ==> Acceptable(inputs, provider, dimension, b) && Placed(r.value, inputs, provider, b)
    ensures r.Failure? ==> posts > 0 && !Acceptable(inputs, provider, dimension, posts - 1)
    ensures r.Failure? ==> forall b :: 0 <= b < posts - 1 ==> Acceptable(inputs, provider, dimension, b)
  {
    var vectors: seq<Vector> := [];
    posts := 0;
    var start := 0;
    while start < |inputs|
      invariant start == posts * MAX_BATCH && posts <= Posts(|inputs|)
      invariant Done(vectors, inputs, provider, dimension, posts)
    {
      var batch := inputs[start..if start + MAX_BATCH <= |inputs| then start + MAX_BATCH else |inputs|];
      BatchSlice(inputs, posts);
      var rows := Checked(provider(posts, batch), |batch|);
      posts := posts + 1;
      if rows.Failure? {
        return Failure(rows.error), posts;
      }
      ghost var before := vectors;
      var extended := AppendBatch(vectors, rows.value, dimension);
      if extended.Failure? {
        return Failure(extended.error), posts;
      }
      vectors := extended.value;
      start := start + MAX_BATCH;
      DoneStep(before, vectors, inputs, provider, dimension, posts - 1);
    }
    r := Success(vectors);
  }

  /** The first `posts` batches were accepted and their vectors are in place. */
  ghost predicate Done(vectors: seq<Vector>, inputs: seq<string>, provider: Provider, dimension: nat, posts: nat)
    requires posts <= Posts(|inputs|)
  {
    && |vectors| == (if posts * MAX_BATCH <= |inputs| then posts * MAX_BATCH else |inputs|)
    && forall b :: 0 <= b < posts ==> Acceptable(inputs, provider, dimension, b) && Placed(vectors, inputs, provider, b)
  }

  lemma DoneStep(before: seq<Vector>, vectors: seq<Vector>, inputs: seq<string>, provider: Provider, dimension: nat, b: nat)
    requires b < Posts(|inputs|) && Done(before, inputs, provider, dimension, b) && b * MAX_BATCH <= |inputs|
    requires Acceptable(inputs, provider, dimension, b) && before <= vectors
    requires var rows := ByIndex(Data(Reply(inputs, provider, b)));
             && |vectors| == |before| + |rows|
             && forall i :: 0 <= i < |rows| ==> vectors[|before| + i] == rows[i].embedding
    ensures Done(vectors, inputs, provider, dimension, b + 1)
  {
    assert Placed(vectors, inputs, provider, b);
    forall a | 0 <= a < b ensures Placed(vectors, inputs, provider, a) {
      PlacedStays(before, vectors, inputs, provider, a);
    }
  }

  lemma PlacedStays(vectors: seq<Vector>, longer: seq<Vector>, inputs: seq<string>, provider: Provider, b: nat)
    requires b < Posts(|inputs|) && Placed(vectors, inputs, provider, b) && vectors <= longer
    ensures Placed(longer, inputs, provider, b)
  {
  }

  /** Whatever order each batch is answered in, output i is the vector that was answered for input i. */
  lemma EmbedAligns(inputs: seq<string>, provider: Provider, dimension: nat, vectors: seq<Vector>, i: nat)
    requires |vectors| == |inputs|
    requires forall b :: 0 <= b < Posts(|inputs|) ==> Placed(vectors, inputs, provider, b)
    requires forall b :: 0 <= b < Posts(|inputs|) ==> IsPermutation(Data(Reply(inputs, provider, b)))
    requires i < |inputs|
    ensures var b, j := i / MAX_BATCH, i % MAX_BATCH;
            && b < Posts(|inputs|) && j < |Batch(inputs, b)| && Batch(inputs, b)[j] == inputs[i]
            && Entry(j, vectors[i]) in Data(Reply(inputs, provider, b))
  {
    var b, j := i / MAX_BATCH, i % MAX_BATCH;
    assert b < Posts(|inputs|) && b * MAX_BATCH + j == i;
    var data := Data(Reply(inputs, provider, b));
    assert Placed(vectors, inputs, provider, b);
    SortedPermutation(data, j);
    assert ByIndex(data)[j] == Entry(j, vectors[i]);
  }
}
