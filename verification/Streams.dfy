/** Hashing an object while reading it in bounded pieces. */
module Streams {
  import opened Prelude

  type byte = bv8

  const CHUNK_SIZE := 65536

  /** An incremental digest: a state, how it absorbs bytes, and its final value. */
  datatype Digest<!S, !D> = Digest(start: S, update: (S, seq<byte>) -> S, finish: S -> D)

  /** Absorbing in pieces is absorbing the whole. */
  ghost predicate Incremental<S(!new), D>(d: Digest<S, D>) {
    && (forall s :: d.update(s, []) == s)
    && (forall s, a, b :: d.update(d.update(s, a), b) == d.update(s, a + b))
  }

  function Whole<S, D>(d: Digest<S, D>, bytes: seq<byte>): D {
    d.finish(d.update(d.start, bytes))
  }

  datatype TooLarge = TooLarge

  /** A streaming response body. A read returns between one byte and what was asked for, nothing at the end. */
  class Body {
    const content: seq<byte>
    var position: nat

    ghost predicate Valid()
      reads this
    {
      position <= |content|
    }

    constructor (content: seq<byte>)
      ensures Valid() && this.content == content && position == 0
    {
      this.content := content;
      position := 0;
    }

    method Read(most: nat) returns (chunk: seq<byte>)
      requires Valid() && most > 0
      modifies this
      ensures Valid() && |chunk| <= most
      ensures position == old(position) + |chunk|
      ensures chunk == content[old(position)..position]
      ensures chunk == [] <==> old(position) == |content|
    {
      var left := |content| - position;
      if left == 0 {
        return [];
      }
      var size :| 1 <= size <= most && size <= left;
      chunk := content[position..position + size];
      position := position + size;
    }
  }

  predicate Accepts(maxBytes: Option<int>, length: nat) {
    maxBytes.None? || length == 0 || length <= maxBytes.value
  }

  /** The digest of all bytes exactly when there are not too many; otherwise reading stops within one chunk
      of the limit, and only accepted bytes were hashed. */
  method StreamAndHash<S(!new), D>(body: Body, d: Digest<S, D>, maxBytes: Option<int>) returns (r: Result<D, TooLarge>)
    requires body.Valid() && Incremental(d)
    modifies body
    ensures body.Valid()
    ensures var rest := body.content[old(body.position)..];
            && (r.Success? <==> maxBytes.None? || |rest| == 0 || |rest| <= maxBytes.value)
            && (r.Success? ==> r.value == Whole(d, rest) && body.position == |body.content|)
    ensures r.Failure? ==>
              var got := body.position - old(body.position);
              maxBytes.value < got <= (if maxBytes.value > 0 then maxBytes.value else 0) + 65536
  {
    ghost var from := body.position;
    var state := d.start;
    var bytesRead := 0;
    while true
      invariant body.Valid() && from + bytesRead == body.position
      invariant state == d.update(d.start, body.content[from..body.position])
      invariant Accepts(maxBytes, bytesRead)
      decreases |body.content| - body.position
    {
      ghost var before := body.position;
      var chunk := body.Read(CHUNK_SIZE);
      if chunk == [] {
        assert body.content[from..body.position] == body.content[from..];
        break;
      }
      bytesRead := bytesRead + |chunk|;
      if maxBytes.Some? && bytesRead > maxBytes.value {
        return Failure(TooLarge);
      }
      assert body.content[from..before] + chunk == body.content[from..body.position];
      state := d.update(state, chunk);
    }
    r := Success(d.finish(state));
  }
}
