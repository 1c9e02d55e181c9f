/**
 Bounded process output: of a stream read in chunks of any size, the beginning and the end.
 */
module BoundedOutput {
  import opened Wrappers

  type byte = x: int | 0 <= x < 256

  function Concat(chunks: seq<seq<byte>>): seq<byte> {
    if chunks == [] then [] else chunks[0] + Concat(chunks[1..])
  }

  /** The last `n` of `s`, or all of it. */
  function Last(s: seq<byte>, n: nat): seq<byte> {
    if |s| <= n then s else s[|s| - n..]
  }

  function First(s: seq<byte>, n: nat): seq<byte> {
    if |s| <= n then s else s[..n]
  }

  /** What a stream of `all` bytes keeps within `limit`: all of it if it fits, otherwise the first
      half, rounded up, and the last half of the limit. */
  function Retained(all: seq<byte>, limit: nat): (r: seq<byte>)
    ensures |r| == if |all| <= limit then |all| else limit
    ensures |all| <= limit ==> r == all
  {
    if |all| <= limit then all else all[..(limit + 1) / 2] + all[|all| - limit / 2..]
  }

  lemma {:induction false} ConcatSnoc(chunks: seq<seq<byte>>, chunk: seq<byte>)
    ensures Concat(chunks + [chunk]) == Concat(chunks) + chunk
  {
    if chunks == [] {
      assert chunks + [chunk] == [chunk];
      assert Concat([chunk]) == chunk + Concat([chunk][1..]);
    } else {
      assert (chunks + [chunk])[1..] == chunks[1..] + [chunk];
      ConcatSnoc(chunks[1..], chunk);
      ConcatAssociates(chunks[0], Concat(chunks[1..]), chunk);
    }
  }

  lemma ConcatNext(chunks: seq<seq<byte>>, i: nat)
    requires i < |chunks|
    ensures Concat(chunks[..i + 1]) == Concat(chunks[..i]) + chunks[i]
  {
    assert chunks[..i + 1] == chunks[..i] + [chunks[i]];
    ConcatSnoc(chunks[..i], chunks[i]);
  }

  /** The end of the rest is the end of (its end so far and what follows). */
  lemma LastGrows(s: seq<byte>, more: seq<byte>, n: nat)
    ensures Last(Last(s, n) + more, n) == Last(s + more, n)
  {
  }

  /** What one chunk adds to the head, and leaves for the tail. */
  lemma ChunkDivides(all: seq<byte>, chunk: seq<byte>, n: nat)
    ensures var room := if |all| < n then n - |all| else 0;
            && First(all + chunk, n) == First(all, n) + First(chunk, room)
            && Rest(all + chunk, n) == Rest(all, n) + Rest(chunk, room)
  {
  }

  function Rest(s: seq<byte>, n: nat): seq<byte> {
    if |s| <= n then [] else s[n..]
  }

  lemma HeadAndTail(all: seq<byte>, limit: nat)
    ensures First(all, (limit + 1) / 2) + Last(Rest(all, (limit + 1) / 2), limit / 2) == Retained(all, limit)
  {
  }

  /** The end of the rest, kept as more of it comes. */
  method ExtendTail(tail: seq<byte>, remainder: seq<byte>, tailLimit: nat, ghost rest: seq<byte>) returns (tail': seq<byte>)
    requires tail == Last(rest, tailLimit)
    ensures tail' == Last(rest + remainder, tailLimit)
  {
    LastGrows(rest, remainder, tailLimit);
    if tailLimit > 0 && remainder != [] {
      tail' := tail + remainder;
      if |tail'| > tailLimit {
        tail' := tail'[|tail'| - tailLimit..];
      }
    } else {
      tail' := tail;
      assert remainder == [] ==> rest + remainder == rest;
    }
  }

  /** One turn of the reading loop, `all` being what came before. */
  method TakeChunk(head: seq<byte>, tail: seq<byte>, chunk: seq<byte>, headLimit: nat, tailLimit: nat, ghost all: seq<byte>)
    returns (head': seq<byte>, tail': seq<byte>)
    requires head == First(all, headLimit) && tail == Last(Rest(all, headLimit), tailLimit)
    ensures head' == First(all + chunk, headLimit) && tail' == Last(Rest(all + chunk, headLimit), tailLimit)
  {
    ChunkDivides(all, chunk, headLimit);
    var available := if headLimit > |head| then headLimit - |head| else 0;
    head' := head + First(chunk, available);
    tail' := ExtendTail(tail, Rest(chunk, available), tailLimit, Rest(all, headLimit));
  }

  /** `read_bounded_output` over the chunks that the stream yields until its end; none stands for a
      missing stream. However the bytes are chunked, the same ones are kept and the same number is
      reported dropped. */
  method ReadBoundedOutput(stream: Option<seq<seq<byte>>>, limit: nat) returns (retained: seq<byte>, dropped: nat)
    ensures stream.None? ==> retained == [] && dropped == 0
    ensures stream.Some? ==>
              var all := Concat(stream.value);
              retained == Retained(all, limit) && dropped == |all| - |retained|
  {
    if stream.None? { return [], 0; }
    var chunks := stream.value;
    var headLimit := (limit + 1) / 2;
    var tailLimit := limit - headLimit;
    var head, tail, total, i := [], [], 0, 0;
    while i < |chunks|
      invariant i <= |chunks|
      invariant total == |Concat(chunks[..i])|
      invariant head == First(Concat(chunks[..i]), headLimit)
      invariant tail == Last(Rest(Concat(chunks[..i]), headLimit), tailLimit)
    {
      ConcatNext(chunks, i);
      total := total + |chunks[i]|;
      head, tail := TakeChunk(head, tail, chunks[i], headLimit, tailLimit, Concat(chunks[..i]));
      i := i + 1;
    }
    assert chunks[..i] == chunks;
    HeadAndTail(Concat(chunks), limit);
    retained := head + tail;
    dropped := total - |retained|;
  }
}
