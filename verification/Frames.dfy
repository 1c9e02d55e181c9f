/**
 The length-prefixed frame stream that carries an archive over SSH: big-endian 32-bit
 lengths, payloads of at most 64 KiB, and a zero length that ends the stream.
 */
module Frames {
  import opened Wrappers

  type Byte = b: int | 0 <= b < 256

  const LIMIT := 65536

  // ---------------------------------------------------------------- lengths

  /** `struct.pack("!I", n)` */
  function Pack(n: nat): (s: seq<Byte>)
    requires n < 0x1_0000_0000
    ensures |s| == 4
  {
    [n / 0x100_0000, n / 0x1_0000 % 0x100, n / 0x100 % 0x100, n % 0x100]
  }

  /** `struct.unpack("!I", s)` */
  function Unpack(s: seq<Byte>): nat
    requires |s| == 4
  {
    var a: int, b: int, c: int := s[0], s[1], s[2];
    a * 0x100_0000 + b * 0x1_0000 + c * 0x100 + s[3]
  }

  lemma UnpackPack(n: nat)
    requires n < 0x1_0000_0000
    ensures Unpack(Pack(n)) == n
  {
    assert n / 0x1_0000 / 0x100 == n / 0x100_0000;
    assert n / 0x100 / 0x100 == n / 0x1_0000;
  }

  // ---------------------------------------------------------------- writing

  const END: seq<Byte> := [0, 0, 0, 0]

  function Frame(chunk: seq<Byte>): seq<Byte>
    requires |chunk| <= LIMIT
  {
    Pack(|chunk|) + chunk
  }

  /** `_ArchiveOutput.write`: the frames of one write. */
  function Framed(value: seq<Byte>): seq<Byte> {
    if value == [] then []
    else if |value| <= LIMIT then Frame(value)
    else Frame(value[..LIMIT]) + Framed(value[LIMIT..])
  }

  method ArchiveWrite(out: seq<Byte>, value: seq<Byte>) returns (out': seq<Byte>)
    ensures out' == out + Framed(value)
  {
    out' := out;
    var offset := 0;
    assert value[0..] == value;
    while offset < |value|
      invariant 0 <= offset
      invariant offset <= |value| ==> out' + Framed(value[offset..]) == out + Framed(value)
      invariant offset > |value| ==> out' == out + Framed(value)
    {
      var end := if offset + LIMIT <= |value| then offset + LIMIT else |value|;
      var chunk := value[offset..end];
      var rest := value[offset..];
      assert Framed(rest) == if end == |value| then Frame(chunk) else Frame(chunk) + Framed(value[end..]) by {
        if |rest| > LIMIT {
          assert rest[..LIMIT] == chunk && rest[LIMIT..] == value[end..];
        } else {
          assert rest == chunk;
          assert end == offset + LIMIT ==> value[end..] == [] && Frame(chunk) + [] == Frame(chunk);
        }
      }
      ConcatAssociates(out', Frame(chunk), Framed(value[end..]));
      out' := out' + Frame(chunk);
      offset := offset + LIMIT;
    }
    if offset <= |value| { assert value[offset..] == [] && out' + [] == out'; }
  }

  function Flatten(values: seq<seq<Byte>>): seq<Byte> {
    if values == [] then [] else values[0] + Flatten(values[1..])
  }

  /** What the sender puts on the wire: every write framed, then the end frame. */
  function Stream(values: seq<seq<Byte>>): seq<Byte> {
    if values == [] then END else Framed(values[0]) + Stream(values[1..])
  }

  // ---------------------------------------------------------------- reading

  datatype Received = Received(payload: seq<Byte>, rest: seq<Byte>)

  datatype Next = End(rest: seq<Byte>) | More(chunk: seq<Byte>, rest: seq<Byte>) | Bad

  /** The first frame of a stream. */
  function First(s: seq<Byte>): (f: Next)
    ensures !f.Bad? ==> |f.rest| < |s|
  {
    if |s| < 4 then Bad
    else
      var n := Unpack(s[..4]);
      if n == 0 then End(s[4..])
      else if n > LIMIT || |s| < 4 + n then Bad
      else More(s[4..4 + n], s[4 + n..])
  }

  function Prepend(chunk: seq<Byte>, r: Result<Received>): Result<Received> {
    if r.Err? then Err else Ok(Received(chunk + r.value.payload, r.value.rest))
  }

  /** The receiving loop: payload until the zero frame, or an error on the first short or
      oversized frame. */
  function Receive(s: seq<Byte>): (r: Result<Received>)
    ensures r.Ok? ==> |r.value.rest| < |s|
    decreases |s|
  {
    match First(s)
    case Bad => Err
    case End(rest) => Ok(Received([], rest))
    case More(chunk, rest) => Prepend(chunk, Receive(rest))
  }

  lemma PrependTwice(a: seq<Byte>, b: seq<Byte>, r: Result<Received>)
    ensures Prepend(a, Prepend(b, r)) == Prepend(a + b, r)
  {
    if r.Ok? { ConcatAssociates(a, b, r.value.payload); }
  }

  lemma PrependNothing(r: Result<Received>)
    ensures Prepend([], r) == r
  {
    assert r.Ok? ==> [] + r.value.payload == r.value.payload;
  }

  lemma ReceiveFrame(chunk: seq<Byte>, tail: seq<Byte>)
    requires 0 < |chunk| <= LIMIT
    ensures Receive(Frame(chunk) + tail) == Prepend(chunk, Receive(tail))
  {
  }

  lemma {:induction false} ReceiveFramed(value: seq<Byte>, tail: seq<Byte>)
    ensures Receive(Framed(value) + tail) == Prepend(value, Receive(tail))
    decreases |value|
  {
    if value == [] {
      assert Framed(value) + tail == tail;
      PrependNothing(Receive(tail));
    } else if |value| <= LIMIT {
      ReceiveFrame(value, tail);
    } else {
      var a, b := value[..LIMIT], value[LIMIT..];
      ConcatAssociates(Frame(a), Framed(b), tail);
      ReceiveFrame(a, Framed(b) + tail);
      ReceiveFramed(b, tail);
      PrependTwice(a, b, Receive(tail));
      assert a + b == value;
    }
  }

  /** The stream carries exactly the bytes written, however they were cut into writes, and
      leaves what follows it. */
  lemma {:induction false} StreamRoundTrips(values: seq<seq<Byte>>, rest: seq<Byte>)
    ensures Receive(Stream(values) + rest) == Ok(Received(Flatten(values), rest))
    decreases |values|
  {
    if values == [] {
      assert (END + rest)[..4] == END && (END + rest)[4..] == rest;
    } else {
      ConcatAssociates(Framed(values[0]), Stream(values[1..]), rest);
      StreamRoundTrips(values[1..], rest);
      ReceiveFramed(values[0], Stream(values[1..]) + rest);
    }
  }

  /** A stream cut anywhere before its end is refused. */
  lemma {:induction false} CutStreamIsRefused(s: seq<Byte>, k: nat)
    requires Receive(s).Ok? && k < |s| - |Receive(s).value.rest|
    ensures Receive(s[..k]).Err?
    decreases |s|
  {
    var n := Unpack(s[..4]);
    if k >= 4 {
      assert s[..k][..4] == s[..4];
      if n > 0 && k >= 4 + n {
        var rest := s[4 + n..];
        CutStreamIsRefused(rest, k - 4 - n);
        assert s[..k][4 + n..] == rest[..k - 4 - n];
        assert First(s[..k]) == More(s[..k][4..4 + n], rest[..k - 4 - n]);
      } else {
        assert First(s[..k]).Bad?;
      }
    }
  }

  /** In particular no proper prefix of what a sender writes is ever taken for an archive. */
  lemma TruncatedUploadIsRefused(values: seq<seq<Byte>>, k: nat)
    requires k < |Stream(values)|
    ensures Receive(Stream(values)[..k]).Err?
  {
    StreamRoundTrips(values, []);
    assert Stream(values) + [] == Stream(values);
    CutStreamIsRefused(Stream(values), k);
  }

  // ---------------------------------------------------------------- the receiver

  /** The bytes a peer will send, read through a pipe that may return fewer than asked. */
  class Input {
    const data: seq<Byte>
    var at: nat

    ghost predicate Valid() reads this { at <= |data| }

    function Rest(): seq<Byte> reads this requires Valid() { data[at..] }

    constructor (data: seq<Byte>)
      ensures Valid() && Rest() == data
    {
      this.data, at := data, 0;
    }

    /** `read(n)`: at least one byte unless the stream has ended. */
    method Read(n: nat) returns (chunk: seq<Byte>)
      requires Valid() && n > 0
      modifies this
      ensures Valid() && at == old(at) + |chunk|
      ensures |chunk| <= n && (chunk == [] <==> old(Rest()) == [])
      ensures old(Rest()) == chunk + Rest()
    {
      if at == |data| { return []; }
      var m: nat :| 1 <= m <= n && at + m <= |data|;
      chunk := data[at..at + m];
      at := at + m;
    }

    /** `_read_exact` */
    method ReadExact(n: nat) returns (r: Result<seq<Byte>>)
      requires Valid()
      modifies this
      ensures Valid()
      ensures if |old(Rest())| < n then r.Err? else r == Ok(old(Rest())[..n]) && Rest() == old(Rest())[n..]
    {
      var result: seq<Byte> := [];
      while |result| < n
        invariant Valid() && |result| <= n
        invariant old(Rest()) == result + Rest()
        decreases n - |result|
      {
        var chunk := Read(n - |result|);
        if chunk == [] { return Err; }
        ConcatAssociates(result, chunk, Rest());
        result := result + chunk;
      }
      r := Ok(result);
    }

    /** One frame. */
    method ReadFrame() returns (f: Result<seq<Byte>>)
      requires Valid()
      modifies this
      ensures Valid()
      ensures match First(old(Rest()))
              case Bad => f.Err?
              case End(rest) => f == Ok([]) && Rest() == rest
              case More(chunk, rest) => f == Ok(chunk) && chunk != [] && Rest() == rest
    {
      ghost var before := Rest();
      var header := ReadExact(4);
      if header.Err? { return Err; }
      var length := Unpack(header.value);
      if length > LIMIT { return Err; }
      if length == 0 { return Ok([]); }
      f := ReadExact(length);
      if f.Ok? {
        assert before[4..][length..] == before[4 + length..] && before[4..][..length] == before[4..4 + length];
      }
    }

    /** The loop of `_upload` and of `_copy_to_host`: the archive, or nothing to publish. */
    method ReceiveArchive() returns (r: Result<seq<Byte>>)
      requires Valid()
      modifies this
      ensures Valid()
      ensures var whole := Receive(old(Rest()));
              if whole.Err? then r.Err? else r == Ok(whole.value.payload) && Rest() == whole.value.rest
    {
      var output: seq<Byte> := [];
      PrependNothing(Receive(Rest()));
      while true
        invariant Valid()
        invariant Receive(old(Rest())) == Prepend(output, Receive(Rest()))
        decreases |Rest()|
      {
        ghost var before := Rest();
        var frame := ReadFrame();
        if frame.Err? { return Err; }
        if frame.value == [] { break; }
        PrependTwice(output, frame.value, Receive(Rest()));
        output := output + frame.value;
      }
      assert output + [] == output;
      r := Ok(output);
    }
  }
}
