/**
 The autosave journal as a file of bytes: newline-terminated records, a tail that a crash
 may have torn, and the two ways the store looks at it (find the last complete line by
 bounded tail reads; read every complete record).
 */
module JournalFile {
  import opened Wrappers

  type Byte = b: int | 0 <= b < 256

  const NEWLINE: Byte := 10
  /** `_JSON_WRITE_CHUNK_CHARS`, the size of one tail read. */
  const CHUNK := 64 * 1024

  /** The JSON encoder and decoder of one record. `decode` fails on anything that is not a
      version 1 record object. */
  datatype Codec<!R> = Codec(encode: R -> seq<Byte>, decode: seq<Byte> -> Option<R>)

  /** What compact JSON promises: a record is not empty, holds no raw newline, and reads back. */
  ghost predicate Faithful<R(!new)>(c: Codec<R>) {
    forall r: R ::
      && c.encode(r) != []
      && NEWLINE !in c.encode(r)
      && c.decode(c.encode(r)) == Some(r)
  }

  /** The bytes that one append writes. */
  function Payload<R>(c: Codec<R>, r: R): (p: seq<Byte>)
    ensures |p| > 0 && p[|p| - 1] == NEWLINE
  {
    c.encode(r) + [NEWLINE]
  }

  // ---------------------------------------------------------------- complete lines

  /** A file that ends at a record boundary. */
  predicate Whole(f: seq<Byte>) {
    f == [] || f[|f| - 1] == NEWLINE
  }

  /** The end of the last complete line of `f`. */
  function CompleteSize(f: seq<Byte>): (n: nat)
    ensures n <= |f|
    ensures Whole(f[..n])
    ensures forall i :: n <= i < |f| ==> f[i] != NEWLINE
  {
    if f == [] then 0
    else if f[|f| - 1] == NEWLINE then |f|
    else
      var n := CompleteSize(f[..|f| - 1]);
      assert f[..|f| - 1][..n] == f[..n];
      assert forall i :: n <= i < |f| - 1 ==> f[i] == f[..|f| - 1][i];
      n
  }

  /** The boundary is the only one with a whole prefix before it and no newline after it. */
  lemma CompleteSizeIsUnique(f: seq<Byte>, n: nat)
    requires n <= |f| && Whole(f[..n])
    requires forall i :: n <= i < |f| ==> f[i] != NEWLINE
    ensures CompleteSize(f) == n
  {
  }

  /** `bytes.rfind`: the last newline in a chunk, or -1. */
  function LastNewline(s: seq<Byte>): (k: int)
    ensures -1 <= k < |s|
    ensures k >= 0 ==> s[k] == NEWLINE
    ensures forall i :: k < i < |s| ==> s[i] != NEWLINE
  {
    if s == [] then -1
    else if s[|s| - 1] == NEWLINE then |s| - 1
    else
      assert forall i :: 0 <= i < |s| - 1 ==> s[i] == s[..|s| - 1][i];
      LastNewline(s[..|s| - 1])
  }

  /** `_complete_journal_size`: walk back from the end in bounded reads. */
  method CompleteJournalSize(f: seq<Byte>, chunk: nat) returns (size: nat)
    requires chunk > 0
    ensures size == CompleteSize(f)
  {
    if |f| == 0 || f[|f| - 1] == NEWLINE {
      CompleteSizeIsUnique(f, |f|) by { assert f[..|f|] == f; }
      return |f|;
    }
    var cursor := |f|;
    while cursor > 0
      invariant 0 <= cursor <= |f|
      invariant forall i :: cursor <= i < |f| ==> f[i] != NEWLINE
    {
      var start := if cursor > chunk then cursor - chunk else 0;
      var read := f[start..cursor];
      var newline := LastNewline(read);
      if newline >= 0 {
        size := start + newline + 1;
        assert forall i :: size <= i < cursor ==> f[i] == read[i - start];
        assert f[..size][size - 1] == read[newline];
        CompleteSizeIsUnique(f, size);
        return;
      }
      assert forall i :: start <= i < cursor ==> f[i] == read[i - start];
      cursor := start;
    }
    CompleteSizeIsUnique(f, 0);
    size := 0;
  }

  // ---------------------------------------------------------------- reading records

  function FirstNewline(s: seq<Byte>): (k: nat)
    ensures k <= |s|
    ensures k < |s| ==> s[k] == NEWLINE
    ensures forall i :: 0 <= i < k ==> s[i] != NEWLINE
  {
    if s == [] || s[0] == NEWLINE then 0
    else
      var k := 1 + FirstNewline(s[1..]);
      assert forall i :: 1 <= i < k ==> s[i] == s[1..][i - 1];
      k
  }

  /** `str.split("\n")` without its empty parts. */
  function Lines(s: seq<Byte>): (ls: seq<seq<Byte>>)
    ensures forall l :: l in ls ==> l != [] && NEWLINE !in l
  {
    if s == [] then []
    else
      var k := FirstNewline(s);
      var head := if k == 0 then [] else [s[..k]];
      if k == |s| then head else head + Lines(s[k + 1..])
  }

  /** Every line must decode; one bad line fails the whole read. */
  function DecodeAll<R>(c: Codec<R>, ls: seq<seq<Byte>>): (rs: Result<seq<R>>)
    ensures rs.Ok? ==> |rs.value| == |ls|
  {
    if ls == [] then Ok([])
    else Prepend(c.decode(ls[0]), DecodeAll(c, ls[1..]))
  }

  function Prepend<R>(r: Option<R>, rest: Result<seq<R>>): Result<seq<R>> {
    if r.None? || rest.Err? then Err else Ok([r.value] + rest.value)
  }

  function Joined<R>(a: Result<seq<R>>, b: Result<seq<R>>): Result<seq<R>> {
    if a.Err? || b.Err? then Err else Ok(a.value + b.value)
  }

  lemma JoinedNothing<R>(rest: Result<seq<R>>)
    ensures Joined(Ok([]), rest) == rest
  {
    assert rest.Ok? ==> [] + rest.value == rest.value;
  }

  lemma JoinedStep<R>(done: seq<R>, r: R, rest: Result<seq<R>>)
    ensures Joined(Ok(done), Prepend(Some(r), rest)) == Joined(Ok(done + [r]), rest)
  {
    if rest.Ok? { ConcatAssociates(done, [r], rest.value); }
  }

  /** The records a reader sees in a journal file. */
  function Records<R>(c: Codec<R>, f: seq<Byte>): Result<seq<R>> {
    DecodeAll(c, Lines(f[..CompleteSize(f)]))
  }

  /** `_read_journal_records`: cut at the final newline, then decode line by line. */
  method ReadJournalRecords<R>(c: Codec<R>, f: seq<Byte>) returns (rs: Result<seq<R>>)
    ensures rs == Records(c, f)
  {
    var final := LastNewline(f);
    CompleteSizeIsUnique(f, final + 1) by {
      if final >= 0 { assert f[..final + 1][final] == f[final]; }
    }
    var lines := Lines(f[..final + 1]);
    var records: seq<R> := [];
    var i := 0;
    assert lines[0..] == lines;
    JoinedNothing(DecodeAll(c, lines));
    while i < |lines|
      invariant 0 <= i <= |lines|
      invariant DecodeAll(c, lines) == Joined(Ok(records), DecodeAll(c, lines[i..]))
    {
      assert lines[i..][0] == lines[i] && lines[i..][1..] == lines[i + 1..];
      match c.decode(lines[i]) {
        case None => return Err;
        case Some(r) =>
          JoinedStep(records, r, DecodeAll(c, lines[i + 1..]));
          records := records + [r];
      }
      i := i + 1;
    }
    assert records + [] == records;
    rs := Ok(records);
  }

  // ---------------------------------------------------------------- appends and torn tails

  lemma {:induction false} LinesConcat(a: seq<Byte>, b: seq<Byte>)
    requires Whole(a)
    ensures Lines(a + b) == Lines(a) + Lines(b)
    decreases |a|
  {
    if a == [] {
      assert a + b == b;
    } else {
      var k := FirstNewline(a);
      assert a[|a| - 1] == NEWLINE;
      assert k < |a|;
      FirstNewlineConcat(a, b);
      assert (a + b)[..k] == a[..k];
      assert (a + b)[k + 1..] == a[k + 1..] + b;
      LinesConcat(a[k + 1..], b);
    }
  }

  lemma FirstNewlineIsUnique(s: seq<Byte>, k: nat)
    requires k <= |s|
    requires k < |s| ==> s[k] == NEWLINE
    requires forall i :: 0 <= i < k ==> s[i] != NEWLINE
    ensures FirstNewline(s) == k
  {
  }

  lemma FirstNewlineConcat(a: seq<Byte>, b: seq<Byte>)
    requires FirstNewline(a) < |a|
    ensures FirstNewline(a + b) == FirstNewline(a)
  {
    FirstNewlineIsUnique(a + b, FirstNewline(a));
  }

  lemma {:induction false} DecodeAllConcat<R>(c: Codec<R>, a: seq<seq<Byte>>, b: seq<seq<Byte>>)
    ensures DecodeAll(c, a + b) == Joined(DecodeAll(c, a), DecodeAll(c, b))
  {
    var y := DecodeAll(c, b);
    if a == [] {
      assert a + b == b;
      assert y.Ok? ==> [] + y.value == y.value;
    } else {
      assert (a + b)[1..] == a[1..] + b;
      DecodeAllConcat(c, a[1..], b);
      var r, x := c.decode(a[0]), DecodeAll(c, a[1..]);
      if r.Some? && x.Ok? && y.Ok? { ConcatAssociates([r.value], x.value, y.value); }
    }
  }

  lemma WholeFileIsComplete(f: seq<Byte>)
    requires Whole(f)
    ensures CompleteSize(f) == |f| && f[..CompleteSize(f)] == f
  {
  }

  lemma {:induction false} TornTail(f: seq<Byte>, t: seq<Byte>)
    requires Whole(f) && NEWLINE !in t
    ensures CompleteSize(f + t) == |f|
    decreases |t|
  {
    if t == [] {
      assert f + t == f;
    } else {
      var init := t[..|t| - 1];
      assert (f + t)[..|f + t| - 1] == f + init;
      assert (f + t)[|f + t| - 1] == t[|t| - 1];
      TornTail(f, init);
    }
  }

  lemma PayloadIsOneLine<R(!new)>(c: Codec<R>, r: R)
    requires Faithful(c)
    ensures DecodeAll(c, Lines(Payload(c, r))) == Ok([r])
  {
    var p, line := Payload(c, r), c.encode(r);
    FirstNewlineIsUnique(p, |line|);
    assert p[..|line|] == line && p[|line| + 1..] == [];
    var lines := [line];
    assert Lines(p) == lines;
    assert DecodeAll(c, lines[1..]) == Ok([]);
    assert [r] + [] == [r];
  }

  /** A completed append adds exactly its record. */
  lemma AppendAddsRecord<R(!new)>(c: Codec<R>, f: seq<Byte>, r: R)
    requires Faithful(c) && Whole(f)
    ensures Whole(f + Payload(c, r))
    ensures Records(c, f + Payload(c, r)) ==
            if Records(c, f).Err? then Err else Ok(Records(c, f).value + [r])
  {
    var p := Payload(c, r);
    WholeFileIsComplete(f);
    WholeFileIsComplete(f + p);
    LinesConcat(f, p);
    DecodeAllConcat(c, Lines(f), Lines(p));
    PayloadIsOneLine(c, r);
  }

  /** A torn append, any proper prefix of a payload after a whole file, is invisible and is
      exactly what the next append cuts off. */
  lemma TornAppendIsInvisible<R(!new)>(c: Codec<R>, f: seq<Byte>, r: R, n: nat)
    requires Faithful(c) && Whole(f) && n < |Payload(c, r)|
    ensures CompleteSize(f + Payload(c, r)[..n]) == |f|
    ensures Records(c, f + Payload(c, r)[..n]) == Records(c, f)
  {
    var t := Payload(c, r)[..n];
    assert t == c.encode(r)[..n];
    TornTail(f, t);
    WholeFileIsComplete(f);
    assert (f + t)[..|f|] == f;
  }

  /** Cutting a torn tail never changes what a reader sees. */
  lemma TruncationIsInvisible<R>(c: Codec<R>, f: seq<Byte>)
    ensures Whole(f[..CompleteSize(f)])
    ensures Records(c, f[..CompleteSize(f)]) == Records(c, f)
  {
    var g := f[..CompleteSize(f)];
    assert g[..|g|] == g;
    CompleteSizeIsUnique(g, |g|);
  }
}
