/**
 The session store: one base snapshot, replaced atomically, beside one append-only journal.
 Every write that reaches the disk is a durable state a crash may leave; the class records
 them in `trail`, and its contracts speak about each of them.
 */
module SessionStore {
  import opened Wrappers
  import opened JournalFile
  import opened SessionReplay

  /** `MAX_SESSION_SNAPSHOT_BYTES` */
  const MAX_BYTES := 64 * 1024 * 1024

  datatype Disk = Disk(base: Base, journal: Option<seq<Byte>>)

  function Bytes(d: Disk): seq<Byte> {
    if d.journal.Some? then d.journal.value else []
  }

  /** `load_snapshot` of what is on the disk. */
  function LoadDisk(c: Codec<Record>, d: Disk, prompt: Message): Result<Snapshot> {
    match Records(c, Bytes(d))
    case Err => Err
    case Ok(rs) => Load(d.base, rs, prompt)
  }

  /** What a published document loads as when no journal record is newer than it. */
  function Published(s: Snapshot): Result<Snapshot> {
    if SequenceOf(s.sequence).Err? || s.messages == [] then Err else Ok(s)
  }

  lemma CoveredBaseLoadsAsPublished(s: Snapshot, rs: seq<Record>, prompt: Message)
    requires forall r :: r in rs ==> SequenceOf(s.sequence).Ok? && 1 <= r.sequence <= SequenceOf(s.sequence).value
    ensures Load(Object(s), rs, prompt) == Published(s)
  {
    if SequenceOf(s.sequence).Ok? {
      CoveredRecordsAreSkipped(Start(Object(s)).value, rs);
    }
  }

  lemma ClearedJournalHasNoRecords(c: Codec<Record>)
    ensures Records(c, []) == Ok([])
  {
  }

  // ---------------------------------------------------------------- save

  /** The cursor that `save` publishes, past every durable delta where there are any, and
      whether there are any to clear. */
  function SaveCursor(c: Codec<Record>, d: Disk, key: Option<int>): Result<(Option<int>, bool)> {
    match Records(c, Bytes(d))
    case Err => Err
    case Ok(rs) =>
      if rs == [] then Ok((key, false))
      else
        match Newest(d.base, rs)
        case Err => Err
        case Ok(n) => Ok((Some(n + 1), true))
  }

  /** The durable states that `save` goes through, in order, or an error before any write. */
  function SaveStates(c: Codec<Record>, d: Disk, messages: seq<Message>, meta: Meta, key: Option<int>)
    : Result<seq<Disk>>
  {
    match SaveCursor(c, d, key)
    case Err => Err
    case Ok((sequence, superseded)) =>
      var base := Object(Snapshot(meta, sequence, messages));
      Ok(if superseded then [Disk(base, d.journal), Disk(base, Some([]))] else [Disk(base, d.journal)])
  }

  /** A crash anywhere inside `save` leaves the old state or the whole new one: every durable
      state after the first write already loads as the document being saved. */
  lemma SaveIsAtomic(c: Codec<Record>, d: Disk, messages: seq<Message>, meta: Meta, key: Option<int>, prompt: Message)
    requires SaveStates(c, d, messages, meta, key).Ok?
    ensures var states := SaveStates(c, d, messages, meta, key).value;
            && states != []
            && exists sequence ::
              && (Records(c, Bytes(d)) == Ok([]) ==> sequence == key)
              && forall i :: 0 <= i < |states| ==>
                   LoadDisk(c, states[i], prompt) == Published(Snapshot(meta, sequence, messages))
  {
    var states := SaveStates(c, d, messages, meta, key).value;
    var rs := Records(c, Bytes(d)).value;
    var sequence := if rs == [] then key else Some(Newest(d.base, rs).value + 1);
    var s := Snapshot(meta, sequence, messages);
    CoveredBaseLoadsAsPublished(s, rs, prompt);
    CoveredBaseLoadsAsPublished(s, [], prompt);
    ClearedJournalHasNoRecords(c);
    forall i | 0 <= i < |states| ensures LoadDisk(c, states[i], prompt) == Published(s) {
      assert states[i].base == Object(s) && (Bytes(states[i]) == Bytes(d) || Bytes(states[i]) == []);
    }
  }

  // ---------------------------------------------------------------- append

  /** The journal without its torn tail. */
  function Cut(d: Disk): (f: seq<Byte>)
    ensures Whole(f)
  {
    Bytes(d)[..CompleteSize(Bytes(d))]
  }

  /** The disk once `n` bytes of a payload have reached the journal. */
  function Appending(c: Codec<Record>, d: Disk, r: Record, n: nat): Disk
    requires n <= |Payload(c, r)|
  {
    Disk(d.base, Some(Cut(d) + Payload(c, r)[..n]))
  }

  /** Loading after any number of appended bytes: nothing until the last byte, then exactly
      one more record. Replaying that record gives the whole delta or nothing. */
  lemma AppendIsAtomic(c: Codec<Record>, d: Disk, r: Record, n: nat, prompt: Message)
    requires Faithful(c) && n <= |Payload(c, r)|
    ensures n < |Payload(c, r)| ==> LoadDisk(c, Appending(c, d, r, n), prompt) == LoadDisk(c, d, prompt)
    ensures n == |Payload(c, r)| ==>
              LoadDisk(c, Appending(c, d, r, n), prompt) ==
              if Records(c, Bytes(d)).Err? then Err else Load(d.base, Records(c, Bytes(d)).value + [r], prompt)
  {
    var f, p := Cut(d), Payload(c, r);
    TruncationIsInvisible(c, Bytes(d));
    if n < |p| {
      TornAppendIsInvisible(c, f, r, n);
    } else {
      assert p[..n] == p;
      AppendAddsRecord(c, f, r);
    }
  }

  /** The record of `append_snapshot_delta`. */
  function Delta(sequence: int, replaceFrom: int, messages: seq<Message>, meta: Meta, reset: bool, added: seq<Hash>)
    : Record
  {
    var session := if meta.session.Dict? then meta.session.(seen := NoSeen) else meta.session;
    Record(sequence, replaceFrom, replaceFrom + |messages|, messages, true, meta.(session := session), reset, added)
  }

  /** Replaying a disk, before the empty-transcript rule. */
  ghost predicate ReplaysTo(c: Codec<Record>, d: Disk, end: Cursor) {
    && Records(c, Bytes(d)).Ok?
    && Start(d.base).Ok?
    && Replay(Start(d.base).value, Records(c, Bytes(d)).value) == Ok(end)
    && (d.base.Absent? ==> Records(c, Bytes(d)).value != [])
  }

  /** An append newer than everything on disk is read back exactly when it replaces from inside
      the transcript and leaves a message: the kept prefix, then the delta, under its own
      cursor, with the hashes it adds over the ones it keeps. */
  lemma AppendedDeltaIsReadBack(c: Codec<Record>, d: Disk, end: Cursor, r: Record, prompt: Message)
    requires Faithful(c) && ReplaysTo(c, d, end)
    requires PriorSeen(end.meta.session).Ok? && r.sequence > end.sequence
    requires r == Delta(r.sequence, r.replaceFrom, r.messages, r.meta, r.reset, r.added)
    requires r.replaceFrom + |r.messages| > 0
    ensures var now := LoadDisk(c, Appending(c, d, r, |Payload(c, r)|), prompt);
            && (now.Ok? <==> 0 <= r.replaceFrom <= |end.messages|)
            && (now.Ok? ==>
                  && now.value.messages == end.messages[..r.replaceFrom] + r.messages
                  && now.value.sequence == Some(r.sequence)
                  && now.value.meta.fields == r.meta.fields
                  && PriorSeen(now.value.meta.session)
                     == Ok((if r.reset then {} else PriorSeen(end.meta.session).value) + Elements(r.added)))
  {
    AppendIsAtomic(c, d, r, |Payload(c, r)|, prompt);
    ReplayedKey(c, d, end);
    NewerDeltaLoads(d.base, Records(c, Bytes(d)).value, end, r, prompt);
    NewerDeltaApplies(end, r);
    if Apply(end, r).Ok? { AppliedHashes(end, r); }
  }

  lemma NewerDeltaApplies(end: Cursor, r: Record)
    requires r.sequence > end.sequence >= 0 && PriorSeen(end.meta.session).Ok?
    requires r == Delta(r.sequence, r.replaceFrom, r.messages, r.meta, r.reset, r.added)
    ensures Apply(end, r).Ok? <==> 0 <= r.replaceFrom <= |end.messages|
    ensures Apply(end, r).Ok? ==>
              && Apply(end, r).value.messages == end.messages[..r.replaceFrom] + r.messages
              && Apply(end, r).value.key == Some(r.sequence)
              && Apply(end, r).value.meta.fields == r.meta.fields
  {
  }

  lemma NewerDeltaLoads(base: Base, rs: seq<Record>, end: Cursor, r: Record, prompt: Message)
    requires Start(base).Ok? && Replay(Start(base).value, rs) == Ok(end)
    ensures Load(base, rs + [r], prompt) == if Apply(end, r).Err? then Err else Finish(base, Apply(end, r).value, prompt)
  {
    ReplayConcat(Start(base).value, rs, [r]);
    ReplayOne(end, r);
    assert rs + [r] != [];
  }

  lemma ReplayedKey(c: Codec<Record>, d: Disk, end: Cursor)
    requires ReplaysTo(c, d, end)
    ensures end.sequence >= 0
    ensures end.key == Some(end.sequence) || (end.key == None && end.sequence == 0)
    ensures Newest(d.base, Records(c, Bytes(d)).value) == Ok(end.sequence)
  {
    var rs := Records(c, Bytes(d)).value;
    ReplayReachesNewest(Start(d.base).value, rs);
    NewestIsTheReplayedSequence(d.base, rs);
  }

  // ---------------------------------------------------------------- checkpoint

  function AtSequence(rs: seq<Record>, n: int): (same: seq<Record>)
    ensures same == [] <==> forall r :: r in rs ==> r.sequence != n
  {
    if rs == [] then []
    else if rs[0].sequence == n then
      assert rs[0] in rs;
      [rs[0]] + AtSequence(rs[1..], n)
    else
      assert forall r :: r in rs ==> r == rs[0] || r in rs[1..];
      AtSequence(rs[1..], n)
  }

  /** The durable states that `checkpoint_snapshot` goes through, or a refusal before any write. */
  function CheckpointStates(c: Codec<Record>, d: Disk, messages: seq<Message>, meta: Meta, n: int)
    : Result<seq<Disk>>
  {
    var s := Snapshot(meta, Some(n), messages);
    if n < 0 then Err
    else
      match Records(c, Bytes(d))
      case Err => Err
      case Ok(rs) =>
        match Newest(d.base, rs)
        case Err => Err
        case Ok(newest) =>
          if newest > n then Err
          else
            var same := AtSequence(rs, n);
            if |same| > 1 then Err
            else if |same| == 1 && (LoadDisk(c, d, "").Err? || !StatesEqual(LoadDisk(c, d, "").value, s)) then Err
            else Ok([Disk(Object(s), d.journal), Disk(Object(s), Some([]))])
  }

  /** A crash between the two writes of a checkpoint already loads as the checkpoint: the
      leftover records are covered by its sequence. */
  lemma CheckpointIsAtomic(c: Codec<Record>, d: Disk, messages: seq<Message>, meta: Meta, n: int, prompt: Message)
    requires CheckpointStates(c, d, messages, meta, n).Ok?
    ensures var states := CheckpointStates(c, d, messages, meta, n).value;
            && |states| == 2
            && forall i :: 0 <= i < |states| ==>
                 LoadDisk(c, states[i], prompt) == Published(Snapshot(meta, Some(n), messages))
  {
    var rs := Records(c, Bytes(d)).value;
    var s := Snapshot(meta, Some(n), messages);
    CoveredBaseLoadsAsPublished(s, rs, prompt);
    CoveredBaseLoadsAsPublished(s, [], prompt);
    ClearedJournalHasNoRecords(c);
    var states := CheckpointStates(c, d, messages, meta, n).value;
    assert LoadDisk(c, states[0], prompt) == Published(s) && LoadDisk(c, states[1], prompt) == Published(s);
  }

  /** No accepted checkpoint goes back: stale and ambiguous ones are refused. */
  lemma AcceptedCheckpointIsNewest(c: Codec<Record>, d: Disk, messages: seq<Message>, meta: Meta, n: int)
    requires CheckpointStates(c, d, messages, meta, n).Ok?
    ensures Records(c, Bytes(d)).Ok? && Newest(d.base, Records(c, Bytes(d)).value).Ok?
    ensures n >= Newest(d.base, Records(c, Bytes(d)).value).value
    ensures var after := CheckpointStates(c, d, messages, meta, n).value[1];
            Records(c, Bytes(after)) == Ok([]) && Newest(after.base, []) == Ok(n)
  {
  }

  /** Compaction: checkpointing the replayed state at its own sequence is accepted exactly when
      the sequence is not ambiguous and the transcript is not empty (where a record carries that
      sequence), and then it loads as the replayed state did. */
  lemma CompactionIsInvisible(c: Codec<Record>, d: Disk, end: Cursor, prompt: Message)
    requires ReplaysTo(c, d, end)
    ensures var same := AtSequence(Records(c, Bytes(d)).value, end.sequence);
            var states := CheckpointStates(c, d, end.messages, end.meta, end.sequence);
            && (states.Ok? <==> |same| == 0 || (|same| == 1 && end.messages != []))
            && (states.Ok? && end.messages != [] ==>
                  && LoadDisk(c, d, prompt) == Ok(Snapshot(end.meta, end.key, end.messages))
                  && LoadDisk(c, states.value[1], prompt) == Ok(Snapshot(end.meta, Some(end.sequence), end.messages)))
  {
    var rs := Records(c, Bytes(d)).value;
    var same := AtSequence(rs, end.sequence);
    var states := CheckpointStates(c, d, end.messages, end.meta, end.sequence);
    ReplayedKey(c, d, end);
    assert LoadDisk(c, d, "") == Finish(d.base, end, "");
    if |same| == 1 {
      assert exists r :: r in rs && r.sequence == end.sequence;
      ReplayReachesNewest(Start(d.base).value, rs);
      assert end.sequence >= 1 && end.key == Some(end.sequence);
    }
    if states.Ok? {
      CheckpointIsAtomic(c, d, end.messages, end.meta, end.sequence, prompt);
    }
  }

  /** What compaction may checkpoint: a state that was accepted against a record at its sequence, or
      the replayed state itself at its own sequence, whether or not a record carries that. */
  ghost predicate Compacts(c: Codec<Record>, d: Disk, end: Cursor, messages: seq<Message>, meta: Meta, n: int)
    requires ReplaysTo(c, d, end)
  {
    || (AtSequence(Records(c, Bytes(d)).value, n) != [] && end.messages != [])
    || (messages == end.messages && meta == end.meta && n == end.sequence)
  }

  /** The state such a checkpoint writes has the future of the replayed one. */
  lemma CompactedStateHasTheSameFuture(c: Codec<Record>, d: Disk, end: Cursor, messages: seq<Message>, meta: Meta, n: int)
    requires ReplaysTo(c, d, end) && CheckpointStates(c, d, messages, meta, n).Ok? && Compacts(c, d, end, messages, meta, n)
    ensures var s := Snapshot(meta, Some(n), messages);
            && CheckpointStates(c, d, messages, meta, n).value[1] == Disk(Object(s), Some([]))
            && Start(Object(s)).Ok? && SameFuture(end, Start(Object(s)).value)
  {
    ReplayedKey(c, d, end);
    if AtSequence(Records(c, Bytes(d)).value, n) != [] && end.messages != [] {
      AcceptedStateIsTheReplayedOne(c, d, messages, meta, n);
      assert LoadDisk(c, d, "") == Ok(Snapshot(end.meta, end.key, end.messages));
    }
  }

  /** Compaction changes nothing that a reader could tell: an accepted checkpoint of the replayed
      state loads as that state did, up to the form of the hash list and a sequence of zero that
      was not written down, and any newer deltas then load as they would have without it, exactly
      unless they empty the transcript of a session that never had a document. */
  lemma AcceptedCheckpointKeepsTheFuture(
      c: Codec<Record>, d: Disk, end: Cursor, messages: seq<Message>, meta: Meta, n: int, later: seq<Record>, prompt: Message)
    requires ReplaysTo(c, d, end) && CheckpointStates(c, d, messages, meta, n).Ok? && Compacts(c, d, end, messages, meta, n)
    requires later != [] ==> later[0].sequence > n
    ensures var after := CheckpointStates(c, d, messages, meta, n).value[1];
            && (end.messages != [] ==>
                  && LoadDisk(c, d, prompt).Ok? && LoadDisk(c, after, prompt).Ok?
                  && var was, now := LoadDisk(c, d, prompt).value, LoadDisk(c, after, prompt).value;
                     now.messages == was.messages && SequenceOf(now.sequence) == SequenceOf(was.sequence)
                     && NormalSession(now.meta.session) == NormalSession(was.meta.session))
            && (later != [] ==>
                  (Load(after.base, later, prompt) == Load(d.base, Records(c, Bytes(d)).value + later, prompt)
                   <==> !EmptiedWithoutDocument(d.base, end, later)))
  {
    var s := Snapshot(meta, Some(n), messages);
    CheckpointIsAtomic(c, d, messages, meta, n, prompt);
    ReplayedKey(c, d, end);
    CompactedStateHasTheSameFuture(c, d, end, messages, meta, n);
    assert end.messages != [] ==> LoadDisk(c, d, prompt) == Ok(Snapshot(end.meta, end.key, end.messages));
    if later != [] {
      NewerDeltasLoadTheSame(d.base, Records(c, Bytes(d)).value, end, s, later, prompt);
    }
  }

  lemma AcceptedStateIsTheReplayedOne(c: Codec<Record>, d: Disk, messages: seq<Message>, meta: Meta, n: int)
    requires CheckpointStates(c, d, messages, meta, n).Ok?
    requires AtSequence(Records(c, Bytes(d)).value, n) != []
    ensures LoadDisk(c, d, "").Ok? && StatesEqual(LoadDisk(c, d, "").value, Snapshot(meta, Some(n), messages))
    ensures CheckpointStates(c, d, messages, meta, n).value[1].base == Object(Snapshot(meta, Some(n), messages))
  {
  }

  lemma NewerDeltasLoadTheSame(
      base: Base, rs: seq<Record>, end: Cursor, s: Snapshot, later: seq<Record>, prompt: Message)
    requires Start(base).Ok? && Replay(Start(base).value, rs) == Ok(end)
    requires Start(Object(s)).Ok? && SameFuture(end, Start(Object(s)).value)
    requires later != [] && later[0].sequence > end.sequence
    ensures Load(Object(s), later, prompt) == Load(base, rs + later, prompt) <==> !EmptiedWithoutDocument(base, end, later)
  {
    ReplayConcat(Start(base).value, rs, later);
    NewerDeltasForgetTheForm(end, Start(Object(s)).value, later);
    EmptiedIffReplayedEmpty(base, rs, end, later);
    var r := Replay(end, later);
    assert Load(base, rs + later, prompt) == if r.Err? then Err else Finish(base, r.value, prompt);
    assert Load(Object(s), later, prompt) == if r.Err? then Err else Finish(Object(s), r.value, prompt);
  }

  /** The newer deltas apply and the last of them counts no message at all, over a path that never
      held a document: the load then supplies the system prompt, which it refuses to do over a
      document. */
  predicate EmptiedWithoutDocument(base: Base, end: Cursor, later: seq<Record>) {
    && (base.Absent? || base.Blank?)
    && Applies(|end.messages|, end.sequence, later)
    && LastCount(|end.messages|, end.sequence, later) == 0
  }

  lemma EmptiedIffReplayedEmpty(base: Base, rs: seq<Record>, end: Cursor, later: seq<Record>)
    requires Start(base).Ok? && Replay(Start(base).value, rs) == Ok(end)
    ensures EmptiedWithoutDocument(base, end, later) <==>
            (base.Absent? || base.Blank?) && Replay(end, later).Ok? && Replay(end, later).value.messages == []
  {
    if base.Absent? || base.Blank? {
      ReplaysIffApplies(Start(base).value, rs);
      ReplaysIffApplies(end, later);
    }
  }

  /** A session of one delta and no document, compacted, and then emptied by a second delta. */
  lemma EmptiedSessionLoadsDifferently(c: Codec<Record>, prompt: Message)
    requires Faithful(c)
    ensures var r1, r2 := Delta(1, 0, ["m"], EMPTY_META, false, []), Delta(2, 0, [], EMPTY_META, false, []);
            var d := Disk(Absent, Some(Payload(c, r1)));
            var end := Apply(Cursor(EMPTY_META, None, 0, []), r1).value;
            && ReplaysTo(c, d, end) && CheckpointStates(c, d, end.messages, end.meta, 1).Ok?
            && EmptiedWithoutDocument(Absent, end, [r2])
            && Load(CheckpointStates(c, d, end.messages, end.meta, 1).value[1].base, [r2], prompt).Err?
            && Load(Absent, [r1] + [r2], prompt).Ok?
  {
    var r1, r2 := Delta(1, 0, ["m"], EMPTY_META, false, []), Delta(2, 0, [], EMPTY_META, false, []);
    var d := Disk(Absent, Some(Payload(c, r1)));
    var end := OneDelta(c, r1);
    CompactionIsInvisible(c, d, end, prompt);
    EmptyingApplies(end, r2);
    CompactedStateHasTheSameFuture(c, d, end, end.messages, end.meta, 1);
    EmptiedLoads(end, r1, r2, Snapshot(end.meta, Some(1), end.messages), prompt);
  }

  lemma EmptiedLoads(end: Cursor, r1: Record, r2: Record, s: Snapshot, prompt: Message)
    requires Replay(Start(Absent).value, [r1]) == Ok(end) && end.sequence == 1 && r2.sequence == 2
    requires Start(Object(s)).Ok? && SameFuture(end, Start(Object(s)).value) && EmptiedWithoutDocument(Absent, end, [r2])
    ensures Load(Object(s), [r2], prompt).Err? && Load(Absent, [r1] + [r2], prompt).Ok?
  {
    EmptiedIffReplayedEmpty(Absent, [r1], end, [r2]);
    NewerDeltasForgetTheForm(end, Start(Object(s)).value, [r2]);
    ReplayConcat(Start(Absent).value, [r1], [r2]);
  }

  lemma EmptyingApplies(end: Cursor, r: Record)
    requires end.sequence == 1 && r == Delta(2, 0, [], EMPTY_META, false, [])
    ensures EmptiedWithoutDocument(Absent, end, [r])
  {
    var none: seq<Record> := [r][1..];
    assert none == [] && Applies(0, 2, none) && LastCount(0, 2, none) == 0;
  }

  lemma OneRecordJournal(c: Codec<Record>, r: Record)
    requires Faithful(c)
    ensures Records(c, Payload(c, r)) == Ok([r])
  {
    var f: seq<Byte> := [];
    AppendAddsRecord(c, f, r);
    ClearedJournalHasNoRecords(c);
    assert f + Payload(c, r) == Payload(c, r);
    var none: seq<Record> := [];
    assert none + [r] == [r];
  }

  lemma OneAtSequence(r: Record)
    ensures AtSequence([r], r.sequence) == [r]
  {
    var none: seq<Record> := [r][1..];
    assert none == [] && AtSequence(none, r.sequence) == [];
  }

  lemma FirstDelta(r: Record) returns (end: Cursor)
    requires r == Delta(1, 0, r.messages, EMPTY_META, false, [])
    ensures Apply(Cursor(EMPTY_META, None, 0, []), r) == Ok(end)
    ensures end.messages == r.messages && end.sequence == 1 && end.key == Some(1)
  {
    var start := Cursor(EMPTY_META, None, 0, []);
    assert start.messages[..0] + r.messages == r.messages;
    end := Apply(start, r).value;
  }

  lemma OneDelta(c: Codec<Record>, r: Record) returns (end: Cursor)
    requires Faithful(c) && r == Delta(1, 0, r.messages, EMPTY_META, false, [])
    ensures Apply(Cursor(EMPTY_META, None, 0, []), r) == Ok(end)
    ensures ReplaysTo(c, Disk(Absent, Some(Payload(c, r))), end) && end.messages == r.messages && end.sequence == 1
    ensures Records(c, Payload(c, r)) == Ok([r]) && AtSequence([r], 1) == [r] && end.key == Some(1)
  {
    OneRecordJournal(c, r);
    OneAtSequence(r);
    end := FirstDelta(r);
    ReplayOne(Cursor(EMPTY_META, None, 0, []), r);
  }

  /** The one state that compaction cannot carry: an accepted checkpoint of an empty transcript
      has gained a blank message. */
  lemma EmptyTranscriptGainsAMessage(c: Codec<Record>, d: Disk, end: Cursor, messages: seq<Message>, meta: Meta, n: int)
    requires ReplaysTo(c, d, end) && end.messages == []
    requires AtSequence(Records(c, Bytes(d)).value, n) != []
    requires CheckpointStates(c, d, messages, meta, n).Ok?
    ensures messages == [""]
  {
  }

  /** Such a checkpoint: of one delta that leaves no message. Any other prompt then loads differently. */
  lemma EmptyTranscriptIsCheckpointed(c: Codec<Record>, prompt: Message)
    requires Faithful(c)
    ensures var r := Delta(1, 0, [], EMPTY_META, false, []);
            var d := Disk(Absent, Some(Payload(c, r)));
            var end := Apply(Cursor(EMPTY_META, None, 0, []), r).value;
            && ReplaysTo(c, d, end) && end.messages == [] && CheckpointStates(c, d, [""], end.meta, 1).Ok?
            && LoadDisk(c, d, prompt) == Ok(Snapshot(end.meta, Some(1), [prompt]))
            && LoadDisk(c, CheckpointStates(c, d, [""], end.meta, 1).value[1], prompt) == Ok(Snapshot(end.meta, Some(1), [""]))
  {
    var r := Delta(1, 0, [], EMPTY_META, false, []);
    var d := Disk(Absent, Some(Payload(c, r)));
    var end := OneDelta(c, r);
    ReplayedKey(c, d, end);
    assert LoadDisk(c, d, "") == Ok(Snapshot(end.meta, Some(1), [""]));
    CheckpointIsAtomic(c, d, [""], end.meta, 1, prompt);
  }

  // ---------------------------------------------------------------- the store

  /** Each state loads as one of two: nothing in between is ever durable. */
  ghost predicate AllOrNothing(c: Codec<Record>, states: seq<Disk>, prompt: Message, before: Disk, after: Disk) {
    forall i :: 0 <= i < |states| ==>
      || LoadDisk(c, states[i], prompt) == LoadDisk(c, before, prompt)
      || LoadDisk(c, states[i], prompt) == LoadDisk(c, after, prompt)
  }

  lemma SaveIsAllOrNothing(c: Codec<Record>, d: Disk, messages: seq<Message>, meta: Meta, key: Option<int>, prompt: Message)
    requires SaveStates(c, d, messages, meta, key).Ok?
    ensures var states := SaveStates(c, d, messages, meta, key).value;
            states != [] && AllOrNothing(c, states, prompt, d, states[|states| - 1])
  {
    SaveIsAtomic(c, d, messages, meta, key, prompt);
  }

  lemma CheckpointIsAllOrNothing(c: Codec<Record>, d: Disk, messages: seq<Message>, meta: Meta, n: int, prompt: Message)
    requires CheckpointStates(c, d, messages, meta, n).Ok?
    ensures var states := CheckpointStates(c, d, messages, meta, n).value;
            |states| == 2 && AllOrNothing(c, states, prompt, d, states[1])
  {
    CheckpointIsAtomic(c, d, messages, meta, n, prompt);
  }

  /** States an append may leave: the cut journal and some of the payload's bytes. */
  ghost predicate Partial(base: Base, cut: seq<Byte>, payload: seq<Byte>, states: seq<Disk>) {
    forall i :: 0 <= i < |states| ==> PartialState(base, cut, payload, states[i])
  }

  ghost predicate PartialState(base: Base, cut: seq<Byte>, payload: seq<Byte>, state: Disk) {
    && state.base == base && state.journal.Some?
    && var n := |state.journal.value| - |cut|;
    0 <= n <= |payload| && state.journal.value == cut + payload[..n]
  }

  lemma PartialAppendIsAllOrNothing(c: Codec<Record>, d: Disk, r: Record, states: seq<Disk>, prompt: Message)
    requires Faithful(c) && Partial(d.base, Cut(d), Payload(c, r), states)
    ensures AllOrNothing(c, states, prompt, d, Appending(c, d, r, |Payload(c, r)|))
  {
    var p := Payload(c, r);
    AppendIsAtomic(c, d, r, |p|, prompt);
    forall i | 0 <= i < |states|
      ensures LoadDisk(c, states[i], prompt) == LoadDisk(c, d, prompt)
              || LoadDisk(c, states[i], prompt) == LoadDisk(c, Appending(c, d, r, |p|), prompt)
    {
      assert PartialState(d.base, Cut(d), p, states[i]);
      var f := states[i].journal.value;
      var n := |f| - |Cut(d)|;
      AppendIsAtomic(c, d, r, n, prompt);
    }
  }

  /** The two files of one session, under the journal operation lock. */
  class Store {
    const codec: Codec<Record>
    var base: Base
    var journal: Option<seq<Byte>>
    /** Every state the disk has held since this store was opened. */
    ghost var trail: seq<Disk>

    ghost predicate Valid() reads this {
      Faithful(codec) && trail != [] && trail[|trail| - 1] == Now() && |Bytes(Now())| <= MAX_BYTES
    }

    function Now(): Disk reads this {
      Disk(base, journal)
    }

    constructor (codec: Codec<Record>, d: Disk)
      requires Faithful(codec) && |Bytes(d)| <= MAX_BYTES
      ensures Valid() && Now() == d && this.codec == codec && trail == [d]
    {
      this.codec, base, journal := codec, d.base, d.journal;
      trail := [d];
    }

    method WriteBase(b: Base)
      requires Valid()
      modifies this
      ensures Valid() && Now() == Disk(b, old(journal)) && trail == old(trail) + [Now()]
    {
      base := b;
      trail := trail + [Now()];
    }

    method WriteJournal(f: seq<Byte>)
      requires Valid() && |f| <= MAX_BYTES
      modifies this
      ensures Valid() && Now() == Disk(old(base), Some(f)) && trail == old(trail) + [Now()]
    {
      journal := Some(f);
      trail := trail + [Now()];
    }

    method LoadSnapshot(prompt: Message) returns (r: Result<Snapshot>)
      requires Valid()
      ensures r == LoadDisk(codec, Now(), prompt)
    {
      var rs := ReadJournalRecords(codec, Bytes(Now()));
      if rs.Err? { return Err; }
      if base.Absent? && rs.value == [] { return Err; }
      var cur := Start(base);
      if cur.Err? { return Err; }
      var end := ReplayRecords(cur.value, rs.value);
      if end.Err? { return Err; }
      r := Finish(base, end.value, prompt);
    }

    method Save(messages: seq<Message>, meta: Meta, key: Option<int>, ghost prompt: Message) returns (ok: bool)
      requires Valid()
      modifies this
      ensures Valid()
      ensures var states := SaveStates(codec, old(Now()), messages, meta, key);
              && ok == states.Ok?
              && trail == old(trail) + (if ok then states.value else [])
              && (ok ==> AllOrNothing(codec, states.value, prompt, old(Now()), Now()))
    {
      ghost var before := Now();
      var cursor := SaveSequence(key);
      if cursor.Err? { return false; }
      var (sequence, superseded) := cursor.value;
      WriteBase(Object(Snapshot(meta, sequence, messages)));
      if superseded {
        ghost var first := Now();
        WriteJournal([]);
        ConcatAssociates(old(trail), [first], [Now()]);
      }
      SaveIsAllOrNothing(codec, before, messages, meta, key, prompt);
      ok := true;
    }

    method SaveSequence(key: Option<int>) returns (r: Result<(Option<int>, bool)>)
      requires Valid()
      ensures r == SaveCursor(codec, Now(), key)
    {
      var records := ReadJournalRecords(codec, Bytes(Now()));
      if records.Err? { return Err; }
      if records.value == [] { return Ok((key, false)); }
      var newest := NewestPersistedSequence(base, records.value);
      if newest.Err? { return Err; }
      return Ok((Some(newest.value + 1), true));
    }

    method CheckpointSnapshot(messages: seq<Message>, meta: Meta, sequence: int, ghost prompt: Message) returns (ok: bool)
      requires Valid()
      modifies this
      ensures Valid()
      ensures var states := CheckpointStates(codec, old(Now()), messages, meta, sequence);
              && ok == states.Ok?
              && trail == old(trail) + (if ok then states.value else [])
              && (ok ==> AllOrNothing(codec, states.value, prompt, old(Now()), Now()))
    {
      ghost var before := Now();
      if sequence < 0 { return false; }
      var snapshot := Snapshot(meta, Some(sequence), messages);
      var refused := RefusesCheckpoint(snapshot, sequence);
      if refused { return false; }
      WriteBase(Object(snapshot));
      WriteJournal([]);
      CheckpointIsAllOrNothing(codec, before, messages, meta, sequence, prompt);
      ok := true;
    }

    /** The checks that `checkpoint_snapshot` makes before its first write. */
    method RefusesCheckpoint(snapshot: Snapshot, sequence: nat) returns (refused: bool)
      requires Valid() && snapshot.sequence == Some(sequence)
      ensures refused == CheckpointStates(codec, Now(), snapshot.messages, snapshot.meta, sequence).Err?
    {
      var records := ReadJournalRecords(codec, Bytes(Now()));
      if records.Err? { return true; }
      var persisted := NewestPersistedSequence(base, records.value);
      if persisted.Err? || persisted.value > sequence { return true; }
      var same := AtSequence(records.value, sequence);
      if |same| > 1 { return true; }
      if |same| == 1 {
        var loaded := LoadSnapshot("");
        return loaded.Err? || !StatesEqual(loaded.value, snapshot);
      }
      return false;
    }

    /** `_append_journal_record`. The operating system may take any number of bytes at a time, any
        write may raise, and so may the rollback; a process may also stop after any write. */
    method AppendJournalRecord(r: Record) returns (ok: bool, ghost states: seq<Disk>)
      requires Valid()
      modifies this
      ensures Valid() && trail == old(trail) + states
      ensures Partial(old(base), Cut(old(Now())), Payload(codec, r), states)
      ensures ok ==> Now() == Appending(codec, old(Now()), r, |Payload(codec, r)|)
    {
      var payload := Payload(codec, r);
      assert payload[..|payload|] == payload;
      if |payload| > MAX_BYTES { return false, []; }
      var cut;
      cut, states := OpenAndCut();
      assert cut == cut + payload[..0];
      if |cut| + |payload| > MAX_BYTES { return false, states; }
      ghost var more;
      ok, more := WriteLocked(cut, payload);
      ConcatAssociates(old(trail), states, more);
      states := states + more;
    }

    /** Open the journal for appending, dropping a tail that an earlier crash tore. */
    method OpenAndCut() returns (cut: seq<Byte>, ghost states: seq<Disk>)
      requires Valid()
      modifies this
      ensures Valid() && trail == old(trail) + states
      ensures cut == Cut(old(Now())) && Now() == Disk(old(base), Some(cut))
      ensures states == [] || states == [Now()]
    {
      states := [];
      var bytes := Bytes(Now());
      var size := CompleteJournalSize(bytes, CHUNK);
      cut := bytes[..size];
      if size < |bytes| || journal.None? {
        WriteJournal(cut);
        states := [Now()];
      }
      assert journal.value == cut;
    }

    /** `write_locked_text`, the flush and the rollback. */
    method WriteLocked(cut: seq<Byte>, payload: seq<Byte>) returns (ok: bool, ghost states: seq<Disk>)
      requires Valid() && journal == Some(cut) && |cut| + |payload| <= MAX_BYTES
      modifies this
      ensures Valid() && trail == old(trail) + states
      ensures Partial(old(base), cut, payload, states)
      ensures ok ==> Now() == Disk(old(base), Some(cut + payload))
    {
      states := [];
      var written := 0;
      while written < |payload|
        invariant 0 <= written <= |payload|
        invariant Valid() && base == old(base) && journal.Some? && journal.value == cut + payload[..written]
        invariant trail == old(trail) + states
        invariant Partial(old(base), cut, payload, states)
      {
        if * { break; }
        var n :| written < n <= |payload|;
        WriteJournal(cut + payload[..n]);
        ConcatAssociates(old(trail), states, [Now()]);
        states := states + [Now()];
        written := n;
      }
      ok := *;
      if written < |payload| { ok := false; }
      assert payload[..|payload|] == payload;
      if !ok {
        var rolledBack := *;
        if rolledBack {
          assert cut == cut + payload[..0];
          WriteJournal(cut);
          ConcatAssociates(old(trail), states, [Now()]);
          states := states + [Now()];
        }
      }
    }

    method AppendSnapshotDelta(sequence: int, replaceFrom: int, messages: seq<Message>, meta: Meta,
                               reset: bool, added: seq<Hash>, ghost prompt: Message)
      returns (ok: bool, ghost states: seq<Disk>)
      requires Valid()
      modifies this
      ensures Valid() && trail == old(trail) + states
      ensures ok ==> sequence >= 1 && replaceFrom >= 0
      ensures var r := Delta(sequence, replaceFrom, messages, meta, reset, added);
              var after := Appending(codec, old(Now()), r, |Payload(codec, r)|);
              (ok ==> Now() == after) && AllOrNothing(codec, states, prompt, old(Now()), after)
    {
      if sequence < 1 || replaceFrom < 0 { return false, []; }
      var r := Delta(sequence, replaceFrom, messages, meta, reset, added);
      ghost var before := Now();
      ok, states := AppendJournalRecord(r);
      PartialAppendIsAllOrNothing(codec, before, r, states, prompt);
    }
  }
}
