/**
 Replaying an autosave journal over a base snapshot, on values: the cursor that replay
 threads through the records, and the laws that checkpointing rests on.
 */
module SessionReplay {
  import opened Wrappers

  /** One validated chat message, as JSON text. */
  type Message = string
  /** One seen-result hash. A number stands for the text's place in text order. */
  type Hash = nat

  /** The `seen_result_hashes` entry of a session state: not there, a list of text, or anything else. */
  datatype Seen = NoSeen | Hashes(items: seq<Hash>) | Malformed
  /** The `session_state` entry: not there, not an object, or an object. */
  datatype SessionField = Missing | Scalar(text: string) | Dict(fields: map<string, string>, seen: Seen)
  /** Snapshot metadata without the messages and without the autosave cursor. */
  datatype Meta = Meta(fields: map<string, string>, session: SessionField)
  /** A stored or loaded snapshot. `sequence` is the `_autosave_sequence` entry. */
  datatype Snapshot = Snapshot(meta: Meta, sequence: Option<int>, messages: seq<Message>)
  /** What is at the snapshot path. A misshapen document parses, as an object with this sequence or
      as a list, but holds no valid list of messages. */
  datatype Base = Absent | Blank | Legacy(legacy: seq<Message>) | Object(snapshot: Snapshot)
                | Misshapen(stored: Option<int>) | Unreadable
  /** One journal record. `shaped` says that its messages, meta and hash delta have valid JSON shapes. */
  datatype Record = Record(sequence: int, replaceFrom: int, messageCount: int, messages: seq<Message>,
                           shaped: bool, meta: Meta, reset: bool, added: seq<Hash>)

  /** The loop variables of a replay. */
  datatype Cursor = Cursor(meta: Meta, key: Option<int>, sequence: int, messages: seq<Message>)

  const EMPTY_META := Meta(map[], Missing)

  // ---------------------------------------------------------------- hashes

  function Elements(s: seq<Hash>): set<Hash> {
    set x | x in s
  }

  lemma {:induction false} LeastExists(s: set<Hash>)
    requires s != {}
    ensures exists m :: IsLeast(s, m)
  {
    var y :| y in s;
    var rest := s - {y};
    assert s == rest + {y};
    if rest == {} {
      assert IsLeast(s, y);
    } else {
      LeastExists(rest);
      var m :| IsLeast(rest, m);
      assert IsLeast(s, if m <= y then m else y);
    }
  }

  predicate IsLeast(s: set<Hash>, m: Hash) {
    m in s && forall x :: x in s ==> m <= x
  }

  function Least(s: set<Hash>): (m: Hash)
    requires s != {}
    ensures IsLeast(s, m)
  {
    LeastExists(s);
    var m :| m in s && IsLeast(s, m);
    m
  }

  predicate Ascending(r: seq<Hash>) {
    forall i, j :: 0 <= i < j < |r| ==> r[i] < r[j]
  }

  /** `sorted(set)` */
  function Sorted(s: set<Hash>): (r: seq<Hash>)
    ensures Elements(r) == s && Ascending(r)
  {
    if s == {} then []
    else
      var rest := Sorted(s - {Least(s)});
      SortedStep(s, rest);
      [Least(s)] + rest
  }

  lemma SortedStep(s: set<Hash>, rest: seq<Hash>)
    requires s != {} && Elements(rest) == s - {Least(s)} && Ascending(rest)
    ensures Elements([Least(s)] + rest) == s && Ascending([Least(s)] + rest)
  {
    var m := Least(s);
    forall i | 0 <= i < |rest| ensures m < rest[i] {
      assert rest[i] in Elements(rest);
    }
    assert Elements([m] + rest) == {m} + Elements(rest);
  }

  /** The hashes a replay starts from; anything but a list of text under the entry is refused. */
  function PriorSeen(session: SessionField): Result<set<Hash>> {
    match session
    case Dict(_, Hashes(items)) => Ok(Elements(items))
    case Dict(_, Malformed) => Err
    case _ => Ok({})
  }

  // ---------------------------------------------------------------- replay

  function SequenceOf(key: Option<int>): Result<int> {
    match key
    case None => Ok(0)
    case Some(n) => if n < 0 then Err else Ok(n)
  }

  /** The cursor a base document gives. */
  function Start(base: Base): Result<Cursor> {
    match base
    case Absent => Ok(Cursor(EMPTY_META, None, 0, []))
    case Blank => Ok(Cursor(EMPTY_META, None, 0, []))
    case Legacy(messages) => Ok(Cursor(EMPTY_META, None, 0, messages))
    case Object(s) =>
      (match SequenceOf(s.sequence)
       case Err => Err
       case Ok(n) => Ok(Cursor(s.meta, s.sequence, n, s.messages)))
    case Misshapen(_) => Err
    case Unreadable => Err
  }

  /** The sequence a base document carries, which takes no valid messages to read. */
  function BaseSequence(base: Base): Result<int> {
    match base
    case Object(s) => SequenceOf(s.sequence)
    case Misshapen(stored) => SequenceOf(stored)
    case Unreadable => Err
    case _ => Ok(0)
  }

  lemma StartHasTheBaseSequence(base: Base)
    requires Start(base).Ok?
    ensures BaseSequence(base) == Ok(Start(base).value.sequence)
  {
  }

  /** One iteration of the replay loop. */
  function Apply(cur: Cursor, r: Record): Result<Cursor> {
    if r.sequence < 1 then Err
    else if r.sequence <= cur.sequence then Ok(cur)
    else if r.replaceFrom < 0 || r.messageCount < 0 || r.replaceFrom > |cur.messages| || !r.shaped then Err
    else
      var messages := cur.messages[..r.replaceFrom] + r.messages;
      if |messages| != r.messageCount then Err
      else
        match PriorSeen(cur.meta.session)
        case Err => Err
        case Ok(prior) =>
          var seen := (if r.reset then {} else prior) + Elements(r.added);
          var fields := if r.meta.session.Dict? then r.meta.session.fields else map[];
          Ok(Cursor(Meta(r.meta.fields, Dict(fields, Hashes(Sorted(seen)))), Some(r.sequence), r.sequence, messages))
  }

  function Replay(cur: Cursor, rs: seq<Record>): Result<Cursor>
    decreases |rs|
  {
    if rs == [] then Ok(cur)
    else
      match Apply(cur, rs[0])
      case Err => Err
      case Ok(next) => Replay(next, rs[1..])
  }

  /** The end of a load: an empty transcript is given the system prompt only where no
      document was there to hold one. */
  function Finish(base: Base, cur: Cursor, prompt: Message): Result<Snapshot> {
    if cur.messages != [] then Ok(Snapshot(cur.meta, cur.key, cur.messages))
    else if base.Absent? || base.Blank? then Ok(Snapshot(cur.meta, cur.key, [prompt]))
    else Err
  }

  /** `_load_snapshot_unlocked`, once the journal has been read. */
  function Load(base: Base, rs: seq<Record>, prompt: Message): Result<Snapshot> {
    if base.Absent? && rs == [] then Err
    else
      match Start(base)
      case Err => Err
      case Ok(cur) =>
        match Replay(cur, rs)
        case Err => Err
        case Ok(end) => Finish(base, end, prompt)
  }

  /** The replay loop itself. */
  method ReplayRecords(cur: Cursor, rs: seq<Record>) returns (end: Result<Cursor>)
    ensures end == Replay(cur, rs)
  {
    var now := cur;
    var i := 0;
    while i < |rs|
      invariant 0 <= i <= |rs|
      invariant Replay(cur, rs) == Replay(now, rs[i..])
    {
      match Apply(now, rs[i]) {
        case Err => return Err;
        case Ok(next) =>
          assert rs[i..][0] == rs[i] && rs[i..][1..] == rs[i + 1..];
          now := next;
      }
      i := i + 1;
    }
    end := Ok(now);
  }

  /** `_newest_persisted_sequence` */
  function Newest(base: Base, rs: seq<Record>): (n: Result<int>)
    ensures n.Ok? ==> n.value >= 0 && forall r :: r in rs ==> 1 <= r.sequence <= n.value
    ensures n.Ok? ==> BaseSequence(base).Ok? && BaseSequence(base).value <= n.value
    ensures n.Ok? && n.value > BaseSequence(base).value ==> exists r :: r in rs && r.sequence == n.value
    decreases |rs|
  {
    if rs == [] then BaseSequence(base)
    else
      var last := rs[|rs| - 1];
      match Newest(base, rs[..|rs| - 1])
      case Err => Err
      case Ok(n) =>
        assert forall r :: r in rs ==> r in rs[..|rs| - 1] || r == last;
        if last.sequence < 1 then Err else Ok(if last.sequence > n then last.sequence else n)
  }

  method NewestPersistedSequence(base: Base, rs: seq<Record>) returns (newest: Result<int>)
    ensures newest == Newest(base, rs)
  {
    var n := 0;
    match BaseSequence(base) {
      case Err => return Err;
      case Ok(stored) => n := stored;
    }
    var i := 0;
    while i < |rs|
      invariant 0 <= i <= |rs|
      invariant Newest(base, rs[..i]) == Ok(n)
    {
      assert rs[..i + 1][..i] == rs[..i] && rs[..i + 1][i] == rs[i];
      if rs[i].sequence < 1 {
        NewestFails(base, rs, i + 1);
        return Err;
      }
      n := if rs[i].sequence > n then rs[i].sequence else n;
      i := i + 1;
    }
    assert rs[..|rs|] == rs;
    newest := Ok(n);
  }

  lemma {:induction false} NewestFails(base: Base, rs: seq<Record>, i: nat)
    requires i <= |rs| && Newest(base, rs[..i]).Err?
    ensures Newest(base, rs).Err?
    decreases |rs| - i
  {
    if i == |rs| {
      assert rs[..i] == rs;
    } else {
      assert rs[..i + 1][..i] == rs[..i];
      NewestFails(base, rs, i + 1);
    }
  }

  // ---------------------------------------------------------------- laws of replay

  lemma {:induction false} ReplayConcat(cur: Cursor, a: seq<Record>, b: seq<Record>)
    ensures Replay(cur, a + b) == if Replay(cur, a).Err? then Err else Replay(Replay(cur, a).value, b)
    decreases |a|
  {
    if a == [] {
      assert a + b == b;
    } else {
      assert (a + b)[1..] == a[1..] + b;
      if Apply(cur, a[0]).Ok? { ReplayConcat(Apply(cur, a[0]).value, a[1..], b); }
    }
  }

  /** Records that a base already covers are skipped. */
  lemma {:induction false} CoveredRecordsAreSkipped(cur: Cursor, rs: seq<Record>)
    requires forall r :: r in rs ==> 1 <= r.sequence <= cur.sequence
    ensures Replay(cur, rs) == Ok(cur)
    decreases |rs|
  {
    if rs != [] {
      assert rs[0] in rs;
      assert forall r :: r in rs[1..] ==> r in rs;
      CoveredRecordsAreSkipped(cur, rs[1..]);
    }
  }

  /** A replay only moves forward, and its cursor ends at the newest sequence it was given. */
  lemma {:induction false} ReplayReachesNewest(cur: Cursor, rs: seq<Record>)
    requires Replay(cur, rs).Ok?
    ensures var end := Replay(cur, rs).value;
            && cur.sequence <= end.sequence
            && (forall r :: r in rs ==> 1 <= r.sequence <= end.sequence)
            && (end == cur || (end.key == Some(end.sequence) && exists r :: r in rs && r.sequence == end.sequence))
    decreases |rs|
  {
    if rs != [] {
      var next := Apply(cur, rs[0]).value;
      ReplayReachesNewest(next, rs[1..]);
      assert forall r :: r in rs ==> r == rs[0] || r in rs[1..];
      assert rs[0] in rs && forall r :: r in rs[1..] ==> r in rs;
    }
  }

  /** Where a load succeeds, the cursor's end is what `_newest_persisted_sequence` reports. */
  lemma NewestIsTheReplayedSequence(base: Base, rs: seq<Record>)
    requires Start(base).Ok? && Replay(Start(base).value, rs).Ok?
    ensures Newest(base, rs) == Ok(Replay(Start(base).value, rs).value.sequence)
  {
    var cur := Start(base).value;
    StartHasTheBaseSequence(base);
    ReplayReachesNewest(cur, rs);
    NewestSucceeds(base, rs);
    var end, n := Replay(cur, rs).value, Newest(base, rs).value;
    assert end.sequence <= n by {
      if end != cur {
        var r :| r in rs && r.sequence == end.sequence;
      }
    }
    assert n <= end.sequence by {
      if n > cur.sequence {
        var r :| r in rs && r.sequence == n;
      }
    }
  }

  lemma {:induction false} NewestSucceeds(base: Base, rs: seq<Record>)
    requires BaseSequence(base).Ok? && forall r :: r in rs ==> 1 <= r.sequence
    ensures Newest(base, rs).Ok?
    decreases |rs|
  {
    if rs != [] {
      var init := rs[..|rs| - 1];
      assert forall r :: r in init ==> r in rs;
      assert rs[|rs| - 1] in rs;
      NewestSucceeds(base, init);
    }
  }

  /** "Absolute, idempotent": a delta that reached the journal twice loads as if it had once. */
  lemma RepeatedDeltaLoadsOnce(base: Base, rs: seq<Record>, r: Record, prompt: Message)
    requires r.sequence >= 1
    ensures Load(base, rs + [r] + [r], prompt) == Load(base, rs + [r], prompt)
  {
    var once, twice := rs + [r], rs + [r] + [r];
    assert once != [] && twice != [];
    if Start(base).Ok? {
      var cur := Start(base).value;
      ReplayConcat(cur, once, [r]);
      if Replay(cur, once).Ok? {
        var end := Replay(cur, once).value;
        ReplayReachesNewest(cur, once);
        assert r in once;
        CoveredRecordsAreSkipped(end, [r]);
      }
    }
  }

  // ---------------------------------------------------------------- normal forms

  /** Replay's own normal form of the session entry, as `_checkpoint_states_equal` computes it. */
  function NormalSession(session: SessionField): SessionField {
    match session
    case Dict(fields, NoSeen) => Dict(fields, Hashes([]))
    case Dict(fields, Hashes(items)) => Dict(fields, Hashes(Sorted(Elements(items))))
    case Dict(fields, Malformed) => session
    case _ => Dict(map[], Hashes([]))
  }

  function Normal(s: Snapshot): Snapshot {
    s.(meta := s.meta.(session := NormalSession(s.meta.session)))
  }

  predicate StatesEqual(persisted: Snapshot, candidate: Snapshot) {
    Normal(persisted) == Normal(candidate)
  }

  /** Cursors that replay cannot tell apart. */
  ghost predicate SameFuture(a: Cursor, b: Cursor) {
    && a.sequence == b.sequence
    && a.messages == b.messages
    && NormalSession(a.meta.session) == NormalSession(b.meta.session)
  }

  /** From such cursors, any newer deltas replay to exactly the same end. */
  lemma NewerDeltasForgetTheForm(a: Cursor, b: Cursor, rs: seq<Record>)
    requires SameFuture(a, b)
    requires rs != [] && rs[0].sequence > a.sequence
    ensures Replay(a, rs) == Replay(b, rs)
  {
  }

  // ---------------------------------------------------------------- what the hashes mean

  /** The hashes that a run of deltas leaves: everything added since the last reset, over
      the prior hashes if there was none. */
  ghost function SeenSince(prior: set<Hash>, rs: seq<Record>): set<Hash>
    decreases |rs|
  {
    if rs == [] then prior
    else
      var last := rs[|rs| - 1];
      (if last.reset then {} else SeenSince(prior, rs[..|rs| - 1])) + Elements(last.added)
  }

  ghost predicate Increasing(from: int, rs: seq<Record>) {
    && (forall i :: 0 <= i < |rs| ==> from < rs[i].sequence)
    && (forall i, j :: 0 <= i < j < |rs| ==> rs[i].sequence < rs[j].sequence)
  }

  lemma AppliedHashes(cur: Cursor, r: Record)
    requires Apply(cur, r).Ok? && r.sequence > cur.sequence
    ensures PriorSeen(cur.meta.session).Ok?
    ensures Apply(cur, r).value.sequence == r.sequence
    ensures PriorSeen(Apply(cur, r).value.meta.session)
            == Ok((if r.reset then {} else PriorSeen(cur.meta.session).value) + Elements(r.added))
  {
  }

  lemma ReplayOne(cur: Cursor, r: Record)
    ensures Replay(cur, [r]) == Apply(cur, r)
  {
  }

  /** For deltas in sequence order, replay leaves exactly those hashes. */
  lemma {:induction false} ReplayedHashes(cur: Cursor, rs: seq<Record>)
    requires Replay(cur, rs).Ok? && PriorSeen(cur.meta.session).Ok?
    requires Increasing(cur.sequence, rs)
    ensures PriorSeen(Replay(cur, rs).value.meta.session) == Ok(SeenSince(PriorSeen(cur.meta.session).value, rs))
    ensures rs != [] ==> Replay(cur, rs).value.sequence == rs[|rs| - 1].sequence
    decreases |rs|
  {
    if rs != [] {
      var init, last := rs[..|rs| - 1], rs[|rs| - 1];
      assert rs == init + [last];
      ReplayConcat(cur, init, [last]);
      var mid := Replay(cur, init).value;
      ReplayOne(mid, last);
      assert Increasing(cur.sequence, init);
      ReplayedHashes(cur, init);
      if init != [] {
        assert init[|init| - 1] == rs[|rs| - 2];
      }
      AppliedHashes(mid, last);
    }
  }

  // ---------------------------------------------------------------- which deltas apply

  /** Over a transcript of `count` messages at `sequence`: every delta that is newer than what came
      before replaces from inside the transcript and counts its messages right. */
  predicate Applies(count: nat, sequence: int, rs: seq<Record>)
    decreases |rs|
  {
    rs == [] ||
    (var r := rs[0];
     r.sequence >= 1 &&
     if r.sequence <= sequence then Applies(count, sequence, rs[1..])
     else
       && 0 <= r.replaceFrom <= count && r.shaped && r.messageCount == r.replaceFrom + |r.messages|
       && Applies(r.messageCount, r.sequence, rs[1..]))
  }

  /** The message count of the last of those deltas. */
  function LastCount(count: nat, sequence: int, rs: seq<Record>): int
    decreases |rs|
  {
    if rs == [] then count
    else if rs[0].sequence <= sequence || rs[0].messageCount < 0 then LastCount(count, sequence, rs[1..])
    else LastCount(rs[0].messageCount, rs[0].sequence, rs[1..])
  }

  /** Replay succeeds exactly when the deltas apply, and leaves as many messages as the last says. */
  lemma {:induction false} ReplaysIffApplies(cur: Cursor, rs: seq<Record>)
    requires PriorSeen(cur.meta.session).Ok?
    ensures Replay(cur, rs).Ok? <==> Applies(|cur.messages|, cur.sequence, rs)
    ensures Replay(cur, rs).Ok? ==>
              && |Replay(cur, rs).value.messages| == LastCount(|cur.messages|, cur.sequence, rs)
              && PriorSeen(Replay(cur, rs).value.meta.session).Ok?
    decreases |rs|
  {
    if rs != [] && Apply(cur, rs[0]).Ok? {
      ReplaysIffApplies(Apply(cur, rs[0]).value, rs[1..]);
    }
  }
}
