/**
 Native thinking across requests: each provider view is remembered, and a later view may keep a
 thinking block only where everything before it is what it was.
 */
module AnthropicHistory {
  import opened Wrappers

  datatype Block = Block(thinking: bool, data: string)

  /** `blocks` is the native content of a provider state, when there is one. */
  datatype Message = Message(system: bool, compacted: bool, content: string, blocks: Option<seq<Block>>)

  type Tools = Option<seq<string>>

  datatype History = History(messages: seq<Message>, sourceCount: nat, tools: Tools)

  // ---------------------------------------------------------------- stripping

  function Kept(blocks: seq<Block>): seq<Block> {
    if blocks == [] then []
    else (if blocks[0].thinking then [] else [blocks[0]]) + Kept(blocks[1..])
  }

  /** A message without its thinking blocks. */
  function Bare(m: Message): Message {
    if m.blocks.None? then m else m.(blocks := Some(Kept(m.blocks.value)))
  }

  predicate Thinks(m: Message) {
    m.blocks.Some? && Thinking(m.blocks.value)
  }

  /** `_strip_anthropic_thinking` */
  function Strip(messages: seq<Message>, start: nat): (r: seq<Message>)
    ensures |r| == |messages|
    ensures forall i :: 0 <= i < |messages| ==> r[i] == if i < start then messages[i] else Bare(messages[i])
  {
    seq(|messages|, i requires 0 <= i < |messages| => if i < start then messages[i] else Bare(messages[i]))
  }

  predicate Thinking(blocks: seq<Block>) {
    exists i :: 0 <= i < |blocks| && blocks[i].thinking
  }

  lemma ThinkingFirst(blocks: seq<Block>)
    requires blocks != []
    ensures Thinking(blocks) <==> blocks[0].thinking || Thinking(blocks[1..])
  {
  }

  lemma {:induction false} KeptLengths(blocks: seq<Block>)
    ensures |Kept(blocks)| <= |blocks| && !Thinking(Kept(blocks))
    ensures if Thinking(blocks) then |Kept(blocks)| < |blocks| else Kept(blocks) == blocks
  {
    if blocks != [] {
      ThinkingFirst(blocks);
      KeptLengths(blocks[1..]);
      if !blocks[0].thinking {
        assert Kept(blocks)[1..] == Kept(blocks[1..]);
        ThinkingFirst(Kept(blocks));
        assert blocks == [blocks[0]] + blocks[1..];
      }
    }
  }

  lemma KeptIsIdempotent(blocks: seq<Block>)
    ensures Kept(Kept(blocks)) == Kept(blocks) && !Thinking(Kept(blocks))
    ensures |Kept(blocks)| <= |blocks|
    ensures |Kept(blocks)| == |blocks| <==> !Thinking(blocks)
    ensures |Kept(blocks)| == |blocks| ==> Kept(blocks) == blocks
  {
    KeptLengths(blocks);
    KeptLengths(Kept(blocks));
  }

  /** Stripping takes away thinking, nothing else, and takes all of it. */
  lemma BareIsBare(m: Message)
    ensures Bare(Bare(m)) == Bare(m) && !Thinks(Bare(m))
    ensures !Thinks(m) <==> Bare(m) == m
    ensures Bare(m).(blocks := m.blocks) == m && Bare(m).blocks.Some? == m.blocks.Some?
  {
    if m.blocks.Some? { KeptIsIdempotent(m.blocks.value); }
  }

  /** The blocks that survive are the others, in their order. */
  lemma {:induction false} KeptAreTheOthers(blocks: seq<Block>, more: seq<Block>)
    ensures Kept(blocks + more) == Kept(blocks) + Kept(more)
  {
    if blocks == [] {
      assert blocks + more == more;
    } else {
      assert (blocks + more)[1..] == blocks[1..] + more;
      KeptAreTheOthers(blocks[1..], more);
      ConcatAssociates(if blocks[0].thinking then [] else [blocks[0]], Kept(blocks[1..]), Kept(more));
    }
  }

  // ---------------------------------------------------------------- editing

  /** The system messages that are not the product of compaction. */
  function Systems(messages: seq<Message>): seq<Message> {
    if messages == [] then []
    else (if messages[0].system && !messages[0].compacted then [messages[0]] else []) + Systems(messages[1..])
  }

  /** The first index from `from` on at which the two differ, within both. */
  function FirstEdit(before: seq<Message>, after: seq<Message>, from: nat): (d: Option<nat>)
    ensures d.Some? ==> from <= d.value < |before| && d.value < |after| && before[d.value] != after[d.value]
    ensures forall j :: from <= j < |before| && j < |after| && (d.Some? ==> j < d.value) ==> before[j] == after[j]
    decreases |before| - from
  {
    if from >= |before| || from >= |after| then None
    else if before[from] != after[from] then Some(from)
    else FirstEdit(before, after, from + 1)
  }

  /** `_edited_anthropic_history` */
  function Edited(before: seq<Message>, after: seq<Message>): (r: seq<Message>)
    ensures |r| == |after|
  {
    if Systems(before) != Systems(after) then Strip(after, 0)
    else
      var d := FirstEdit(before, after, 0);
      if d.Some? then Strip(after, d.value) else after
  }

  /** `after` repeats `before` up to and including `i`, as far as both go. */
  predicate Agree(before: seq<Message>, after: seq<Message>, i: nat) {
    forall j :: 0 <= j <= i && j < |before| && j < |after| ==> before[j] == after[j]
  }

  predicate Keeps(before: seq<Message>, after: seq<Message>, i: nat) {
    Systems(before) == Systems(after) && Agree(before, after, i)
  }

  /** An edit keeps exactly what has the same system messages and nothing changed up to it. */
  lemma EditedKeepsIff(before: seq<Message>, after: seq<Message>, i: nat)
    requires i < |after|
    ensures Edited(before, after)[i] == if Keeps(before, after, i) then after[i] else Bare(after[i])
  {
  }

  // ---------------------------------------------------------------- the views of a session

  function From(messages: seq<Message>, k: nat): seq<Message> {
    if k < |messages| then messages[k..] else []
  }

  /** `_anthropic_history_input` */
  function Input(history: Option<History>, transcript: seq<Message>): seq<Message> {
    if history.None? then transcript
    else history.value.messages + From(transcript, history.value.sourceCount)
  }

  /** `_remember_anthropic_history`, the view it returns and stores */
  function View(history: Option<History>, transcript: seq<Message>, messages: seq<Message>, tools: Tools): (r: seq<Message>)
    ensures |r| == |messages|
  {
    var edited := Edited(Input(history, transcript), messages);
    if history.None? then edited
    else
      var again := Edited(history.value.messages, edited);
      if history.value.tools != tools then Strip(again, 0) else again
  }

  /** What it takes for thinking at `i` to survive into the new view. */
  predicate Survives(history: Option<History>, transcript: seq<Message>, messages: seq<Message>, tools: Tools, i: nat) {
    && Keeps(Input(history, transcript), messages, i)
    && (history.Some? ==>
          && history.value.tools == tools
          && Keeps(history.value.messages, Edited(Input(history, transcript), messages), i))
  }

  lemma ViewKeepsIff(history: Option<History>, transcript: seq<Message>, messages: seq<Message>, tools: Tools, i: nat)
    requires i < |messages|
    ensures View(history, transcript, messages, tools)[i]
            == if Survives(history, transcript, messages, tools, i) then messages[i] else Bare(messages[i])
    ensures Bare(View(history, transcript, messages, tools)[i]) == Bare(messages[i])
  {
    var edited := Edited(Input(history, transcript), messages);
    EditedKeepsIff(Input(history, transcript), messages, i);
    BareIsBare(messages[i]);
    if history.Some? {
      EditedKeepsIff(history.value.messages, edited, i);
    }
  }

  lemma {:induction false} BareSystems(a: seq<Message>, b: seq<Message>)
    requires |a| == |b| && forall i :: 0 <= i < |a| ==> Bare(a[i]) == Bare(b[i])
    ensures BareAll(Systems(a)) == BareAll(Systems(b))
  {
    if a != [] {
      assert Bare(a[0]) == Bare(b[0]);
      forall i | 0 <= i < |a[1..]| ensures Bare(a[1..][i]) == Bare(b[1..][i]) { assert a[1..][i] == a[i + 1]; }
      BareSystems(a[1..], b[1..]);
      BareFirst(if a[0].system && !a[0].compacted then [a[0]] else [], Systems(a[1..]));
      BareFirst(if b[0].system && !b[0].compacted then [b[0]] else [], Systems(b[1..]));
    }
  }

  function BareAll(messages: seq<Message>): seq<Message> {
    seq(|messages|, i requires 0 <= i < |messages| => Bare(messages[i]))
  }

  lemma BareFirst(first: seq<Message>, rest: seq<Message>)
    ensures BareAll(first + rest) == BareAll(first) + BareAll(rest)
  {
  }

  /** A thinking block in the new view sits after exactly the prefix that the previous view had
      there, under the same tools and, thinking aside, the same system messages. */
  lemma ThinkingHasItsPrefix(history: History, transcript: seq<Message>, messages: seq<Message>, tools: Tools, i: nat)
    requires i < |messages| && Thinks(View(Some(history), transcript, messages, tools)[i])
    ensures var view := View(Some(history), transcript, messages, tools);
            && history.tools == tools
            && BareAll(Systems(view)) == BareAll(Systems(history.messages))
            && (forall j :: 0 <= j <= i && j < |history.messages| ==> view[j] == history.messages[j])
  {
    var view := View(Some(history), transcript, messages, tools);
    var edited := Edited(Input(Some(history), transcript), messages);
    ViewKeepsIff(Some(history), transcript, messages, tools, i);
    BareIsBare(messages[i]);
    forall j | 0 <= j < |messages| ensures Bare(view[j]) == Bare(edited[j]) {
      ViewKeepsIff(Some(history), transcript, messages, tools, j);
      EditedKeepsIff(Input(Some(history), transcript), messages, j);
      BareIsBare(messages[j]);
    }
    BareSystems(view, edited);
    forall j | 0 <= j <= i && j < |history.messages| ensures view[j] == history.messages[j] {
      ViewKeepsIff(Some(history), transcript, messages, tools, j);
      EditedKeepsIff(Input(Some(history), transcript), messages, j);
    }
  }

  // ---------------------------------------------------------------- where thinking comes from

  /** A view's thinking at `i` is the input's, behind the input's own prefix. */
  ghost predicate FromInput(input: seq<Message>, view: seq<Message>, i: nat)
    requires i < |view|
  {
    i < |input| && view[..i + 1] == input[..i + 1]
  }

  /** Within the input's length, thinking in a view was in the input at that place, behind the same
      prefix: in the previous view there, or in a transcript message that no view has taken in. */
  lemma ThinkingComesFromInput(history: Option<History>, transcript: seq<Message>, messages: seq<Message>, tools: Tools, i: nat)
    requires i < |messages| && i < |Input(history, transcript)| && Thinks(View(history, transcript, messages, tools)[i])
    ensures FromInput(Input(history, transcript), View(history, transcript, messages, tools), i)
  {
    ViewKeepsIff(history, transcript, messages, tools, i);
    BareIsBare(messages[i]);
    forall j | 0 <= j <= i ensures View(history, transcript, messages, tools)[j] == Input(history, transcript)[j] {
      ViewKeepsIff(history, transcript, messages, tools, j);
    }
  }

  lemma {:induction false} SystemsConcat(a: seq<Message>, b: seq<Message>)
    ensures Systems(a + b) == Systems(a) + Systems(b)
  {
    if a == [] {
      assert a + b == b;
    } else {
      assert (a + b)[1..] == a[1..] + b;
      SystemsConcat(a[1..], b);
      ConcatAssociates(if a[0].system && !a[0].compacted then [a[0]] else [], Systems(a[1..]), Systems(b));
    }
  }

  /** Nothing keeps thinking beyond the input: the tools changed, or the transcript brought a system
      message that the previous view does not have. */
  predicate Guarded(history: Option<History>, transcript: seq<Message>, tools: Tools) {
    history.Some? && (history.value.tools != tools || Systems(From(transcript, history.value.sourceCount)) != [])
  }

  lemma BeyondTheInput(history: Option<History>, transcript: seq<Message>, messages: seq<Message>, tools: Tools, i: nat)
    requires |Input(history, transcript)| <= i < |messages| && Guarded(history, transcript, tools)
    ensures !Thinks(View(history, transcript, messages, tools)[i])
  {
    ViewKeepsIff(history, transcript, messages, tools, i);
    BareIsBare(messages[i]);
    SystemsConcat(history.value.messages, From(transcript, history.value.sourceCount));
    if Keeps(Input(history, transcript), messages, i) {
      assert Edited(Input(history, transcript), messages) == messages;
    }
  }

  const Thought := Message(false, false, "", Some([Block(true, "")]))

  function Thoughts(n: nat): seq<Message> {
    seq(n, _ => Thought)
  }

  lemma {:induction false} ThoughtsAreNoSystems(n: nat)
    ensures Systems(Thoughts(n)) == []
  {
    if n > 0 {
      assert Thoughts(n)[1..] == Thoughts(n - 1);
      ThoughtsAreNoSystems(n - 1);
    }
  }

  /** Sent after the unedited input, new thinking is kept, wherever nothing guards against it. */
  lemma AppendedThinkingIsKept(history: Option<History>, transcript: seq<Message>, tools: Tools, n: nat)
    requires n > |Input(history, transcript)| && !Guarded(history, transcript, tools)
    ensures var input := Input(history, transcript);
            var messages := input + Thoughts(n - |input|);
            |messages| == n && View(history, transcript, messages, tools)[|input|] == Thought && Thinks(Thought)
  {
    var input := Input(history, transcript);
    var messages := input + Thoughts(n - |input|);
    SystemsConcat(input, Thoughts(n - |input|));
    ThoughtsAreNoSystems(n - |input|);
    assert Edited(input, messages) == messages;
    ViewKeepsIff(history, transcript, messages, tools, |input|);
    if history.Some? {
      SystemsConcat(history.value.messages, From(transcript, history.value.sourceCount));
    }
    assert Thought.blocks.value[0].thinking;
  }

  /** All the thinking of a view is its input's. */
  ghost predicate NothingNew(history: Option<History>, transcript: seq<Message>, messages: seq<Message>, tools: Tools) {
    forall i :: 0 <= i < |messages| && Thinks(View(history, transcript, messages, tools)[i]) ==>
      FromInput(Input(history, transcript), View(history, transcript, messages, tools), i)
  }

  lemma NothingNewWithin(history: Option<History>, transcript: seq<Message>, messages: seq<Message>, tools: Tools)
    requires |messages| <= |Input(history, transcript)| || Guarded(history, transcript, tools)
    ensures NothingNew(history, transcript, messages, tools)
  {
    forall i | 0 <= i < |messages|
      ensures Thinks(View(history, transcript, messages, tools)[i]) ==>
                FromInput(Input(history, transcript), View(history, transcript, messages, tools), i)
    {
      if i >= |Input(history, transcript)| {
        BeyondTheInput(history, transcript, messages, tools, i);
      } else if Thinks(View(history, transcript, messages, tools)[i]) {
        ThinkingComesFromInput(history, transcript, messages, tools, i);
      }
    }
  }

  /** When a call can be trusted to bring no thinking that its input did not have at that place,
      whatever it sends: exactly when it sends no more messages than the input has, or is guarded. */
  lemma NothingNewIff(history: Option<History>, transcript: seq<Message>, tools: Tools, n: nat)
    ensures (forall messages :: |messages| == n ==> NothingNew(history, transcript, messages, tools))
            <==> n <= |Input(history, transcript)| || Guarded(history, transcript, tools)
  {
    var input := Input(history, transcript);
    if n <= |input| || Guarded(history, transcript, tools) {
      forall messages | |messages| == n ensures NothingNew(history, transcript, messages, tools) {
        NothingNewWithin(history, transcript, messages, tools);
      }
    } else {
      AppendedThinkingIsKept(history, transcript, tools, n);
      var messages := input + Thoughts(n - |input|);
      assert !FromInput(input, View(history, transcript, messages, tools), |input|);
      assert !NothingNew(history, transcript, messages, tools);
    }
  }

  // ---------------------------------------------------------------- runs of views

  /** One request: the transcript at that time, the messages to send, and the tools. */
  datatype Request = Request(transcript: seq<Message>, messages: seq<Message>, tools: Tools)

  function Next(history: History, r: Request): History {
    History(View(Some(history), r.transcript, r.messages, r.tools), |r.transcript|, r.tools)
  }

  /** What is remembered after the first `n` requests. */
  function After(history: History, requests: seq<Request>, n: nat): History
    requires n <= |requests|
  {
    if n == 0 then history else Next(After(history, requests, n - 1), requests[n - 1])
  }

  /** After `m` requests the view agrees with `last` up to and including `i`, under the same tools
      and, thinking aside, the same system messages. */
  ghost predicate SameUpTo(h: History, last: History, i: nat) {
    && i < |h.messages| && i < |last.messages| && h.messages[..i + 1] == last.messages[..i + 1]
    && h.tools == last.tools && BareAll(Systems(h.messages)) == BareAll(Systems(last.messages))
  }

  /** What stands at `i` in a view that request `r` makes of `h` is a transcript message that `h` did
      not reach and no view has taken in. */
  ghost predicate Enters(h: History, r: Request, i: nat, m: Message) {
    && |h.messages| <= i
    && h.sourceCount + (i - |h.messages|) < |r.transcript| && m == r.transcript[h.sourceCount + (i - |h.messages|)]
  }

  /** At `i`, no request goes beyond its input. */
  ghost predicate WithinInputs(history: History, requests: seq<Request>, n: nat, i: nat)
    requires n <= |requests|
  {
    n > 0 ==>
      && WithinInputs(history, requests, n - 1, i)
      && (i < |requests[n - 1].messages| ==>
            i < |Input(Some(After(history, requests, n - 1)), requests[n - 1].transcript)|)
  }

  lemma SameStep(h: History, r: Request, i: nat)
    requires i < |h.messages| && i < |r.messages| && Thinks(Next(h, r).messages[i])
    ensures SameUpTo(h, Next(h, r), i) && Thinks(h.messages[i])
  {
    ThinkingHasItsPrefix(h, r.transcript, r.messages, r.tools, i);
    assert h.messages[..i + 1] == Next(h, r).messages[..i + 1];
  }

  lemma EntersStep(h: History, r: Request, i: nat)
    requires |h.messages| <= i < |r.messages| && i < |Input(Some(h), r.transcript)| && Thinks(Next(h, r).messages[i])
    ensures Enters(h, r, i, Next(h, r).messages[i])
  {
    ThinkingComesFromInput(Some(h), r.transcript, r.messages, r.tools, i);
    var view, input := Next(h, r).messages, Input(Some(h), r.transcript);
    assert view[i] == view[..i + 1][i] == input[..i + 1][i] == input[i];
  }

  /** After `m` requests as after `n`, up to and including `i`. */
  ghost predicate SameAt(history: History, requests: seq<Request>, m: nat, n: nat, i: nat)
    requires m <= |requests| && n <= |requests|
  {
    SameUpTo(After(history, requests, m), After(history, requests, n), i)
  }

  /** From which view on thinking has sat where it is found at the end. */
  ghost predicate SitsSince(history: History, requests: seq<Request>, n: nat, i: nat, k: nat)
    requires n <= |requests|
  {
    && k <= n && i < |After(history, requests, n).messages|
    && (forall m :: k <= m <= n ==> SameAt(history, requests, m, n, i))
    && (k > 0 ==> Enters(After(history, requests, k - 1), requests[k - 1], i, After(history, requests, n).messages[i]))
  }

  lemma SitsOn(history: History, requests: seq<Request>, n: nat, i: nat, k: nat)
    requires 0 < n <= |requests| && SitsSince(history, requests, n - 1, i, k)
    requires SameUpTo(After(history, requests, n - 1), After(history, requests, n), i)
    ensures SitsSince(history, requests, n, i, k)
  {
    var h, last := After(history, requests, n - 1), After(history, requests, n);
    assert h.messages[i] == h.messages[..i + 1][i] == last.messages[..i + 1][i] == last.messages[i];
    forall m | k <= m <= n ensures SameAt(history, requests, m, n, i) {
      if m < n { assert SameAt(history, requests, m, n - 1, i); }
    }
  }

  lemma SitsNow(history: History, requests: seq<Request>, n: nat, i: nat)
    requires n <= |requests| && i < |After(history, requests, n).messages|
    requires n > 0 ==> Enters(After(history, requests, n - 1), requests[n - 1], i, After(history, requests, n).messages[i])
    ensures SitsSince(history, requests, n, i, n)
  {
    assert SameAt(history, requests, n, n, i);
  }

  lemma WithinFewer(history: History, requests: seq<Request>, n: nat, i: nat)
    requires 0 < n <= |requests| && WithinInputs(history, requests, n, i)
    ensures WithinInputs(history, requests, n - 1, i)
    ensures i < |After(history, requests, n).messages| ==>
              i < |Input(Some(After(history, requests, n - 1)), requests[n - 1].transcript)|
  {
  }

  /** The last request found the thinking in the view before, or took it in. */
  lemma OldOrEntering(history: History, requests: seq<Request>, n: nat, i: nat)
    requires 0 < n <= |requests|
    requires i < |After(history, requests, n).messages| && Thinks(After(history, requests, n).messages[i])
    requires i < |Input(Some(After(history, requests, n - 1)), requests[n - 1].transcript)|
    ensures var h, last := After(history, requests, n - 1), After(history, requests, n);
            if i < |h.messages| then SameUpTo(h, last, i) && Thinks(h.messages[i])
            else Enters(h, requests[n - 1], i, last.messages[i])
  {
    var h, r := After(history, requests, n - 1), requests[n - 1];
    if i < |h.messages| { SameStep(h, r, i); } else { EntersStep(h, r, i); }
  }

  /** Over any run of views, shrinking ones included: thinking found at `i` at the end has sat there,
      behind the same prefix, since the first view, or since a view that took it in from a
      transcript message which no view had taken in before. */
  lemma {:induction false} ThinkingSatThereSince(history: History, requests: seq<Request>, n: nat, i: nat) returns (k: nat)
    requires n <= |requests| && WithinInputs(history, requests, n, i)
    requires i < |After(history, requests, n).messages| && Thinks(After(history, requests, n).messages[i])
    ensures SitsSince(history, requests, n, i, k)
    decreases n
  {
    if n == 0 {
      k := 0;
      SitsNow(history, requests, 0, i);
      return;
    }
    WithinFewer(history, requests, n, i);
    OldOrEntering(history, requests, n, i);
    if i < |After(history, requests, n - 1).messages| {
      k := ThinkingSatThereSince(history, requests, n - 1, i);
      SitsOn(history, requests, n, i, k);
    } else {
      k := n;
      SitsNow(history, requests, n, i);
    }
  }

  /** Transcripts only grow. */
  ghost predicate Growing(history: History, requests: seq<Request>) {
    && (forall k :: 0 <= k < |requests| ==> history.sourceCount <= |requests[k].transcript|)
    && (forall j, k :: 0 <= j <= k < |requests| ==> |requests[j].transcript| <= |requests[k].transcript|)
  }

  lemma SourceCount(history: History, requests: seq<Request>, m: nat)
    requires m <= |requests|
    ensures After(history, requests, m).sourceCount == if m == 0 then history.sourceCount else |requests[m - 1].transcript|
  {
  }

  /** A removed block never returns: if some view had other things, or nothing, where thinking is
      found at the end, that thinking came later, from a transcript message newer than everything
      that view was made of. */
  lemma RemovedThinkingNeverReturns(history: History, requests: seq<Request>, i: nat, m: nat) returns (k: nat)
    requires m <= |requests| && WithinInputs(history, requests, |requests|, i) && Growing(history, requests)
    requires var last := After(history, requests, |requests|);
             i < |last.messages| && Thinks(last.messages[i]) && !SameUpTo(After(history, requests, m), last, i)
    ensures m < k <= |requests|
    ensures var h := After(history, requests, k - 1);
            && Enters(h, requests[k - 1], i, After(history, requests, |requests|).messages[i])
            && After(history, requests, m).sourceCount <= h.sourceCount
  {
    k := ThinkingSatThereSince(history, requests, |requests|, i);
    assert k <= m ==> SameAt(history, requests, m, |requests|, i);
    SourceCount(history, requests, m);
    SourceCount(history, requests, k - 1);
  }

  /** Beyond its input a request can bring a removed block back: a view that is cut to `a` and then
      sent `a`, `t` again shows `t` again, for the comparison stops where the shorter one ends. */
  lemma RemovedThinkingMayReturn(a: Message)
    requires !a.system
    ensures var h := History([a, Thought], 2, None);
            var requests := [Request([a, Thought], [a], None), Request([a, Thought], [a, Thought], None)];
            && Growing(h, requests) && Thinks(Thought)
            && After(h, requests, 1).messages == [a] && After(h, requests, 2).messages == [a, Thought]
            && !WithinInputs(h, requests, 2, 1)
  {
    var h := History([a, Thought], 2, None);
    var requests := [Request([a, Thought], [a], None), Request([a, Thought], [a, Thought], None)];
    assert From([a, Thought], 2) == [] && From([a, Thought], 1 + 1) == [];
    PairHasNoSystems(a);
    assert Input(Some(h), [a, Thought]) == [a, Thought];
    assert View(Some(h), [a, Thought], [a], None) == [a];
    var cut := After(h, requests, 1);
    assert cut == Next(After(h, requests, 0), requests[0]) == History([a], 2, None);
    assert Input(Some(cut), [a, Thought]) == [a];
    assert View(Some(cut), [a, Thought], [a, Thought], None) == [a, Thought];
    assert After(h, requests, 2) == Next(cut, requests[1]);
    assert Thought.blocks.value[0].thinking;
  }

  lemma PairHasNoSystems(a: Message)
    requires !a.system
    ensures Systems([a]) == [] && Systems([a, Thought]) == []
  {
    var none: seq<Message> := [a][1..];
    assert none == [] && [a, Thought][1..] == [Thought];
    ThoughtsAreNoSystems(1);
    assert Thoughts(1) == [Thought];
  }

  // ---------------------------------------------------------------- recovery

  function CountThinking(messages: seq<Message>): nat {
    if messages == [] then 0
    else (if messages[0].blocks.None? then 0 else |messages[0].blocks.value| - KeptLength(messages[0].blocks.value))
         + CountThinking(messages[1..])
  }

  function KeptLength(blocks: seq<Block>): (n: nat)
    ensures n <= |blocks|
  {
    KeptIsIdempotent(blocks);
    |Kept(blocks)|
  }

  lemma {:induction false} NoThinkingNoCount(messages: seq<Message>)
    ensures CountThinking(messages) == 0 <==> forall i :: 0 <= i < |messages| ==> !Thinks(messages[i])
  {
    if messages != [] {
      NoThinkingNoCount(messages[1..]);
      BareIsBare(messages[0]);
      if messages[0].blocks.Some? { KeptIsIdempotent(messages[0].blocks.value); }
      assert forall i :: 0 < i < |messages| ==> messages[i] == messages[1..][i - 1];
    }
  }

  /** `_recover_anthropic_history` once the provider has rejected a prefix */
  function Recovered(history: Option<History>, transcript: seq<Message>, messages: seq<Message>, tools: Tools): Option<(seq<Message>, nat)> {
    var removed := CountThinking(messages);
    if removed == 0 then None else Some((View(history, transcript, Strip(messages, 0), tools), removed))
  }

  /** Recovery is refused exactly when there is no thinking to retire; otherwise none is left. */
  lemma RecoveryRetiresAllThinking(history: Option<History>, transcript: seq<Message>, messages: seq<Message>, tools: Tools)
    ensures var r := Recovered(history, transcript, messages, tools);
            && (r == None <==> forall i :: 0 <= i < |messages| ==> !Thinks(messages[i]))
            && (r.Some? ==> |r.value.0| == |messages| && forall i :: 0 <= i < |messages| ==> r.value.0[i] == Bare(messages[i]))
  {
    NoThinkingNoCount(messages);
    var bare := Strip(messages, 0);
    forall i | 0 <= i < |messages| ensures View(history, transcript, bare, tools)[i] == Bare(messages[i]) {
      ViewKeepsIff(history, transcript, bare, tools, i);
      BareIsBare(messages[i]);
    }
  }

  // ---------------------------------------------------------------- the session's methods

  method StripAnthropicThinking(messages: seq<Message>, start: nat) returns (result: seq<Message>)
    ensures result == Strip(messages, start)
  {
    result := messages;
    var index := start;
    while index < |result|
      invariant |result| == |messages| && (start <= |messages| ==> start <= index <= |messages|)
      invariant forall i :: 0 <= i < |messages| ==>
                  result[i] == if start <= i < index then Bare(messages[i]) else messages[i]
    {
      var m := result[index];
      if m.blocks.Some? {
        KeptIsIdempotent(m.blocks.value);
        var kept := Kept(m.blocks.value);
        if |kept| != |m.blocks.value| {
          result := result[index := m.(blocks := Some(kept))];
        }
      }
      index := index + 1;
    }
  }

  method EditedAnthropicHistory(before: seq<Message>, after: seq<Message>) returns (result: seq<Message>)
    ensures result == Edited(before, after)
  {
    if Systems(before) != Systems(after) {
      result := StripAnthropicThinking(after, 0);
      return;
    }
    var index := 0;
    while index < |before| && index < |after|
      invariant FirstEdit(before, after, index) == FirstEdit(before, after, 0)
      invariant index <= |before| && index <= |after|
    {
      if before[index] != after[index] {
        result := StripAnthropicThinking(after, index);
        return;
      }
      index := index + 1;
    }
    result := after;
  }

  class Session {
    var transcript: seq<Message>
    var history: Option<History>

    constructor ()
      ensures transcript == [] && history == None
    {
      transcript, history := [], None;
    }

    method RememberAnthropicHistory(messages: seq<Message>, tools: Tools) returns (view: seq<Message>)
      modifies this
      ensures view == View(old(history), old(transcript), messages, tools)
      ensures transcript == old(transcript) && history == Some(History(view, |transcript|, tools))
    {
      view := EditedAnthropicHistory(Input(history, transcript), messages);
      if history.Some? {
        view := EditedAnthropicHistory(history.value.messages, view);
        if history.value.tools != tools {
          view := StripAnthropicThinking(view, 0);
        }
      }
      history := Some(History(view, |transcript|, tools));
    }
  }
}
