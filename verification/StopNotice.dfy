/**
 Stop notices: which teammate messages are unanswered, and the bounded notices that tell their
 senders that no answer will come.
 */
module StopNotice {
  import opened Wrappers
  import opened Decimals

  type Aid = nat
  /** A message identifier; each is used once. */
  type Mid = nat

  const MaxMessageBytes: nat := 8 * 1024
  const MaxInboxMessages: nat := 32
  const MaxInboxBytes: nat := 64 * 1024
  const MaxRoleBytes: nat := 128

  // ---------------------------------------------------------------- the text of a notice

  /** Bytes of a character in UTF-8. */
  function Width(c: char): (n: nat)
    ensures 1 <= n <= 4
  {
    if c < 128 as char then 1 else if c < 2048 as char then 2 else if c as int < 65536 then 3 else 4
  }

  /** `_encoded_size` */
  function EncodedSize(s: string): (n: nat)
    ensures |s| <= n
  {
    if s == "" then 0 else EncodedSize(s[..|s| - 1]) + Width(s[|s| - 1])
  }

  /** What `xml.sax.saxutils.escape` makes of a character */
  function EscapeChar(c: char): string {
    if c == '&' then "&amp;" else if c == '<' then "&lt;" else if c == '>' then "&gt;" else [c]
  }

  /** What `quoteattr` makes of one when it must also replace double quotes */
  function QuoteChar(c: char, quotes: bool): string {
    if c == '\n' then "&#10;" else if c == '\r' then "&#13;" else if c == '\t' then "&#9;"
    else if quotes && c == '"' then "&quot;" else EscapeChar(c)
  }

  function Escape(s: string): string {
    if s == "" then "" else Escape(s[..|s| - 1]) + EscapeChar(s[|s| - 1])
  }

  function Quoted(s: string, quotes: bool): string {
    if s == "" then "" else Quoted(s[..|s| - 1], quotes) + QuoteChar(s[|s| - 1], quotes)
  }

  function QuoteAttr(s: string): string {
    if '"' in s && '\'' !in s then "'" + Quoted(s, false) + "'"
    else "\"" + Quoted(s, true) + "\""
  }

  /** `_notice_xml` */
  function NoticeXml(aid: Aid, role: string, id: string, content: string): string {
    Opening(aid, role, id) + Escape(content) + "\n</team-notice>"
  }

  const AboutName := "<team-notice about="
  const RoleName := " role="
  const IdName := " message_id="

  function Opening(aid: Aid, role: string, id: string): string {
    Attribute(AboutName, "A" + Decimal(aid)) + Attribute(RoleName, role) + Attribute(IdName, id) + ">\n"
  }

  function Attribute(name: string, value: string): string {
    name + QuoteAttr(value)
  }

  lemma {:induction false} SizeConcat(a: string, b: string)
    ensures EncodedSize(a + b) == EncodedSize(a) + EncodedSize(b)
    decreases |b|
  {
    if b == "" {
      assert a + b == a;
    } else {
      assert (a + b)[..|a + b| - 1] == a + b[..|b| - 1];
      SizeConcat(a, b[..|b| - 1]);
    }
  }

  /** Plain ASCII takes a byte a character. */
  predicate Ascii(s: string) {
    forall i :: 0 <= i < |s| ==> s[i] < 128 as char
  }

  lemma {:induction false} AsciiSize(s: string)
    requires Ascii(s)
    ensures EncodedSize(s) == |s|
  {
    if s != "" { AsciiSize(s[..|s| - 1]); }
  }

  lemma EscapeCharSize(c: char)
    ensures EncodedSize(EscapeChar(c)) <= 5 && EncodedSize(QuoteChar(c, true)) <= 6 && EncodedSize(QuoteChar(c, false)) <= 6
  {
    AsciiSize("&amp;"); AsciiSize("&lt;"); AsciiSize("&gt;");
    AsciiSize("&#10;"); AsciiSize("&#13;"); AsciiSize("&#9;"); AsciiSize("&quot;");
    var one: string := [c];
    assert one[..0] == "" && EncodedSize(one) == EncodedSize("") + Width(c);
  }

  /** Escaped text takes at most five bytes for each character of the original. */
  lemma {:induction false} EscapeSize(s: string)
    ensures EncodedSize(Escape(s)) <= 5 * |s|
  {
    if s != "" {
      var n := |s| - 1;
      EscapeSize(s[..n]);
      EscapeCharSize(s[n]);
      SizeConcat(Escape(s[..n]), EscapeChar(s[n]));
    }
  }

  lemma {:induction false} QuotedSize(s: string, quotes: bool)
    ensures EncodedSize(Quoted(s, quotes)) <= 6 * |s|
  {
    if s != "" {
      var n := |s| - 1;
      QuotedSize(s[..n], quotes);
      EscapeCharSize(s[n]);
      SizeConcat(Quoted(s[..n], quotes), QuoteChar(s[n], quotes));
    }
  }

  lemma QuoteAttrSize(s: string)
    ensures EncodedSize(QuoteAttr(s)) <= 6 * |s| + 2
  {
    QuotedSize(s, false);
    QuotedSize(s, true);
    AsciiSize("'");
    AsciiSize("\"");
    SizeConcat("'", Quoted(s, false));
    SizeConcat("'" + Quoted(s, false), "'");
    SizeConcat("\"", Quoted(s, true));
    SizeConcat("\"" + Quoted(s, true), "\"");
  }

  lemma AttributeSize(name: string, value: string)
    requires Ascii(name)
    ensures EncodedSize(Attribute(name, value)) <= |name| + 6 * |value| + 2
  {
    AsciiSize(name);
    QuoteAttrSize(value);
    SizeConcat(name, QuoteAttr(value));
  }

  lemma SizeOfThree(a: string, b: string, c: string)
    ensures EncodedSize(a + b + c) == EncodedSize(a) + EncodedSize(b) + EncodedSize(c)
  {
    SizeConcat(a, b);
    SizeConcat(a + b, c);
  }

  lemma EndSizes()
    ensures EncodedSize(">\n") == 2 && EncodedSize("\n</team-notice>") == 15
  {
    AsciiSize(">\n");
    AsciiSize("\n</team-notice>");
  }

  lemma SizeOfFour(a: string, b: string, c: string, d: string)
    ensures EncodedSize(a + b + c + d) == EncodedSize(a) + EncodedSize(b) + EncodedSize(c) + EncodedSize(d)
  {
    SizeOfThree(a, b, c);
    SizeConcat(a + b + c, d);
  }

  lemma NameSizes()
    ensures Ascii(AboutName) && |AboutName| == 19 && Ascii(RoleName) && |RoleName| == 6 && Ascii(IdName) && |IdName| == 12
  {
  }

  lemma OpeningSize(aid: Aid, role: string, id: string)
    ensures EncodedSize(Opening(aid, role, id)) <= 51 + 6 * |Decimal(aid)| + 6 * |role| + 6 * |id|
  {
    NameSizes();
    var about, name := Attribute(AboutName, "A" + Decimal(aid)), Attribute(RoleName, role);
    assert EncodedSize(about) <= 19 + 6 * (1 + |Decimal(aid)|) + 2 by { AttributeSize(AboutName, "A" + Decimal(aid)); }
    assert EncodedSize(name) <= 6 + 6 * |role| + 2 by { AttributeSize(RoleName, role); }
    AttributeSize(IdName, id);
    EndSizes();
    SizeOfFour(about, name, Attribute(IdName, id), ">\n");
  }

  lemma NoticeSize(aid: Aid, role: string, id: string, content: string)
    ensures EncodedSize(NoticeXml(aid, role, id, content)) <= 66 + 6 * |Decimal(aid)| + 6 * |role| + 6 * |id| + 5 * |content|
  {
    OpeningSize(aid, role, id);
    EscapeSize(content);
    EndSizes();
    SizeOfThree(Opening(aid, role, id), Escape(content), "\n</team-notice>");
  }

  /** No text can close the notice or open another: what is escaped holds no angle bracket. */
  lemma {:induction false} EscapedHasNoTags(s: string)
    ensures '<' !in Escape(s) && '>' !in Escape(s)
  {
    if s != "" { EscapedHasNoTags(s[..|s| - 1]); }
  }

  lemma QuoteCharIsSafe(c: char, quotes: bool)
    ensures '<' !in QuoteChar(c, quotes) && '>' !in QuoteChar(c, quotes)
    ensures quotes ==> '"' !in QuoteChar(c, quotes)
    ensures c != '\'' ==> '\'' !in QuoteChar(c, quotes)
  {
  }

  lemma {:induction false} QuotedHolds(s: string, quotes: bool, c: char)
    requires forall i :: 0 <= i < |s| ==> c !in QuoteChar(s[i], quotes)
    ensures c !in Quoted(s, quotes)
  {
    if s != "" { QuotedHolds(s[..|s| - 1], quotes, c); }
  }

  lemma QuotedHasNoDelimiter(s: string, quotes: bool)
    ensures '<' !in Quoted(s, quotes) && '>' !in Quoted(s, quotes)
    ensures quotes ==> '"' !in Quoted(s, quotes)
    ensures '\'' !in s ==> '\'' !in Quoted(s, quotes)
  {
    forall i | 0 <= i < |s|
      ensures '<' !in QuoteChar(s[i], quotes) && '>' !in QuoteChar(s[i], quotes)
      ensures quotes ==> '"' !in QuoteChar(s[i], quotes)
      ensures '\'' !in s ==> '\'' !in QuoteChar(s[i], quotes)
    {
      QuoteCharIsSafe(s[i], quotes);
    }
    QuotedHolds(s, quotes, '<');
    QuotedHolds(s, quotes, '>');
    if quotes { QuotedHolds(s, quotes, '"'); }
    if '\'' !in s { QuotedHolds(s, quotes, '\''); }
  }

  /** Nor can a value end its attribute: between its delimiters an attribute holds neither of them. */
  lemma AttributeIsClosed(s: string)
    ensures exists d, inner :: QuoteAttr(s) == [d] + inner + [d] && (d == '"' || d == '\'')
                               && d !in inner && '<' !in inner && '>' !in inner
  {
    QuotedHasNoDelimiter(s, false);
    QuotedHasNoDelimiter(s, true);
    if '"' in s && '\'' !in s {
      assert QuoteAttr(s) == ['\''] + Quoted(s, false) + ['\''];
    } else {
      assert QuoteAttr(s) == ['"'] + Quoted(s, true) + ['"'];
    }
  }

  // ---------------------------------------------------------------- composing a notice

  function Clip(s: string, n: nat): string {
    if |s| <= n then s else s[..n]
  }

  function Content(aid: Aid, role: string, reason: string): string {
    role + " (A" + Decimal(aid) + ") has stopped and will not answer your last message. Reason recorded by the runtime: "
    + Clip(reason, MaxMessageBytes / 16) + if |reason| > MaxMessageBytes / 16 then " [truncated]" else ""
  }

  function WithExtra(content: string, extra: string): string {
    if extra == "" then content else content + "\n\n" + extra
  }

  /** What replaces an extra that is too long: where the changes are kept, if anywhere. */
  function Fallback(location: string): string {
    var extra := if location != "" then "[Full partial changes retained at " + location + "]"
                 else "[Partial result exceeds the teammate message limit.]";
    if |extra| > MaxMessageBytes / 16 then extra[..MaxMessageBytes / 16] + " [truncated]" else extra
  }

  /** The notice and its content: with `extra` if that fits, with the fallback otherwise. */
  function Compose(aid: Aid, role: string, id: string, reason: string, extra: string, retained: string): (string, string) {
    var content := Content(aid, role, reason);
    var xml := NoticeXml(aid, role, id, WithExtra(content, extra));
    if EncodedSize(xml) > MaxMessageBytes then
      var short := WithExtra(content, Fallback(retained));
      (NoticeXml(aid, role, id, short), short)
    else (xml, WithExtra(content, extra))
  }

  /** For a valid role and an agent number of up to 75 digits, every notice keeps the message limit,
      whatever the reason, the partial result and the place they are kept at. */
  lemma NoticeFits(aid: Aid, role: string, id: string, reason: string, extra: string, retained: string)
    requires EncodedSize(role) <= MaxRoleBytes && |Decimal(aid)| <= 75 && |id| <= 32
    ensures EncodedSize(Compose(aid, role, id, reason, extra, retained).0) <= MaxMessageBytes
  {
    var content := Content(aid, role, reason);
    assert |" (A"| == 3 && |" [truncated]"| == 12;
    assert |") has stopped and will not answer your last message. Reason recorded by the runtime: "| == 85;
    assert |content| <= |role| + 3 + |Decimal(aid)| + 85 + 512 + 12;
    var short := WithExtra(content, Fallback(retained));
    assert |short| <= |content| + 2 + 524;
    NoticeSize(aid, role, id, short);
  }

  // ---------------------------------------------------------------- exchanges and inboxes

  /** A message of `sender` that `receiver` has not answered. */
  datatype Pair = Pair(receiver: Aid, sender: Aid)
  datatype Queued = Queued(id: Mid, size: nat)

  /** `unanswered` is `_unanswered`, `inbox` is `_message_inbox`; `notices` lists the messages that
      stop notices were about, `sent` every message accepted. */
  datatype Team = Team(unanswered: map<Pair, Mid>, inbox: map<Aid, seq<Queued>>, notices: seq<Mid>, sent: set<Mid>)

  function Inbox(s: Team, aid: Aid): seq<Queued> {
    if aid in s.inbox then s.inbox[aid] else []
  }

  function InboxSize(q: seq<Queued>): nat {
    if q == [] then 0 else InboxSize(q[..|q| - 1]) + q[|q| - 1].size
  }

  predicate Accepts(q: seq<Queued>, size: nat) {
    |q| < MaxInboxMessages && InboxSize(q) + size <= MaxInboxBytes
  }

  /** `_record_teammate_exchange`: a message answers the one the other way, or awaits an answer. */
  function Record(unanswered: map<Pair, Mid>, sender: Aid, receiver: Aid, id: Mid): map<Pair, Mid> {
    if Pair(sender, receiver) in unanswered then unanswered - {Pair(sender, receiver)}
    else unanswered[Pair(receiver, sender) := id]
  }

  function Send(s: Team, sender: Aid, receiver: Aid, id: Mid, size: nat): Team {
    if id in s.sent || size > MaxMessageBytes || !Accepts(Inbox(s, receiver), size) then s
    else Team(Record(s.unanswered, sender, receiver, id), s.inbox[receiver := Inbox(s, receiver) + [Queued(id, size)]],
              s.notices, s.sent + {id})
  }

  /** What the notifier finds when it has the recipient's lock: the agent is still in a failed phase,
      its inbox is held for a cancelled turn, the scheduler is shutting down, or the recipient is
      gone or failed too. */
  datatype Standing = Standing(failed: bool, held: bool, closing: bool, recipientGone: bool)

  predicate Holds(q: seq<Queued>, id: Mid) {
    exists i :: 0 <= i < |q| && q[i].id == id
  }

  /** One turn of `notify_unanswered_senders`, from taking the recipient's lock to spending the
      exchange, for the message that the notifier saw outstanding when it began */
  function Notify(s: Team, aid: Aid, recipient: Aid, id: Mid, at: Standing, noticeId: Mid, size: nat): Team {
    var pair := Pair(aid, recipient);
    if pair !in s.unanswered || s.unanswered[pair] != id || !at.failed then s
    else if !at.held && Holds(Inbox(s, aid), id) then s
    else if at.closing then s
    else if at.recipientGone then s.(unanswered := s.unanswered - {pair})
    else if !Accepts(Inbox(s, recipient), size) then s
    else Team(s.unanswered - {pair}, s.inbox[recipient := Inbox(s, recipient) + [Queued(noticeId, size)]],
              s.notices + [id], s.sent)
  }

  function Drain(s: Team, aid: Aid, k: nat): Team {
    if k > |Inbox(s, aid)| then s else s.(inbox := s.inbox[aid := Inbox(s, aid)[k..]])
  }

  datatype Act =
    | OpSend(sender: Aid, receiver: Aid, id: Mid, size: nat)
    | OpNotify(aid: Aid, recipient: Aid, id: Mid, at: Standing, noticeId: Mid, size: nat)
    | OpDrain(aid: Aid, k: nat)

  function Step(s: Team, a: Act): Team {
    match a
    case OpSend(sender, receiver, id, size) => Send(s, sender, receiver, id, size)
    case OpNotify(aid, recipient, id, at, noticeId, size) => Notify(s, aid, recipient, id, at, noticeId, size)
    case OpDrain(aid, k) => Drain(s, aid, k)
  }

  function Run(s: Team, acts: seq<Act>): Team
    decreases |acts|
  {
    if acts == [] then s else Run(Step(s, acts[0]), acts[1..])
  }

  function Empty(): Team {
    Team(map[], map[], [], {})
  }

  // ---------------------------------------------------------------- what every step keeps

  /** Of two agents, at most one waits for the other. */
  ghost predicate OneWay(unanswered: map<Pair, Mid>) {
    forall p :: p in unanswered && p.receiver != p.sender ==> Pair(p.sender, p.receiver) !in unanswered
  }

  /** Outstanding messages were sent, are told apart, and no notice was about them. */
  ghost predicate Told(s: Team) {
    && (forall p :: p in s.unanswered ==> s.unanswered[p] in s.sent && s.unanswered[p] !in s.notices)
    && (forall p, q :: p in s.unanswered && q in s.unanswered && s.unanswered[p] == s.unanswered[q] ==> p == q)
    && (forall i :: 0 <= i < |s.notices| ==> s.notices[i] in s.sent)
    && (forall i, j :: 0 <= i < j < |s.notices| ==> s.notices[i] != s.notices[j])
  }

  predicate Bounded(q: seq<Queued>) {
    |q| <= MaxInboxMessages && InboxSize(q) <= MaxInboxBytes
  }

  ghost predicate Inv(s: Team) {
    OneWay(s.unanswered) && Told(s) && forall a :: a in s.inbox ==> Bounded(s.inbox[a])
  }

  lemma {:induction false} DrainedSize(q: seq<Queued>, k: nat)
    requires k <= |q|
    ensures InboxSize(q[k..]) <= InboxSize(q)
    decreases |q|
  {
    if k < |q| {
      DrainedSize(q[..|q| - 1], k);
      assert q[..|q| - 1][k..] == q[k..][..|q[k..]| - 1];
    }
  }

  lemma SendKeepsInv(s: Team, sender: Aid, receiver: Aid, id: Mid, size: nat)
    requires Inv(s)
    ensures Inv(Send(s, sender, receiver, id, size))
  {
  }

  lemma NotifyKeepsInv(s: Team, aid: Aid, recipient: Aid, id: Mid, at: Standing, noticeId: Mid, size: nat)
    requires Inv(s)
    ensures Inv(Notify(s, aid, recipient, id, at, noticeId, size))
  {
  }

  lemma StepKeepsInv(s: Team, a: Act)
    requires Inv(s)
    ensures Inv(Step(s, a))
  {
    match a
    case OpSend(sender, receiver, id, size) => SendKeepsInv(s, sender, receiver, id, size);
    case OpNotify(aid, recipient, id, at, noticeId, size) => NotifyKeepsInv(s, aid, recipient, id, at, noticeId, size);
    case OpDrain(aid, k) => if k <= |Inbox(s, aid)| { DrainedSize(Inbox(s, aid), k); }
  }

  lemma {:induction false} RunKeepsInv(s: Team, acts: seq<Act>)
    requires Inv(s)
    ensures Inv(Run(s, acts))
    decreases |acts|
  {
    if acts != [] {
      StepKeepsInv(s, acts[0]);
      RunKeepsInv(Step(s, acts[0]), acts[1..]);
    }
  }

  /** In every run: at most one direction of a pair is unanswered, each message yields at most one
      notice, and no inbox passes its limits. */
  lemma ExchangesAreOrderly(acts: seq<Act>)
    ensures var s := Run(Empty(), acts);
            && OneWay(s.unanswered)
            && (forall i, j :: 0 <= i < j < |s.notices| ==> s.notices[i] != s.notices[j])
            && (forall a :: a in s.inbox ==> |s.inbox[a]| <= MaxInboxMessages && InboxSize(s.inbox[a]) <= MaxInboxBytes)
  {
    RunKeepsInv(Empty(), acts);
  }

  /** A message that was answered, or noticed, or whose exchange was otherwise closed. */
  ghost predicate Settled(s: Team, id: Mid) {
    id in s.sent && forall p :: p in s.unanswered ==> s.unanswered[p] != id
  }

  /** Nothing reopens it: no later notice is about it. */
  lemma {:induction false} SettledStaysSettled(s: Team, acts: seq<Act>, id: Mid)
    requires Settled(s, id)
    ensures Settled(Run(s, acts), id)
    ensures id in Run(s, acts).notices <==> id in s.notices
    decreases |acts|
  {
    if acts != [] {
      SettledStep(s, acts[0], id);
      SettledStaysSettled(Step(s, acts[0]), acts[1..], id);
    }
  }

  lemma SettledStep(s: Team, a: Act, id: Mid)
    requires Settled(s, id)
    ensures Settled(Step(s, a), id) && (id in Step(s, a).notices <==> id in s.notices)
  {
  }

  /** An answer settles exactly the message it answers. */
  lemma AnswerSettles(s: Team, sender: Aid, receiver: Aid, id: Mid, size: nat)
    requires Inv(s) && Pair(sender, receiver) in s.unanswered && Send(s, sender, receiver, id, size) != s
    ensures var next := Send(s, sender, receiver, id, size);
            && Settled(next, s.unanswered[Pair(sender, receiver)]) && Settled(next, id)
            && next.unanswered == s.unanswered - {Pair(sender, receiver)}
  {
  }

  // ---------------------------------------------------------------- the scheduler's tables

  /** The nested table of outstanding messages as one of pairs. */
  ghost function Flat(table: map<Aid, map<Aid, Mid>>): map<Pair, Mid> {
    map r, w | r in table && w in table[r] :: Pair(r, w) := table[r][w]
  }

  lemma FlatRemove(table: map<Aid, map<Aid, Mid>>, r: Aid, w: Aid)
    requires r in table && w in table[r]
    ensures Flat(table[r := table[r] - {w}]) == Flat(table) - {Pair(r, w)}
  {
  }

  lemma FlatPut(table: map<Aid, map<Aid, Mid>>, r: Aid, waiting: map<Aid, Mid>, w: Aid, id: Mid)
    requires if r in table then waiting == table[r] else waiting == map[]
    ensures Flat(table[r := waiting[w := id]]) == Flat(table)[Pair(r, w) := id]
  {
    var next := table[r := waiting[w := id]];
    forall p: Pair ensures p in Flat(next) <==> p in Flat(table) || p == Pair(r, w) {
      assert p in Flat(next) <==> p.receiver in next && p.sender in next[p.receiver];
      assert p in Flat(table) <==> p.receiver in table && p.sender in table[p.receiver];
    }
  }

  class Exchanges {
    var unanswered: map<Aid, map<Aid, Mid>>

    constructor ()
      ensures Flat(unanswered) == map[]
    {
      unanswered := map[];
    }

    method RecordTeammateExchange(sender: Aid, receiver: Aid, id: Mid)
      modifies this
      ensures Flat(unanswered) == Record(old(Flat(unanswered)), sender, receiver, id)
    {
      if sender in unanswered && receiver in unanswered[sender] {
        FlatRemove(unanswered, sender, receiver);
        unanswered := unanswered[sender := unanswered[sender] - {receiver}];
      } else {
        var waiting := if receiver in unanswered then unanswered[receiver] else map[];
        FlatPut(unanswered, receiver, waiting, sender, id);
        unanswered := unanswered[receiver := waiting[sender := id]];
      }
    }
  }
}
