/**
 The trajectory trace: callers number records and queue them under a lock, one writer thread takes
 them off and appends them to the file, and the first failure latches. Every step below is one
 critical section, one queue operation or one write.
 */
module TraceWriter {
  import opened Wrappers

  datatype Item = Record(step: nat) | Flush | Close

  /** What the writer has in hand: an item just taken, or a record past its failure check. */
  datatype Writer = Idle | Taken(item: Item) | Writing(step: nat) | Done

  /** `start` is the step recovered from the file; `file` the steps appended since, and `torn`
      whether a failed write left part of a record after them. `closed` stops callers, `closing`
      says that the request to close is in the queue or past it. */
  datatype Trace = Trace(start: nat, capacity: nat, queue: seq<Item>, counter: nat, failed: bool, dropped: nat,
                         closed: bool, closing: bool, writer: Writer, file: seq<nat>, torn: bool, calls: nat)

  datatype Act =
    | LogStep | PutFlush | CloseFlag | PutClose
    | Take | Check | WriteOk | WriteFails(partial: bool) | Flushed | FlushFails | CloseHandle(fails: bool)

  function Fresh(start: nat, capacity: nat): Trace {
    Trace(start, capacity, [], start, false, 0, false, false, Idle, [], false, 0)
  }

  /** `Tracer.log_step` under its lock */
  function DoLog(s: Trace): Trace {
    var called := s.(calls := s.calls + 1);
    if s.closed || s.failed then called.(dropped := s.dropped + 1)
    else if |s.queue| < s.capacity then
      called.(queue := s.queue + [Record(s.counter + 1)], counter := s.counter + 1)
    else called.(failed := true, dropped := s.dropped + 1)
  }

  /** One turn of `_trace_writer_loop` up to where it writes, flushes or closes */
  function DoTake(s: Trace): Trace {
    if !s.writer.Idle? || s.queue == [] then s else s.(writer := Taken(s.queue[0]), queue := s.queue[1..])
  }

  function DoCheck(s: Trace): Trace {
    if !s.writer.Taken? || !s.writer.item.Record? then s
    else if s.failed then s.(dropped := s.dropped + 1, writer := Idle)
    else s.(writer := Writing(s.writer.item.step))
  }

  function DoWrite(s: Trace, ok: bool, partial: bool): Trace {
    if !s.writer.Writing? then s
    else if ok then s.(file := s.file + [s.writer.step], writer := Idle)
    else s.(failed := true, dropped := s.dropped + 1, writer := Idle, torn := partial)
  }

  function Step(s: Trace, a: Act): Trace {
    match a
    case LogStep => DoLog(s)
    case PutFlush => if s.closed || |s.queue| >= s.capacity then s else s.(queue := s.queue + [Flush])
    case CloseFlag => s.(closed := true)
    case PutClose =>
      if !s.closed || s.closing || |s.queue| >= s.capacity then s else s.(queue := s.queue + [Close], closing := true)
    case Take => DoTake(s)
    case Check => DoCheck(s)
    case WriteOk => DoWrite(s, true, false)
    case WriteFails(partial) => DoWrite(s, false, partial)
    case Flushed => if s.writer == Taken(Flush) then s.(writer := Idle) else s
    case FlushFails => if s.writer == Taken(Flush) then s.(writer := Idle, failed := true) else s
    case CloseHandle(fails) => if s.writer == Taken(Close) then s.(writer := Done, failed := s.failed || fails) else s
  }

  function Run(s: Trace, acts: seq<Act>): Trace
    decreases |acts|
  {
    if acts == [] then s else Run(Step(s, acts[0]), acts[1..])
  }

  // ---------------------------------------------------------------- what every step keeps

  /** The records among the queued items, in order. */
  function Records(items: seq<Item>): seq<nat> {
    if items == [] then []
    else (if items[0].Record? then [items[0].step] else []) + Records(items[1..])
  }

  function InHand(w: Writer): seq<nat> {
    match w
    case Taken(item) => if item.Record? then [item.step] else []
    case Writing(step) => [step]
    case _ => []
  }

  /** Accepted records that are neither written nor dropped. */
  function Pending(s: Trace): seq<nat> {
    InHand(s.writer) + Records(s.queue)
  }

  /** `count` steps on from `last`, one by one. */
  predicate Consecutive(steps: seq<nat>, last: nat) {
    forall i :: 0 <= i < |steps| ==> steps[i] == last + 1 + i
  }

  ghost predicate Inv(s: Trace) {
    && s.calls == |s.file| + s.dropped + |Pending(s)|
    && Consecutive(s.file, s.start)
    && |Pending(s)| <= s.counter && Consecutive(Pending(s), s.counter - |Pending(s)|)
    && s.start + |s.file| + |Pending(s)| <= s.counter
    && (!s.failed ==> s.start + |s.file| + |Pending(s)| == s.counter)
    && (s.writer.Writing? ==> s.writer.step == s.start + |s.file| + 1)
    && (s.torn ==> s.failed && !s.writer.Writing?)
    && (s.closing ==> s.closed)
    && CloseIsLast(s)
  }

  /** Nothing is queued behind the request to close. */
  ghost predicate CloseIsLast(s: Trace) {
    && (forall i :: 0 <= i < |s.queue| && s.queue[i] == Close ==> i == |s.queue| - 1 && s.closing && s.writer != Taken(Close) && !s.writer.Done?)
    && (s.writer == Taken(Close) || s.writer.Done? ==> s.closing && s.queue == [])
  }

  lemma {:induction false} RecordsConcat(a: seq<Item>, b: seq<Item>)
    ensures Records(a + b) == Records(a) + Records(b)
  {
    if a == [] {
      assert a + b == b;
    } else {
      assert (a + b)[1..] == a[1..] + b;
      RecordsConcat(a[1..], b);
      ConcatAssociates(if a[0].Record? then [a[0].step] else [], Records(a[1..]), Records(b));
    }
  }

  lemma OneRecord(item: Item)
    ensures Records([item]) == if item.Record? then [item.step] else []
  {
  }

  lemma LogKeepsInv(s: Trace)
    requires Inv(s)
    ensures Inv(DoLog(s))
  {
    RecordsConcat(s.queue, [Record(s.counter + 1)]);
    OneRecord(Record(s.counter + 1));
    var next := DoLog(s);
    if |next.queue| > |s.queue| {
      assert Pending(next) == Pending(s) + [s.counter + 1];
    }
  }

  lemma PendingPut(s: Trace, item: Item)
    requires !item.Record?
    ensures Pending(s.(queue := s.queue + [item])) == Pending(s)
  {
    RecordsConcat(s.queue, [item]);
    OneRecord(item);
  }

  lemma FlushKeepsInv(s: Trace)
    requires Inv(s)
    ensures Inv(Step(s, PutFlush)) && Inv(Step(s, CloseFlag))
  {
    PendingPut(s, Flush);
    assert Pending(Step(s, PutFlush)) == Pending(s) && Pending(Step(s, CloseFlag)) == Pending(s);
  }

  lemma CloseKeepsInv(s: Trace)
    requires Inv(s)
    ensures Inv(Step(s, PutClose))
  {
    PendingPut(s, Close);
    assert Pending(Step(s, PutClose)) == Pending(s);
  }

  lemma TakeKeepsInv(s: Trace)
    requires Inv(s)
    ensures Inv(DoTake(s))
  {
    assert Pending(DoTake(s)) == Pending(s);
  }

  /** The record in hand is the first of those pending. */
  lemma InHandIsFirst(s: Trace, next: Trace)
    requires |InHand(s.writer)| == 1 && next.writer.Idle? && next.queue == s.queue
    requires |Pending(s)| <= s.counter && Consecutive(Pending(s), s.counter - |Pending(s)|)
    ensures |Pending(next)| == |Pending(s)| - 1 && Consecutive(Pending(next), s.counter - |Pending(next)|)
    ensures InHand(s.writer)[0] == s.counter - |Pending(s)| + 1
  {
    assert Pending(s)[0] == InHand(s.writer)[0];
    forall i | 0 <= i < |Pending(next)| ensures Pending(next)[i] == s.counter - |Pending(next)| + 1 + i {
      assert Pending(next)[i] == Pending(s)[i + 1];
    }
  }

  lemma CheckKeepsInv(s: Trace)
    requires Inv(s)
    ensures Inv(DoCheck(s))
  {
    var next := DoCheck(s);
    if next.writer.Idle? && next != s {
      InHandIsFirst(s, next);
    } else if next != s {
      assert Pending(next) == Pending(s) && Pending(s)[0] == s.writer.item.step;
    }
  }

  lemma WriteKeepsInv(s: Trace, ok: bool, partial: bool)
    requires Inv(s)
    ensures Inv(DoWrite(s, ok, partial))
  {
    if s.writer.Writing? { InHandIsFirst(s, DoWrite(s, ok, partial)); }
  }

  lemma HandleKeepsInv(s: Trace, a: Act)
    requires Inv(s) && (a.Flushed? || a.FlushFails? || a.CloseHandle?)
    ensures Inv(Step(s, a))
  {
  }

  lemma StepKeepsInv(s: Trace, a: Act)
    requires Inv(s)
    ensures Inv(Step(s, a))
  {
    match a
    case LogStep => LogKeepsInv(s);
    case PutFlush => FlushKeepsInv(s);
    case PutClose => CloseKeepsInv(s);
    case CloseFlag => FlushKeepsInv(s);
    case Flushed => HandleKeepsInv(s, a);
    case FlushFails => HandleKeepsInv(s, a);
    case CloseHandle(_) => HandleKeepsInv(s, a);
    case Take => TakeKeepsInv(s);
    case Check => CheckKeepsInv(s);
    case WriteOk => WriteKeepsInv(s, true, false);
    case WriteFails(partial) => WriteKeepsInv(s, false, partial);
  }

  lemma StepKeepsStart(s: Trace, a: Act)
    ensures Step(s, a).start == s.start
  {
  }

  lemma {:induction false} RunKeepsInv(s: Trace, acts: seq<Act>)
    requires Inv(s)
    ensures Inv(Run(s, acts)) && Run(s, acts).start == s.start
    decreases |acts|
  {
    if acts != [] {
      StepKeepsInv(s, acts[0]);
      StepKeepsStart(s, acts[0]);
      RunKeepsInv(Step(s, acts[0]), acts[1..]);
    }
  }

  // ---------------------------------------------------------------- what a trace promises

  /** Every call is a record in the file, a dropped step, or a record still on its way. */
  lemma EveryCallIsAccounted(start: nat, capacity: nat, acts: seq<Act>)
    ensures var s := Run(Fresh(start, capacity), acts);
            s.calls == |s.file| + s.dropped + |Records(s.queue)| + |InHand(s.writer)|
  {
    RunKeepsInv(Fresh(start, capacity), acts);
  }

  /** The file goes on from the recovered step without a gap or a repeat; a torn record is only
      ever its last thing. */
  lemma FileIsConsecutive(start: nat, capacity: nat, acts: seq<Act>, more: seq<Act>)
    ensures var s := Run(Fresh(start, capacity), acts);
            Consecutive(s.file, start) && (s.torn ==> Run(s, more).file == s.file)
  {
    RunKeepsInv(Fresh(start, capacity), acts);
    var s := Run(Fresh(start, capacity), acts);
    if s.torn { AfterFailure(s, more); }
  }

  /** Once the handle is closed nothing is on its way: each call was written or dropped. */
  lemma ClosedTraceIsSettled(start: nat, capacity: nat, acts: seq<Act>)
    ensures var s := Run(Fresh(start, capacity), acts);
            s.writer.Done? ==> s.queue == [] && s.calls == |s.file| + s.dropped
  {
    RunKeepsInv(Fresh(start, capacity), acts);
  }

  lemma FailureStep(s: Trace, a: Act)
    requires s.failed
    ensures var next := Step(s, a);
            && next.failed
            && (next.writer.Writing? ==> next.writer == s.writer && next.file == s.file)
            && (next.file == s.file || (s.writer.Writing? && next.file == s.file + [s.writer.step] && next.writer.Idle?))
  {
  }

  /** After a failure is latched the file gains at most the record that was past its check. */
  lemma {:induction false} AfterFailure(s: Trace, acts: seq<Act>)
    requires s.failed
    ensures Run(s, acts).failed
    ensures Run(s, acts).file == s.file || (s.writer.Writing? && Run(s, acts).file == s.file + [s.writer.step])
    decreases |acts|
  {
    if acts != [] {
      FailureStep(s, acts[0]);
      AfterFailure(Step(s, acts[0]), acts[1..]);
    }
  }

  /** Nothing more can be written after a failure if, and only if, no record is past its check. */
  lemma NothingAfterFailureIff(s: Trace)
    requires s.failed
    ensures (forall acts :: Run(s, acts).file == s.file) <==> !s.writer.Writing?
  {
    if s.writer.Writing? {
      var acts := [WriteOk];
      assert Run(s, acts) == Run(Step(s, WriteOk), acts[1..]) == Step(s, WriteOk);
      assert |Run(s, acts).file| == |s.file| + 1;
    } else {
      forall acts ensures Run(s, acts).file == s.file { AfterFailure(s, acts); }
    }
  }

  /** Which latches leave such a record: only a full queue can, for every other failure is the
      writer's own. */
  lemma OnlyAFullQueueOvertakesAWrite(s: Trace, a: Act)
    requires !s.failed && Step(s, a).failed
    ensures Step(s, a).writer.Writing? <==> a.LogStep? && s.writer.Writing?
    ensures a.LogStep? ==> !s.closed && |s.queue| >= s.capacity
  {
  }

  /** And one does: with room for one record, a third call finds the queue full while the first
      is being written. */
  lemma ARecordMayFollowTheFailure()
    ensures exists acts :: Run(Fresh(0, 1), acts).failed && Run(Fresh(0, 1), acts).file == [] &&
                           Run(Fresh(0, 1), acts).writer == Writing(1)
  {
    var s0 := Fresh(0, 1);
    var s1 := Step(s0, LogStep);
    var s2 := Step(s1, Take);
    var s3 := Step(s2, Check);
    var s4 := Step(s3, LogStep);
    var s5 := Step(s4, LogStep);
    assert s3.writer == Writing(1) && s3.queue == [];
    assert s5.failed && s5.writer == Writing(1) && s5.file == [];
    var acts := [LogStep, Take, Check, LogStep, LogStep];
    assert Run(s4, acts[4..]) == Run(s5, acts[4..][1..]) == s5;
    assert Run(s3, acts[3..]) == Run(s4, acts[4..]);
    assert Run(s2, acts[2..]) == Run(s3, acts[3..]);
    assert Run(s1, acts[1..]) == Run(s2, acts[2..]);
    assert Run(s0, acts) == s5;
  }
}
