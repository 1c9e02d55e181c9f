/**
 The client side of durable operations: which operation identifiers it still holds as pending, and
 which of them block the environment until they are recovered. The guest's answers, the failures of
 the connection and the caller's cancellation come as a script of replies.
 */
module VmClient {
  import opened Wrappers

  type Id = string

  /** What the guest says of an operation. A failure may be that of a missing file. */
  datatype Status = Running | Preparing | Uploading | Unknown | CleanupFailed | UploadIncomplete
                  | Cancelled | Failed(missingFile: bool) | Completed(value: string)

  /** How a request ends: a status, a lost connection, an operation the guest does not know (which
      the client sees as a missing file), another error, or the cancellation of the caller. */
  datatype Reply = Got(status: Status) | Lost | Absent | Refused | Interrupted

  predicate Terminal(s: Status) {
    s.Cancelled? || s.Failed? || s.Completed?
  }

  predicate Busy(s: Status) {
    s.Running? || s.Preparing? || s.Uploading?
  }

  predicate MissingFile(r: Reply) {
    r.Absent? || r == Got(Failed(true))
  }

  /** The client's two sets: `operations` are pending, `uncertain` ones block it. */
  datatype Client = Client(operations: set<Id>, uncertain: set<Id>)

  function Settle(c: Client, id: Id): Client {
    Client(c.operations - {id}, c.uncertain - {id})
  }

  function Doubt(c: Client, id: Id): Client {
    c.(uncertain := c.uncertain + {id})
  }

  /** The reply at which waiting ends: the first that is not a busy status, or the loss of the
      connection when there are no more; and the replies left after it. */
  function Awaited(first: Reply, replies: seq<Reply>): (r: (Reply, seq<Reply>))
    ensures !(r.0.Got? && Busy(r.0.status))
    ensures |r.1| <= |replies|
    decreases |replies|
  {
    if !first.Got? || !Busy(first.status) then (first, replies)
    else if replies == [] then (Lost, [])
    else Awaited(replies[0], replies[1..])
  }

  /** `_wait`, as far as the sets go: a terminal status settles the operation, any other status puts
      it in doubt, and anything else leaves them alone. */
  function Waited(c: Client, id: Id, last: Reply): Client {
    if !last.Got? || Busy(last.status) then c
    else if Terminal(last.status) then Settle(c, id)
    else Doubt(c, id)
  }

  predicate CancelBusy(s: Status) {
    s.Running? || s.Preparing? || s.CleanupFailed?
  }

  function CancelAwaited(first: Reply, replies: seq<Reply>): (r: (Reply, seq<Reply>))
    ensures |r.1| <= |replies|
    decreases |replies|
  {
    if !first.Got? || !CancelBusy(first.status) then (first, replies)
    else if replies == [] then (Lost, [])
    else CancelAwaited(replies[0], replies[1..])
  }

  /** `_cancel_operation` as `_operate` uses it: whatever it raises puts the operation in doubt. */
  function CancelWaited(c: Client, id: Id, last: Reply): Client {
    if last.Got? && !last.status.Unknown? && !CancelBusy(last.status) then Settle(c, id) else Doubt(c, id)
  }

  function Head(replies: seq<Reply>): (r: (Reply, seq<Reply>))
    ensures |r.1| <= |replies|
  {
    if replies == [] then (Lost, []) else (replies[0], replies[1..])
  }

  // ---------------------------------------------------------------- submitting

  /** One attempt of `_operate`: the reply that ended it. */
  function Attempt(replies: seq<Reply>): (r: (Reply, seq<Reply>))
    ensures !(r.0.Got? && Busy(r.0.status))
    ensures |r.1| <= |replies|
  {
    var (first, rest) := Head(replies);
    Awaited(first, rest)
  }

  /** The reply that ends up to `attempts` attempts: only a lost connection is tried again. */
  function Attempts(replies: seq<Reply>, attempts: nat): (r: (Reply, seq<Reply>))
    ensures !(r.0.Got? && Busy(r.0.status))
    ensures |r.1| <= |replies|
    decreases attempts
  {
    var (last, rest) := Attempt(replies);
    if last.Lost? && attempts > 1 then Attempts(rest, attempts - 1) else (last, rest)
  }

  /** `_operate`, as far as the sets go */
  function Operated(c: Client, id: Id, replies: seq<Reply>): Client {
    var begun := c.(operations := c.operations + {id});
    var (last, rest) := Attempts(replies, 3);
    if last.Lost? then Doubt(begun, id)
    else if last.Interrupted? then
      var (first, more) := Head(rest);
      CancelWaited(begun, id, CancelAwaited(first, more).0)
    else Waited(begun, id, last)
  }

  /** `recover_operation`, as far as the sets go */
  function Recovered(c: Client, id: Id, replies: seq<Reply>): Client {
    var known := id in c.operations;
    var begun := c.(operations := c.operations + {id});
    var last := Attempt(replies).0;
    var waited := Waited(begun, id, last);
    if MissingFile(last) then
      if known then Doubt(waited, id) else waited.(operations := waited.operations - {id})
    else if last.Lost? then Doubt(waited, id)
    else waited
  }

  // ---------------------------------------------------------------- what the sets promise

  /** Waiting drops a pending operation exactly on a terminal record. */
  lemma WaitDropsOnlyTerminal(c: Client, id: Id, first: Reply, replies: seq<Reply>)
    requires id in c.operations
    ensures var last := Awaited(first, replies).0;
            && (id !in Waited(c, id, last).operations <==> last.Got? && Terminal(last.status))
            && (id in Waited(c, id, last).operations && last.Got? ==> id in Waited(c, id, last).uncertain)
            && (forall other :: other != id ==>
                  && (other in Waited(c, id, last).operations <==> other in c.operations)
                  && (other in Waited(c, id, last).uncertain <==> other in c.uncertain))
  {
  }

  /** Submitting drops its operation exactly on a terminal record, or, when the caller cancels it, on
      any answer that neither says the guest is at work or failing to clean up nor that the state is
      unknown: an unfinished upload counts there as settled. */
  lemma OperateDropsExactly(c: Client, id: Id, replies: seq<Reply>)
    ensures var (last, rest) := Attempts(replies, 3);
            var answer := CancelAwaited(Head(rest).0, Head(rest).1).0;
            id !in Operated(c, id, replies).operations <==>
              || (last.Got? && Terminal(last.status))
              || (last.Interrupted? && answer.Got? && (Terminal(answer.status) || answer.status.Uploading? || answer.status.UploadIncomplete?))
  {
  }

  lemma {:induction false} CancelEndsQuiet(first: Reply, replies: seq<Reply>)
    ensures var r := CancelAwaited(first, replies).0; r.Got? ==> !CancelBusy(r.status)
    decreases |replies|
  {
    if first.Got? && CancelBusy(first.status) && replies != [] { CancelEndsQuiet(replies[0], replies[1..]); }
  }

  /** Whatever blocks the client is pending, so that it can be recovered. */
  predicate Recoverable(c: Client) {
    c.uncertain <= c.operations
  }

  lemma OperateKeepsRecoverable(c: Client, id: Id, replies: seq<Reply>)
    requires Recoverable(c)
    ensures Recoverable(Operated(c, id, replies))
  {
  }

  /** Recovery keeps that exactly unless the operation was pending and turns out to have failed for
      a missing file: then it is settled and blocks the client all the same. */
  lemma RecoverKeepsRecoverableIff(c: Client, id: Id, replies: seq<Reply>)
    requires Recoverable(c)
    ensures Recoverable(Recovered(c, id, replies)) <==>
            !(id in c.operations && Attempt(replies).0 == Got(Failed(true)))
  {
  }

  /** For one: a pending operation whose guest reports a missing file. */
  lemma BlockedWithNothingPending()
    ensures Recovered(Client({"op"}, {}), "op", [Got(Failed(true))]) == Client({}, {"op"})
    ensures Recoverable(Client({"op"}, {})) && !Recoverable(Client({}, {"op"}))
  {
    var replies := [Got(Failed(true))];
    assert Attempt(replies).0 == Got(Failed(true));
    var begun := Client({"op"}, {});
    assert begun.operations + {"op"} == {"op"} && Settle(begun, "op") == Client({}, {});
    assert "op" in Client({}, {"op"}).uncertain;
  }

  /** Recovering such an operation once more, with the same answer, unblocks the client. */
  lemma SecondRecoveryUnblocks(c: Client, id: Id, replies: seq<Reply>)
    requires Recoverable(c) && id in c.operations && Attempt(replies).0 == Got(Failed(true))
    ensures Recovered(Recovered(c, id, replies), id, replies) == Settle(c, id)
  {
  }

  /** The calls of a client over time. */
  datatype Call = Operate(id: Id, replies: seq<Reply>) | Recover(id: Id, replies: seq<Reply>)

  function Step(c: Client, call: Call): Client {
    match call
    case Operate(id, replies) => Operated(c, id, replies)
    case Recover(id, replies) => Recovered(c, id, replies)
  }

  function Run(c: Client, calls: seq<Call>): Client
    decreases |calls|
  {
    if calls == [] then c else Run(Step(c, calls[0]), calls[1..])
  }

  /** The call on `id` ended with the record of a finished operation, or by the cancellation of an
      unfinished upload. */
  predicate Concludes(call: Call, id: Id) {
    && call.id == id
    && match call
       case Operate(_, replies) =>
         var (last, rest) := Attempts(replies, 3);
         var answer := CancelAwaited(Head(rest).0, Head(rest).1).0;
         || (last.Got? && Terminal(last.status))
         || (last.Interrupted? && answer.Got? && (Terminal(answer.status) || answer.status.Uploading? || answer.status.UploadIncomplete?))
       case Recover(_, replies) => Attempt(replies).0.Got? && Terminal(Attempt(replies).0.status)
  }

  /** Over any run of calls, a pending operation is dropped only by a call that concludes it. */
  lemma {:induction false} PendingUntilConcluded(c: Client, calls: seq<Call>, id: Id)
    requires id in c.operations && id !in Run(c, calls).operations
    ensures exists i :: 0 <= i < |calls| && Concludes(calls[i], id)
    decreases |calls|
  {
    if calls != [] {
      var next := Step(c, calls[0]);
      if id in next.operations {
        PendingUntilConcluded(next, calls[1..], id);
        var i :| 0 <= i < |calls[1..]| && Concludes(calls[1..][i], id);
        assert Concludes(calls[i + 1], id);
      } else {
        if calls[0].Operate? && calls[0].id == id { OperateDropsExactly(c, id, calls[0].replies); }
        assert Concludes(calls[0], id);
      }
    }
  }

  // ---------------------------------------------------------------- the environment's methods

  class VmEnvironment {
    var operations: set<Id>
    var uncertain: set<Id>

    ghost function Sets(): Client
      reads this
    {
      Client(operations, uncertain)
    }

    constructor ()
      ensures Sets() == Client({}, {})
    {
      operations, uncertain := {}, {};
    }

    method Drop(id: Id)
      modifies this
      ensures Sets() == Settle(old(Sets()), id)
    {
      operations, uncertain := operations - {id}, uncertain - {id};
    }

    /** `_wait` on a first reply and those that querying yields */
    method Wait(id: Id, first: Reply, replies: seq<Reply>) returns (last: Reply, rest: seq<Reply>)
      modifies this
      ensures (last, rest) == Awaited(first, replies)
      ensures Sets() == Waited(old(Sets()), id, last)
    {
      last, rest := first, replies;
      while last.Got? && Busy(last.status)
        invariant Awaited(last, rest) == Awaited(first, replies)
        invariant Sets() == old(Sets())
        decreases last.Got? && Busy(last.status), |rest|
      {
        if rest == [] {
          last := Lost;
        } else {
          last, rest := rest[0], rest[1..];
        }
      }
      if !last.Got? { return; }
      if last.status.Unknown? || last.status.CleanupFailed? || last.status.UploadIncomplete? {
        uncertain := uncertain + {id};
        return;
      }
      Drop(id);
    }

    method CancelOperation(id: Id, replies: seq<Reply>)
      modifies this
      ensures Sets() == CancelWaited(old(Sets()), id, CancelAwaited(Head(replies).0, Head(replies).1).0)
    {
      var (last, rest) := Head(replies);
      ghost var first, more := last, rest;
      while last.Got? && CancelBusy(last.status)
        invariant CancelAwaited(last, rest) == CancelAwaited(first, more)
        invariant Sets() == old(Sets())
        decreases last.Got? && CancelBusy(last.status), |rest|
      {
        if rest == [] {
          last := Lost;
        } else {
          last, rest := rest[0], rest[1..];
        }
      }
      if !last.Got? || last.status.Unknown? {
        uncertain := uncertain + {id};
      } else {
        Drop(id);
      }
    }

    method Operate(id: Id, replies: seq<Reply>)
      modifies this
      ensures Sets() == Operated(old(Sets()), id, replies)
    {
      operations := operations + {id};
      ghost var begun := Sets();
      var attempt, rest, last := 0, replies, Lost;
      while attempt < 3
        invariant 0 <= attempt < 3 && Attempts(rest, 3 - attempt) == Attempts(replies, 3)
        invariant Sets() == begun
      {
        var (first, more) := Head(rest);
        last, rest := Wait(id, first, more);
        if !last.Lost? || attempt == 2 { break; }
        attempt := attempt + 1;
      }
      if last.Lost? {
        uncertain := uncertain + {id};
      } else if last.Interrupted? {
        CancelOperation(id, rest);
      }
    }

    method RecoverOperation(id: Id, replies: seq<Reply>)
      modifies this
      ensures Sets() == Recovered(old(Sets()), id, replies)
    {
      var known := id in operations;
      operations := operations + {id};
      var (first, more) := Head(replies);
      var last, _ := Wait(id, first, more);
      if MissingFile(last) {
        if known {
          uncertain := uncertain + {id};
        } else {
          operations := operations - {id};
        }
      } else if last.Lost? {
        uncertain := uncertain + {id};
      }
    }
  }
}
