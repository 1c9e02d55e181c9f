/**
 Attribution of a worktree's work from its reflog, newest entry first: which commit outside
 the worktree's own history did the current work grow from?
 */
module Reflog {
  import opened Wrappers

  type Commit = string

  /** The word in parentheses of a rebase entry; `Replay` is any word but the four named. */
  datatype Action = Start | Abort | Finish | Reset | Replay

  /** What the matchers find in one reflog message. They overlap: a merge commit's message is an
      own commit's message too, and a commit subject may quote a merge. */
  datatype Message = Message(rebase: Option<Action>, own: bool, commitMerge: bool, mergeMade: bool, reset: bool)

  datatype Entry = Entry(commit: Commit, parents: seq<Commit>, message: Message)

  // ---------------------------------------------------------------- restored work

  /** The entry produced its commit in this worktree. */
  predicate MadeHere(e: Entry) {
    || e.message.own
    || (|e.parents| == 2 && e.message.mergeMade)
    || e.message.rebase == Some(Replay)
  }

  /** The entry settles where its commit came from: the move onto it is not a no-op, and it is
      not itself a restore. */
  predicate Decides(es: seq<Entry>, j: nat, commit: Commit)
    requires j < |es|
  {
    && es[j].commit == commit
    && !(j + 1 < |es| && es[j + 1].commit == commit)
    && (MadeHere(es[j]) || !(es[j].message.reset || es[j].message.rebase.Some?))
  }

  /** `_previous_work_entry` from index `j` on: the first deciding entry, if it is work. */
  function PreviousFrom(es: seq<Entry>, j: nat, commit: Commit): (p: Option<nat>)
    ensures p.Some? ==> j <= p.value < |es| && Decides(es, p.value, commit) && MadeHere(es[p.value])
    decreases |es| - j
  {
    if j >= |es| then None
    else if Decides(es, j, commit) then (if MadeHere(es[j]) then Some(j) else None)
    else PreviousFrom(es, j + 1, commit)
  }

  function PreviousWork(es: seq<Entry>): (p: Option<nat>)
    requires es != []
    ensures p.Some? ==> 0 < p.value < |es|
  {
    PreviousFrom(es, 1, es[0].commit)
  }

  /** Both directions: the entry found is the first that decides, and it is found exactly when
      that one is work. */
  lemma {:induction false} PreviousWorkIsTheFirstDecision(es: seq<Entry>, j: nat, commit: Commit, p: nat)
    requires j <= p < |es|
    ensures PreviousFrom(es, j, commit) == Some(p) <==>
            && Decides(es, p, commit) && MadeHere(es[p])
            && forall i :: j <= i < p ==> !Decides(es, i, commit)
    decreases |es| - j
  {
    if j < p && !Decides(es, j, commit) {
      PreviousWorkIsTheFirstDecision(es, j + 1, commit, p);
    }
  }

  /** The search loop, with the branches of the source. */
  method PreviousWorkEntry(es: seq<Entry>, index: nat, commit: Commit) returns (r: Option<nat>)
    ensures r == PreviousFrom(es, index + 1, commit)
  {
    var previous := index + 1;
    while previous < |es|
      invariant PreviousFrom(es, index + 1, commit) == PreviousFrom(es, previous, commit)
    {
      var e := es[previous];
      if e.commit != commit {
        previous := previous + 1;
        continue;
      }
      if previous + 1 < |es| && es[previous + 1].commit == commit {
        previous := previous + 1;
        continue;
      }
      if e.message.own || (|e.parents| == 2 && e.message.mergeMade) || e.message.rebase == Some(Replay) {
        return Some(previous);
      }
      if e.message.reset || e.message.rebase.Some? {
        previous := previous + 1;
        continue;
      }
      return None;
    }
    r := None;
  }

  // ---------------------------------------------------------------- the base

  predicate TwoParentMerge(e: Entry) {
    |e.parents| == 2 && (e.message.commitMerge || e.message.mergeMade)
  }

  /** The move goes nowhere: the next older entry already had this commit. */
  predicate NoOp(es: seq<Entry>)
    requires es != []
  {
    |es| > 1 && es[1].commit == es[0].commit
  }

  /** What one entry does: answer, or go on `skip` entries further, inside `aborted` brackets. */
  datatype Step = Answer(base: Commit) | Go(skip: nat, aborted: nat)

  /** A reset or rebase start: resume the stretch of work it restored, or adopt its commit. */
  function Restore(es: seq<Entry>): (st: Step)
    requires es != []
    ensures st.Go? ==> 0 < st.skip <= |es|
  {
    match PreviousWork(es)
    case Some(p) => Go(p, 0)
    case None => if NoOp(es) then Go(1, 0) else Answer(es[0].commit)
  }

  function Visit(es: seq<Entry>, aborted: nat): (st: Step)
    requires es != []
    ensures st.Go? ==> 0 < st.skip <= |es|
  {
    var e := es[0];
    if e.message.rebase.Some? then
      match e.message.rebase.value
      case Abort => Go(1, aborted + 1)
      case Start => if aborted > 0 then Go(1, aborted - 1) else Restore(es)
      case _ => Go(1, aborted)
    else if aborted > 0 then Go(1, aborted)
    else if TwoParentMerge(e) then Answer(e.parents[1])
    else if e.message.own then Go(1, 0)
    else if e.message.reset then Restore(es)
    else if NoOp(es) then Go(1, 0)
    else Answer(e.commit)
  }

  /** The answer for a reflog that starts at `es[0]`, inside `aborted` unfinished brackets. */
  function Select(es: seq<Entry>, aborted: nat, fallback: Commit): Commit
    decreases |es|
  {
    if es == [] then fallback
    else
      match Visit(es, aborted)
      case Answer(base) => base
      case Go(skip, depth) => Select(es[skip..], depth, fallback)
  }

  /** The loop body of `select_diff_base` at one entry that is not skipped. */
  method VisitEntry(es: seq<Entry>, index: nat, aborted: nat) returns (st: Step)
    requires index < |es|
    ensures st == Visit(es[index..], aborted)
  {
    var e := es[index];
    Shifted(es, index, e.commit);
    if e.message.rebase.Some? {
      var action := e.message.rebase.value;
      if action.Abort? {
        return Go(1, aborted + 1);
      } else if action.Start? {
        if aborted > 0 {
          return Go(1, aborted - 1);
        }
        var previous := PreviousWorkEntry(es, index, e.commit);
        if previous.Some? {
          return Go(previous.value - index, 0);
        } else if index + 1 == |es| || es[index + 1].commit != e.commit {
          return Answer(e.commit);
        }
      }
      return Go(1, aborted);
    }
    if aborted > 0 {
      return Go(1, aborted);
    }
    if |e.parents| == 2 && (e.message.commitMerge || e.message.mergeMade) {
      return Answer(e.parents[1]);
    }
    if e.message.own {
      return Go(1, 0);
    }
    if e.message.reset {
      var previous := PreviousWorkEntry(es, index, e.commit);
      if previous.Some? {
        return Go(previous.value - index, 0);
      }
    }
    if index + 1 < |es| && es[index + 1].commit == e.commit {
      return Go(1, 0);
    }
    st := Answer(e.commit);
  }

  /** `select_diff_base`, once the lines are parsed. */
  method SelectDiffBase(es: seq<Entry>, fallback: Commit) returns (base: Commit)
    ensures base == Select(es, 0, fallback)
  {
    var aborted, resumeAt, index := 0, 0, 0;
    assert es[0..] == es;
    while index < |es|
      invariant 0 <= index <= |es| && 0 <= aborted && 0 <= resumeAt <= |es|
      invariant Select(es, 0, fallback) == Select(es[Later(index, resumeAt)..], aborted, fallback)
    {
      if index >= resumeAt {
        var st := VisitEntry(es, index, aborted);
        if st.Answer? {
          return st.base;
        }
        SelectGoes(es, index, aborted, fallback);
        resumeAt, aborted := index + st.skip, st.aborted;
      }
      index := index + 1;
    }
    base := fallback;
  }

  lemma SelectGoes(es: seq<Entry>, index: nat, aborted: nat, fallback: Commit)
    requires index < |es| && Visit(es[index..], aborted).Go?
    ensures var st := Visit(es[index..], aborted);
            index + st.skip <= |es|
            && Select(es[index..], aborted, fallback) == Select(es[index + st.skip..], st.aborted, fallback)
  {
  }

  function Later(index: nat, resumeAt: nat): nat {
    if index < resumeAt then resumeAt else index
  }

  /** Searching a suffix is searching the whole, shifted: the search never looks back. */
  lemma Shifted(es: seq<Entry>, index: nat, commit: Commit)
    requires index < |es|
    ensures var p := PreviousFrom(es, index + 1, commit);
            PreviousFrom(es[index..], 1, commit) == if p.None? then None else Some(p.value - index)
  {
    ShiftedFrom(es, index, 1, commit);
  }

  lemma {:induction false} ShiftedFrom(es: seq<Entry>, index: nat, j: nat, commit: Commit)
    requires index <= |es|
    ensures var p := PreviousFrom(es, index + j, commit);
            PreviousFrom(es[index..], j, commit) == if p.None? then None else Some(p.value - index)
    decreases |es| - index - j
  {
    if index + j < |es| {
      assert Decides(es[index..], j, commit) == Decides(es, index + j, commit);
      ShiftedFrom(es, index, j + 1, commit);
    }
  }

  // ---------------------------------------------------------------- what does not matter

  predicate PlainOwnCommit(e: Entry) {
    e.message.own && e.message.rebase.None? && !TwoParentMerge(e)
  }

  /** The bracket depth after `seg`, from inside at least one open bracket to the end of the
      outermost one; nothing if the bracket closes early or stays unentered. */
  function Inside(seg: seq<Entry>, depth: nat): Option<nat>
    decreases |seg|
  {
    if seg == [] then Some(depth)
    else if depth == 0 then None
    else if seg[0].message.rebase == Some(Abort) then Inside(seg[1..], depth + 1)
    else if seg[0].message.rebase == Some(Start) then Inside(seg[1..], depth - 1)
    else Inside(seg[1..], depth)
  }

  /** One whole aborted rebase, newest first: from its abort back to its start, with whatever
      happened in between, aborted rebases included. */
  predicate AbortedRebase(seg: seq<Entry>) {
    seg != [] && seg[0].message.rebase == Some(Abort) && Inside(seg[1..], 1) == Some(0)
  }

  lemma {:induction false} BracketIsSkipped(seg: seq<Entry>, rest: seq<Entry>, depth: nat, fallback: Commit)
    requires Inside(seg, depth).Some?
    ensures Select(seg + rest, depth, fallback) == Select(rest, Inside(seg, depth).value, fallback)
    decreases |seg|
  {
    if seg == [] {
      assert seg + rest == rest;
    } else {
      assert (seg + rest)[0] == seg[0] && (seg + rest)[1..] == seg[1..] + rest;
      var next := if seg[0].message.rebase == Some(Abort) then depth + 1
                  else if seg[0].message.rebase == Some(Start) then depth - 1 else depth;
      BracketIsSkipped(seg[1..], rest, next, fallback);
    }
  }

  /** Recent history that says nothing about the base: own commits and aborted rebases, in any
      order and number. */
  ghost predicate PassedOver(a: seq<Entry>)
    decreases |a|
  {
    || a == []
    || (PlainOwnCommit(a[0]) && PassedOver(a[1..]))
    || exists k :: 0 < k <= |a| && AbortedRebase(a[..k]) && PassedOver(a[k..])
  }

  /** Bracket- and own-work-insensitivity: prepending any such history changes nothing. */
  lemma {:induction false} RecentWorkIsPassedOver(a: seq<Entry>, rest: seq<Entry>, fallback: Commit)
    requires PassedOver(a)
    ensures Select(a + rest, 0, fallback) == Select(rest, 0, fallback)
    decreases |a|
  {
    if a == [] {
      assert a + rest == rest;
    } else if PlainOwnCommit(a[0]) && PassedOver(a[1..]) {
      assert (a + rest)[0] == a[0] && (a + rest)[1..] == a[1..] + rest;
      RecentWorkIsPassedOver(a[1..], rest, fallback);
    } else {
      var k :| 0 < k <= |a| && AbortedRebase(a[..k]) && PassedOver(a[k..]);
      var seg, tail := a[..k], a[k..] + rest;
      assert a + rest == seg + tail;
      assert (seg + tail)[0] == seg[0] && (seg + tail)[1..] == seg[1..] + tail;
      BracketIsSkipped(seg[1..], tail, 1, fallback);
      RecentWorkIsPassedOver(a[k..], rest, fallback);
    }
  }

  /** After such history, a reset onto work found at entry `p` answers as the reflog cut to start
      at `p`; a reset onto anything else that moved adopts its commit. */
  lemma ResetResumesEarlierWork(a: seq<Entry>, rest: seq<Entry>, fallback: Commit)
    requires PassedOver(a) && rest != []
    requires rest[0].message.reset && rest[0].message.rebase.None? && !rest[0].message.own && !TwoParentMerge(rest[0])
    ensures PreviousWork(rest).Some? ==>
              Select(a + rest, 0, fallback) == Select(rest[PreviousWork(rest).value..], 0, fallback)
    ensures PreviousWork(rest).None? && !NoOp(rest) ==> Select(a + rest, 0, fallback) == rest[0].commit
  {
    RecentWorkIsPassedOver(a, rest, fallback);
  }

  /** After such history, a two-parent merge answers with its incoming parent, and a checkout or
      fast-forward that moved answers with the commit it adopted. */
  lemma AdoptionEndsTheStretch(a: seq<Entry>, rest: seq<Entry>, fallback: Commit)
    requires PassedOver(a) && rest != [] && rest[0].message.rebase.None?
    ensures TwoParentMerge(rest[0]) ==> Select(a + rest, 0, fallback) == rest[0].parents[1]
    ensures !TwoParentMerge(rest[0]) && !rest[0].message.own && !rest[0].message.reset && !NoOp(rest) ==>
              Select(a + rest, 0, fallback) == rest[0].commit
  {
    RecentWorkIsPassedOver(a, rest, fallback);
  }

  // ---------------------------------------------------------------- no-op moves

  /** A move that is neither work nor a restore, onto the commit that is already checked out. */
  predicate PlainNoOp(e: Entry, suf: seq<Entry>) {
    && e.message.rebase.None? && !e.message.own && !e.message.reset && !TwoParentMerge(e)
    && suf != [] && suf[0].commit == e.commit
  }

  /** Where an index of the shorter reflog sits in the one with the extra entry. */
  function Moved(pre: seq<Entry>, p: Option<nat>): Option<nat> {
    if p.None? || p.value < |pre| then p else Some(p.value + 1)
  }

  lemma SlicesBefore(pre: seq<Entry>, e: Entry, suf: seq<Entry>, k: nat)
    requires k <= |pre|
    ensures (pre + [e] + suf)[k..] == pre[k..] + [e] + suf
    ensures (pre + suf)[k..] == pre[k..] + suf
  {
  }

  lemma SlicesAfter(pre: seq<Entry>, e: Entry, suf: seq<Entry>, k: nat)
    requires |pre| <= k <= |pre| + |suf|
    ensures (pre + [e] + suf)[k + 1..] == (pre + suf)[k..]
  {
  }

  lemma NoOpDecidesAlike(pre: seq<Entry>, e: Entry, suf: seq<Entry>, j: nat, commit: Commit)
    requires PlainNoOp(e, suf) && j < |pre|
    ensures Decides(pre + [e] + suf, j, commit) == Decides(pre + suf, j, commit)
  {
  }

  lemma {:induction false} NoOpIsNotSearched(pre: seq<Entry>, e: Entry, suf: seq<Entry>, j: nat, commit: Commit)
    requires PlainNoOp(e, suf) && j <= |pre|
    ensures PreviousFrom(pre + [e] + suf, j, commit) == Moved(pre, PreviousFrom(pre + suf, j, commit))
    decreases |pre| - j
  {
    var long, short := pre + [e] + suf, pre + suf;
    if j < |pre| {
      NoOpDecidesAlike(pre, e, suf, j, commit);
      NoOpIsNotSearched(pre, e, suf, j + 1, commit);
      assert long[j] == short[j];
    } else {
      assert long[j] == e && long[j + 1].commit == e.commit;
      assert !Decides(long, j, commit);
      SlicesAfter(pre, e, suf, j);
      ShiftedFrom(long, j + 1, 0, commit);
      ShiftedFrom(short, j, 0, commit);
    }
  }

  /** The two reflogs visit their first entry alike. */
  lemma NoOpIsVisitedAlike(pre: seq<Entry>, e: Entry, suf: seq<Entry>, aborted: nat)
    requires PlainNoOp(e, suf) && pre != []
    ensures var long, short := Visit(pre + [e] + suf, aborted), Visit(pre + suf, aborted);
            if short.Answer? then long == short
            else long == Go(if short.skip <= |pre| then short.skip else short.skip + 1, short.aborted)
                 || (short.skip == |pre| && long == Go(|pre| + 1, short.aborted))
  {
    var long, short := pre + [e] + suf, pre + suf;
    assert long[0] == short[0] == pre[0];
    assert long[1].commit == short[1].commit;
    NoOpIsNotSearched(pre, e, suf, 1, pre[0].commit);
  }

  /** Creating a branch at the current commit, and any other plain no-op move, is invisible
      wherever in the reflog it happened. */
  lemma {:induction false} NoOpMoveIsInvisible(pre: seq<Entry>, e: Entry, suf: seq<Entry>, aborted: nat, fallback: Commit)
    requires PlainNoOp(e, suf)
    ensures Select(pre + [e] + suf, aborted, fallback) == Select(pre + suf, aborted, fallback)
    decreases |pre|
  {
    var long, short := pre + [e] + suf, pre + suf;
    if pre == [] {
      assert short == suf && long == [e] + suf && long[1..] == suf;
      assert Visit(long, aborted) == Go(1, aborted);
    } else {
      NoOpIsVisitedAlike(pre, e, suf, aborted);
      var st, lt := Visit(short, aborted), Visit(long, aborted);
      if st.Go? {
        if lt.skip == st.skip {
          SlicesBefore(pre, e, suf, st.skip);
          NoOpMoveIsInvisible(pre[st.skip..], e, suf, st.aborted, fallback);
        } else {
          SlicesAfter(pre, e, suf, st.skip);
        }
      }
    }
  }

  // ---------------------------------------------------------------- where answers come from

  /** The answer is the fallback, a commit the reflog adopted, or an incoming merge parent. */
  lemma {:induction false} AnswerIsInTheReflog(es: seq<Entry>, aborted: nat, fallback: Commit)
    ensures var base := Select(es, aborted, fallback);
            || base == fallback
            || exists i :: 0 <= i < |es| && (es[i].commit == base || (TwoParentMerge(es[i]) && es[i].parents[1] == base))
    decreases |es|
  {
    if es != [] {
      var st := Visit(es, aborted);
      if st.Go? {
        AnswerIsInTheReflog(es[st.skip..], st.aborted, fallback);
        assert forall i :: 0 <= i < |es| - st.skip ==> es[st.skip..][i] == es[i + st.skip];
      } else {
        assert es[0].commit == st.base || (TwoParentMerge(es[0]) && es[0].parents[1] == st.base);
      }
    }
  }
}
