/**
 The guest side of durable VM operations: one operation directory, and any number of helper
 processes that submit, upload, start, cancel and execute it. A process advances by one file
 access at a time, may raise where the code can, and may die anywhere; the operating system
 then drops its locks. An event sequence is any interleaving of these steps.
 */
module VmGuest {
  import opened Wrappers

  type Pid = nat

  datatype Action = Import | Other
  /** The bound request. `body` stands for the rest of its JSON. */
  datatype Request = Request(action: Action, body: nat)
  datatype Outcome = Completed | Failed | Cancelled | CleanupFailed

  /** The files of one operation directory. `cancels` counts the writes of `cancel.json`, which
      is what its modification time tells a worker; `archive` names the upload that published
      `archive.tar`. */
  datatype Dir = Dir(made: bool, request: Option<Request>, archive: Option<Pid>, upload: bool,
                     started: Option<Pid>, cancels: nat, result: Option<Outcome>)

  /** Where a process is. Each constructor is a point between two file accesses. */
  datatype Proc =
    | Gone
      // `_prepare`
    | Making(req: Request, uploads: bool)
    | Submitting(req: Request, uploads: bool)
    | Binding(req: Request, uploads: bool)
      // `_upload`
    | UploadWaiting(req: Request)
    | UploadStatus(req: Request, noResult: bool)
    | Receiving(req: Request, keeps: bool)
    | Renaming(req: Request)
    | Marking(req: Request)
      // `_rpc` start
    | Gate(req: Request)
    | StartStatus(req: Request, noResult: bool)
    | StartUploaded(req: Request)
    | Spawning(req: Request)
      // `_rpc` cancel
    | CancelMark
    | CancelLocking
    | CancelLocked
    | CancelSawNoStart
    | CancelWriting
      // `_worker` and `_work`
    | WorkerLocking
    | WorkerLocked
    | WorkerSawNoStart
    | WorkerClear
    | WorkerReady(run: Request)
    | WorkerStarted(run: Request)
    | WorkerPolled(run: Request)
    | WorkerRunning(run: Request)
    | WorkerStopping(outcome: Outcome)
    | WorkerStuck
    | WorkerNoting(seen: nat)
    | WorkerRetrying(seen: nat)
    | WorkerWriting(outcome: Outcome)
    | WorkerFailing

  datatype State = State(dir: Dir, submitLock: Option<Pid>, uploadLock: Option<Pid>, workerLock: Option<Pid>,
                         procs: map<Pid, Proc>, performs: seq<(Pid, Request)>)

  /** What the code does not decide: whether a call raises, how `_perform` ends, whether the
      descendants quiesce, whether an upload stream completes, and the pid of a child. */
  datatype Choice = Go | Raise | End(outcome: Outcome) | Child(pid: Pid)

  datatype Call = StartCall(req: Request) | UploadCall(req: Request) | CancelCall

  datatype Event = Arrive(p: Pid, call: Call) | Advance(p: Pid, choice: Choice) | Die(p: Pid)

  const FRESH := State(Dir(false, None, None, false, None, 0, None), None, None, None, map[], [])

  // ---------------------------------------------------------------- steps

  function To(s: State, p: Pid, proc: Proc): State {
    s.(procs := s.procs[p := proc])
  }

  function Without(lock: Option<Pid>, p: Pid): Option<Pid> {
    if lock == Some(p) then None else lock
  }

  /** A process exits or dies: its locks go with it. */
  function Leave(s: State, p: Pid): State {
    To(s, p, Gone).(submitLock := Without(s.submitLock, p), uploadLock := Without(s.uploadLock, p),
                    workerLock := Without(s.workerLock, p))
  }

  predicate Terminal(result: Option<Outcome>) {
    result.Some? && !result.value.CleanupFailed?
  }

  predicate Prepares(proc: Proc) {
    proc.Making? || proc.Submitting? || proc.Binding?
  }

  predicate Uploads(proc: Proc) {
    proc.UploadWaiting? || proc.UploadStatus? || proc.Receiving? || proc.Renaming? || proc.Marking?
  }

  predicate Starts(proc: Proc) {
    proc.Gate? || proc.StartStatus? || proc.StartUploaded? || proc.Spawning?
  }

  predicate Cancels(proc: Proc) {
    proc.CancelMark? || proc.CancelLocking? || proc.CancelLocked? || proc.CancelSawNoStart? || proc.CancelWriting?
  }

  function ActPrepare(s: State, p: Pid, proc: Proc): State
    requires Prepares(proc)
  {
    match proc
    case Making(req, uploads) => To(s, p, Submitting(req, uploads)).(dir := s.dir.(made := true))
    case Submitting(req, uploads) =>
      if s.submitLock.Some? then s else To(s, p, Binding(req, uploads)).(submitLock := Some(p))
    case Binding(req, uploads) =>
      var next := To(s, p, if uploads then UploadWaiting(req) else Gate(req)).(submitLock := Without(s.submitLock, p));
      match s.dir.request
      case None => next.(dir := s.dir.(request := Some(req)))
      case Some(bound) => if bound == req then next else Leave(s, p)
  }

  function ActUpload(s: State, p: Pid, proc: Proc, choice: Choice): State
    requires Uploads(proc)
  {
    match proc
    case UploadWaiting(req) =>
      if s.uploadLock.Some? then s else To(s, p, UploadStatus(req, false)).(uploadLock := Some(p))
    case UploadStatus(req, noResult) =>
      if !noResult then
        To(s, p, if s.dir.result.Some? then Receiving(req, false) else UploadStatus(req, true))
      else
        To(s, p, Receiving(req, s.dir.started.None?))
    case Receiving(req, keeps) =>
      // Any truncated or oversized stream raises before the zero frame is seen.
      if choice.Raise? then Leave(s, p)
      else if keeps then To(s, p, Renaming(req))
      else To(s, p, Gate(req)).(uploadLock := Without(s.uploadLock, p))
    case Renaming(req) =>
      if choice.Raise? then Leave(s, p)
      else To(s, p, Marking(req)).(dir := s.dir.(archive := Some(p)))
    case Marking(req) =>
      if choice.Raise? then Leave(s, p)
      else To(s, p, Gate(req)).(dir := s.dir.(upload := true), uploadLock := Without(s.uploadLock, p))
  }

  function ActStart(s: State, p: Pid, proc: Proc, choice: Choice): State
    requires Starts(proc)
  {
    match proc
    case Gate(req) =>
      if req.action.Import? && !s.dir.upload && !Terminal(s.dir.result) then Leave(s, p)
      else To(s, p, StartStatus(req, false))
    case StartStatus(req, noResult) =>
      if !noResult then
        if s.dir.result.Some? then Leave(s, p) else To(s, p, StartStatus(req, true))
      else if s.dir.started.Some? then Leave(s, p)
      else To(s, p, StartUploaded(req))
    case StartUploaded(req) =>
      if req.action.Import? && !s.dir.upload then Leave(s, p) else To(s, p, Spawning(req))
    case Spawning(req) =>
      if choice.Child? && choice.pid !in s.procs then Leave(To(s, choice.pid, WorkerLocking), p) else s
  }

  function ActCancel(s: State, p: Pid, proc: Proc): State
    requires Cancels(proc)
  {
    match proc
    case CancelMark =>
      if !s.dir.made then Leave(s, p)
      else To(s, p, CancelLocking).(dir := s.dir.(cancels := s.dir.cancels + 1))
    case CancelLocking =>
      if s.workerLock.Some? then Leave(s, p) else To(s, p, CancelLocked).(workerLock := Some(p))
    case CancelLocked => if s.dir.started.Some? then Leave(s, p) else To(s, p, CancelSawNoStart)
    case CancelSawNoStart => if s.dir.result.Some? then Leave(s, p) else To(s, p, CancelWriting)
    case CancelWriting => Leave(s, p).(dir := s.dir.(result := Some(Cancelled)))
  }

  predicate IsWorker(proc: Proc) {
    || proc.WorkerLocking? || proc.WorkerLocked? || proc.WorkerSawNoStart? || proc.WorkerClear?
    || proc.WorkerReady? || proc.WorkerStarted? || proc.WorkerPolled? || proc.WorkerRunning?
    || proc.WorkerStopping? || proc.WorkerStuck? || proc.WorkerNoting? || proc.WorkerRetrying? || proc.WorkerWriting?
    || proc.WorkerFailing?
  }

  /** How `_perform` may end: on its own, or because a poll saw `cancel.json`. A cancelled task
      that completes all the same is recorded as cancelled. */
  predicate MayEnd(s: State, outcome: Outcome) {
    outcome.Completed? || outcome.Failed? || (outcome.Cancelled? && s.dir.cancels > 0)
  }

  function ActWorker(s: State, p: Pid, proc: Proc, choice: Choice): State
    requires IsWorker(proc)
  {
    match proc
    case WorkerLocking =>
      if s.workerLock.Some? then Leave(s, p) else To(s, p, WorkerLocked).(workerLock := Some(p))
    case WorkerLocked => if s.dir.started.Some? then Leave(s, p) else To(s, p, WorkerSawNoStart)
    case WorkerSawNoStart => if s.dir.result.Some? then Leave(s, p) else To(s, p, WorkerClear)
    case WorkerClear =>
      if choice.Raise? || s.dir.request.None? then To(s, p, WorkerFailing) else To(s, p, WorkerReady(s.dir.request.value))
    case WorkerReady(run) =>
      if choice.Raise? then To(s, p, WorkerFailing)
      else To(s, p, WorkerStarted(run)).(dir := s.dir.(started := Some(p)))
    case WorkerStarted(run) =>
      // The first poll comes before the task's first step: cancelling it then runs none of it.
      To(s, p, if s.dir.cancels > 0 then WorkerStopping(Cancelled) else WorkerPolled(run))
    case WorkerPolled(run) => To(s, p, WorkerRunning(run)).(performs := s.performs + [(p, run)])
    case WorkerRunning(run) =>
      if choice.End? && MayEnd(s, choice.outcome) then To(s, p, WorkerStopping(choice.outcome)) else s
    case WorkerStopping(outcome) => To(s, p, if choice.Raise? then WorkerStuck else WorkerWriting(outcome))
    case WorkerStuck => To(s, p, if choice.Raise? then WorkerFailing else WorkerNoting(s.dir.cancels))
    case WorkerNoting(seen) =>
      if choice.Raise? then To(s, p, WorkerFailing)
      else To(s, p, WorkerRetrying(seen)).(dir := s.dir.(result := Some(CleanupFailed)))
    case WorkerRetrying(seen) =>
      if choice == End(Failed) then To(s, p, WorkerFailing)
      else if s.dir.cancels == seen then s
      else To(s, p, if choice.Raise? then WorkerNoting(s.dir.cancels) else WorkerWriting(Cancelled))
    case WorkerWriting(outcome) =>
      if choice.Raise? then To(s, p, WorkerFailing)
      else Leave(s, p).(dir := s.dir.(result := Some(outcome)))
    case WorkerFailing =>
      if choice.Raise? then Leave(s, p)
      else Leave(s, p).(dir := s.dir.(result := Some(Failed)))
  }

  function Act(s: State, p: Pid, choice: Choice): State {
    if p !in s.procs || s.procs[p].Gone? then s
    else
      var proc := s.procs[p];
      if Prepares(proc) then ActPrepare(s, p, proc)
      else if Uploads(proc) then ActUpload(s, p, proc, choice)
      else if Starts(proc) then ActStart(s, p, proc, choice)
      else if IsWorker(proc) then ActWorker(s, p, proc, choice)
      else ActCancel(s, p, proc)
  }

  function Entry(call: Call): Proc {
    match call
    case StartCall(req) => Making(req, false)
    case UploadCall(req) => Making(req, true)
    case CancelCall => CancelMark
  }

  function Step(s: State, e: Event): State {
    match e
    case Arrive(p, call) => if p in s.procs then s else To(s, p, Entry(call))
    case Advance(p, choice) => Act(s, p, choice)
    case Die(p) => if p in s.procs then Leave(s, p) else s
  }

  function Run(s: State, events: seq<Event>): State
    decreases |events|
  {
    if events == [] then s else Run(Step(s, events[0]), events[1..])
  }

  /** `_status`, as a query sees one state. */
  datatype Status = Preparing | Uploading | Running | Unknown | Settled(outcome: Outcome) | NoRequest

  function StatusOf(s: State): Status {
    match s.dir.result
    case Some(outcome) => Settled(outcome)
    case None =>
      match s.dir.started
      case Some(p) => if p in s.procs && !s.procs[p].Gone? then Running else Unknown
      case None =>
        match s.dir.request
        case None => NoRequest
        case Some(req) => if req.action.Import? && !s.dir.upload then Uploading else Preparing
  }

  // ---------------------------------------------------------------- the invariant

  predicate HoldsWorker(proc: Proc) {
    (IsWorker(proc) && !proc.WorkerLocking?) || proc.CancelLocked? || proc.CancelSawNoStart? || proc.CancelWriting?
  }

  /** An import whose archive is complete and published, or no import at all. */
  predicate MayRun(dir: Dir, req: Request) {
    dir.request == Some(req) && (req.action.Import? ==> dir.upload)
  }

  /** The request a process has seen bound. */
  function Bound(proc: Proc): Option<Request> {
    match proc
    case UploadWaiting(req) => Some(req)
    case UploadStatus(req, _) => Some(req)
    case Receiving(req, _) => Some(req)
    case Renaming(req) => Some(req)
    case Marking(req) => Some(req)
    case Gate(req) => Some(req)
    case StartStatus(req, _) => Some(req)
    case StartUploaded(req) => Some(req)
    case Spawning(req) => Some(req)
    case WorkerReady(run) => Some(run)
    case WorkerStarted(run) => Some(run)
    case WorkerPolled(run) => Some(run)
    case _ => None
  }

  /** Points that have seen no `started.json` while holding the worker lock. */
  predicate Unstarted(proc: Proc) {
    proc.CancelSawNoStart? || proc.CancelWriting? || proc.WorkerSawNoStart? || proc.WorkerClear? || proc.WorkerReady?
  }

  /** Points reached only before any result was written. */
  predicate Unresolved(proc: Proc) {
    || proc.CancelWriting? || proc.WorkerClear? || proc.WorkerReady? || proc.WorkerStarted? || proc.WorkerPolled?
    || proc.WorkerRunning? || proc.WorkerStopping?
  }

  /** Points of a worker whose own `started.json` is there. */
  predicate Executing(proc: Proc) {
    || proc.WorkerStarted? || proc.WorkerPolled? || proc.WorkerRunning? || proc.WorkerStopping?
    || proc.WorkerStuck? || proc.WorkerNoting? || proc.WorkerRetrying? || proc.WorkerWriting?
  }

  /** What each point of each process relies on. */
  ghost predicate ProcOk(s: State, p: Pid, proc: Proc) {
    && (HoldsWorker(proc) ==> s.workerLock == Some(p))
    && (proc.Binding? ==> s.submitLock == Some(p))
    && (IsWorker(proc) ==> s.dir.request.Some? && MayRun(s.dir, s.dir.request.value))
    && (proc.Spawning? ==> MayRun(s.dir, proc.req))
    && (proc.Marking? ==> s.dir.archive.Some?)
    && (Bound(proc).Some? ==> s.dir.request == Bound(proc))
    && (Unstarted(proc) ==> s.dir.started.None?)
    && (Unresolved(proc) ==> s.dir.result.None?)
    && (Executing(proc) ==> s.dir.started == Some(p) && !Terminal(s.dir.result))
    && (proc.WorkerFailing? ==> !Terminal(s.dir.result) && (s.dir.started.None? || s.dir.started == Some(p)))
    && (proc.WorkerStarted? || proc.WorkerPolled? ==> s.performs == [])
    && (proc.WorkerRetrying? ==> s.dir.result == Some(CleanupFailed))
    && (proc.WorkerStopping? || proc.WorkerWriting? ==> !proc.outcome.CleanupFailed?)
    && (proc.WorkerWriting? && s.dir.result.Some? ==> proc.outcome.Cancelled?)
  }

  ghost predicate DirOk(s: State) {
    && (s.dir.upload ==> s.dir.archive.Some?)
    && (s.dir.started.Some? ==> s.dir.request.Some? && MayRun(s.dir, s.dir.request.value) && s.dir.started.value in s.procs)
    && (s.performs == [] || (s.dir.started.Some? && s.dir.request.Some?
                             && s.performs == [(s.dir.started.value, s.dir.request.value)]))
  }

  ghost predicate Inv(s: State) {
    DirOk(s) && forall p :: p in s.procs ==> ProcOk(s, p, s.procs[p])
  }

  /** What a step of `p` leaves alone, as every other process relies on it: a bound request, a
      published archive, the locks of others, and, without the worker lock, the execution files. */
  ghost predicate Quiet(s: State, s': State, p: Pid) {
    && (s.dir.request.Some? ==> s'.dir.request == s.dir.request)
    && (s.dir.archive.Some? ==> s'.dir.archive.Some?)
    && (s.dir.upload ==> s'.dir.upload)
    && (s.workerLock != Some(p) ==>
          s'.dir.started == s.dir.started && s'.dir.result == s.dir.result && s'.performs == s.performs)
    && (s.workerLock.Some? && s.workerLock != Some(p) ==> s'.workerLock == s.workerLock)
    && (s.submitLock.Some? && s.submitLock != Some(p) ==> s'.submitLock == s.submitLock)
  }

  /** What only ever moves one way, and from where. */
  ghost predicate Forward(s: State, s': State, proc: Proc, proc': Proc) {
    && (s.dir.started.Some? ==> s'.dir.started == s.dir.started)
    && s.dir.cancels <= s'.dir.cancels
    && (Terminal(s.dir.result) ==> s'.dir.result == s.dir.result)
    && (s.dir.result == Some(CleanupFailed) ==> s'.dir.result.Some? && !s'.dir.result.value.Completed?)
    && (s'.dir.result != s.dir.result ==> Unstarted(proc) || Executing(proc) || proc.WorkerFailing?)
    && (s'.performs != s.performs ==> proc.WorkerPolled?)
    && (proc'.WorkerPolled? ==> s.dir.cancels == 0)
    && (proc.Gone? ==> proc'.Gone?)
  }

  /** A step of `p`: nothing, or one that is quiet for the others and leaves itself in order. */
  ghost predicate GoodStep(s: State, s': State, p: Pid) {
    || s' == s
    || (&& p in s'.procs && s'.procs == s.procs[p := s'.procs[p]]
        && Quiet(s, s', p) && DirOk(s') && ProcOk(s', p, s'.procs[p])
        && Forward(s, s', if p in s.procs then s.procs[p] else s'.procs[p], s'.procs[p]))
  }

  lemma GoodStepKeepsInv(s: State, s': State, p: Pid)
    requires Inv(s) && GoodStep(s, s', p)
    ensures Inv(s')
  {
  }

  lemma LeaveIsGood(s: State, p: Pid)
    requires DirOk(s) && p in s.procs
    ensures GoodStep(s, Leave(s, p), p)
  {
  }

  lemma MakingIsGood(s: State, p: Pid)
    requires DirOk(s) && p in s.procs && ProcOk(s, p, s.procs[p])
    requires s.procs[p].Making? || s.procs[p].Submitting?
    ensures GoodStep(s, ActPrepare(s, p, s.procs[p]), p)
  {
  }

  lemma BindingIsGood(s: State, p: Pid)
    requires DirOk(s) && p in s.procs && ProcOk(s, p, s.procs[p])
    requires s.procs[p].Binding?
    ensures GoodStep(s, ActPrepare(s, p, s.procs[p]), p)
  {
  }

  lemma UploadLocksGood(s: State, p: Pid, choice: Choice)
    requires DirOk(s) && p in s.procs && ProcOk(s, p, s.procs[p])
    requires s.procs[p].UploadWaiting?
    ensures GoodStep(s, ActUpload(s, p, s.procs[p], choice), p)
  {
  }

  lemma UploadStatusIsGood(s: State, p: Pid, choice: Choice)
    requires DirOk(s) && p in s.procs && ProcOk(s, p, s.procs[p])
    requires s.procs[p].UploadStatus?
    ensures GoodStep(s, ActUpload(s, p, s.procs[p], choice), p)
  {
  }

  lemma ReceivingIsGood(s: State, p: Pid, choice: Choice)
    requires DirOk(s) && p in s.procs && ProcOk(s, p, s.procs[p])
    requires s.procs[p].Receiving?
    ensures GoodStep(s, ActUpload(s, p, s.procs[p], choice), p)
  {
  }

  lemma RenamingIsGood(s: State, p: Pid, choice: Choice)
    requires DirOk(s) && p in s.procs && ProcOk(s, p, s.procs[p])
    requires s.procs[p].Renaming?
    ensures GoodStep(s, ActUpload(s, p, s.procs[p], choice), p)
  {
  }

  lemma MarkingIsGood(s: State, p: Pid, choice: Choice)
    requires DirOk(s) && p in s.procs && ProcOk(s, p, s.procs[p])
    requires s.procs[p].Marking?
    ensures GoodStep(s, ActUpload(s, p, s.procs[p], choice), p)
  {
  }

  lemma GateIsGood(s: State, p: Pid, choice: Choice)
    requires DirOk(s) && p in s.procs && ProcOk(s, p, s.procs[p])
    requires s.procs[p].Gate? || s.procs[p].StartUploaded?
    ensures GoodStep(s, ActStart(s, p, s.procs[p], choice), p)
  {
  }

  lemma StartStatusIsGood(s: State, p: Pid, choice: Choice)
    requires DirOk(s) && p in s.procs && ProcOk(s, p, s.procs[p])
    requires s.procs[p].StartStatus?
    ensures GoodStep(s, ActStart(s, p, s.procs[p], choice), p)
  {
  }

  lemma CancelMarksGood(s: State, p: Pid)
    requires DirOk(s) && p in s.procs && ProcOk(s, p, s.procs[p])
    requires s.procs[p].CancelMark?
    ensures GoodStep(s, ActCancel(s, p, s.procs[p]), p)
  {
  }

  lemma CancelLocksGood(s: State, p: Pid)
    requires DirOk(s) && p in s.procs && ProcOk(s, p, s.procs[p])
    requires s.procs[p].CancelLocking?
    ensures GoodStep(s, ActCancel(s, p, s.procs[p]), p)
  {
  }

  lemma CancelDecidesGood(s: State, p: Pid)
    requires DirOk(s) && p in s.procs && ProcOk(s, p, s.procs[p])
    requires s.procs[p].CancelLocked? || s.procs[p].CancelSawNoStart? || s.procs[p].CancelWriting?
    ensures GoodStep(s, ActCancel(s, p, s.procs[p]), p)
  {
  }

  lemma WorkerLocksGood(s: State, p: Pid, choice: Choice)
    requires DirOk(s) && p in s.procs && ProcOk(s, p, s.procs[p])
    requires s.procs[p].WorkerLocking?
    ensures GoodStep(s, ActWorker(s, p, s.procs[p], choice), p)
  {
  }

  lemma WorkerLooksGood(s: State, p: Pid, choice: Choice)
    requires DirOk(s) && p in s.procs && ProcOk(s, p, s.procs[p])
    requires s.procs[p].WorkerLocked? || s.procs[p].WorkerSawNoStart?
    ensures GoodStep(s, ActWorker(s, p, s.procs[p], choice), p)
  {
  }

  lemma WorkerStartsGood(s: State, p: Pid, choice: Choice)
    requires DirOk(s) && p in s.procs && ProcOk(s, p, s.procs[p])
    requires s.procs[p].WorkerClear? || s.procs[p].WorkerReady?
    ensures GoodStep(s, ActWorker(s, p, s.procs[p], choice), p)
  {
  }

  lemma WorkerPollsGood(s: State, p: Pid, choice: Choice)
    requires DirOk(s) && p in s.procs && ProcOk(s, p, s.procs[p])
    requires s.procs[p].WorkerStarted? || s.procs[p].WorkerPolled?
    ensures GoodStep(s, ActWorker(s, p, s.procs[p], choice), p)
  {
  }

  lemma WorkerRunsGood(s: State, p: Pid, choice: Choice)
    requires DirOk(s) && p in s.procs && ProcOk(s, p, s.procs[p])
    requires s.procs[p].WorkerRunning? || s.procs[p].WorkerStopping?
    ensures GoodStep(s, ActWorker(s, p, s.procs[p], choice), p)
  {
  }

  lemma WorkerCleansGood(s: State, p: Pid, choice: Choice)
    requires DirOk(s) && p in s.procs && ProcOk(s, p, s.procs[p])
    requires s.procs[p].WorkerStuck? || s.procs[p].WorkerNoting? || s.procs[p].WorkerRetrying?
    ensures GoodStep(s, ActWorker(s, p, s.procs[p], choice), p)
  {
  }

  lemma WorkerWritesGood(s: State, p: Pid, choice: Choice)
    requires DirOk(s) && p in s.procs && ProcOk(s, p, s.procs[p])
    requires s.procs[p].WorkerWriting?
    ensures GoodStep(s, ActWorker(s, p, s.procs[p], choice), p)
  {
  }

  lemma WorkerFailsGood(s: State, p: Pid, choice: Choice)
    requires DirOk(s) && p in s.procs && ProcOk(s, p, s.procs[p])
    requires s.procs[p].WorkerFailing?
    ensures GoodStep(s, ActWorker(s, p, s.procs[p], choice), p)
  {
  }

  lemma SpawnIsGood(s: State, p: Pid, child: Pid)
    requires Inv(s) && p in s.procs && s.procs[p].Spawning? && child !in s.procs
    ensures var forked := To(s, child, WorkerLocking);
            && Inv(forked) && GoodStep(s, forked, child)
            && Inv(Leave(forked, p)) && GoodStep(forked, Leave(forked, p), p)
  {
    assert ProcOk(s, p, s.procs[p]);
    var forked := To(s, child, WorkerLocking);
    GoodStepKeepsInv(s, forked, child);
    LeaveIsGood(forked, p);
    GoodStepKeepsInv(forked, Leave(forked, p), p);
  }

  /** One event is nothing, one good step, or the two good steps of a spawn. */
  lemma StepIsGood(s: State, e: Event) returns (mid: State, p: Pid, q: Pid)
    requires Inv(s)
    ensures Inv(mid) && Inv(Step(s, e))
    ensures mid == s || GoodStep(s, mid, p)
    ensures Step(s, e) == mid || GoodStep(mid, Step(s, e), q)
  {
    mid, p, q := s, 0, 0;
    var s' := Step(s, e);
    match e
    case Arrive(r, call) =>
      if r !in s.procs { q := r; GoodStepKeepsInv(s, s', r); }
    case Die(r) =>
      if r in s.procs { q := r; LeaveIsGood(s, r); GoodStepKeepsInv(s, s', r); }
    case Advance(r, choice) =>
      if r in s.procs && !s.procs[r].Gone? {
        q := r;
        assert ProcOk(s, r, s.procs[r]);
        if s.procs[r].Spawning? {
          if choice.Child? && choice.pid !in s.procs {
            mid, p := To(s, choice.pid, WorkerLocking), choice.pid;
            SpawnIsGood(s, r, choice.pid);
          }
        } else {
          ActIsGood(s, r, choice);
          GoodStepKeepsInv(s, s', r);
        }
      }
  }

  lemma ActIsGood(s: State, p: Pid, choice: Choice)
    requires DirOk(s) && p in s.procs && ProcOk(s, p, s.procs[p])
    requires !s.procs[p].Gone? && !s.procs[p].Spawning?
    ensures GoodStep(s, Act(s, p, choice), p)
  {
    var proc := s.procs[p];
    if Prepares(proc) {
      if proc.Binding? { BindingIsGood(s, p); } else { MakingIsGood(s, p); }
    } else if Uploads(proc) {
      UploadIsGood(s, p, choice);
    } else if Starts(proc) {
      if proc.StartStatus? { StartStatusIsGood(s, p, choice); } else { GateIsGood(s, p, choice); }
    } else if IsWorker(proc) {
      WorkerIsGood(s, p, choice);
    } else {
      CancelIsGood(s, p);
    }
  }

  lemma UploadIsGood(s: State, p: Pid, choice: Choice)
    requires DirOk(s) && p in s.procs && ProcOk(s, p, s.procs[p]) && Uploads(s.procs[p])
    ensures GoodStep(s, ActUpload(s, p, s.procs[p], choice), p)
  {
    var proc := s.procs[p];
    if proc.Receiving? {
      ReceivingIsGood(s, p, choice);
    } else if proc.Renaming? {
      RenamingIsGood(s, p, choice);
    } else if proc.Marking? {
      MarkingIsGood(s, p, choice);
    } else if proc.UploadStatus? {
      UploadStatusIsGood(s, p, choice);
    } else {
      UploadLocksGood(s, p, choice);
    }
  }

  lemma CancelIsGood(s: State, p: Pid)
    requires DirOk(s) && p in s.procs && ProcOk(s, p, s.procs[p]) && Cancels(s.procs[p])
    ensures GoodStep(s, ActCancel(s, p, s.procs[p]), p)
  {
    if s.procs[p].CancelMark? {
      CancelMarksGood(s, p);
    } else if s.procs[p].CancelLocking? {
      CancelLocksGood(s, p);
    } else {
      CancelDecidesGood(s, p);
    }
  }

  lemma WorkerIsGood(s: State, p: Pid, choice: Choice)
    requires DirOk(s) && p in s.procs && ProcOk(s, p, s.procs[p]) && IsWorker(s.procs[p])
    ensures GoodStep(s, ActWorker(s, p, s.procs[p], choice), p)
  {
    var proc := s.procs[p];
    if proc.WorkerLocking? {
      WorkerLocksGood(s, p, choice);
    } else if proc.WorkerLocked? || proc.WorkerSawNoStart? {
      WorkerLooksGood(s, p, choice);
    } else if proc.WorkerClear? || proc.WorkerReady? {
      WorkerStartsGood(s, p, choice);
    } else if proc.WorkerStarted? || proc.WorkerPolled? {
      WorkerPollsGood(s, p, choice);
    } else if proc.WorkerRunning? || proc.WorkerStopping? {
      WorkerRunsGood(s, p, choice);
    } else if proc.WorkerStuck? || proc.WorkerNoting? || proc.WorkerRetrying? {
      WorkerCleansGood(s, p, choice);
    } else if proc.WorkerWriting? {
      WorkerWritesGood(s, p, choice);
    } else {
      WorkerFailsGood(s, p, choice);
    }
  }

  lemma {:induction false} RunKeepsInv(s: State, events: seq<Event>)
    requires Inv(s)
    ensures Inv(Run(s, events))
    decreases |events|
  {
    if events != [] {
      var mid, p, q := StepIsGood(s, events[0]);
      RunKeepsInv(Step(s, events[0]), events[1..]);
    }
  }

  // ---------------------------------------------------------------- at most once

  /** Whatever arrives, races, raises or dies: `_perform` begins at most once, for the request
      first bound to the operation, by the worker that wrote `started.json`, and an import only
      over a published, complete archive. */
  lemma PerformsAtMostOnce(events: seq<Event>)
    ensures var s := Run(FRESH, events);
            && |s.performs| <= 1
            && (s.performs != [] ==>
                  && s.dir.started == Some(s.performs[0].0)
                  && s.dir.request == Some(s.performs[0].1)
                  && (s.performs[0].1.action.Import? ==> s.dir.upload && s.dir.archive.Some?))
  {
    RunKeepsInv(FRESH, events);
  }

  /** The request, the start record and the executions of an operation are never replaced. */
  lemma {:induction false} BindingIsForever(s: State, events: seq<Event>)
    requires Inv(s)
    ensures s.dir.request.Some? ==> Run(s, events).dir.request == s.dir.request
    ensures s.dir.started.Some? ==> Run(s, events).dir.started == s.dir.started
    ensures s.performs != [] ==> Run(s, events).performs == s.performs
    decreases |events|
  {
    if events != [] {
      var mid, p, q := StepIsGood(s, events[0]);
      BindingIsForever(Step(s, events[0]), events[1..]);
      RunKeepsInv(Step(s, events[0]), events[1..]);
    }
  }

  // ---------------------------------------------------------------- results

  /** A completed, failed or cancelled result never changes. */
  lemma {:induction false} TerminalResultIsForever(s: State, events: seq<Event>)
    requires Inv(s) && Terminal(s.dir.result)
    ensures Run(s, events).dir.result == s.dir.result
    decreases |events|
  {
    if events != [] {
      var mid, p, q := StepIsGood(s, events[0]);
      TerminalResultIsForever(Step(s, events[0]), events[1..]);
    }
  }

  /** A cleanup failure never turns into a completion. */
  lemma {:induction false} CleanupFailureNeverCompletes(s: State, events: seq<Event>)
    requires Inv(s) && s.dir.result == Some(CleanupFailed)
    ensures Run(s, events).dir.result.Some? && !Run(s, events).dir.result.value.Completed?
    decreases |events|
  {
    if events != [] {
      var mid, p, q := StepIsGood(s, events[0]);
      var next := Step(s, events[0]);
      assert Terminal(mid.dir.result) ==> next.dir.result == mid.dir.result;
      if Terminal(next.dir.result) {
        TerminalResultIsForever(next, events[1..]);
      } else {
        CleanupFailureNeverCompletes(next, events[1..]);
      }
    }
  }

  /** Which step moves a cleanup failure on: a retried cleanup that succeeds records a
      cancellation; an error that leaves the retry loop is recorded as a failure by the worker's
      own handler. */
  lemma CleanupFailureMoves(s: State, p: Pid, choice: Choice)
    requires Inv(s) && s.dir.result == Some(CleanupFailed) && p in s.procs
    ensures var after := Step(s, Advance(p, choice)).dir.result;
            && (after == Some(Cancelled) <==> s.procs[p].WorkerWriting? && !choice.Raise?)
            && (after == Some(Failed) <==> s.procs[p].WorkerFailing? && !choice.Raise?)
            && (after == Some(CleanupFailed) || after == Some(Cancelled) || after == Some(Failed))
  {
    assert ProcOk(s, p, s.procs[p]);
  }

  /** So "cleanup_failed may only become cancelled" does not hold of the code. */
  lemma CleanupFailureMayFail()
    ensures exists s, events ::
              Reachable(s) && s.dir.result == Some(CleanupFailed) && Run(s, events).dir.result == Some(Failed)
  {
    var s := ReachRetrying();
    var t := Step(s, Advance(1, End(Failed)));
    var events := [Advance(1, End(Failed)), Advance(1, Go)];
    assert events[1..] == [Advance(1, Go)] && events[1..][1..] == [];
    assert Run(s, events) == Run(t, events[1..]) == Step(t, Advance(1, Go));
  }

  ghost predicate Reachable(s: State) {
    exists events :: s == Run(FRESH, events)
  }

  lemma {:induction false} RunConcat(s: State, a: seq<Event>, b: seq<Event>)
    ensures Run(s, a + b) == Run(Run(s, a), b)
    decreases |a|
  {
    if a == [] {
      assert a + b == b;
    } else {
      assert (a + b)[1..] == a[1..] + b;
      RunConcat(Step(s, a[0]), a[1..], b);
    }
  }

  lemma Reach(s: State, e: Event) returns (s': State)
    requires Reachable(s)
    ensures s' == Step(s, e) && Reachable(s')
  {
    s' := Step(s, e);
    var events :| s == Run(FRESH, events);
    RunConcat(FRESH, events, [e]);
    assert [e][1..] == [];
    assert s' == Run(FRESH, events + [e]);
  }

  const REQUEST := Request(Other, 0)

  /** An operation directory with its request and nothing else. */
  const BOUND := FRESH.dir.(made := true, request := Some(REQUEST))

  /** A start call that is answered while nothing else runs */
  lemma ReachSubmitting() returns (s: State)
    ensures Reachable(s)
    ensures s == FRESH.(dir := FRESH.dir.(made := true), procs := map[0 := Submitting(REQUEST, false)])
  {
    assert FRESH == Run(FRESH, []);
    s := Reach(FRESH, Arrive(0, StartCall(REQUEST)));
    s := Reach(s, Advance(0, Go));
  }

  /** binds its request, */
  lemma ReachGate() returns (s: State)
    ensures Reachable(s) && s == FRESH.(dir := BOUND, procs := map[0 := Gate(REQUEST)])
  {
    s := ReachSubmitting();
    s := Reach(s, Advance(0, Go));
    assert s.procs[0] == Binding(REQUEST, false);
    s := Reach(s, Advance(0, Go));
  }

  lemma ReachStartStatus() returns (s: State)
    ensures Reachable(s) && s == FRESH.(dir := BOUND, procs := map[0 := StartStatus(REQUEST, true)])
  {
    s := ReachGate();
    s := Reach(s, Advance(0, Go));
    s := Reach(s, Advance(0, Go));
  }

  lemma ReachSpawning() returns (s: State)
    ensures Reachable(s) && s == FRESH.(dir := BOUND, procs := map[0 := Spawning(REQUEST)])
  {
    s := ReachStartStatus();
    s := Reach(s, Advance(0, Go));
    s := Reach(s, Advance(0, Go));
  }

  /** spawns one worker, */
  lemma ReachWorker() returns (s: State)
    ensures Reachable(s) && s.procs == map[0 := Gone, 1 := WorkerLocking] && s.workerLock.None? && s.performs == []
    ensures s.dir == BOUND
  {
    s := ReachSpawning();
    s := Reach(s, Advance(0, Child(1)));
  }

  lemma ReachUnstarted() returns (s: State)
    ensures Reachable(s) && 1 in s.procs && s.procs[1] == WorkerSawNoStart && s.dir == BOUND && s.workerLock == Some(1)
  {
    s := ReachWorker();
    s := Reach(s, Advance(1, Go));
    s := Reach(s, Advance(1, Go));
  }

  lemma ReachClear() returns (s: State)
    ensures Reachable(s) && 1 in s.procs && s.procs[1] == WorkerClear && s.dir == BOUND
  {
    s := ReachUnstarted();
    s := Reach(s, Advance(1, Go));
  }

  /** which claims the operation, */
  lemma ReachReady() returns (s: State)
    ensures Reachable(s) && 1 in s.procs && s.procs[1] == WorkerReady(REQUEST) && s.dir == BOUND
  {
    s := ReachClear();
    s := Reach(s, Advance(1, Go));
  }

  lemma ReachStarted() returns (s: State)
    ensures Reachable(s) && 1 in s.procs && s.procs[1] == WorkerStarted(REQUEST) && s.dir.cancels == 0
  {
    s := ReachReady();
    s := Reach(s, Advance(1, Go));
  }

  lemma ReachRunning() returns (s: State)
    ensures Reachable(s) && 1 in s.procs && s.procs[1] == WorkerRunning(REQUEST) && s.dir.cancels == 0
  {
    s := ReachStarted();
    s := Reach(s, Advance(1, Go));
    s := Reach(s, Advance(1, Go));
  }

  lemma ReachStuck() returns (s: State)
    ensures Reachable(s) && 1 in s.procs && s.procs[1] == WorkerStuck && s.dir.cancels == 0
  {
    s := ReachRunning();
    s := Reach(s, Advance(1, End(Completed)));
    s := Reach(s, Advance(1, Raise));
  }

  /** and runs to the end, but its descendants do not quiesce. */
  lemma ReachRetrying() returns (s: State)
    ensures Reachable(s) && 1 in s.procs && s.procs[1] == WorkerRetrying(0) && s.dir.result == Some(CleanupFailed)
  {
    s := ReachStuck();
    s := Reach(s, Advance(1, Go));
    s := Reach(s, Advance(1, Go));
  }

  // ---------------------------------------------------------------- cancellation before the start

  ghost predicate CancelledEarly(s: State) {
    && s.dir.cancels > 0
    && s.performs == []
    && forall p :: p in s.procs ==> !s.procs[p].WorkerPolled?
  }

  lemma GoodStepKeepsEarlyCancel(s: State, s': State, p: Pid)
    requires CancelledEarly(s) && GoodStep(s, s', p)
    ensures CancelledEarly(s')
  {
  }

  lemma {:induction false} EarlyCancelIsForever(s: State, events: seq<Event>)
    requires Inv(s) && CancelledEarly(s)
    ensures CancelledEarly(Run(s, events))
    decreases |events|
  {
    if events != [] {
      var mid, p, q := StepIsGood(s, events[0]);
      if mid != s { GoodStepKeepsEarlyCancel(s, mid, p); }
      if Step(s, events[0]) != mid { GoodStepKeepsEarlyCancel(mid, Step(s, events[0]), q); }
      EarlyCancelIsForever(Step(s, events[0]), events[1..]);
    }
  }

  /** Once `cancel.json` is there with no `started.json`, the operation never executes, not even
      where a worker already holds the lock and goes on to claim it. */
  lemma CancelledBeforeStartNeverPerforms(before: seq<Event>, after: seq<Event>)
    requires var s := Run(FRESH, before); s.dir.cancels > 0 && s.dir.started.None?
    ensures Run(FRESH, before + after).performs == []
  {
    var s := Run(FRESH, before);
    RunKeepsInv(FRESH, before);
    forall p | p in s.procs ensures !s.procs[p].WorkerPolled? {
      assert ProcOk(s, p, s.procs[p]);
    }
    EarlyCancelIsForever(s, after);
    RunConcat(FRESH, before, after);
  }

  // ---------------------------------------------------------------- a run that died

  /** Its worker is gone. */
  ghost predicate Lost(s: State) {
    s.dir.started.Some? && s.dir.started.value in s.procs && s.procs[s.dir.started.value].Gone?
  }

  lemma GoodStepKeepsLost(s: State, s': State, p: Pid)
    requires Inv(s) && Lost(s) && GoodStep(s, s', p)
    ensures Lost(s') && s'.dir.started == s.dir.started && s'.dir.result == s.dir.result && s'.performs == s.performs
  {
  }

  /** What it left is final: no retry, no cancel and no other worker adds a result, and the
      execution is never repeated. */
  lemma {:induction false} LostRunIsForever(s: State, events: seq<Event>)
    requires Inv(s) && Lost(s)
    ensures var t := Run(s, events);
            Lost(t) && t.dir.started == s.dir.started && t.dir.result == s.dir.result && t.performs == s.performs
    decreases |events|
  {
    if events != [] {
      var mid, p, q := StepIsGood(s, events[0]);
      if mid != s { GoodStepKeepsLost(s, mid, p); }
      if Step(s, events[0]) != mid { GoodStepKeepsLost(mid, Step(s, events[0]), q); }
      LostRunIsForever(Step(s, events[0]), events[1..]);
    }
  }

  /** A worker that died after `started.json` and before any result is reported unknown, then and
      ever after, and what it began is not begun again. */
  lemma DiedAfterStartIsUnknown(before: seq<Event>, after: seq<Event>)
    requires var s := Run(FRESH, before);
             s.dir.started.Some? && s.dir.result.None? && Lost(s)
    ensures StatusOf(Run(FRESH, before)) == Unknown
    ensures StatusOf(Run(FRESH, before + after)) == Unknown
    ensures Run(FRESH, before + after).performs == Run(FRESH, before).performs
  {
    RunKeepsInv(FRESH, before);
    LostRunIsForever(Run(FRESH, before), after);
    RunConcat(FRESH, before, after);
  }

  /** The client's view: a settled status it was once given, other than a cleanup failure, is the
      record's status for good. */
  lemma SettledStatusIsForever(before: seq<Event>, after: seq<Event>)
    requires var st := StatusOf(Run(FRESH, before)); st.Settled? && !st.outcome.CleanupFailed?
    ensures StatusOf(Run(FRESH, before + after)) == StatusOf(Run(FRESH, before))
  {
    RunKeepsInv(FRESH, before);
    TerminalResultIsForever(Run(FRESH, before), after);
    RunConcat(FRESH, before, after);
  }
}
