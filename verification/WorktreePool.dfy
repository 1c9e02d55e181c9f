/**
 The environment pool: acquires that build and lend environments, releases that drain and clean
 them, interleaved at every point where the source awaits. Setup and cleanup may fail, which is
 also how cancellation shows. The delivery lock is not modelled, so more interleavings are
 covered than the source allows.
 */
module WorktreePool {
  import opened Wrappers

  type Env = nat
  type Tid = nat

  /** Where a call stands. `Returned`, `Failed`, `Released` and `Ended` are its ends. */
  datatype Proc =
    | Setting(source: Option<Env>, gen: nat, helper: Option<Env>, env: Option<Env>)
    | Unwinding(source: Option<Env>, gen: nat, helper: Option<Env>, env: Option<Env>)
    | Finishing(gen: nat, made: Env)
    | Invalidated(gen: nat, made: Env)
    | Ending(gen: nat)
    | Adopting(gen: nat)
    | Returned(gen: nat, made: Env)
    | Failed(gen: nat)
    | Draining
    | Sweeping(todo: seq<Env>, failed: set<Env>, skipped: set<Env>)
    | Cleaning(target: Env, todo: seq<Env>, failed: set<Env>, skipped: set<Env>)
    | Released(failed: set<Env>, skipped: set<Env>)
    | ReleasingOne(target: Env)
    | Ended

  /** `ledger` is every environment the pool must see cleaned; a source owner handed to a candidate
      environment leaves it, for the candidate's own cleanup covers it. `hidden` are environments
      built and never returned, which no caller can name; `known` is every one ever named. */
  datatype Pool = Pool(envs: seq<Env>, deps: map<Env, Env>, generation: nat, inflight: nat,
                       active: bool, lock: Option<Tid>, procs: map<Tid, Proc>,
                       ledger: set<Env>, cleaned: set<Env>, hidden: set<Env>, known: set<Env>)

  datatype Act =
    | Acquire(source: Option<Env>) | Adopt
    | MakeHelper(made: Env) | DropHelper | Build(made: Env) | SetupDone | SetupFails
    | Finish | End
    | CleanOk | CleanFails
    | Release | Drained | Sweep
    | ReleaseEnv(env: Env)

  datatype Move = Move(t: Tid, act: Act)

  function OneOf(o: Option<Env>): set<Env> {
    if o.Some? then {o.value} else {}
  }

  predicate InFlight(p: Proc) {
    p.Setting? || p.Unwinding? || p.Finishing? || p.Invalidated? || p.Ending? || p.Adopting?
  }

  predicate OfRelease(p: Proc) {
    p.Draining? || p.Sweeping? || p.Cleaning?
  }

  /** Environments that only an unfinished acquire knows. */
  function Held(p: Proc): set<Env> {
    match p
    case Setting(_, _, helper, env) => OneOf(helper) + OneOf(env)
    case Unwinding(_, _, helper, env) => OneOf(helper) + OneOf(env)
    case Finishing(_, made) => {made}
    case Invalidated(_, made) => {made}
    case _ => {}
  }

  function Put(s: Pool, t: Tid, p: Proc): Pool {
    s.(procs := s.procs[t := p])
  }

  function Backwards(q: seq<Env>): seq<Env> {
    if q == [] then [] else Backwards(q[1..]) + [q[0]]
  }

  function Without(q: seq<Env>, e: Env): seq<Env> {
    if q == [] then [] else if q[0] == e then q[1..] else [q[0]] + Without(q[1..], e)
  }

  // ---------------------------------------------------------------- the calls, step by step

  /** `_begin_acquire`, for an acquire */
  function DoAcquire(s: Pool, t: Tid, source: Option<Env>): Pool {
    if t in s.procs || s.active || (source.Some? && source.value in s.hidden) then s
    else Put(s, t, Setting(source, s.generation, None, None))
         .(inflight := s.inflight + 1, known := s.known + OneOf(source))
  }

  function DoAdopt(s: Pool, t: Tid): Pool {
    if t in s.procs || s.active then s
    else Put(s, t, Adopting(s.generation)).(inflight := s.inflight + 1)
  }

  function Made(s: Pool, e: Env): Pool {
    s.(ledger := s.ledger + {e}, hidden := s.hidden + {e}, known := s.known + {e})
  }

  function DoMakeHelper(s: Pool, t: Tid, e: Env): Pool {
    if t !in s.procs || !s.procs[t].Setting? || e in s.known then s
    else
      var p := s.procs[t];
      if p.helper.Some? || p.env.Some? then s else Put(Made(s, e), t, Setting(p.source, p.gen, Some(e), None))
  }

  function DoDropHelper(s: Pool, t: Tid): Pool {
    if t !in s.procs || !s.procs[t].Setting? then s
    else
      var p := s.procs[t];
      if p.helper.None? || p.env.Some? then s
      else Put(s, t, Setting(p.source, p.gen, None, None)).(cleaned := s.cleaned + {p.helper.value})
  }

  function Depends(deps: map<Env, Env>, e: Env, source: Option<Env>): map<Env, Env> {
    if source.Some? then deps[e := source.value] else deps
  }

  /** `remember_lease`, or the worktree that is built when no candidate was */
  function DoBuild(s: Pool, t: Tid, e: Env): Pool {
    if t !in s.procs || !s.procs[t].Setting? || e in s.known then s
    else
      var p := s.procs[t];
      if p.env.Some? then s
      else
        var next := Put(Made(s, e), t, Setting(p.source, p.gen, None, Some(e)));
        next.(deps := Depends(s.deps, e, p.source), ledger := next.ledger - OneOf(p.helper))
  }

  function DoSetupDone(s: Pool, t: Tid): Pool {
    if t !in s.procs || !s.procs[t].Setting? || s.procs[t].env.None? then s
    else Put(s, t, Finishing(s.procs[t].gen, s.procs[t].env.value))
  }

  function DoSetupFails(s: Pool, t: Tid): Pool {
    if t !in s.procs || !s.procs[t].Setting? then s
    else var p := s.procs[t]; Put(s, t, Unwinding(p.source, p.gen, p.helper, p.env))
  }

  /** `_finish_acquire` */
  function DoFinish(s: Pool, t: Tid): Pool {
    if t !in s.procs || !s.procs[t].Finishing? then s
    else
      var Finishing(gen, made) := s.procs[t];
      if gen != s.generation then Put(s, t, Invalidated(gen, made))
      else Put(s, t, Returned(gen, made))
           .(envs := s.envs + [made], inflight := Less(s.inflight), hidden := s.hidden - {made})
  }

  function Less(n: nat): nat { if n == 0 then 0 else n - 1 }

  /** `_end_acquire` */
  function DoEnd(s: Pool, t: Tid): Pool {
    if t !in s.procs || !(s.procs[t].Ending? || s.procs[t].Adopting?) then s
    else Put(s, t, Failed(s.procs[t].gen)).(inflight := Less(s.inflight))
  }

  function Forget(s: Pool, e: Env): Pool {
    s.(deps := s.deps - {e}, cleaned := s.cleaned + {e})
  }

  /** The failed acquire's cleanup of what it built. */
  function Unwound(s: Pool, t: Tid, p: Proc): Pool
    requires p.Unwinding?
  {
    if p.env.Some? then Put(Forget(s, p.env.value), t, Ending(p.gen))
    else Put(s, t, Ending(p.gen)).(cleaned := s.cleaned + OneOf(p.helper))
  }

  /** The same when that cleanup fails too: the environment joins the tracked ones. */
  function Retained(s: Pool, t: Tid, p: Proc): Pool
    requires p.Unwinding?
  {
    if p.env.Some? then Put(s, t, Ending(p.gen)).(envs := s.envs + [p.env.value])
    else if p.helper.None? then s
    else Put(s, t, Ending(p.gen))
         .(envs := s.envs + [p.helper.value], deps := Depends(s.deps, p.helper.value, p.source))
  }

  /** A cleanup that succeeds, whoever awaits it. */
  function DoCleanOk(s: Pool, t: Tid): Pool {
    if t !in s.procs then s
    else
      match s.procs[t]
      case Unwinding(_, _, _, _) => Unwound(s, t, s.procs[t])
      case Invalidated(gen, made) => Put(Forget(s, made), t, Ending(gen))
      case Cleaning(e, todo, failed, skipped) =>
        Put(Forget(s, e), t, Sweeping(todo, failed, skipped)).(envs := Without(s.envs, e))
      case ReleasingOne(e) => Put(Forget(s, e), t, Ended).(envs := Without(s.envs, e), lock := None)
      case _ => s
  }

  /** A cleanup that fails: the environment stays in, or joins, the tracked ones. */
  function DoCleanFails(s: Pool, t: Tid): Pool {
    if t !in s.procs then s
    else
      match s.procs[t]
      case Unwinding(_, _, _, _) => Retained(s, t, s.procs[t])
      case Invalidated(gen, made) => Put(s, t, Ending(gen)).(envs := s.envs + [made])
      case Cleaning(e, todo, failed, skipped) => Put(s, t, Sweeping(todo, failed + {e}, skipped))
      case ReleasingOne(_) => Put(s, t, Ended).(lock := None)
      case _ => s
  }

  /** `_release_owned` up to its wait */
  function DoRelease(s: Pool, t: Tid): Pool {
    if t in s.procs || s.lock.Some? then s
    else Put(s, t, Draining).(lock := Some(t), active := true, generation := s.generation + 1)
  }

  function DoDrained(s: Pool, t: Tid): Pool {
    if t !in s.procs || !s.procs[t].Draining? || s.inflight != 0 then s
    else Put(s, t, Sweeping(Backwards(s.envs), {}, {}))
  }

  /** One turn of `_cleanup_owned`'s loop up to its cleanup, or the end of the release. */
  function DoSweep(s: Pool, t: Tid): Pool {
    if t !in s.procs || !s.procs[t].Sweeping? then s
    else
      var Sweeping(todo, failed, skipped) := s.procs[t];
      if todo == [] then Put(s, t, Released(failed, skipped)).(active := false, lock := None)
      else if todo[0] in s.deps.Values then Put(s, t, Sweeping(todo[1..], failed, skipped + {todo[0]}))
      else Put(s, t, Cleaning(todo[0], todo[1..], failed, skipped))
  }

  /** `release_env` up to its cleanup */
  function DoReleaseEnv(s: Pool, t: Tid, e: Env): Pool {
    if t in s.procs || s.lock.Some? then s
    else if e !in s.envs || e in s.deps.Values then Put(s, t, Ended)
    else Put(s, t, ReleasingOne(e)).(lock := Some(t))
  }

  function Step(s: Pool, m: Move): Pool {
    match m.act
    case Acquire(source) => DoAcquire(s, m.t, source)
    case Adopt => DoAdopt(s, m.t)
    case MakeHelper(e) => DoMakeHelper(s, m.t, e)
    case DropHelper => DoDropHelper(s, m.t)
    case Build(e) => DoBuild(s, m.t, e)
    case SetupDone => DoSetupDone(s, m.t)
    case SetupFails => DoSetupFails(s, m.t)
    case Finish => DoFinish(s, m.t)
    case End => DoEnd(s, m.t)
    case CleanOk => DoCleanOk(s, m.t)
    case CleanFails => DoCleanFails(s, m.t)
    case Release => DoRelease(s, m.t)
    case Drained => DoDrained(s, m.t)
    case Sweep => DoSweep(s, m.t)
    case ReleaseEnv(e) => DoReleaseEnv(s, m.t, e)
  }

  function Run(s: Pool, moves: seq<Move>): Pool
    decreases |moves|
  {
    if moves == [] then s else Run(Step(s, moves[0]), moves[1..])
  }

  function Elements(q: seq<Env>): set<Env> {
    set e | e in q
  }

  /** The pool as constructed around the environments handed to it. */
  function Fresh(owned: seq<Env>): Pool {
    Pool(owned, map[], 0, 0, false, None, map[], Elements(owned), {}, {}, Elements(owned))
  }

  // ---------------------------------------------------------------- what every step keeps

  function Flights(procs: map<Tid, Proc>): set<Tid> {
    set t | t in procs && InFlight(procs[t])
  }

  predicate HoldsLock(p: Proc) {
    OfRelease(p) || p.ReleasingOne?
  }

  /** The counter counts; one call at most holds the release lock; a release that cleans has
      drained the pool. */
  ghost predicate Guarded(s: Pool) {
    && s.inflight == |Flights(s.procs)|
    && (forall t :: t in s.procs ==> (HoldsLock(s.procs[t]) <==> s.lock == Some(t)))
    && (s.lock.Some? ==> s.lock.value in s.procs)
    && (s.active <==> s.lock.Some? && OfRelease(s.procs[s.lock.value]))
    && (forall t :: t in s.procs && (s.procs[t].Sweeping? || s.procs[t].Cleaning?) ==> s.inflight == 0)
    && (forall t :: t in s.procs && InFlight(s.procs[t]) ==> s.procs[t].gen <= s.generation)
  }

  lemma FlightsPut(procs: map<Tid, Proc>, t: Tid, p: Proc)
    ensures Flights(procs[t := p]) == if InFlight(p) then Flights(procs) + {t} else Flights(procs) - {t}
  {
  }

  lemma NoFlights(s: Pool, t: Tid)
    requires Guarded(s) && t in s.procs && InFlight(s.procs[t])
    ensures s.inflight > 0
  {
    assert t in Flights(s.procs);
  }

  predicate Flies(procs: map<Tid, Proc>, t: Tid) {
    t in procs && InFlight(procs[t])
  }

  /** The counter after `t` has moved to `p`. */
  function Counted(s: Pool, t: Tid, p: Proc): nat {
    if Flies(s.procs, t) == InFlight(p) then s.inflight else if InFlight(p) then s.inflight + 1 else Less(s.inflight)
  }

  lemma CountedFlights(s: Pool, t: Tid, p: Proc)
    requires s.inflight == |Flights(s.procs)|
    ensures Counted(s, t, p) == |Flights(s.procs[t := p])|
  {
    FlightsPut(s.procs, t, p);
    var all := Flights(s.procs);
    assert Flies(s.procs, t) <==> t in all;
    assert t in all ==> all + {t} == all && |all - {t}| == |all| - 1;
    assert t !in all ==> all - {t} == all && |all + {t}| == |all| + 1;
  }

  lemma FlightSteps(s: Pool, t: Tid, p: Proc, n: nat)
    requires Guarded(s) && !HoldsLock(p) && n == Counted(s, t, p)
    requires t in s.procs ==> !HoldsLock(s.procs[t])
    requires InFlight(p) ==> p.gen <= s.generation
    requires InFlight(p) && !Flies(s.procs, t) ==> !s.active
    ensures Guarded(Put(s, t, p).(inflight := n))
  {
    CountedFlights(s, t, p);
    assert s.lock != Some(t);
    if s.inflight == 0 && InFlight(p) { NoneFlies(s, t); }
    var next := Put(s, t, p).(inflight := n);
    assert s.lock.Some? ==> next.procs[s.lock.value] == s.procs[s.lock.value];
  }

  lemma NoneFlies(s: Pool, t: Tid)
    requires Guarded(s) && s.inflight == 0
    ensures !Flies(s.procs, t)
  {
    if Flies(s.procs, t) { NoFlights(s, t); }
  }

  /** Both states as the guard sees them. */
  predicate SameGuard(a: Pool, b: Pool) {
    a.procs == b.procs && a.inflight == b.inflight && a.lock == b.lock && a.active == b.active
    && a.generation == b.generation
  }

  lemma LockSteps(s: Pool, t: Tid, p: Proc, next: Pool)
    requires Guarded(s) && !InFlight(p) && (t in s.procs ==> !InFlight(s.procs[t]))
    requires next.procs == s.procs[t := p] && next.inflight == s.inflight && next.generation >= s.generation
    requires s.lock == Some(t) || s.lock.None?
    requires next.lock == if HoldsLock(p) then Some(t) else None
    requires next.active == OfRelease(p)
    requires p.Sweeping? || p.Cleaning? ==> s.inflight == 0
    ensures Guarded(next)
  {
    FlightsPut(s.procs, t, p);
    assert t !in Flights(s.procs) && Flights(next.procs) == Flights(s.procs);
    forall u | u in next.procs ensures (HoldsLock(next.procs[u]) <==> next.lock == Some(u)) {
      assert u != t ==> !HoldsLock(s.procs[u]);
    }
  }

  lemma AcquireGuarded(s: Pool, t: Tid, a: Act)
    requires Guarded(s)
    requires a.Acquire? || a.Adopt? || a.MakeHelper? || a.DropHelper? || a.Build?
    ensures Guarded(Step(s, Move(t, a)))
  {
    var next := Step(s, Move(t, a));
    if next != s {
      var p := next.procs[t];
      FlightSteps(s, t, p, next.inflight);
      assert SameGuard(Put(s, t, p).(inflight := next.inflight), next);
    }
  }

  lemma SettleGuarded(s: Pool, t: Tid, a: Act)
    requires Guarded(s)
    requires a.SetupDone? || a.SetupFails? || a.Finish? || a.End?
    ensures Guarded(Step(s, Move(t, a)))
  {
    var next := Step(s, Move(t, a));
    if next != s {
      var p := next.procs[t];
      FlightSteps(s, t, p, next.inflight);
      assert SameGuard(Put(s, t, p).(inflight := next.inflight), next);
    }
  }

  lemma UnwindGuarded(s: Pool, t: Tid)
    requires Guarded(s) && t in s.procs && (s.procs[t].Unwinding? || s.procs[t].Invalidated?)
    ensures Guarded(DoCleanOk(s, t)) && Guarded(DoCleanFails(s, t))
  {
    var p := Ending(s.procs[t].gen);
    FlightSteps(s, t, p, s.inflight);
    assert SameGuard(Put(s, t, p), DoCleanOk(s, t));
    assert DoCleanFails(s, t) == s || SameGuard(Put(s, t, p), DoCleanFails(s, t));
  }

  lemma TargetGuarded(s: Pool, t: Tid)
    requires Guarded(s) && t in s.procs && (s.procs[t].Cleaning? || s.procs[t].ReleasingOne?)
    ensures Guarded(DoCleanOk(s, t)) && Guarded(DoCleanFails(s, t))
  {
    LockSteps(s, t, DoCleanOk(s, t).procs[t], DoCleanOk(s, t));
    LockSteps(s, t, DoCleanFails(s, t).procs[t], DoCleanFails(s, t));
  }

  lemma CleanGuarded(s: Pool, t: Tid)
    requires Guarded(s)
    ensures Guarded(DoCleanOk(s, t)) && Guarded(DoCleanFails(s, t))
  {
    if t in s.procs {
      if s.procs[t].Unwinding? || s.procs[t].Invalidated? {
        UnwindGuarded(s, t);
      } else if s.procs[t].Cleaning? || s.procs[t].ReleasingOne? {
        TargetGuarded(s, t);
      }
    }
  }

  lemma ReleaseGuarded(s: Pool, t: Tid, a: Act)
    requires Guarded(s)
    requires a.Release? || a.Drained? || a.Sweep? || a.ReleaseEnv?
    ensures Guarded(Step(s, Move(t, a)))
  {
    var next := Step(s, Move(t, a));
    if next != s {
      LockSteps(s, t, next.procs[t], next);
    }
  }

  lemma StepGuarded(s: Pool, m: Move)
    requires Guarded(s)
    ensures Guarded(Step(s, m))
  {
    match m.act
    case SetupDone => SettleGuarded(s, m.t, m.act);
    case SetupFails => SettleGuarded(s, m.t, m.act);
    case Finish => SettleGuarded(s, m.t, m.act);
    case End => SettleGuarded(s, m.t, m.act);
    case CleanOk => CleanGuarded(s, m.t);
    case CleanFails => CleanGuarded(s, m.t);
    case Release => ReleaseGuarded(s, m.t, m.act);
    case Drained => ReleaseGuarded(s, m.t, m.act);
    case Sweep => ReleaseGuarded(s, m.t, m.act);
    case ReleaseEnv(_) => ReleaseGuarded(s, m.t, m.act);
    case _ => AcquireGuarded(s, m.t, m.act);
  }

  /** While a release cleans, no other call can do anything at all. */
  lemma SweepingStopsTheOthers(s: Pool, u: Tid, m: Move)
    requires Guarded(s) && u in s.procs && (s.procs[u].Sweeping? || s.procs[u].Cleaning?) && m.t != u
    ensures Step(s, m) == s
  {
    if m.t in s.procs && InFlight(s.procs[m.t]) { NoFlights(s, m.t); }
    assert HoldsLock(s.procs[u]);
    assert m.t in s.procs ==> !HoldsLock(s.procs[m.t]);
  }

  // ---------------------------------------------------------------- who holds which environment

  predicate NoDup(q: seq<Env>) {
    forall i, j :: 0 <= i < j < |q| ==> q[i] != q[j]
  }

  lemma {:induction false} WithoutAt(q: seq<Env>, k: nat)
    requires NoDup(q) && k < |q|
    ensures Without(q, q[k]) == q[..k] + q[k + 1..]
  {
    if k > 0 {
      var rest := q[1..];
      assert rest[k - 1] == q[k] && q[0] != q[k];
      WithoutAt(rest, k - 1);
      assert q[..k] == [q[0]] + rest[..k - 1];
      assert q[k + 1..] == rest[k..];
    }
  }

  lemma CutMembers(q: seq<Env>, k: nat, x: Env)
    requires k < |q|
    ensures x in q[..k] + q[k + 1..] ==> x in q
    ensures x in q && x != q[k] ==> x in q[..k] + q[k + 1..]
  {
  }

  lemma WithoutElements(q: seq<Env>, e: Env)
    requires NoDup(q) && e in q
    ensures NoDup(Without(q, e)) && e !in Without(q, e)
    ensures forall x :: x in q && x != e ==> x in Without(q, e)
    ensures forall x :: x in Without(q, e) ==> x in q
  {
    var k :| 0 <= k < |q| && q[k] == e;
    WithoutAt(q, k);
    forall x ensures (x in Without(q, e) ==> x in q) && (x in q && x != e ==> x in Without(q, e)) {
      CutMembers(q, k, x);
    }
  }

  /** What a call knows: environments of its own that nobody else can name, and a source that is
      not one of those. */
  ghost predicate ProcNamed(p: Proc, deps: map<Env, Env>, hidden: set<Env>, known: set<Env>) {
    && Held(p) <= hidden
    && (p.Setting? || p.Unwinding? ==>
          && (p.source.Some? ==> p.source.value in known && p.source.value !in hidden)
          && (p.helper.Some? ==> p.env.None? && p.helper.value in hidden && p.helper.value !in deps))
  }

  ghost predicate Named(s: Pool) {
    && s.hidden <= s.known && s.ledger <= s.known
    && (forall e :: e in s.envs ==> e in s.known)
    && (forall d :: d in s.deps ==> d in s.known && s.deps[d] in s.known && s.deps[d] !in s.hidden)
    && (forall t :: t in s.procs ==> ProcNamed(s.procs[t], s.deps, s.hidden, s.known))
  }

  predicate Targets(p: Proc) {
    p.ReleasingOne? || p.Cleaning?
  }

  /** Nothing is held twice or held and tracked; what is being cleaned for a release is tracked. */
  ghost predicate Apart(procs: map<Tid, Proc>, envs: seq<Env>) {
    && NoDup(envs)
    && (forall t, e :: t in procs && e in Held(procs[t]) ==> e !in envs)
    && (forall t, u, e :: t in procs && u in procs && e in Held(procs[t]) && e in Held(procs[u]) ==> t == u)
    && (forall t :: t in procs && Targets(procs[t]) ==> procs[t].target in envs)
  }

  function HeldAt(procs: map<Tid, Proc>, t: Tid): set<Env> {
    if t in procs then Held(procs[t]) else {}
  }

  ghost predicate Unheld(procs: map<Tid, Proc>, e: Env) {
    forall t :: t in procs ==> e !in Held(procs[t])
  }

  lemma ApartKeeps(procs: map<Tid, Proc>, envs: seq<Env>, t: Tid, p: Proc)
    requires Apart(procs, envs) && Held(p) <= HeldAt(procs, t)
    requires Targets(p) ==> p.target in envs
    ensures Apart(procs[t := p], envs)
  {
  }

  lemma ApartBuilds(procs: map<Tid, Proc>, envs: seq<Env>, t: Tid, p: Proc, e: Env)
    requires Apart(procs, envs) && Held(p) == {e} && e !in envs && Unheld(procs, e)
    requires !Targets(p)
    ensures Apart(procs[t := p], envs)
  {
  }

  lemma ApartTracks(procs: map<Tid, Proc>, envs: seq<Env>, t: Tid, p: Proc, e: Env)
    requires Apart(procs, envs) && Held(p) == {} && e in HeldAt(procs, t) && !Targets(p)
    ensures Apart(procs[t := p], envs + [e])
  {
    assert t in procs && e in Held(procs[t]) && e !in envs;
    var next := procs[t := p];
    forall u, x | u in next && x in Held(next[u]) ensures x !in envs + [e] {
      assert u != t && x in Held(procs[u]);
    }
  }

  lemma ApartDrops(procs: map<Tid, Proc>, envs: seq<Env>, t: Tid, p: Proc, e: Env)
    requires Apart(procs, envs) && Held(p) == {} && e in envs && !Targets(p)
    requires forall u :: u in procs && u != t ==> !Targets(procs[u])
    ensures Apart(procs[t := p], Without(envs, e))
  {
    WithoutElements(envs, e);
  }

  lemma FreshIsUnheld(s: Pool, e: Env)
    requires Named(s) && e !in s.known
    ensures Unheld(s.procs, e) && e !in s.envs
  {
  }

  lemma BuildNamed(s: Pool, t: Tid, a: Act)
    requires Named(s) && (a.Acquire? || a.Adopt? || a.MakeHelper? || a.DropHelper? || a.Build?)
    ensures Named(Step(s, Move(t, a)))
  {
  }

  lemma FinishNamed(s: Pool, t: Tid)
    requires Named(s) && Apart(s.procs, s.envs)
    ensures Named(DoFinish(s, t))
  {
  }

  lemma SettleNamed(s: Pool, t: Tid, a: Act)
    requires Named(s) && (a.SetupDone? || a.SetupFails? || a.End?)
    ensures Named(Step(s, Move(t, a)))
  {
  }

  lemma UnwoundNamed(s: Pool, t: Tid)
    requires Named(s) && t in s.procs && s.procs[t].Unwinding?
    ensures Named(Unwound(s, t, s.procs[t]))
  {
  }

  lemma RetainedNamed(s: Pool, t: Tid)
    requires Named(s) && Apart(s.procs, s.envs) && t in s.procs && s.procs[t].Unwinding?
    ensures Named(Retained(s, t, s.procs[t]))
  {
  }

  lemma InvalidatedNamed(s: Pool, t: Tid)
    requires Named(s) && t in s.procs && s.procs[t].Invalidated?
    ensures Named(DoCleanOk(s, t)) && Named(DoCleanFails(s, t))
  {
  }

  lemma QuietNamed(s: Pool, t: Tid, p: Proc, next: Pool)
    requires Named(s) && next.procs == s.procs[t := p] && Held(p) == {} && !p.Setting? && !p.Unwinding?
    requires next.hidden == s.hidden && next.known == s.known && next.ledger == s.ledger
    requires forall e :: e in next.envs ==> e in s.envs
    requires forall d :: d in next.deps ==> d in s.deps && next.deps[d] == s.deps[d]
    ensures Named(next)
  {
  }

  /** A step of `t` that takes the cleaned `e` out of the tables. */
  ghost predicate Clears(s: Pool, t: Tid, next: Pool, e: Env) {
    && e in s.envs && next.envs == Without(s.envs, e) && next.deps == s.deps - {e} && next.cleaned == s.cleaned + {e}
    && next.hidden == s.hidden && next.known == s.known && next.ledger == s.ledger
    && HeldAt(s.procs, t) == {} && t in next.procs && next.procs == s.procs[t := next.procs[t]]
    && !InFlight(next.procs[t]) && Held(next.procs[t]) == {} && !Targets(next.procs[t])
  }

  lemma TargetClears(s: Pool, t: Tid)
    requires Apart(s.procs, s.envs) && t in s.procs && Targets(s.procs[t])
    ensures Clears(s, t, DoCleanOk(s, t), s.procs[t].target)
  {
  }

  lemma TargetNamed(s: Pool, t: Tid, next: Pool, e: Env)
    requires Named(s) && NoDup(s.envs) && Clears(s, t, next, e)
    ensures Named(next)
  {
    WithoutElements(s.envs, e);
    QuietNamed(s, t, next.procs[t], next);
  }

  /** A step of a release that moves no environment. */
  ghost predicate Untouched(s: Pool, t: Tid, next: Pool) {
    && next.envs == s.envs && next.deps == s.deps && next.hidden == s.hidden && next.known == s.known
    && next.ledger == s.ledger && next.cleaned == s.cleaned
    && HeldAt(s.procs, t) == {} && t in next.procs && Held(next.procs[t]) == {}
    && !InFlight(next.procs[t]) && next.procs == s.procs[t := next.procs[t]]
  }

  lemma ReleaseTouchesNothing(s: Pool, t: Tid, a: Act)
    requires a.Release? || a.Drained? || a.Sweep? || a.ReleaseEnv?
    ensures var next := Step(s, Move(t, a)); next == s || Untouched(s, t, next)
  {
  }

  lemma FailedTargetTouchesNothing(s: Pool, t: Tid)
    requires t in s.procs && Targets(s.procs[t])
    ensures Untouched(s, t, DoCleanFails(s, t))
  {
  }

  lemma ReleaseNamed(s: Pool, t: Tid, next: Pool)
    requires Named(s) && Untouched(s, t, next)
    ensures Named(next)
  {
  }

  lemma BuildApart(s: Pool, t: Tid, a: Act)
    requires Named(s) && Apart(s.procs, s.envs) && (a.Acquire? || a.Adopt? || a.MakeHelper? || a.DropHelper? || a.Build?)
    ensures var next := Step(s, Move(t, a)); Apart(next.procs, next.envs)
  {
    var next := Step(s, Move(t, a));
    if next != s {
      if a.MakeHelper? || a.Build? {
        FreshIsUnheld(s, a.made);
        ApartBuilds(s.procs, s.envs, t, next.procs[t], a.made);
      } else {
        ApartKeeps(s.procs, s.envs, t, next.procs[t]);
      }
    }
  }

  lemma SettleApart(s: Pool, t: Tid, a: Act)
    requires Apart(s.procs, s.envs) && (a.SetupDone? || a.SetupFails? || a.Finish? || a.End?)
    ensures var next := Step(s, Move(t, a)); Apart(next.procs, next.envs)
  {
    var next := Step(s, Move(t, a));
    if next != s {
      if next.procs[t].Returned? {
        ApartTracks(s.procs, s.envs, t, next.procs[t], s.procs[t].made);
      } else {
        ApartKeeps(s.procs, s.envs, t, next.procs[t]);
      }
    }
  }

  lemma ReleaseApart(s: Pool, t: Tid, next: Pool)
    requires Apart(s.procs, s.envs) && Untouched(s, t, next)
    requires Targets(next.procs[t]) ==> next.procs[t].target in s.envs
    ensures Apart(next.procs, next.envs)
  {
  }

  lemma UnwindApart(s: Pool, t: Tid)
    requires Apart(s.procs, s.envs) && t in s.procs && s.procs[t].Unwinding?
    ensures Apart(Unwound(s, t, s.procs[t]).procs, Unwound(s, t, s.procs[t]).envs)
    ensures Apart(Retained(s, t, s.procs[t]).procs, Retained(s, t, s.procs[t]).envs)
  {
    var p := s.procs[t];
    ApartKeeps(s.procs, s.envs, t, Ending(p.gen));
    if p.env.Some? {
      ApartTracks(s.procs, s.envs, t, Ending(p.gen), p.env.value);
    } else if p.helper.Some? {
      ApartTracks(s.procs, s.envs, t, Ending(p.gen), p.helper.value);
    }
  }

  lemma InvalidatedApart(s: Pool, t: Tid)
    requires Apart(s.procs, s.envs) && t in s.procs && s.procs[t].Invalidated?
    ensures Apart(DoCleanOk(s, t).procs, DoCleanOk(s, t).envs)
    ensures Apart(DoCleanFails(s, t).procs, DoCleanFails(s, t).envs)
  {
    var p := s.procs[t];
    ApartKeeps(s.procs, s.envs, t, Ending(p.gen));
    ApartTracks(s.procs, s.envs, t, Ending(p.gen), p.made);
  }

  lemma TargetApart(s: Pool, t: Tid, next: Pool, e: Env)
    requires Apart(s.procs, s.envs) && Clears(s, t, next, e)
    requires forall u :: u in s.procs && u != t ==> !Targets(s.procs[u])
    ensures Apart(next.procs, next.envs)
  {
    ApartDrops(s.procs, s.envs, t, next.procs[t], e);
  }

  // ---------------------------------------------------------------- sources and dependents

  ghost predicate IsHeld(procs: map<Tid, Proc>, e: Env) {
    exists t :: t in procs && e in Held(procs[t])
  }

  /** A source stands before every dependent of its own among the tracked environments. */
  ghost predicate Ordered(envs: seq<Env>, deps: map<Env, Env>) {
    forall i, j :: 0 <= i < |envs| && 0 <= j < |envs| && envs[j] in deps && deps[envs[j]] == envs[i] ==> i < j
  }

  ghost predicate Linked(s: Pool) {
    && Ordered(s.envs, s.deps)
    && (forall d :: d in s.deps ==> d in s.envs || IsHeld(s.procs, d))
  }

  /** Every environment to answer for is cleaned, tracked, or in the hands of an acquire in flight. */
  ghost predicate Accounted(s: Pool) {
    forall e :: e in s.ledger ==> e in s.cleaned || e in s.envs || IsHeld(s.procs, e)
  }

  lemma OrderedAppends(envs: seq<Env>, deps: map<Env, Env>, e: Env)
    requires Ordered(envs, deps) && e !in deps.Values
    ensures Ordered(envs + [e], deps)
  {
  }

  lemma OrderedGains(envs: seq<Env>, deps: map<Env, Env>, e: Env, source: Option<Env>)
    requires Ordered(envs, deps) && e !in envs
    ensures Ordered(envs, Depends(deps, e, source))
  {
  }

  lemma OrderedDrops(envs: seq<Env>, deps: map<Env, Env>, e: Env)
    requires Ordered(envs, deps) && NoDup(envs) && e in envs
    ensures Ordered(Without(envs, e), deps - {e})
  {
    var k :| 0 <= k < |envs| && envs[k] == e;
    WithoutAt(envs, k);
    var r := envs[..k] + envs[k + 1..];
    forall i, j | 0 <= i < |r| && 0 <= j < |r| && r[j] in deps - {e} && (deps - {e})[r[j]] == r[i] ensures i < j {
      var i', j' := if i < k then i else i + 1, if j < k then j else j + 1;
      assert envs[i'] == r[i] && envs[j'] == r[j];
    }
  }

  lemma StillHeld(procs: map<Tid, Proc>, t: Tid, p: Proc, e: Env)
    requires IsHeld(procs, e) && (e in HeldAt(procs, t) ==> e in Held(p))
    ensures IsHeld(procs[t := p], e)
  {
    var u :| u in procs && e in Held(procs[u]);
    if u == t { assert procs[t := p][t] == p; } else { assert procs[t := p][u] == procs[u]; }
  }

  /** A step of `t` that lets go only of `gone`: everything else stays tracked or held. */
  lemma LinksKeep(s: Pool, t: Tid, p: Proc, next: Pool, gone: set<Env>)
    requires Linked(s) && next.procs == s.procs[t := p] && HeldAt(s.procs, t) - gone <= Held(p)
    requires Ordered(next.envs, next.deps)
    requires forall d :: d in next.deps ==> d in next.envs || d in Held(p) || (d in s.deps && d !in gone)
    requires forall e :: e in s.envs && e !in gone ==> e in next.envs
    ensures Linked(next)
  {
    forall d | d in next.deps ensures d in next.envs || IsHeld(next.procs, d) {
      if d in Held(p) {
        assert next.procs[t] == p;
      } else if d !in next.envs {
        StillHeld(s.procs, t, p, d);
      }
    }
  }

  lemma AccountsKeep(s: Pool, t: Tid, p: Proc, next: Pool, gone: set<Env>)
    requires Accounted(s) && next.procs == s.procs[t := p] && HeldAt(s.procs, t) - gone <= Held(p)
    requires forall e :: e in next.ledger ==> e in next.envs || e in next.cleaned || e in Held(p) || (e in s.ledger && e !in gone)
    requires forall e :: e in s.envs && e !in gone ==> e in next.envs
    requires s.cleaned <= next.cleaned
    ensures Accounted(next)
  {
    forall e | e in next.ledger ensures e in next.cleaned || e in next.envs || IsHeld(next.procs, e) {
      if e in Held(p) {
        assert next.procs[t] == p;
      } else if e !in next.envs && e !in next.cleaned {
        StillHeld(s.procs, t, p, e);
      }
    }
  }

  ghost predicate Tied(s: Pool) {
    Named(s) && Apart(s.procs, s.envs) && Linked(s) && Accounted(s)
  }

  lemma BeginTied(s: Pool, t: Tid, a: Act)
    requires Tied(s) && (a.Acquire? || a.Adopt?)
    ensures Linked(Step(s, Move(t, a))) && Accounted(Step(s, Move(t, a)))
  {
    var next := Step(s, Move(t, a));
    if next != s {
      LinksKeep(s, t, next.procs[t], next, {});
      AccountsKeep(s, t, next.procs[t], next, {});
    }
  }

  lemma HelperTied(s: Pool, t: Tid, a: Act)
    requires Tied(s) && (a.MakeHelper? || a.DropHelper?)
    ensures Linked(Step(s, Move(t, a))) && Accounted(Step(s, Move(t, a)))
  {
    var next := Step(s, Move(t, a));
    if next != s {
      var p := s.procs[t];
      assert ProcNamed(p, s.deps, s.hidden, s.known);
      LinksKeep(s, t, next.procs[t], next, OneOf(p.helper));
      assert next.cleaned == s.cleaned + OneOf(p.helper);
      AccountsKeep(s, t, next.procs[t], next, OneOf(p.helper));
    }
  }

  lemma BuildTied(s: Pool, t: Tid, e: Env)
    requires Tied(s)
    ensures Linked(DoBuild(s, t, e)) && Accounted(DoBuild(s, t, e))
  {
    var next := DoBuild(s, t, e);
    if next != s {
      var p := s.procs[t];
      assert ProcNamed(p, s.deps, s.hidden, s.known);
      FreshIsUnheld(s, e);
      OrderedGains(s.envs, s.deps, e, p.source);
      LinksKeep(s, t, next.procs[t], next, OneOf(p.helper));
      AccountsKeep(s, t, next.procs[t], next, OneOf(p.helper));
    }
  }

  lemma SetupTied(s: Pool, t: Tid, a: Act)
    requires Tied(s) && (a.SetupDone? || a.SetupFails? || a.End?)
    ensures Linked(Step(s, Move(t, a))) && Accounted(Step(s, Move(t, a)))
  {
    var next := Step(s, Move(t, a));
    if next != s {
      assert ProcNamed(s.procs[t], s.deps, s.hidden, s.known);
      LinksKeep(s, t, next.procs[t], next, {});
      AccountsKeep(s, t, next.procs[t], next, {});
    }
  }

  /** An environment that goes from an acquire to the tracked ones. */
  lemma TrackTied(s: Pool, t: Tid, p: Proc, next: Pool, e: Env)
    requires Tied(s) && next.procs == s.procs[t := p] && HeldAt(s.procs, t) == {e} && Held(p) == {}
    requires next.envs == s.envs + [e] && next.ledger == s.ledger && next.cleaned == s.cleaned
    requires next.deps == s.deps || (exists source: Option<Env> :: next.deps == Depends(s.deps, e, source) && source != Some(e))
    ensures Linked(next) && Accounted(next)
  {
    assert ProcNamed(s.procs[t], s.deps, s.hidden, s.known);
    if next.deps != s.deps {
      var source: Option<Env> :| next.deps == Depends(s.deps, e, source) && source != Some(e);
      OrderedGains(s.envs, s.deps, e, source);
    }
    OrderedAppends(s.envs, next.deps, e);
    assert e in next.envs;
    LinksKeep(s, t, p, next, {e});
    AccountsKeep(s, t, p, next, {e});
  }

  lemma FinishTied(s: Pool, t: Tid)
    requires Tied(s)
    ensures Linked(DoFinish(s, t)) && Accounted(DoFinish(s, t))
  {
    var next := DoFinish(s, t);
    if next != s {
      if next.procs[t].Returned? {
        TrackTied(s, t, next.procs[t], next, s.procs[t].made);
      } else {
        LinksKeep(s, t, next.procs[t], next, {});
        AccountsKeep(s, t, next.procs[t], next, {});
      }
    }
  }

  /** An environment that an acquire cleans away. */
  lemma CleanedTied(s: Pool, t: Tid, p: Proc, next: Pool, e: Env)
    requires Tied(s) && next.procs == s.procs[t := p] && HeldAt(s.procs, t) == {e} && Held(p) == {}
    requires next.envs == s.envs && next.deps == s.deps - {e} && next.ledger == s.ledger && next.cleaned == s.cleaned + {e}
    ensures Linked(next) && Accounted(next)
  {
    LinksKeep(s, t, p, next, {e});
    AccountsKeep(s, t, p, next, {e});
  }

  lemma UnwindTied(s: Pool, t: Tid)
    requires Tied(s) && t in s.procs && s.procs[t].Unwinding?
    ensures Linked(Unwound(s, t, s.procs[t])) && Accounted(Unwound(s, t, s.procs[t]))
    ensures Linked(Retained(s, t, s.procs[t])) && Accounted(Retained(s, t, s.procs[t]))
  {
    var p := s.procs[t];
    var done, kept := Unwound(s, t, p), Retained(s, t, p);
    assert ProcNamed(p, s.deps, s.hidden, s.known);
    if p.env.Some? {
      CleanedTied(s, t, Ending(p.gen), done, p.env.value);
      TrackTied(s, t, Ending(p.gen), kept, p.env.value);
    } else if p.helper.Some? {
      assert s.deps - {p.helper.value} == s.deps;
      CleanedTied(s, t, Ending(p.gen), done, p.helper.value);
      assert kept.deps == Depends(s.deps, p.helper.value, p.source);
      TrackTied(s, t, Ending(p.gen), kept, p.helper.value);
    } else {
      LinksKeep(s, t, Ending(p.gen), done, {});
      AccountsKeep(s, t, Ending(p.gen), done, {});
    }
  }

  lemma InvalidatedTied(s: Pool, t: Tid)
    requires Tied(s) && t in s.procs && s.procs[t].Invalidated?
    ensures Linked(DoCleanOk(s, t)) && Accounted(DoCleanOk(s, t))
    ensures Linked(DoCleanFails(s, t)) && Accounted(DoCleanFails(s, t))
  {
    var p := s.procs[t];
    CleanedTied(s, t, Ending(p.gen), DoCleanOk(s, t), p.made);
    TrackTied(s, t, Ending(p.gen), DoCleanFails(s, t), p.made);
  }

  lemma TargetTied(s: Pool, t: Tid, next: Pool, e: Env)
    requires Tied(s) && Clears(s, t, next, e)
    ensures Linked(next) && Accounted(next)
  {
    WithoutElements(s.envs, e);
    OrderedDrops(s.envs, s.deps, e);
    LinksKeep(s, t, next.procs[t], next, {e});
    AccountsKeep(s, t, next.procs[t], next, {e});
  }

  lemma ReleaseTied(s: Pool, t: Tid, next: Pool)
    requires Tied(s) && Untouched(s, t, next)
    ensures Linked(next) && Accounted(next)
  {
    LinksKeep(s, t, next.procs[t], next, {});
    AccountsKeep(s, t, next.procs[t], next, {});
  }

  // ---------------------------------------------------------------- the sweep of a release

  /** `e` is tracked from index `k` on, or has a dependent there. */
  ghost predicate Behind(envs: seq<Env>, k: nat, e: Env) {
    exists i :: k <= i < |envs| && envs[i] == e
  }

  ghost predicate Needed(envs: seq<Env>, k: nat, deps: map<Env, Env>, e: Env) {
    exists i :: k <= i < |envs| && envs[i] in deps && deps[envs[i]] == e
  }

  /** What a release has passed by, from index `k` on: what it `failed` to clean, and what it
      `skipped` for a dependent that remains. */
  ghost predicate PassedBy(envs: seq<Env>, k: nat, deps: map<Env, Env>, failed: set<Env>, skipped: set<Env>) {
    && (forall i :: k <= i < |envs| ==> envs[i] in failed || envs[i] in skipped)
    && (forall e :: e in failed || e in skipped ==> Behind(envs, k, e))
    && (forall e :: e in skipped ==> Needed(envs, k, deps, e))
  }

  /** Still to do are the first of the tracked ones, last first. */
  ghost predicate Mirrors(todo: seq<Env>, envs: seq<Env>) {
    |todo| <= |envs| && forall i :: 0 <= i < |todo| ==> todo[i] == envs[|todo| - 1 - i]
  }

  ghost predicate SweepOk(p: Proc, envs: seq<Env>, deps: map<Env, Env>) {
    match p
    case Sweeping(todo, failed, skipped) => Mirrors(todo, envs) && PassedBy(envs, |todo|, deps, failed, skipped)
    case Cleaning(e, todo, failed, skipped) =>
      && Mirrors(todo, envs) && |todo| < |envs| && envs[|todo|] == e && e !in deps.Values
      && PassedBy(envs, |todo| + 1, deps, failed, skipped)
    case _ => true
  }

  ghost predicate Swept(s: Pool) {
    forall t :: t in s.procs ==> SweepOk(s.procs[t], s.envs, s.deps)
  }

  lemma {:induction false} BackwardsMirrors(q: seq<Env>)
    ensures |Backwards(q)| == |q| && forall i :: 0 <= i < |q| ==> Backwards(q)[i] == q[|q| - 1 - i]
  {
    if q != [] {
      BackwardsMirrors(q[1..]);
      forall i | 0 <= i < |q| ensures Backwards(q)[i] == q[|q| - 1 - i] {
        if i < |q| - 1 { assert Backwards(q)[i] == q[1..][|q| - 2 - i]; }
      }
    }
  }

  lemma DrainedSweeps(s: Pool)
    ensures SweepOk(Sweeping(Backwards(s.envs), {}, {}), s.envs, s.deps)
  {
    BackwardsMirrors(s.envs);
  }

  lemma NextInLine(todo: seq<Env>, envs: seq<Env>)
    requires todo != [] && Mirrors(todo, envs)
    ensures envs[|todo| - 1] == todo[0] && Mirrors(todo[1..], envs)
  {
  }

  /** With nothing held, a dependent of the environment at `k` is tracked behind it. */
  lemma DependentIsBehind(s: Pool, k: nat)
    requires Linked(s) && k < |s.envs| && s.envs[k] in s.deps.Values
    requires forall u :: u in s.procs ==> Held(s.procs[u]) == {}
    ensures Needed(s.envs, k + 1, s.deps, s.envs[k])
  {
  }

  lemma SkipOk(envs: seq<Env>, deps: map<Env, Env>, todo: seq<Env>, failed: set<Env>, skipped: set<Env>)
    requires todo != [] && SweepOk(Sweeping(todo, failed, skipped), envs, deps)
    requires Needed(envs, |todo|, deps, todo[0])
    ensures SweepOk(Sweeping(todo[1..], failed, skipped + {todo[0]}), envs, deps)
  {
  }

  lemma TakeUpOk(envs: seq<Env>, deps: map<Env, Env>, todo: seq<Env>, failed: set<Env>, skipped: set<Env>)
    requires todo != [] && SweepOk(Sweeping(todo, failed, skipped), envs, deps) && todo[0] !in deps.Values
    ensures SweepOk(Cleaning(todo[0], todo[1..], failed, skipped), envs, deps)
  {
  }

  lemma SweepStepOk(s: Pool, t: Tid)
    requires Linked(s) && t in s.procs && s.procs[t].Sweeping? && SweepOk(s.procs[t], s.envs, s.deps)
    requires forall u :: u in s.procs ==> Held(s.procs[u]) == {}
    ensures SweepOk(DoSweep(s, t).procs[t], s.envs, s.deps)
  {
    var Sweeping(todo, failed, skipped) := s.procs[t];
    if todo != [] {
      NextInLine(todo, s.envs);
      if todo[0] in s.deps.Values {
        DependentIsBehind(s, |todo| - 1);
        SkipOk(s.envs, s.deps, todo, failed, skipped);
      } else {
        TakeUpOk(s.envs, s.deps, todo, failed, skipped);
      }
    }
  }

  lemma WithoutShifts(envs: seq<Env>, k: nat)
    requires NoDup(envs) && k < |envs|
    ensures |Without(envs, envs[k])| == |envs| - 1
    ensures forall i :: 0 <= i < k ==> Without(envs, envs[k])[i] == envs[i]
    ensures forall i :: k < i < |envs| ==> Without(envs, envs[k])[i - 1] == envs[i]
  {
    WithoutAt(envs, k);
  }

  /** What is passed by moves up by one when the environment before it is gone. */
  lemma MovesUp(envs: seq<Env>, k: nat, deps: map<Env, Env>, e: Env)
    requires NoDup(envs) && k < |envs|
    ensures Behind(envs, k + 1, e) ==> Behind(Without(envs, envs[k]), k, e)
    ensures Needed(envs, k + 1, deps, e) ==> Needed(Without(envs, envs[k]), k, deps - {envs[k]}, e)
  {
    WithoutShifts(envs, k);
    var r := Without(envs, envs[k]);
    if i :| k + 1 <= i < |envs| && envs[i] == e { assert r[i - 1] == e; }
    if i :| k + 1 <= i < |envs| && envs[i] in deps && deps[envs[i]] == e {
      assert r[i - 1] == envs[i] && envs[i] != envs[k];
    }
  }

  lemma CleanStepOk(s: Pool, t: Tid)
    requires t in s.procs && s.procs[t].Cleaning? && SweepOk(s.procs[t], s.envs, s.deps) && NoDup(s.envs)
    ensures SweepOk(DoCleanOk(s, t).procs[t], DoCleanOk(s, t).envs, DoCleanOk(s, t).deps)
  {
    var Cleaning(e, todo, failed, skipped) := s.procs[t];
    var k := |todo|;
    WithoutShifts(s.envs, k);
    var left, deps := Without(s.envs, e), s.deps - {e};
    forall x | x in failed || x in skipped ensures Behind(left, k, x) { MovesUp(s.envs, k, s.deps, x); }
    forall x | x in skipped ensures Needed(left, k, deps, x) { MovesUp(s.envs, k, s.deps, x); }
    forall i | k <= i < |left| ensures left[i] in failed || left[i] in skipped {
      assert left[i + 1 - 1] == s.envs[i + 1];
    }
  }

  // ---------------------------------------------------------------- every run

  ghost predicate Inv(s: Pool) {
    Guarded(s) && Tied(s) && Swept(s)
  }

  lemma FreshInv(owned: seq<Env>)
    requires NoDup(owned)
    ensures Inv(Fresh(owned))
  {
  }

  lemma BuildStep(s: Pool, t: Tid, a: Act)
    requires Guarded(s) && Tied(s) && (a.Acquire? || a.Adopt? || a.MakeHelper? || a.DropHelper? || a.Build?)
    ensures Tied(Step(s, Move(t, a)))
  {
    BuildNamed(s, t, a);
    BuildApart(s, t, a);
    match a
    case MakeHelper(_) => HelperTied(s, t, a);
    case DropHelper => HelperTied(s, t, a);
    case Build(e) => BuildTied(s, t, e);
    case _ => BeginTied(s, t, a);
  }

  lemma SettleStep(s: Pool, t: Tid, a: Act)
    requires Guarded(s) && Tied(s) && (a.SetupDone? || a.SetupFails? || a.Finish? || a.End?)
    ensures Tied(Step(s, Move(t, a)))
  {
    SettleApart(s, t, a);
    if a.Finish? {
      FinishNamed(s, t);
      FinishTied(s, t);
    } else {
      SettleNamed(s, t, a);
      SetupTied(s, t, a);
    }
  }

  lemma TargetCleaned(s: Pool, t: Tid)
    requires Guarded(s) && Tied(s) && t in s.procs && Targets(s.procs[t])
    ensures Tied(DoCleanOk(s, t))
  {
    var next, e := DoCleanOk(s, t), s.procs[t].target;
    assert HoldsLock(s.procs[t]) && s.lock == Some(t);
    TargetClears(s, t);
    TargetNamed(s, t, next, e);
    TargetApart(s, t, next, e);
    TargetTied(s, t, next, e);
  }

  lemma TargetStays(s: Pool, t: Tid)
    requires Tied(s) && t in s.procs && Targets(s.procs[t])
    ensures Tied(DoCleanFails(s, t))
  {
    FailedTargetTouchesNothing(s, t);
    MovedNothing(s, t, DoCleanFails(s, t));
  }

  lemma UnwindStep(s: Pool, t: Tid)
    requires Tied(s) && t in s.procs && s.procs[t].Unwinding?
    ensures Tied(DoCleanOk(s, t)) && Tied(DoCleanFails(s, t))
  {
    UnwoundNamed(s, t);
    RetainedNamed(s, t);
    UnwindApart(s, t);
    UnwindTied(s, t);
  }

  lemma CleanStep(s: Pool, t: Tid)
    requires Guarded(s) && Tied(s) && t in s.procs
    ensures Tied(DoCleanOk(s, t)) && Tied(DoCleanFails(s, t))
  {
    if s.procs[t].Unwinding? {
      UnwindStep(s, t);
    } else if s.procs[t].Invalidated? {
      InvalidatedNamed(s, t);
      InvalidatedApart(s, t);
      InvalidatedTied(s, t);
    } else if Targets(s.procs[t]) {
      TargetCleaned(s, t);
      TargetStays(s, t);
    }
  }

  lemma MovedNothing(s: Pool, t: Tid, next: Pool)
    requires Tied(s) && Untouched(s, t, next)
    requires Targets(next.procs[t]) ==> next.procs[t].target in s.envs
    ensures Tied(next)
  {
    ReleaseNamed(s, t, next);
    ReleaseApart(s, t, next);
    ReleaseTied(s, t, next);
  }

  lemma ReleaseStep(s: Pool, t: Tid, a: Act)
    requires Inv(s) && (a.Release? || a.Drained? || a.Sweep? || a.ReleaseEnv?)
    ensures Tied(Step(s, Move(t, a)))
  {
    var next := Step(s, Move(t, a));
    if next != s {
      ReleaseTouchesNothing(s, t, a);
      if next.procs[t].Cleaning? {
        assert SweepOk(s.procs[t], s.envs, s.deps);
        NextInLine(s.procs[t].todo, s.envs);
        assert s.procs[t].todo[0] in s.envs;
      }
      MovedNothing(s, t, next);
    }
  }

  lemma StepTied(s: Pool, m: Move)
    requires Inv(s)
    ensures Tied(Step(s, m))
  {
    match m.act
    case SetupDone => SettleStep(s, m.t, m.act);
    case SetupFails => SettleStep(s, m.t, m.act);
    case Finish => SettleStep(s, m.t, m.act);
    case End => SettleStep(s, m.t, m.act);
    case CleanOk => if m.t in s.procs { CleanStep(s, m.t); }
    case CleanFails => if m.t in s.procs { CleanStep(s, m.t); }
    case Release => ReleaseStep(s, m.t, m.act);
    case Drained => ReleaseStep(s, m.t, m.act);
    case Sweep => ReleaseStep(s, m.t, m.act);
    case ReleaseEnv(_) => ReleaseStep(s, m.t, m.act);
    case _ => BuildStep(s, m.t, m.act);
  }

  predicate OfSweep(p: Proc) {
    p.Sweeping? || p.Cleaning?
  }

  lemma DrainedHoldNothing(s: Pool)
    requires Guarded(s) && s.inflight == 0
    ensures forall u :: u in s.procs ==> Held(s.procs[u]) == {}
  {
    forall u | u in s.procs ensures Held(s.procs[u]) == {} {
      if InFlight(s.procs[u]) { NoFlights(s, u); }
    }
  }

  /** A step moves its own call alone, and leaves that call's sweep in order. */
  ghost predicate MovesOne(s: Pool, t: Tid, next: Pool) {
    && s.generation <= next.generation
    && t in next.procs && next.procs == s.procs[t := next.procs[t]]
    && SweepOk(next.procs[t], next.envs, next.deps)
    && (t in s.procs && (next.procs[t].Setting? || next.procs[t].Unwinding?) ==>
          && s.procs[t].Setting? && s.procs[t].source == next.procs[t].source
          && (next.procs[t].env.None? ==> s.procs[t].env.None?))
  }

  lemma BuildMoves(s: Pool, t: Tid, a: Act)
    requires a.Acquire? || a.Adopt? || a.MakeHelper? || a.DropHelper? || a.Build?
    ensures var next := Step(s, Move(t, a)); next == s || MovesOne(s, t, next)
  {
  }

  lemma SettleMoves(s: Pool, t: Tid, a: Act)
    requires a.SetupDone? || a.SetupFails? || a.Finish? || a.End?
    ensures var next := Step(s, Move(t, a)); next == s || MovesOne(s, t, next)
  {
  }

  lemma CleanOkMoves(s: Pool, t: Tid)
    requires Apart(s.procs, s.envs) && t in s.procs && SweepOk(s.procs[t], s.envs, s.deps)
    ensures DoCleanOk(s, t) == s || MovesOne(s, t, DoCleanOk(s, t))
  {
    if s.procs[t].Cleaning? { CleanStepOk(s, t); }
  }

  lemma CleanFailsMoves(s: Pool, t: Tid)
    requires t in s.procs && SweepOk(s.procs[t], s.envs, s.deps)
    ensures DoCleanFails(s, t) == s || MovesOne(s, t, DoCleanFails(s, t))
  {
  }

  lemma SweepMoves(s: Pool, t: Tid)
    requires Inv(s)
    ensures DoSweep(s, t) == s || MovesOne(s, t, DoSweep(s, t))
  {
    if t in s.procs && s.procs[t].Sweeping? {
      assert SweepOk(s.procs[t], s.envs, s.deps);
      DrainedHoldNothing(s);
      SweepStepOk(s, t);
    }
  }

  lemma ReleaseMoves(s: Pool, t: Tid, a: Act)
    requires a.Release? || a.Drained? || a.ReleaseEnv?
    ensures var next := Step(s, Move(t, a)); next == s || MovesOne(s, t, next)
  {
    DrainedSweeps(s);
  }

  lemma StepMoves(s: Pool, m: Move)
    requires Inv(s)
    ensures Step(s, m) == s || MovesOne(s, m.t, Step(s, m))
  {
    match m.act
    case SetupDone => SettleMoves(s, m.t, m.act);
    case SetupFails => SettleMoves(s, m.t, m.act);
    case Finish => SettleMoves(s, m.t, m.act);
    case End => SettleMoves(s, m.t, m.act);
    case CleanOk => if m.t in s.procs { CleanOkMoves(s, m.t); }
    case CleanFails => if m.t in s.procs { CleanFailsMoves(s, m.t); }
    case Release => ReleaseMoves(s, m.t, m.act);
    case Drained => ReleaseMoves(s, m.t, m.act);
    case Sweep => SweepMoves(s, m.t);
    case ReleaseEnv(_) => ReleaseMoves(s, m.t, m.act);
    case _ => BuildMoves(s, m.t, m.act);
  }

  lemma OthersStaySwept(s: Pool, t: Tid, next: Pool)
    requires Swept(s) && MovesOne(s, t, next)
    requires forall u :: u in s.procs && u != t ==> !OfSweep(s.procs[u])
    ensures Swept(next)
  {
  }

  lemma StepSwept(s: Pool, m: Move)
    requires Inv(s)
    ensures Swept(Step(s, m))
  {
    StepMoves(s, m);
    if u :| u in s.procs && u != m.t && OfSweep(s.procs[u]) {
      SweepingStopsTheOthers(s, u, m);
    } else if Step(s, m) != s {
      OthersStaySwept(s, m.t, Step(s, m));
    }
  }

  lemma StepKeepsInv(s: Pool, m: Move)
    requires Inv(s)
    ensures Inv(Step(s, m))
  {
    StepGuarded(s, m);
    StepTied(s, m);
    StepSwept(s, m);
  }

  lemma {:induction false} RunKeepsInv(s: Pool, moves: seq<Move>)
    requires Inv(s)
    ensures Inv(Run(s, moves))
    decreases |moves|
  {
    if moves != [] {
      StepKeepsInv(s, moves[0]);
      RunKeepsInv(Step(s, moves[0]), moves[1..]);
    }
  }

  // ---------------------------------------------------------------- what callers are promised

  /** A release cleans only with no acquire in flight, and nothing a recorded dependent needs. */
  lemma ReleaseCleansWhenDrained(owned: seq<Env>, moves: seq<Move>, t: Tid)
    requires NoDup(owned)
    ensures var s := Run(Fresh(owned), moves);
            t in s.procs && s.procs[t].Cleaning? ==>
              && s.inflight == 0 && (forall u :: u in s.procs ==> !InFlight(s.procs[u]))
              && s.procs[t].target in s.envs && s.procs[t].target !in s.deps.Values
  {
    FreshInv(owned);
    RunKeepsInv(Fresh(owned), moves);
    var s := Run(Fresh(owned), moves);
    if t in s.procs && s.procs[t].Cleaning? {
      assert SweepOk(s.procs[t], s.envs, s.deps);
      forall u | u in s.procs ensures !InFlight(s.procs[u]) {
        if InFlight(s.procs[u]) { NoFlights(s, u); }
      }
    }
  }

  /** Every environment the pool was given or built is cleaned, still tracked for a later cleanup,
      or in the hands of an acquire that has not ended. */
  lemma EveryEnvironmentIsAccounted(owned: seq<Env>, moves: seq<Move>, e: Env)
    requires NoDup(owned)
    ensures var s := Run(Fresh(owned), moves);
            e in s.ledger ==> e in s.cleaned || e in s.envs || IsHeld(s.procs, e)
  {
    FreshInv(owned);
    RunKeepsInv(Fresh(owned), moves);
  }

  /** An acquire that a release has overtaken. */
  predicate Overtaken(s: Pool, t: Tid) {
    t in s.procs && (s.procs[t].Failed? || (InFlight(s.procs[t]) && s.procs[t].gen < s.generation))
  }

  lemma OvertakenOwnStep(s: Pool, t: Tid, a: Act)
    requires Overtaken(s, t)
    ensures Overtaken(Step(s, Move(t, a)), t)
  {
  }

  lemma OvertakenStep(s: Pool, t: Tid, m: Move)
    requires Inv(s) && Overtaken(s, t)
    ensures Overtaken(Step(s, m), t)
  {
    if m.t == t { OvertakenOwnStep(s, t, m.act); } else { StepMoves(s, m); }
  }

  /** An acquire begun before a release never returns its environment after it. */
  lemma {:induction false} OvertakenNeverReturns(s: Pool, t: Tid, moves: seq<Move>)
    requires Inv(s) && Overtaken(s, t)
    ensures t in Run(s, moves).procs && !Run(s, moves).procs[t].Returned?
    decreases |moves|
  {
    if moves != [] {
      OvertakenStep(s, t, moves[0]);
      StepKeepsInv(s, moves[0]);
      OvertakenNeverReturns(Step(s, moves[0]), t, moves[1..]);
    }
  }

  lemma ReleaseOvertakes(s: Pool, r: Tid, t: Tid)
    requires Inv(s) && s.lock.None? && r !in s.procs && t in s.procs && InFlight(s.procs[t])
    ensures Inv(DoRelease(s, r)) && Overtaken(DoRelease(s, r), t)
  {
    assert s.procs[t].gen <= s.generation;
    StepKeepsInv(s, Move(r, Release));
  }

  lemma ReleaseOvertakesEveryAcquire(s: Pool, r: Tid, t: Tid, moves: seq<Move>)
    requires Inv(s) && s.lock.None? && r !in s.procs && t in s.procs && InFlight(s.procs[t])
    ensures t in Run(DoRelease(s, r), moves).procs && !Run(DoRelease(s, r), moves).procs[t].Returned?
  {
    ReleaseOvertakes(s, r, t);
    OvertakenNeverReturns(DoRelease(s, r), t, moves);
  }

  lemma LastFailed(envs: seq<Env>, deps: map<Env, Env>, failed: set<Env>, skipped: set<Env>)
    requires Ordered(envs, deps) && PassedBy(envs, 0, deps, failed, skipped) && envs != []
    ensures envs[|envs| - 1] in failed
  {
  }

  /** A release leaves exactly what it failed to clean or had to skip; what it skipped is the
      source of something that remains. If no cleanup failed, it skipped nothing and the pool is
      empty. */
  lemma ReleaseEmptiesThePool(s: Pool, t: Tid)
    requires Inv(s) && t in s.procs && s.procs[t].Sweeping? && s.procs[t].todo == []
    ensures var p := s.procs[t];
            && DoSweep(s, t).envs == s.envs && DoSweep(s, t).procs[t] == Released(p.failed, p.skipped)
            && (forall e :: e in s.envs <==> e in p.failed + p.skipped)
            && (forall e :: e in p.skipped ==> exists d :: d in s.envs && d in s.deps && s.deps[d] == e)
            && (p.failed == {} ==> s.envs == [] && s.deps == map[])
  {
    var p := s.procs[t];
    assert SweepOk(p, s.envs, s.deps);
    DrainedHoldNothing(s);
    if s.envs != [] { LastFailed(s.envs, s.deps, p.failed, p.skipped); }
    assert forall e :: e in p.failed + p.skipped ==> Behind(s.envs, 0, e);
    forall e | e in p.skipped ensures exists d :: d in s.envs && d in s.deps && s.deps[d] == e {
      assert Needed(s.envs, 0, s.deps, e);
      var i :| 0 <= i < |s.envs| && s.envs[i] in s.deps && s.deps[s.envs[i]] == e;
      assert s.envs[i] in s.envs;
    }
    assert forall d :: d in s.deps ==> d in s.envs;
  }

  // ---------------------------------------------------------------- releasing one environment

  /** An acquire in flight that copies from `e` and may still record a dependent: it has built no
      environment, or is failing with no more than a source owner to clean. */
  predicate MayRecord(p: Proc, e: Env) {
    || (p.Setting? && p.source == Some(e) && p.env.None?)
    || (p.Unwinding? && p.source == Some(e) && p.env.None? && p.helper.Some?)
  }

  lemma RunOfFour(s: Pool, a: Move, b: Move, c: Move, d: Move)
    ensures Run(s, [a, b, c, d]) == Step(Step(Step(Step(s, a), b), c), d)
  {
    assert [a, b, c, d][1..] == [b, c, d] && [b, c, d][1..] == [c, d] && [c, d][1..] == [d];
    var last := [d];
    assert last[1..] == [];
    assert Run(Step(Step(s, a), b), [c, d]) == Run(Step(Step(Step(s, a), b), c), [d]);
  }

  /** `release_env` does not wait for acquires: one of them may record a dependent of an
      environment while that environment is being cleaned. */
  lemma SourceMayBeCleanedUnderADependent()
    ensures exists moves :: var s := Run(Fresh([1]), moves);
              1 in s.cleaned && 1 in s.deps.Values && IsHeld(s.procs, 2) && 2 !in s.cleaned
  {
    var a, b, c, d := Move(0, Acquire(Some(1))), Move(1, ReleaseEnv(1)), Move(0, Build(2)), Move(1, CleanOk);
    var s2 := FirstTwoMoves();
    var s4 := LastTwoMoves(s2);
    RunOfFour(Fresh([1]), a, b, c, d);
    var moves := [a, b, c, d];
    assert Run(Fresh([1]), moves) == s4;
  }

  lemma FirstTwoMoves() returns (s: Pool)
    ensures s == Step(Step(Fresh([1]), Move(0, Acquire(Some(1)))), Move(1, ReleaseEnv(1)))
    ensures s.procs == map[0 := Setting(Some(1), 0, None, None), 1 := ReleasingOne(1)]
    ensures s.deps == map[] && s.cleaned == {} && s.known == {1}
  {
    var s1 := Step(Fresh([1]), Move(0, Acquire(Some(1))));
    assert s1.procs == map[0 := Setting(Some(1), 0, None, None)] && s1.lock == None && s1.known == {1};
    s := Step(s1, Move(1, ReleaseEnv(1)));
  }

  lemma LastTwoMoves(s: Pool) returns (next: Pool)
    requires s.procs == map[0 := Setting(Some(1), 0, None, None), 1 := ReleasingOne(1)]
    requires s.deps == map[] && s.cleaned == {} && s.known == {1}
    ensures next == Step(Step(s, Move(0, Build(2))), Move(1, CleanOk))
    ensures next.cleaned == {1} && 1 in next.deps.Values && IsHeld(next.procs, 2)
  {
    var s3 := Step(s, Move(0, Build(2)));
    assert s3.deps == map[2 := 1] && s3.cleaned == {};
    assert s3.procs == map[0 := Setting(Some(1), 0, None, Some(2)), 1 := ReleasingOne(1)];
    next := Step(s3, Move(1, CleanOk));
    assert next.deps[2] == 1;
    assert 2 in Held(next.procs[0]);
  }

  /** The source, if any, of the dependent that a step records. */
  function Records(s: Pool, m: Move): Option<Env> {
    if m.t !in s.procs then None
    else
      match s.procs[m.t]
      case Setting(source, _, _, env) =>
        if m.act.Build? && env.None? && m.act.made !in s.known then source else None
      case Unwinding(source, _, helper, env) =>
        if m.act.CleanFails? && env.None? && helper.Some? then source else None
      case _ => None
  }

  lemma OnlyTheseRecord(s: Pool, m: Move)
    ensures !(m.act.Build? || m.act.CleanOk? || m.act.CleanFails?) ==> Step(s, m).deps == s.deps
  {
  }

  lemma BuildRecords(s: Pool, m: Move, e: Env)
    requires Named(s) && e !in s.deps.Values && m.act.Build?
    ensures e in Step(s, m).deps.Values <==> Records(s, m) == Some(e)
  {
    var next := Step(s, m);
    if next != s {
      var source := s.procs[m.t].source;
      assert next.deps == Depends(s.deps, m.act.made, source);
      assert source.Some? ==> next.deps[m.act.made] == source.value;
    }
  }

  lemma CleanRecords(s: Pool, m: Move, e: Env)
    requires Named(s) && e !in s.deps.Values && (m.act.CleanOk? || m.act.CleanFails?)
    ensures e in Step(s, m).deps.Values <==> Records(s, m) == Some(e)
  {
    var next := Step(s, m);
    if Records(s, m).Some? {
      var p := s.procs[m.t];
      assert next.deps == s.deps[p.helper.value := p.source.value];
      assert next.deps[p.helper.value] == p.source.value;
    } else {
      assert forall d :: d in next.deps ==> d in s.deps && next.deps[d] == s.deps[d];
    }
  }

  /** A step gives `e` its first dependent exactly when an acquire that copies from `e` records one. */
  lemma DependentAppearsIff(s: Pool, m: Move, e: Env)
    requires Named(s) && e !in s.deps.Values
    ensures e in Step(s, m).deps.Values <==> Records(s, m) == Some(e)
  {
    OnlyTheseRecord(s, m);
    if m.act.Build? {
      BuildRecords(s, m, e);
    } else if m.act.CleanOk? || m.act.CleanFails? {
      CleanRecords(s, m, e);
    }
  }

  ghost predicate NoneRecords(s: Pool, e: Env) {
    e !in s.deps.Values && forall u :: u in s.procs ==> !MayRecord(s.procs[u], e)
  }

  lemma NewcomerRecords(s: Pool, m: Move, e: Env)
    requires m.t !in s.procs && m.act != Acquire(Some(e))
    ensures m.t in Step(s, m).procs ==> !MayRecord(Step(s, m).procs[m.t], e)
  {
  }

  lemma NoneRecordsStep(s: Pool, m: Move, e: Env)
    requires Inv(s) && NoneRecords(s, e) && m.act != Acquire(Some(e))
    ensures NoneRecords(Step(s, m), e)
  {
    DependentAppearsIff(s, m, e);
    StepMoves(s, m);
    if m.t !in s.procs { NewcomerRecords(s, m, e); }
  }

  /** No acquire from `e` begins. */
  ghost predicate NoAcquireOf(moves: seq<Move>, e: Env) {
    forall i :: 0 <= i < |moves| ==> moves[i].act != Acquire(Some(e))
  }

  lemma {:induction false} UncopiedSourceStaysFree(s: Pool, moves: seq<Move>, e: Env)
    requires Inv(s) && NoneRecords(s, e) && NoAcquireOf(moves, e)
    ensures e !in Run(s, moves).deps.Values
    decreases |moves|
  {
    if moves != [] {
      NoneRecordsStep(s, moves[0], e);
      StepKeepsInv(s, moves[0]);
      UncopiedSourceStaysFree(Step(s, moves[0]), moves[1..], e);
    }
  }

  lemma RunOfTwo(s: Pool, a: Move, b: Move)
    ensures Run(s, [a, b]) == Step(Step(s, a), b)
  {
    assert [a, b][1..] == [b];
    var last := [b];
    assert last[1..] == [];
    assert Run(Step(s, a), [b]) == Run(Step(Step(s, a), b), []);
  }

  lemma {:induction false} FreshName(known: set<Env>) returns (e: Env)
    ensures e !in known && forall x :: x in known ==> x < e
    decreases known
  {
    e := 0;
    if x :| x in known {
      var rest := FreshName(known - {x});
      e := if x < rest then rest else x + 1;
      assert forall y :: y in known ==> y == x || y in known - {x};
    }
  }

  /** What the acquire does to record its dependent. */
  function Recording(p: Proc, made: Env): Act {
    if p.Setting? then Build(made) else CleanFails
  }

  lemma RecordingRecords(s: Pool, u: Tid, e: Env, made: Env)
    requires Inv(s) && u in s.procs && MayRecord(s.procs[u], e) && made !in s.known && e !in s.deps.Values
    ensures e in Step(s, Move(u, Recording(s.procs[u], made))).deps.Values
  {
    DependentAppearsIff(s, Move(u, Recording(s.procs[u], made)), e);
  }

  lemma OtherStays(s: Pool, t: Tid, m: Move)
    requires Inv(s) && t in s.procs && m.t != t
    ensures t in Step(s, m).procs && Step(s, m).procs[t] == s.procs[t]
  {
    StepMoves(s, m);
  }

  lemma CleaningKeepsDependents(s: Pool, t: Tid, e: Env)
    requires Inv(s) && t in s.procs && s.procs[t] == ReleasingOne(e) && e in s.deps.Values
    ensures e in DoCleanOk(s, t).cleaned && e in DoCleanOk(s, t).deps.Values
  {
    var d :| d in s.deps && s.deps[d] == e;
    NotItsOwnSource(s, t, d);
    var next := DoCleanOk(s, t);
    assert d in next.deps && next.deps[d] == e;
  }

  lemma Recorded(s: Pool, t: Tid, u: Tid, e: Env, made: Env, m: Move) returns (mid: Pool)
    requires Inv(s) && t in s.procs && s.procs[t] == ReleasingOne(e) && e !in s.deps.Values
    requires u in s.procs && MayRecord(s.procs[u], e) && made !in s.known && m == Move(u, Recording(s.procs[u], made))
    ensures mid == Step(s, m) && Inv(mid) && t in mid.procs && mid.procs[t] == ReleasingOne(e) && e in mid.deps.Values
  {
    RecordingRecords(s, u, e, made);
    OtherStays(s, t, m);
    StepKeepsInv(s, m);
    mid := Step(s, m);
  }

  /** What is being released is tracked, and no tracked environment is its own source. */
  lemma NotItsOwnSource(s: Pool, t: Tid, d: Env)
    requires Inv(s) && t in s.procs && s.procs[t].ReleasingOne? && d in s.deps && s.deps[d] == s.procs[t].target
    ensures d != s.procs[t].target
  {
    var e := s.procs[t].target;
    assert e in s.envs;
    var i :| 0 <= i < |s.envs| && s.envs[i] == e;
  }

  /** `e` ends up cleaned under a dependent, no acquire from it having begun. */
  ghost predicate EndsBadly(s: Pool, moves: seq<Move>, e: Env) {
    NoAcquireOf(moves, e) && e in Run(s, moves).cleaned && e in Run(s, moves).deps.Values
  }

  lemma TwoMovesEndBadly(s: Pool, a: Move, mid: Pool, t: Tid, e: Env)
    requires mid == Step(s, a) && !a.act.Acquire?
    requires e in DoCleanOk(mid, t).cleaned && e in DoCleanOk(mid, t).deps.Values
    ensures EndsBadly(s, [a, Move(t, CleanOk)], e)
  {
    RunOfTwo(s, a, Move(t, CleanOk));
  }

  lemma BadEnd(s: Pool, t: Tid, u: Tid, e: Env) returns (moves: seq<Move>)
    requires Inv(s) && t in s.procs && s.procs[t] == ReleasingOne(e) && e !in s.deps.Values
    requires u in s.procs && MayRecord(s.procs[u], e)
    ensures EndsBadly(s, moves, e)
  {
    var made := FreshName(s.known);
    var a := Move(u, Recording(s.procs[u], made));
    var mid := Recorded(s, t, u, e, made, a);
    CleaningKeepsDependents(mid, t, e);
    TwoMovesEndBadly(s, a, mid, t, e);
    moves := [a, Move(t, CleanOk)];
  }

  /** Exactly when `release_env`, having begun to clean `e`, can end up with `e` cleaned under a
      dependent although no acquire from `e` begins: when one in flight may still record. */
  lemma CleanedUnderDependentIff(s: Pool, t: Tid, e: Env)
    requires Inv(s) && t in s.procs && s.procs[t] == ReleasingOne(e) && e !in s.deps.Values
    ensures (exists moves :: EndsBadly(s, moves, e)) <==> exists u :: u in s.procs && MayRecord(s.procs[u], e)
  {
    if u :| u in s.procs && MayRecord(s.procs[u], e) {
      var moves := BadEnd(s, t, u, e);
    } else {
      forall moves ensures !EndsBadly(s, moves, e) {
        if NoAcquireOf(moves, e) { UncopiedSourceStaysFree(s, moves, e); }
      }
    }
  }
}
