/**
 The pools that lend environments on exclusive machines: acquires in flight, a group's shared owner
 and its lock, closing, releases, and cleanups that export, tidy, reset and free, interleaved at
 every point where the source awaits. Every cleanup may fail wherever it awaits and be begun again.
 The books are those of `VmLeases`.
 */
module VmIsolation {
  import opened Wrappers
  import opened VmLeases

  /** `grouped` is the scope; `closed`, the group lock, the group's owner and the release lock are the
      pool's fields. */
  datatype Pool = Pool(grouped: bool, closed: bool, groupLock: Option<Tid>, group: Option<Token>, releaseLock: Option<Tid>)

  /** Where a cleanup stands: what it listed and has not exported yet, the rest of the owner's
      resources, or the two commands. */
  datatype Phase = Exporting(todo: set<Env>) | Tidying | Resetting

  /** How a call goes on after a cleanup, whether that succeeded or not. */
  datatype After = Raise | Finish | Sweep(rest: set<Token>)

  /** Where a call stands: an acquire up to `Got` or `Raised`, the release of one environment, or the
      release of the pool. */
  datatype At =
    | Arriving | Claiming | Preparing(token: Token) | Building(token: Token, created: bool)
    | Raising(token: Token, created: bool) | Got(env: Env) | Raised
    | Cleaning(token: Token, phase: Phase, after: After)
    | Exports(env: Env) | Closes(env: Env) | Deciding(token: Token)
    | Draining | Sweeping(todo: set<Token>)
    | Ended

  datatype Task = Task(pool: Pid, at: At)

  datatype World = World(g: Ledger, pools: map<Pid, Pool>, tasks: map<Tid, Task>)

  datatype Act =
    | Acquire(pool: Pid) | Enter | ClaimVm(vm: Vm, token: Token) | NoMachine
    | Prepared | PrepareFails | Built(env: Env) | BuildFails | Raises
    | ExportOne(env: Env) | ExportsDone | Tidied | Resets(outcome: Option<Outcome>) | Frees | CleanupFails
    | ReleaseEnv(pool: Pid, env: Env) | EnvExported | EnvFails | EnvClosed | Decides
    | Release(pool: Pid) | Drained | SweepOne(token: Token) | SweepDone

  datatype Move = Move(t: Tid, act: Act)

  /** Counted in the pool's `_inflight`. */
  predicate InFlight(at: At) {
    at.Arriving? || at.Claiming? || at.Preparing? || at.Building? || at.Raising?
    || (at.Cleaning? && at.after.Raise?)
  }

  predicate NoneInFlight(tasks: map<Tid, Task>, p: Pid) {
    forall t :: t in tasks && tasks[t].pool == p ==> !InFlight(tasks[t].at)
  }

  function Put(s: World, t: Tid, p: Pid, at: At): World {
    s.(tasks := s.tasks[t := Task(p, at)])
  }

  function SetPool(s: World, p: Pid, pool: Pool): World {
    s.(pools := s.pools[p := pool])
  }

  function Without(lock: Option<Tid>, t: Tid): Option<Tid> {
    if lock == Some(t) then None else lock
  }

  /** The locks of pool `p` that `t` holds, given up. */
  function Unlocked(s: World, p: Pid, t: Tid): World
    requires p in s.pools
  {
    SetPool(s, p, s.pools[p].(groupLock := Without(s.pools[p].groupLock, t), releaseLock := Without(s.pools[p].releaseLock, t)))
  }

  function OpenLoans(g: Ledger, t: Token): set<Env> {
    set e | e in g.loans && g.loans[e].owner == t && g.loans[e].open
  }

  /** `_cleanup_owner` begins. */
  function StartClean(s: World, t: Tid, p: Pid, token: Token, after: After): World
    requires token in s.g.owners
  {
    if s.g.owners[token].cleaned then Put(s, t, p, Cleaning(token, Resetting, after))
    else Put(s.(g := Doom(s.g, token)), t, p, Cleaning(token, Exporting(OpenLoans(s.g, token)), after))
  }

  /** `_cleanup_owner` ends. */
  function EndClean(s: World, t: Tid, p: Pid, after: After): World
    requires p in s.pools
  {
    match after
    case Raise => Put(Unlocked(s, p, t), t, p, Raised)
    case Finish => Put(Unlocked(s, p, t), t, p, Ended)
    case Sweep(rest) => Put(s, t, p, Sweeping(rest))
  }

  // ---------------------------------------------------------------- acquiring

  function DoAcquire(s: World, t: Tid, p: Pid): World {
    if t in s.tasks || p !in s.pools || s.pools[p].closed then s else Put(s, t, p, Arriving)
  }

  /** The group lock, if there is one to take, and the choice of an owner. */
  function DoEnter(s: World, t: Tid): World {
    if t !in s.tasks || !s.tasks[t].at.Arriving? || s.tasks[t].pool !in s.pools then s
    else
      var p := s.tasks[t].pool;
      var pool := s.pools[p];
      if !pool.grouped then Put(s, t, p, Claiming)
      else if pool.groupLock.Some? then s
      else Put(SetPool(s, p, pool.(groupLock := Some(t))), t, p,
               if pool.group.Some? then Building(pool.group.value, false) else Claiming)
  }

  /** `_registry.acquire`: any machine without a row, unless the pool is closing. */
  function DoClaim(s: World, t: Tid, vm: Vm, token: Token): World {
    if t !in s.tasks || !s.tasks[t].at.Claiming? || s.tasks[t].pool !in s.pools then s
    else
      var p := s.tasks[t].pool;
      if s.pools[p].closed || vm in s.g.rows || token in s.g.owners then s
      else Put(s.(g := Claim(s.g, token, NewOwner(p, t, vm, s.g.now))), t, p, Preparing(token))
  }

  /** Cancelled while it waits, no machine to be had, or the pool closing. */
  function DoNoMachine(s: World, t: Tid): World {
    if t !in s.tasks || !(s.tasks[t].at.Arriving? || s.tasks[t].at.Claiming?) || s.tasks[t].pool !in s.pools then s
    else Put(Unlocked(s, s.tasks[t].pool, t), t, s.tasks[t].pool, Raised)
  }

  function DoPrepare(s: World, t: Tid, ok: bool): World {
    if t !in s.tasks || !s.tasks[t].at.Preparing? || s.tasks[t].at.token !in s.g.owners then s
    else
      var p, token := s.tasks[t].pool, s.tasks[t].at.token;
      if ok then Put(s, t, p, Building(token, true)) else StartClean(s, t, p, token, Raise)
  }

  /** The owner's pool has built an environment: it is recorded, the group's owner set, and the
      environment returned unless the pool has been closed. */
  function DoBuilt(s: World, t: Tid, env: Env): World {
    if t !in s.tasks || !s.tasks[t].at.Building? || s.tasks[t].pool !in s.pools || env in s.g.loans then s
    else
      var p := s.tasks[t].pool;
      var Building(token, created) := s.tasks[t].at;
      var pool := s.pools[p];
      if token !in s.g.owners then s
      else
        var recorded := SetPool(s.(g := Record(s.g, env, token, !pool.closed)), p,
                                pool.(group := if pool.grouped then Some(token) else pool.group));
        Put(Unlocked(recorded, p, t), t, p, if pool.closed then Raising(token, created) else Got(env))
  }

  function DoBuildFails(s: World, t: Tid): World {
    if t !in s.tasks || !s.tasks[t].at.Building? || s.tasks[t].pool !in s.pools then s
    else Put(Unlocked(s, s.tasks[t].pool, t), t, s.tasks[t].pool, Raising(s.tasks[t].at.token, s.tasks[t].at.created))
  }

  /** An acquire that raises, out of the group lock: who made the owner cleans it up. */
  function DoRaises(s: World, t: Tid): World {
    if t !in s.tasks || !s.tasks[t].at.Raising? || s.tasks[t].at.token !in s.g.owners then s
    else if s.tasks[t].at.created then StartClean(s, t, s.tasks[t].pool, s.tasks[t].at.token, Raise)
    else Put(s, t, s.tasks[t].pool, Raised)
  }

  // ---------------------------------------------------------------- cleaning up an owner

  predicate Cleans(s: World, t: Tid) {
    t in s.tasks && s.tasks[t].at.Cleaning? && s.tasks[t].pool in s.pools && s.tasks[t].at.token in s.g.owners
  }

  function DoExportOne(s: World, t: Tid, env: Env): World {
    if !Cleans(s, t) || !s.tasks[t].at.phase.Exporting? || env !in s.tasks[t].at.phase.todo || env !in s.g.loans then s
    else
      var Cleaning(token, phase, after) := s.tasks[t].at;
      Put(s.(g := Export(s.g, env)), t, s.tasks[t].pool, Cleaning(token, Exporting(phase.todo - {env}), after))
  }

  function DoExportsDone(s: World, t: Tid): World {
    if !Cleans(s, t) || s.tasks[t].at.phase != Exporting({}) then s
    else Put(s, t, s.tasks[t].pool, Cleaning(s.tasks[t].at.token, Tidying, s.tasks[t].at.after))
  }

  /** The pools, views and control of the owner are cleaned up. */
  function DoTidied(s: World, t: Tid): World {
    if !Cleans(s, t) || !s.tasks[t].at.phase.Tidying? then s
    else
      var Cleaning(token, _, after) := s.tasks[t].at;
      Put(s.(g := Clean(s.g, token)), t, s.tasks[t].pool, Cleaning(token, Resetting, after))
  }

  /** One step of the reset loop; anything but a complete status 0 ends the cleanup. */
  function DoReset(s: World, t: Tid, outcome: Option<Outcome>): World {
    if !Cleans(s, t) || !s.tasks[t].at.phase.Resetting? then s
    else
      var next := s.(g := Reset(s.g, s.tasks[t].at.token, outcome));
      if outcome.None? || outcome.value == Returned(0, true) then next
      else EndClean(next, t, s.tasks[t].pool, s.tasks[t].at.after)
  }

  /** Both commands done: the machine is given up, and the group with its owner. */
  function DoFree(s: World, t: Tid): World {
    if !Cleans(s, t) || !s.tasks[t].at.phase.Resetting? || s.g.owners[s.tasks[t].at.token].step != 2 then s
    else
      var p, token := s.tasks[t].pool, s.tasks[t].at.token;
      var pool := s.pools[p];
      EndClean(SetPool(s.(g := Free(s.g, token)), p, pool.(group := if pool.group == Some(token) then None else pool.group)),
               t, p, s.tasks[t].at.after)
  }

  function DoCleanupFails(s: World, t: Tid): World {
    if !Cleans(s, t) then s else EndClean(s, t, s.tasks[t].pool, s.tasks[t].at.after)
  }

  // ---------------------------------------------------------------- releasing

  /** `release_env` by a caller to whom `env` was returned, once it has the release lock */
  function DoReleaseEnv(s: World, t: Tid, p: Pid, env: Env): World {
    if t in s.tasks || p !in s.pools || s.pools[p].releaseLock.Some? then s
    else if env !in s.g.loans || !s.g.loans[env].returned || s.g.loans[env].owner !in s.g.owners
            || s.g.owners[s.g.loans[env].owner].pool != p then s
    else if !s.g.loans[env].open then Put(s, t, p, Ended)
    else Put(SetPool(s, p, s.pools[p].(releaseLock := Some(t))), t, p, Exports(env))
  }

  function DoEnvExported(s: World, t: Tid): World {
    if t !in s.tasks || !s.tasks[t].at.Exports? || s.tasks[t].at.env !in s.g.loans then s
    else Put(s.(g := Export(s.g, s.tasks[t].at.env)), t, s.tasks[t].pool, Closes(s.tasks[t].at.env))
  }

  function DoEnvFails(s: World, t: Tid): World {
    if t !in s.tasks || !(s.tasks[t].at.Exports? || s.tasks[t].at.Closes?) || s.tasks[t].pool !in s.pools then s
    else Put(Unlocked(s, s.tasks[t].pool, t), t, s.tasks[t].pool, Ended)
  }

  /** The environment leaves the table; */
  function DoEnvClosed(s: World, t: Tid): World {
    if t !in s.tasks || !s.tasks[t].at.Closes? || s.tasks[t].at.env !in s.g.loans then s
    else
      var env := s.tasks[t].at.env;
      Put(s.(g := GiveBack(s.g, env)), t, s.tasks[t].pool, Deciding(s.g.loans[env].owner))
  }

  /** its owner is cleaned up when it was the last, and is no group's. */
  function DoDecides(s: World, t: Tid): World {
    if t !in s.tasks || !s.tasks[t].at.Deciding? || s.tasks[t].pool !in s.pools || s.tasks[t].at.token !in s.g.owners then s
    else
      var p, token := s.tasks[t].pool, s.tasks[t].at.token;
      if s.pools[p].group != Some(token) && OpenLoans(s.g, token) == {} then StartClean(s, t, p, token, Finish)
      else Put(Unlocked(s, p, t), t, p, Ended)
  }

  function DoRelease(s: World, t: Tid, p: Pid): World {
    if t in s.tasks || p !in s.pools then s else Put(SetPool(s, p, s.pools[p].(closed := true)), t, p, Draining)
  }

  function LiveOwners(g: Ledger, p: Pid): set<Token> {
    set o | o in g.owners && g.owners[o].pool == p && g.owners[o].freedAt.None?
  }

  function DoDrained(s: World, t: Tid): World {
    if t !in s.tasks || !s.tasks[t].at.Draining? || s.tasks[t].pool !in s.pools then s
    else
      var p := s.tasks[t].pool;
      if s.pools[p].releaseLock.Some? || !NoneInFlight(s.tasks, p) then s
      else Put(SetPool(s, p, s.pools[p].(releaseLock := Some(t))), t, p, Sweeping(LiveOwners(s.g, p)))
  }

  function DoSweepOne(s: World, t: Tid, token: Token): World {
    if t !in s.tasks || !s.tasks[t].at.Sweeping? || token !in s.tasks[t].at.todo || token !in s.g.owners then s
    else StartClean(s, t, s.tasks[t].pool, token, Sweep(s.tasks[t].at.todo - {token}))
  }

  function DoSweepDone(s: World, t: Tid): World {
    if t !in s.tasks || s.tasks[t].at != Sweeping({}) || s.tasks[t].pool !in s.pools then s
    else Put(Unlocked(s, s.tasks[t].pool, t), t, s.tasks[t].pool, Ended)
  }

  function Do(s: World, m: Move): World {
    match m.act
    case Acquire(p) => DoAcquire(s, m.t, p)
    case Enter => DoEnter(s, m.t)
    case ClaimVm(vm, token) => DoClaim(s, m.t, vm, token)
    case NoMachine => DoNoMachine(s, m.t)
    case Prepared => DoPrepare(s, m.t, true)
    case PrepareFails => DoPrepare(s, m.t, false)
    case Built(env) => DoBuilt(s, m.t, env)
    case BuildFails => DoBuildFails(s, m.t)
    case Raises => DoRaises(s, m.t)
    case ExportOne(env) => DoExportOne(s, m.t, env)
    case ExportsDone => DoExportsDone(s, m.t)
    case Tidied => DoTidied(s, m.t)
    case Resets(outcome) => DoReset(s, m.t, outcome)
    case Frees => DoFree(s, m.t)
    case CleanupFails => DoCleanupFails(s, m.t)
    case ReleaseEnv(p, env) => DoReleaseEnv(s, m.t, p, env)
    case EnvExported => DoEnvExported(s, m.t)
    case EnvFails => DoEnvFails(s, m.t)
    case EnvClosed => DoEnvClosed(s, m.t)
    case Decides => DoDecides(s, m.t)
    case Release(p) => DoRelease(s, m.t, p)
    case Drained => DoDrained(s, m.t)
    case SweepOne(token) => DoSweepOne(s, m.t, token)
    case SweepDone => DoSweepDone(s, m.t)
  }

  function Tick(s: World): World {
    s.(g := Later(s.g))
  }

  function Step(s: World, m: Move): World {
    Tick(Do(s, m))
  }

  function Run(s: World, moves: seq<Move>): World
    decreases |moves|
  {
    if moves == [] then s else Run(Step(s, moves[0]), moves[1..])
  }

  /** Pools as constructed, each with its scope, over an empty lease table. */
  function Open(scopes: map<Pid, bool>): World {
    World(NoLedger, map p | p in scopes :: Pool(scopes[p], false, None, None, None), map[])
  }

  // ---------------------------------------------------------------- what each call relies on

  /** An owner that an acquire has made and nobody else knows. */
  predicate OwnOwner(s: World, t: Tid, p: Pid, o: Token) {
    && o in s.g.owners && s.g.owners[o].pool == p && s.g.owners[o].creator == t
    && s.g.owners[o].freedAt.None? && !s.g.owners[o].doomed && !s.g.owners[o].lent
    && p in s.pools && s.pools[p].group != Some(o)
  }

  /** A live owner of the pool. */
  predicate PoolOwner(s: World, p: Pid, o: Token) {
    o in s.g.owners && s.g.owners[o].pool == p && s.g.owners[o].freedAt.None?
  }

  ghost predicate PhaseOk(g: Ledger, o: Token, phase: Phase)
    requires o in g.owners
  {
    && g.owners[o].cleaned == phase.Resetting?
    && (phase.Exporting? ==>
          && (forall e :: e in phase.todo ==> e in g.loans && g.loans[e].owner == o && g.loans[e].lentAt < g.owners[o].snapAt)
          && (forall e :: e in g.loans && g.loans[e].owner == o && g.loans[e].lentAt < g.owners[o].snapAt ==>
                g.loans[e].exportedAt.Some? || e in phase.todo))
    && (phase.Tidying? ==> AllExported(g, o))
  }

  ghost predicate AfterOk(s: World, t: Tid, p: Pid, o: Token, after: After)
    requires p in s.pools && o in s.g.owners
  {
    match after
    case Raise => s.g.owners[o].creator == t && !s.g.owners[o].lent
    case Finish => s.pools[p].releaseLock == Some(t) && s.g.owners[o].lent
    case Sweep(rest) => o !in rest && SweepOk(s, t, p, rest)
  }

  /** A release that sweeps: nothing of the pool is in flight, and nothing will be. */
  ghost predicate SweepOk(s: World, t: Tid, p: Pid, rest: set<Token>)
    requires p in s.pools
  {
    && s.pools[p].releaseLock == Some(t) && s.pools[p].closed && NoneInFlight(s.tasks, p)
    && (forall r :: r in rest ==> PoolOwner(s, p, r))
  }

  ghost predicate AtOk(s: World, t: Tid, p: Pid, at: At)
    requires p in s.pools
  {
    match at
    case Claiming => s.pools[p].grouped ==> s.pools[p].groupLock == Some(t)
    case Preparing(o) => (s.pools[p].grouped ==> s.pools[p].groupLock == Some(t)) && OwnOwner(s, t, p, o)
    case Building(o, created) =>
      && (s.pools[p].grouped ==> s.pools[p].groupLock == Some(t))
      && (if created then OwnOwner(s, t, p, o)
          else s.pools[p].grouped && o in s.g.owners && s.g.owners[o].pool == p
               && (s.pools[p].group == Some(o) || s.pools[p].closed))
    case Cleaning(o, phase, after) =>
      PoolOwner(s, p, o) && s.g.owners[o].doomed && PhaseOk(s.g, o, phase) && AfterOk(s, t, p, o, after)
    case Raising(o, created) => created ==> SpoiltOwner(s, t, p, o)
    case Exports(e) => ReturnedOk(s, t, p, e)
    case Closes(e) => ReturnedOk(s, t, p, e) && s.g.loans[e].exportedAt.Some?
    case Deciding(o) => s.pools[p].releaseLock == Some(t) && PoolOwner(s, p, o) && s.g.owners[o].lent
    case Draining => s.pools[p].closed
    case Sweeping(todo) => SweepOk(s, t, p, todo)
    case _ => true
  }

  /** An owner of an acquire that raises: still its own, and a group's only once the pool is closed. */
  ghost predicate SpoiltOwner(s: World, t: Tid, p: Pid, o: Token)
    requires p in s.pools
  {
    && PoolOwner(s, p, o) && s.g.owners[o].creator == t && !s.g.owners[o].doomed && !s.g.owners[o].lent
    && (s.pools[p].group == Some(o) ==> s.pools[p].closed)
  }

  ghost predicate ReturnedOk(s: World, t: Tid, p: Pid, e: Env)
    requires p in s.pools
  {
    && s.pools[p].releaseLock == Some(t) && e in s.g.loans && s.g.loans[e].open && s.g.loans[e].returned
    && PoolOwner(s, p, s.g.loans[e].owner) && s.g.owners[s.g.loans[e].owner].lent
  }

  ghost predicate TaskOk(s: World, t: Tid) {
    t in s.tasks ==> s.tasks[t].pool in s.pools && AtOk(s, t, s.tasks[t].pool, s.tasks[t].at)
  }

  /** A group's owner is of the pool, and in use until the pool is closed. */
  ghost predicate PoolOk(s: World, p: Pid) {
    p in s.pools && s.pools[p].group.Some? ==>
      var o := s.pools[p].group.value;
      && s.pools[p].grouped && o in s.g.owners && s.g.owners[o].pool == p
      && (!s.pools[p].closed ==> s.g.owners[o].freedAt.None? && !s.g.owners[o].doomed)
  }

  ghost predicate Inv(s: World) {
    InOrder(s.g) && (forall t :: TaskOk(s, t)) && (forall p :: PoolOk(s, p))
  }

  // ---------------------------------------------------------------- one call at a time on one owner

  /** The call counts on how things stand with owner `o`. */
  predicate Relies(s: World, at: At, o: Token) {
    match at
    case Preparing(x) => x == o
    case Building(x, created) => created && x == o
    case Raising(x, created) => created && x == o
    case Cleaning(x, _, after) => x == o || (after.Sweep? && o in after.rest)
    case Deciding(x) => x == o
    case Exports(e) => e in s.g.loans && s.g.loans[e].owner == o
    case Closes(e) => e in s.g.loans && s.g.loans[e].owner == o
    case Sweeping(todo) => o in todo
    case _ => false
  }

  /** The call has made `o`, or is cleaning it up. */
  predicate Keeps(at: At, o: Token) {
    (at.Preparing? && at.token == o) || ((at.Building? || at.Raising?) && at.created && at.token == o) || (at.Cleaning? && at.token == o)
  }

  /** The call may begin or go on with a cleanup of `o`. */
  predicate Touches(s: World, at: At, o: Token) {
    match at
    case Preparing(x) => x == o
    case Raising(x, created) => created && x == o
    case Cleaning(x, _, _) => x == o
    case Deciding(x) => x == o
    case Sweeping(todo) => o in todo
    case _ => false
  }

  /** Made by `t` and never lent; or lent or swept under the release lock. */
  ghost predicate Mine(s: World, t: Tid, p: Pid, o: Token) {
    PoolOwner(s, p, o) && p in s.pools && s.g.owners[o].creator == t && !s.g.owners[o].lent && !NoneInFlight(s.tasks, p)
  }

  ghost predicate Locked(s: World, t: Tid, p: Pid, o: Token) {
    PoolOwner(s, p, o) && p in s.pools && s.pools[p].releaseLock == Some(t) && (s.g.owners[o].lent || NoneInFlight(s.tasks, p))
  }

  lemma Stakes(s: World, t: Tid, o: Token)
    requires TaskOk(s, t) && t in s.tasks && (Touches(s, s.tasks[t].at, o) || Relies(s, s.tasks[t].at, o))
    ensures Mine(s, t, s.tasks[t].pool, o) || Locked(s, t, s.tasks[t].pool, o)
  {
  }

  /** Nobody else counts on an owner that a call may clean up. */
  lemma Alone(s: World, t: Tid, u: Tid, o: Token)
    requires TaskOk(s, t) && t in s.tasks && Touches(s, s.tasks[t].at, o)
    requires TaskOk(s, u) && u in s.tasks && Relies(s, s.tasks[u].at, o)
    ensures t == u
  {
    Stakes(s, t, o);
    Stakes(s, u, o);
  }

  // ---------------------------------------------------------------- what a step leaves to the others

  ghost predicate PoolCalm(a: Pool, b: Pool, t: Tid, y: Option<Token>) {
    && a.grouped == b.grouped && (a.closed ==> b.closed)
    && (a.groupLock.Some? && a.groupLock != Some(t) ==> b.groupLock == a.groupLock)
    && (a.releaseLock.Some? && a.releaseLock != Some(t) ==> b.releaseLock == a.releaseLock)
    && (b.group == a.group || (b.group.None? && b.closed) || (a.grouped && a.groupLock == Some(t) && (b.closed || b.group == y)))
  }

  ghost predicate LoanCalm(s: World, next: World, t: Tid, x: Option<Token>, e: Env)
    requires e in next.g.loans
  {
    if e in s.g.loans then
      var a, b := s.g.loans[e], next.g.loans[e];
      && a.owner == b.owner && a.lentAt == b.lentAt && a.returned == b.returned
      && (a.exportedAt.Some? ==> b.exportedAt.Some?)
      && (a.open && !b.open ==> x == Some(a.owner) || LockedBy(s, t, a.owner))
    else next.g.loans[e].lentAt >= s.g.now
  }

  /** `t` holds the release lock of the owner's pool. */
  ghost predicate LockedBy(s: World, t: Tid, o: Token) {
    o in s.g.owners && s.g.owners[o].pool in s.pools && s.pools[s.g.owners[o].pool].releaseLock == Some(t)
  }

  /** The same record, but that an environment of the owner may have been returned. */
  predicate SameButLent(a: Owner, b: Owner, lent: bool) {
    b == a.(lent := b.lent) && (a.lent ==> b.lent) && (b.lent ==> a.lent || lent)
  }

  ghost predicate TasksCalm(s: World, next: World, t: Tid) {
    && (forall u :: u in s.tasks && u != t ==> u in next.tasks && next.tasks[u] == s.tasks[u])
    && (forall u :: u in next.tasks && u != t ==> u in s.tasks)
    && (t in next.tasks && InFlight(next.tasks[t].at) ==>
          next.tasks[t].pool in s.pools
          && (!s.pools[next.tasks[t].pool].closed || (t in s.tasks && s.tasks[t].pool == next.tasks[t].pool && InFlight(s.tasks[t].at))))
  }

  ghost predicate PoolsCalm(s: World, next: World, t: Tid, y: Option<Token>) {
    forall p :: p in s.pools ==> p in next.pools && PoolCalm(s.pools[p], next.pools[p], t, y)
  }

  ghost predicate OwnersCalm(g: Ledger, h: Ledger, x: Option<Token>, y: Option<Token>) {
    forall o :: o in g.owners ==> o in h.owners && h.owners[o].pool == g.owners[o].pool
                                  && (x != Some(o) ==> SameButLent(g.owners[o], h.owners[o], y == Some(o)))
  }

  ghost predicate LoansCalm(s: World, next: World, t: Tid, x: Option<Token>) {
    && (forall e :: e in s.g.loans ==> e in next.g.loans)
    && (forall e :: e in next.g.loans ==> LoanCalm(s, next, t, x, e))
  }

  /** A step of `t` that changes of the owners' records `x` alone, and returns an environment of `y`
      alone. */
  ghost predicate Calm(s: World, next: World, t: Tid, x: Option<Token>, y: Option<Token>) {
    TasksCalm(s, next, t) && PoolsCalm(s, next, t, y) && OwnersCalm(s.g, next.g, x, y) && LoansCalm(s, next, t, x)
  }

  lemma StaysDrained(s: World, next: World, t: Tid, x: Option<Token>, y: Option<Token>, p: Pid)
    requires Calm(s, next, t, x, y) && p in s.pools && s.pools[p].closed && NoneInFlight(s.tasks, p)
    ensures NoneInFlight(next.tasks, p)
  {
  }

  lemma StaysSweeping(s: World, next: World, t: Tid, x: Option<Token>, y: Option<Token>, u: Tid, p: Pid, rest: set<Token>)
    requires Calm(s, next, t, x, y) && u != t && p in s.pools && SweepOk(s, u, p, rest)
    requires x.Some? ==> x.value !in rest
    ensures SweepOk(next, u, p, rest)
  {
    StaysDrained(s, next, t, x, y, p);
  }

  lemma StaysReturned(s: World, next: World, t: Tid, x: Option<Token>, y: Option<Token>, u: Tid, p: Pid, e: Env)
    requires Calm(s, next, t, x, y) && u != t && p in s.pools && ReturnedOk(s, u, p, e)
    requires x != Some(s.g.loans[e].owner)
    ensures ReturnedOk(next, u, p, e)
  {
    assert LoanCalm(s, next, t, x, e);
  }

  lemma StaysInPhase(s: World, next: World, t: Tid, x: Option<Token>, y: Option<Token>, o: Token, phase: Phase)
    requires Calm(s, next, t, x, y) && o in s.g.owners && PhaseOk(s.g, o, phase) && x != Some(o)
    requires s.g.owners[o].snapAt <= s.g.now
    ensures PhaseOk(next.g, o, phase)
  {
    forall e | e in next.g.loans ensures LoanCalm(s, next, t, x, e) {}
  }

  lemma StaysOwn(s: World, next: World, t: Tid, x: Option<Token>, y: Option<Token>, u: Tid, p: Pid, o: Token)
    requires Calm(s, next, t, x, y) && u != t && p in s.pools && OwnOwner(s, u, p, o) && x != Some(o) && y != Some(o)
    requires s.pools[p].grouped ==> s.pools[p].groupLock == Some(u)
    ensures OwnOwner(next, u, p, o)
  {
    assert PoolCalm(s.pools[p], next.pools[p], t, y);
  }

  lemma StaysBuilding(s: World, next: World, t: Tid, x: Option<Token>, y: Option<Token>, u: Tid, p: Pid, at: At)
    requires Calm(s, next, t, x, y) && u != t && p in s.pools && AtOk(s, u, p, at) && at.Building?
    requires (x.Some? ==> !Relies(s, at, x.value)) && (y.Some? ==> !Keeps(at, y.value))
    ensures AtOk(next, u, p, at)
  {
    assert PoolCalm(s.pools[p], next.pools[p], t, y);
    if at.created { StaysOwn(s, next, t, x, y, u, p, at.token); }
  }

  lemma StaysCleaning(s: World, next: World, t: Tid, x: Option<Token>, y: Option<Token>, u: Tid, p: Pid, at: At)
    requires Calm(s, next, t, x, y) && u != t && p in s.pools && AtOk(s, u, p, at) && at.Cleaning?
    requires (x.Some? ==> !Relies(s, at, x.value)) && (y.Some? ==> !Keeps(at, y.value))
    requires InOrder(s.g)
    ensures AtOk(next, u, p, at)
  {
    assert PoolCalm(s.pools[p], next.pools[p], t, y);
    assert OwnerOk(s.g, at.token, s.g.owners[at.token]);
    StaysInPhase(s, next, t, x, y, at.token, at.phase);
    if at.after.Sweep? { StaysSweeping(s, next, t, x, y, u, p, at.after.rest); }
  }

  lemma OtherKeeps(s: World, next: World, t: Tid, x: Option<Token>, y: Option<Token>, u: Tid)
    requires InOrder(s.g) && TaskOk(s, u) && Calm(s, next, t, x, y) && u != t
    requires x.Some? && u in s.tasks ==> !Relies(s, s.tasks[u].at, x.value)
    requires y.Some? && u in s.tasks ==> !Keeps(s.tasks[u].at, y.value)
    ensures TaskOk(next, u)
  {
    if u in s.tasks {
      var p, at := s.tasks[u].pool, s.tasks[u].at;
      match at
      case Building(_, _) => StaysBuilding(s, next, t, x, y, u, p, at);
      case Cleaning(_, _, _) => StaysCleaning(s, next, t, x, y, u, p, at);
      case Raising(_, _) => assert PoolCalm(s.pools[p], next.pools[p], t, y);
      case Preparing(o) =>
        assert PoolCalm(s.pools[p], next.pools[p], t, y);
        StaysOwn(s, next, t, x, y, u, p, o);
      case Exports(e) => StaysReturned(s, next, t, x, y, u, p, e);
      case Closes(e) =>
        StaysReturned(s, next, t, x, y, u, p, e);
        assert LoanCalm(s, next, t, x, e);
      case Sweeping(todo) => StaysSweeping(s, next, t, x, y, u, p, todo);
      case _ => assert PoolCalm(s.pools[p], next.pools[p], t, y);
    }
  }

  // ---------------------------------------------------------------- putting a step together

  ghost predicate OthersOff(s: World, t: Tid, x: Option<Token>, y: Option<Token>) {
    forall u :: u in s.tasks && u != t ==>
      && (x.Some? ==> !Relies(s, s.tasks[u].at, x.value))
      && (y.Some? ==> !Keeps(s.tasks[u].at, y.value))
  }

  lemma TickKeeps(s: World)
    requires InOrder(Later(s.g)) && (forall t :: TaskOk(s, t)) && (forall p :: PoolOk(s, p))
    ensures Inv(Tick(s))
  {
    forall t ensures TaskOk(Tick(s), t) { assert TaskOk(s, t); }
    forall p ensures PoolOk(Tick(s), p) { assert PoolOk(s, p); }
  }

  lemma StepKeeps(s: World, next: World, t: Tid, x: Option<Token>, y: Option<Token>)
    requires Inv(s) && Calm(s, next, t, x, y) && OthersOff(s, t, x, y)
    requires InOrder(Later(next.g)) && TaskOk(next, t) && forall p :: PoolOk(next, p)
    ensures Inv(Tick(next))
  {
    forall u ensures TaskOk(next, u) {
      assert TaskOk(s, u);
      if u != t { OtherKeeps(s, next, t, x, y, u); }
    }
    TickKeeps(next);
  }

  lemma NothingKeeps(s: World)
    requires Inv(s)
    ensures Inv(Tick(s))
  {
    TimePasses(s.g);
    TickKeeps(s);
  }

  /** No owner changes but `x`, which `t` may touch. */
  lemma TouchedAlone(s: World, t: Tid, x: Token)
    requires Inv(s) && t in s.tasks && Touches(s, s.tasks[t].at, x)
    ensures OthersOff(s, t, Some(x), None)
  {
    forall u | u in s.tasks && u != t ensures !Relies(s, s.tasks[u].at, x) {
      if Relies(s, s.tasks[u].at, x) {
        assert TaskOk(s, t) && TaskOk(s, u);
        Alone(s, t, u, x);
      }
    }
  }

  /** The groups stay, or go with the closing of their pools. */
  ghost predicate GroupsStay(s: World, next: World, x: Option<Token>) {
    && next.pools.Keys == s.pools.Keys
    && (forall p :: p in s.pools ==>
          && (next.pools[p].group == s.pools[p].group || next.pools[p].group.None?)
          && (x.Some? && next.pools[p].group == x ==> next.pools[p].closed))
  }

  lemma PoolsStay(s: World, next: World, t: Tid, x: Option<Token>, y: Option<Token>)
    requires Inv(s) && Calm(s, next, t, x, y) && GroupsStay(s, next, x)
    ensures forall p :: PoolOk(next, p)
  {
    forall p ensures PoolOk(next, p) {
      assert PoolOk(s, p);
      if p in s.pools { assert PoolCalm(s.pools[p], next.pools[p], t, y); }
    }
  }

  /** The task that `t` becomes: of its pool, and in flight only if it was or the pool is open. */
  ghost predicate Becomes(s: World, next: World, t: Tid) {
    && t in next.tasks && next.tasks == s.tasks[t := next.tasks[t]] && next.tasks[t].pool in s.pools
    && (t in s.tasks ==> s.tasks[t].pool == next.tasks[t].pool)
    && (InFlight(next.tasks[t].at) ==> !s.pools[next.tasks[t].pool].closed || (t in s.tasks && InFlight(s.tasks[t].at)))
  }

  lemma SameLoansCalm(s: World, next: World, t: Tid)
    requires next.g == s.g && Becomes(s, next, t) && PoolsCalm(s, next, t, None)
    ensures Calm(s, next, t, None, None)
  {
    BecomesCalm(s, next, t);
  }

  lemma BecomesCalm(s: World, next: World, t: Tid)
    requires Becomes(s, next, t)
    ensures TasksCalm(s, next, t)
  {
  }

  /** A step that writes nothing in the books and sets no group. */
  lemma SameBooks(s: World, next: World, t: Tid)
    requires Inv(s) && next.g == s.g && Becomes(s, next, t) && PoolsCalm(s, next, t, None) && GroupsStay(s, next, None)
    requires TaskOk(next, t)
    ensures Inv(Tick(next))
  {
    SameLoansCalm(s, next, t);
    PoolsStay(s, next, t, None, None);
    TimePasses(s.g);
    StepKeeps(s, next, t, None, None);
  }

  lemma AcquireKeeps(s: World, t: Tid, p: Pid)
    requires Inv(s)
    ensures Inv(Tick(DoAcquire(s, t, p)))
  {
    if DoAcquire(s, t, p) == s { NothingKeeps(s); } else { SameBooks(s, DoAcquire(s, t, p), t); }
  }

  lemma EnterKeeps(s: World, t: Tid)
    requires Inv(s)
    ensures Inv(Tick(DoEnter(s, t)))
  {
    var next := DoEnter(s, t);
    if next == s {
      NothingKeeps(s);
    } else {
      assert TaskOk(s, t) && PoolOk(s, s.tasks[t].pool);
      SameBooks(s, next, t);
    }
  }

  lemma NoMachineKeeps(s: World, t: Tid)
    requires Inv(s)
    ensures Inv(Tick(DoNoMachine(s, t)))
  {
    var next := DoNoMachine(s, t);
    if next == s { NothingKeeps(s); } else { SameBooks(s, next, t); }
  }

  lemma PreparedKeeps(s: World, t: Tid)
    requires Inv(s)
    ensures Inv(Tick(DoPrepare(s, t, true)))
  {
    var next := DoPrepare(s, t, true);
    if next == s {
      NothingKeeps(s);
    } else {
      assert TaskOk(s, t);
      SameBooks(s, next, t);
    }
  }

  lemma ExportsDoneKeeps(s: World, t: Tid)
    requires Inv(s)
    ensures Inv(Tick(DoExportsDone(s, t)))
  {
    var next := DoExportsDone(s, t);
    if next == s {
      NothingKeeps(s);
    } else {
      assert TaskOk(s, t);
      NothingListed(s, t, next);
      SameBooks(s, next, t);
    }
  }

  lemma NothingListed(s: World, t: Tid, next: World)
    requires TaskOk(s, t) && Cleans(s, t) && s.tasks[t].at.phase == Exporting({}) && next == DoExportsDone(s, t)
    ensures TaskOk(next, t)
  {
    var after := s.tasks[t].at.after;
    if after.Sweep? { assert NoneInFlight(next.tasks, s.tasks[t].pool); }
  }

  /** A cleanup that ends with the books as they are. */
  lemma EndKeeps(s: World, t: Tid)
    requires Inv(s) && Cleans(s, t)
    ensures Inv(Tick(EndClean(s, t, s.tasks[t].pool, s.tasks[t].at.after)))
  {
    var p, after := s.tasks[t].pool, s.tasks[t].at.after;
    var next := EndClean(s, t, p, after);
    assert TaskOk(s, t);
    if after.Sweep? { assert NoneInFlight(next.tasks, p); }
    SameBooks(s, next, t);
  }

  lemma EnvFailsKeeps(s: World, t: Tid)
    requires Inv(s)
    ensures Inv(Tick(DoEnvFails(s, t)))
  {
    var next := DoEnvFails(s, t);
    if next == s { NothingKeeps(s); } else { SameBooks(s, next, t); }
  }

  lemma ReleaseEnvIsReady(s: World, t: Tid, p: Pid, env: Env)
    requires InOrder(s.g)
    ensures DoReleaseEnv(s, t, p, env) == s || TaskOk(DoReleaseEnv(s, t, p, env), t)
  {
    if env in s.g.loans { assert LoanOk(s.g, s.g.loans[env]); }
  }

  lemma ReleaseEnvKeeps(s: World, t: Tid, p: Pid, env: Env)
    requires Inv(s)
    ensures Inv(Tick(DoReleaseEnv(s, t, p, env)))
  {
    var next := DoReleaseEnv(s, t, p, env);
    ReleaseEnvIsReady(s, t, p, env);
    if next == s { NothingKeeps(s); } else { SameBooks(s, next, t); }
  }

  lemma ReleaseKeeps(s: World, t: Tid, p: Pid)
    requires Inv(s)
    ensures Inv(Tick(DoRelease(s, t, p)))
  {
    var next := DoRelease(s, t, p);
    if next == s { NothingKeeps(s); } else { SameBooks(s, next, t); }
  }

  lemma DrainedKeeps(s: World, t: Tid)
    requires Inv(s)
    ensures Inv(Tick(DoDrained(s, t)))
  {
    var next := DoDrained(s, t);
    if next == s {
      NothingKeeps(s);
    } else {
      assert TaskOk(s, t);
      assert NoneInFlight(next.tasks, s.tasks[t].pool);
      SameBooks(s, next, t);
    }
  }

  lemma SweepDoneKeeps(s: World, t: Tid)
    requires Inv(s)
    ensures Inv(Tick(DoSweepDone(s, t)))
  {
    var next := DoSweepDone(s, t);
    if next == s { NothingKeeps(s); } else { SameBooks(s, next, t); }
  }

  lemma BuildFailsKeeps(s: World, t: Tid)
    requires Inv(s)
    ensures Inv(Tick(DoBuildFails(s, t)))
  {
    var next := DoBuildFails(s, t);
    if next == s {
      NothingKeeps(s);
    } else {
      assert TaskOk(s, t);
      SameBooks(s, next, t);
    }
  }

  lemma CleanupFailsKeeps(s: World, t: Tid)
    requires Inv(s)
    ensures Inv(Tick(DoCleanupFails(s, t)))
  {
    if Cleans(s, t) { EndKeeps(s, t); } else { NothingKeeps(s); }
  }

  lemma ClaimIsReady(s: World, t: Tid, vm: Vm, token: Token)
    requires Inv(s) && DoClaim(s, t, vm, token) != s
    ensures TaskOk(DoClaim(s, t, vm, token), t)
    ensures IsNew(s.g, token, NewOwner(s.tasks[t].pool, t, vm, s.g.now))
  {
    assert TaskOk(s, t) && PoolOk(s, s.tasks[t].pool);
  }

  lemma ClaimIsCalm(s: World, t: Tid, p: Pid, o: Owner, token: Token, next: World)
    requires token !in s.g.owners && next == Put(s.(g := Claim(s.g, token, o)), t, p, Preparing(token)) && Becomes(s, next, t)
    ensures Calm(s, next, t, None, None)
  {
    BecomesCalm(s, next, t);
  }

  lemma ClaimStepKeeps(s: World, t: Tid, vm: Vm, token: Token)
    requires Inv(s)
    ensures Inv(Tick(DoClaim(s, t, vm, token)))
  {
    var next := DoClaim(s, t, vm, token);
    if next == s {
      NothingKeeps(s);
    } else {
      ClaimIsReady(s, t, vm, token);
      VmLeases.ClaimKeeps(s.g, token, NewOwner(s.tasks[t].pool, t, vm, s.g.now));
      ClaimIsCalm(s, t, s.tasks[t].pool, NewOwner(s.tasks[t].pool, t, vm, s.g.now), token, next);
      BooksStep(s, next, t);
    }
  }

  /** A step that writes in the books of no owner there was, and leaves the pools alone. */
  lemma BooksStep(s: World, next: World, t: Tid)
    requires Inv(s) && next.pools == s.pools && Calm(s, next, t, None, None)
    requires TaskOk(next, t) && InOrder(Later(next.g))
    ensures Inv(Tick(next))
  {
    PoolsStay(s, next, t, None, None);
    StepKeeps(s, next, t, None, None);
  }

  // ---------------------------------------------------------------- beginning a cleanup

  /** What the continuation of a cleanup of `o` needs. */
  ghost predicate MayClean(s: World, t: Tid, p: Pid, o: Token, after: After) {
    && t in s.tasks && s.tasks[t].pool == p && p in s.pools && PoolOwner(s, p, o)
    && Touches(s, s.tasks[t].at, o) && AfterOk(s, t, p, o, after) && (s.pools[p].group == Some(o) ==> s.pools[p].closed)
    && (after.Raise? ==> InFlight(s.tasks[t].at))
    && (s.g.owners[o].cleaned ==> s.g.owners[o].doomed)
  }

  lemma ListedPhase(g: Ledger, o: Token)
    requires InOrder(g) && Live(g, o) && !g.owners[o].cleaned
    ensures PhaseOk(Doom(g, o), o, Exporting(OpenLoans(g, o)))
  {
    forall e | e in g.loans && g.loans[e].owner == o
      ensures g.loans[e].lentAt < g.now && (g.loans[e].exportedAt.Some? || e in OpenLoans(g, o))
    {
      assert LoanOk(g, g.loans[e]);
    }
  }

  lemma StartsReady(s: World, t: Tid, p: Pid, o: Token, after: After)
    requires Inv(s) && MayClean(s, t, p, o, after)
    ensures TaskOk(StartClean(s, t, p, o, after), t)
  {
    var next := StartClean(s, t, p, o, after);
    if !s.g.owners[o].cleaned { ListedPhase(s.g, o); }
    if after.Sweep? { assert NoneInFlight(next.tasks, p); }
  }

  lemma DoomIsCalm(g: Ledger, o: Token)
    requires o in g.owners
    ensures OwnersCalm(g, Doom(g, o), Some(o), None)
  {
  }

  lemma StartsCalm(s: World, t: Tid, p: Pid, o: Token, after: After)
    requires MayClean(s, t, p, o, after)
    ensures Calm(s, StartClean(s, t, p, o, after), t, Some(o), None)
  {
    var next := StartClean(s, t, p, o, after);
    BecomesCalm(s, next, t);
    DoomIsCalm(s.g, o);
    assert next.g.loans == s.g.loans;
  }

  lemma StartCleanKeeps(s: World, t: Tid, p: Pid, o: Token, after: After)
    requires Inv(s) && MayClean(s, t, p, o, after)
    ensures Inv(Tick(StartClean(s, t, p, o, after)))
  {
    var next := StartClean(s, t, p, o, after);
    TouchedAlone(s, t, o);
    StartsReady(s, t, p, o, after);
    StartsCalm(s, t, p, o, after);
    GroupOfItsOwn(s, p, o);
    PoolsStay(s, next, t, Some(o), None);
    if s.g.owners[o].cleaned { TimePasses(s.g); } else { DoomKeeps(s.g, o); }
    StepKeeps(s, next, t, Some(o), None);
  }

  /** An owner is the group of its own pool, if of any. */
  lemma GroupOfItsOwn(s: World, p: Pid, o: Token)
    requires Inv(s) && PoolOwner(s, p, o)
    ensures forall q :: q in s.pools && s.pools[q].group == Some(o) ==> q == p
  {
    forall q | q in s.pools && s.pools[q].group == Some(o) ensures q == p { assert PoolOk(s, q); }
  }

  lemma PrepareFailsKeeps(s: World, t: Tid)
    requires Inv(s)
    ensures Inv(Tick(DoPrepare(s, t, false)))
  {
    if DoPrepare(s, t, false) == s {
      NothingKeeps(s);
    } else {
      assert TaskOk(s, t);
      assert OwnerOk(s.g, s.tasks[t].at.token, s.g.owners[s.tasks[t].at.token]);
      StartCleanKeeps(s, t, s.tasks[t].pool, s.tasks[t].at.token, Raise);
    }
  }

  lemma RaisesKeeps(s: World, t: Tid)
    requires Inv(s)
    ensures Inv(Tick(DoRaises(s, t)))
  {
    var next := DoRaises(s, t);
    if next == s {
      NothingKeeps(s);
    } else {
      assert TaskOk(s, t);
      if s.tasks[t].at.created {
        assert OwnerOk(s.g, s.tasks[t].at.token, s.g.owners[s.tasks[t].at.token]);
        StartCleanKeeps(s, t, s.tasks[t].pool, s.tasks[t].at.token, Raise);
      } else {
        SameBooks(s, next, t);
      }
    }
  }

  lemma DecidesKeeps(s: World, t: Tid)
    requires Inv(s)
    ensures Inv(Tick(DoDecides(s, t)))
  {
    var next := DoDecides(s, t);
    if next == s {
      NothingKeeps(s);
    } else {
      assert TaskOk(s, t);
      var p, o := s.tasks[t].pool, s.tasks[t].at.token;
      if s.pools[p].group != Some(o) && OpenLoans(s.g, o) == {} {
        assert OwnerOk(s.g, o, s.g.owners[o]);
        StartCleanKeeps(s, t, p, o, Finish);
      } else {
        SameBooks(s, next, t);
      }
    }
  }

  lemma SweepOneKeeps(s: World, t: Tid, o: Token)
    requires Inv(s)
    ensures Inv(Tick(DoSweepOne(s, t, o)))
  {
    if DoSweepOne(s, t, o) == s {
      NothingKeeps(s);
    } else {
      assert TaskOk(s, t);
      assert OwnerOk(s.g, o, s.g.owners[o]);
      StartCleanKeeps(s, t, s.tasks[t].pool, o, Sweep(s.tasks[t].at.todo - {o}));
    }
  }

  // ---------------------------------------------------------------- going on with a cleanup

  lemma LoanIsCalm(s: World, t: Tid, next: World, env: Env, l: Loan)
    requires env in s.g.loans && next.g == SetLoan(s.g, env, l) && next.pools == s.pools && Becomes(s, next, t)
    requires l == s.g.loans[env].(exportedAt := l.exportedAt, open := l.open)
    requires s.g.loans[env].exportedAt.Some? ==> l.exportedAt.Some?
    requires l.open == s.g.loans[env].open || LockedBy(s, t, l.owner)
    ensures Calm(s, next, t, None, None)
  {
    BecomesCalm(s, next, t);
  }

  lemma ExportIsCalm(s: World, t: Tid, next: World, env: Env)
    requires env in s.g.loans && next.g == Export(s.g, env) && next.pools == s.pools && Becomes(s, next, t)
    ensures Calm(s, next, t, None, None)
  {
    if s.g.loans[env].exportedAt.None? {
      LoanIsCalm(s, t, next, env, s.g.loans[env].(exportedAt := Some(s.g.now)));
    } else {
      SameLoansCalm(s, next, t);
    }
  }

  lemma ListedIsExportable(s: World, t: Tid, env: Env)
    requires Inv(s) && Cleans(s, t) && s.tasks[t].at.phase.Exporting? && env in s.tasks[t].at.phase.todo
    ensures Exportable(s.g, env)
  {
    assert TaskOk(s, t);
  }

  lemma ExportedPhase(g: Ledger, o: Token, todo: set<Env>, env: Env)
    requires o in g.owners && PhaseOk(g, o, Exporting(todo)) && env in todo
    ensures PhaseOk(Export(g, env), o, Exporting(todo - {env}))
  {
  }

  lemma ExportOneIsReady(s: World, t: Tid, env: Env)
    requires Inv(s) && DoExportOne(s, t, env) != s
    ensures TaskOk(DoExportOne(s, t, env), t)
  {
    assert TaskOk(s, t);
    var next := DoExportOne(s, t, env);
    ExportedPhase(s.g, s.tasks[t].at.token, s.tasks[t].at.phase.todo, env);
    if s.tasks[t].at.after.Sweep? { assert NoneInFlight(next.tasks, s.tasks[t].pool); }
  }

  lemma ExportOneKeeps(s: World, t: Tid, env: Env)
    requires Inv(s)
    ensures Inv(Tick(DoExportOne(s, t, env)))
  {
    var next := DoExportOne(s, t, env);
    if next == s {
      NothingKeeps(s);
    } else {
      ListedIsExportable(s, t, env);
      ExportKeeps(s.g, env);
      ExportOneIsReady(s, t, env);
      ExportIsCalm(s, t, next, env);
      BooksStep(s, next, t);
    }
  }

  lemma ReturnedIsExportable(s: World, t: Tid)
    requires Inv(s) && t in s.tasks && s.tasks[t].at.Exports?
    ensures s.tasks[t].at.env in s.g.loans && Exportable(s.g, s.tasks[t].at.env)
  {
    assert TaskOk(s, t);
    assert LoanOk(s.g, s.g.loans[s.tasks[t].at.env]);
  }

  lemma EnvExportedIsReady(s: World, t: Tid)
    requires TaskOk(s, t) && DoEnvExported(s, t) != s
    ensures TaskOk(DoEnvExported(s, t), t)
  {
  }

  lemma EnvExportedKeeps(s: World, t: Tid)
    requires Inv(s)
    ensures Inv(Tick(DoEnvExported(s, t)))
  {
    var next := DoEnvExported(s, t);
    if next == s {
      NothingKeeps(s);
    } else {
      assert TaskOk(s, t);
      ReturnedIsExportable(s, t);
      ExportKeeps(s.g, s.tasks[t].at.env);
      EnvExportedIsReady(s, t);
      ExportIsCalm(s, t, next, s.tasks[t].at.env);
      BooksStep(s, next, t);
    }
  }

  lemma EnvClosedIsReady(s: World, t: Tid)
    requires TaskOk(s, t) && DoEnvClosed(s, t) != s
    ensures TaskOk(DoEnvClosed(s, t), t) && s.g.loans[s.tasks[t].at.env].exportedAt.Some?
    ensures LockedBy(s, t, s.g.loans[s.tasks[t].at.env].owner) && Becomes(s, DoEnvClosed(s, t), t)
  {
  }

  lemma EnvClosedKeeps(s: World, t: Tid)
    requires Inv(s)
    ensures Inv(Tick(DoEnvClosed(s, t)))
  {
    var next := DoEnvClosed(s, t);
    if next == s {
      NothingKeeps(s);
    } else {
      assert TaskOk(s, t);
      var env := s.tasks[t].at.env;
      EnvClosedIsReady(s, t);
      GiveBackKeeps(s.g, env);
      LoanIsCalm(s, t, next, env, s.g.loans[env].(open := false));
      BooksStep(s, next, t);
    }
  }

  // ---------------------------------------------------------------- the cleaned owner

  /** A group's owner is cleaned up only once the pool is closed. */
  lemma DoomedIsClosed(s: World, t: Tid)
    requires Inv(s) && Cleans(s, t)
    ensures forall q :: q in s.pools && s.pools[q].group == Some(s.tasks[t].at.token) ==> s.pools[q].closed
  {
    assert TaskOk(s, t);
    forall q | q in s.pools && s.pools[q].group == Some(s.tasks[t].at.token) ensures s.pools[q].closed { assert PoolOk(s, q); }
  }

  /** A step of a cleanup that writes in the books of its owner. */
  lemma OwnerStep(s: World, next: World, t: Tid)
    requires Inv(s) && Cleans(s, t) && Becomes(s, next, t) && TaskOk(next, t) && InOrder(Later(next.g))
    requires PoolsCalm(s, next, t, None) && GroupsStay(s, next, None)
    requires OwnersCalm(s.g, next.g, Some(s.tasks[t].at.token), None) && LoansCalm(s, next, t, Some(s.tasks[t].at.token))
    ensures Inv(Tick(next))
  {
    var o := s.tasks[t].at.token;
    BecomesCalm(s, next, t);
    DoomedIsClosed(s, t);
    assert forall q :: q in s.pools ==> PoolCalm(s.pools[q], next.pools[q], t, None);
    assert GroupsStay(s, next, Some(o));
    PoolsStay(s, next, t, Some(o), None);
    TouchedAlone(s, t, o);
    StepKeeps(s, next, t, Some(o), None);
  }

  lemma SameLoans(s: World, next: World, t: Tid, x: Option<Token>)
    requires next.g.loans == s.g.loans
    ensures LoansCalm(s, next, t, x)
  {
  }

  lemma TidiedIsReady(s: World, t: Tid)
    requires TaskOk(s, t) && DoTidied(s, t) != s
    ensures TaskOk(DoTidied(s, t), t) && Live(s.g, s.tasks[t].at.token)
    ensures s.g.owners[s.tasks[t].at.token].doomed && AllExported(s.g, s.tasks[t].at.token)
  {
    if s.tasks[t].at.after.Sweep? { assert NoneInFlight(DoTidied(s, t).tasks, s.tasks[t].pool); }
  }

  lemma TidiedKeeps(s: World, t: Tid)
    requires Inv(s)
    ensures Inv(Tick(DoTidied(s, t)))
  {
    var next := DoTidied(s, t);
    if next == s {
      NothingKeeps(s);
    } else {
      assert TaskOk(s, t);
      TidiedIsReady(s, t);
      CleanKeeps(s.g, s.tasks[t].at.token);
      SameLoans(s, next, t, Some(s.tasks[t].at.token));
      OwnerStep(s, next, t);
    }
  }

  /** What resetting leaves of an owner's record. */
  predicate SameButReset(a: Owner, b: Owner) {
    b == a.(step := b.step, operation := b.operation, resetAt := b.resetAt, wipeAt := b.wipeAt)
  }

  lemma ResetRewrites(g: Ledger, o: Token, outcome: Option<Outcome>) returns (r: Owner)
    requires o in g.owners
    ensures SameButReset(g.owners[o], r) && Reset(g, o, outcome) == SetOwner(g, o, r)
  {
    var was := g.owners[o];
    assert g.owners[o := was] == g.owners;
    r := Reset(g, o, outcome).owners[o];
  }

  lemma ResetIsCalm(g: Ledger, o: Token, outcome: Option<Outcome>)
    requires o in g.owners
    ensures OwnersCalm(g, Reset(g, o, outcome), Some(o), None)
    ensures Reset(g, o, outcome).loans == g.loans && SameButReset(g.owners[o], Reset(g, o, outcome).owners[o])
  {
    var r := ResetRewrites(g, o, outcome);
  }

  /** The cleanup goes on with other books for its owner, or ends. */
  lemma ResetIsReady(s: World, t: Tid, outcome: Option<Outcome>)
    requires TaskOk(s, t) && Cleans(s, t) && s.tasks[t].at.phase.Resetting?
    ensures TaskOk(s.(g := Reset(s.g, s.tasks[t].at.token, outcome)), t)
  {
    ResetIsCalm(s.g, s.tasks[t].at.token, outcome);
  }

  lemma EndIsReady(s: World, t: Tid)
    requires TaskOk(s, t) && Cleans(s, t)
    ensures TaskOk(EndClean(s, t, s.tasks[t].pool, s.tasks[t].at.after), t)
    ensures Becomes(s, EndClean(s, t, s.tasks[t].pool, s.tasks[t].at.after), t)
  {
    var p, after := s.tasks[t].pool, s.tasks[t].at.after;
    if after.Sweep? { assert NoneInFlight(EndClean(s, t, p, after).tasks, p); }
  }

  lemma ResetStays(s: World, t: Tid, outcome: Option<Outcome>)
    requires Inv(s) && Cleans(s, t) && s.tasks[t].at.phase.Resetting?
    ensures Inv(Tick(s.(g := Reset(s.g, s.tasks[t].at.token, outcome))))
  {
    var o := s.tasks[t].at.token;
    var next := s.(g := Reset(s.g, o, outcome));
    assert TaskOk(s, t);
    ResetIsReady(s, t, outcome);
    ResetIsCalm(s.g, o, outcome);
    ResetKeeps(s.g, o, outcome);
    SameLoans(s, next, t, Some(o));
    assert s.tasks[t := s.tasks[t]] == s.tasks;
    OwnerStep(s, next, t);
  }

  lemma ResetEndIsReady(s: World, t: Tid, outcome: Option<Outcome>, next: World)
    requires TaskOk(s, t) && Cleans(s, t) && s.tasks[t].at.phase.Resetting?
    requires next == EndClean(s.(g := Reset(s.g, s.tasks[t].at.token, outcome)), t, s.tasks[t].pool, s.tasks[t].at.after)
    ensures TaskOk(next, t) && Becomes(s, next, t)
  {
    var mid := s.(g := Reset(s.g, s.tasks[t].at.token, outcome));
    ResetIsReady(s, t, outcome);
    ResetIsCalm(s.g, s.tasks[t].at.token, outcome);
    EndIsReady(mid, t);
  }

  lemma ResetEnds(s: World, t: Tid, outcome: Option<Outcome>)
    requires Inv(s) && Cleans(s, t) && s.tasks[t].at.phase.Resetting?
    ensures Inv(Tick(EndClean(s.(g := Reset(s.g, s.tasks[t].at.token, outcome)), t, s.tasks[t].pool, s.tasks[t].at.after)))
  {
    var o := s.tasks[t].at.token;
    var next := EndClean(s.(g := Reset(s.g, o, outcome)), t, s.tasks[t].pool, s.tasks[t].at.after);
    assert TaskOk(s, t);
    ResetEndIsReady(s, t, outcome, next);
    ResetIsCalm(s.g, o, outcome);
    ResetKeeps(s.g, o, outcome);
    SameLoans(s, next, t, Some(o));
    OwnerStep(s, next, t);
  }

  lemma ResetStepKeeps(s: World, t: Tid, outcome: Option<Outcome>)
    requires Inv(s)
    ensures Inv(Tick(DoReset(s, t, outcome)))
  {
    if !Cleans(s, t) || !s.tasks[t].at.phase.Resetting? {
      NothingKeeps(s);
    } else if outcome.None? || outcome.value == Returned(0, true) {
      ResetStays(s, t, outcome);
    } else {
      ResetEnds(s, t, outcome);
    }
  }

  lemma FreeIsCalm(s: World, t: Tid, o: Token, next: World)
    requires o in s.g.owners && next.g == Free(s.g, o)
    ensures OwnersCalm(s.g, next.g, Some(o), None) && LoansCalm(s, next, t, Some(o))
  {
  }

  lemma FreeIsReady(s: World, t: Tid)
    requires TaskOk(s, t) && DoFree(s, t) != s
    ensures TaskOk(DoFree(s, t), t) && Becomes(s, DoFree(s, t), t)
  {
    var p, after := s.tasks[t].pool, s.tasks[t].at.after;
    if after.Sweep? { assert NoneInFlight(DoFree(s, t).tasks, p); }
  }

  lemma LeavesGroup(a: Pool, b: Pool, t: Tid, o: Token)
    requires a.group == Some(o) ==> a.closed
    requires || b == a.(group := if a.group == Some(o) then None else a.group)
             || b == a.(group := if a.group == Some(o) then None else a.group,
                        groupLock := Without(a.groupLock, t), releaseLock := Without(a.releaseLock, t))
    ensures PoolCalm(a, b, t, None) && (b.group == a.group || b.group.None?)
  {
  }

  lemma FreeLeavesPools(s: World, t: Tid)
    requires DoFree(s, t) != s
    ensures Cleans(s, t) && DoFree(s, t).pools.Keys == s.pools.Keys
    ensures forall q :: q in s.pools && q != s.tasks[t].pool ==> DoFree(s, t).pools[q] == s.pools[q]
    ensures var a, b, o := s.pools[s.tasks[t].pool], DoFree(s, t).pools[s.tasks[t].pool], s.tasks[t].at.token;
            || b == a.(group := if a.group == Some(o) then None else a.group)
            || b == a.(group := if a.group == Some(o) then None else a.group,
                       groupLock := Without(a.groupLock, t), releaseLock := Without(a.releaseLock, t))
  {
  }

  lemma FreePools(s: World, t: Tid)
    requires Inv(s) && DoFree(s, t) != s
    ensures PoolsCalm(s, DoFree(s, t), t, None) && GroupsStay(s, DoFree(s, t), None)
  {
    FreeLeavesPools(s, t);
    DoomedIsClosed(s, t);
    FreedGroups(s, t, DoFree(s, t).pools, s.tasks[t].at.token);
  }

  lemma FreedGroups(s: World, t: Tid, pools: map<Pid, Pool>, o: Token)
    requires t in s.tasks && s.tasks[t].pool in s.pools && pools.Keys == s.pools.Keys
    requires forall q :: q in s.pools && q != s.tasks[t].pool ==> pools[q] == s.pools[q]
    requires s.pools[s.tasks[t].pool].group == Some(o) ==> s.pools[s.tasks[t].pool].closed
    requires var a, b := s.pools[s.tasks[t].pool], pools[s.tasks[t].pool];
             || b == a.(group := if a.group == Some(o) then None else a.group)
             || b == a.(group := if a.group == Some(o) then None else a.group,
                        groupLock := Without(a.groupLock, t), releaseLock := Without(a.releaseLock, t))
    ensures forall q :: q in s.pools ==> PoolCalm(s.pools[q], pools[q], t, None) && (pools[q].group == s.pools[q].group || pools[q].group.None?)
  {
    var p := s.tasks[t].pool;
    LeavesGroup(s.pools[p], pools[p], t, o);
  }

  lemma FreeStepKeeps(s: World, t: Tid)
    requires Inv(s)
    ensures Inv(Tick(DoFree(s, t)))
  {
    var next := DoFree(s, t);
    if next == s {
      NothingKeeps(s);
    } else {
      assert TaskOk(s, t);
      var o := s.tasks[t].at.token;
      FreeKeeps(s.g, o);
      FreeIsCalm(s, t, o, next);
      FreeIsReady(s, t);
      FreePools(s, t);
      OwnerStep(s, next, t);
    }
  }

  // ---------------------------------------------------------------- an environment built

  lemma BuilderIsSafe(s: World, t: Tid)
    requires Inv(s) && t in s.tasks && s.tasks[t].at.Building?
    ensures var p, o := s.tasks[t].pool, s.tasks[t].at.token;
            && p in s.pools && o in s.g.owners && s.g.owners[o].pool == p
            && (!s.pools[p].closed ==> Live(s.g, o) && !s.g.owners[o].doomed && OthersOff(s, t, None, Some(o)))
  {
    assert TaskOk(s, t) && PoolOk(s, s.tasks[t].pool);
    var p, o := s.tasks[t].pool, s.tasks[t].at.token;
    if !s.pools[p].closed {
      forall u | u in s.tasks && u != t ensures !Keeps(s.tasks[u].at, o) {
        assert TaskOk(s, u);
        if s.tasks[t].at.created && Relies(s, s.tasks[u].at, o) { Alone(s, t, u, o); }
      }
    }
  }

  lemma RecordIsCalm(s: World, t: Tid, o: Token, env: Env, returned: bool, next: World)
    requires o in s.g.owners && env !in s.g.loans && next.g == Record(s.g, env, o, returned)
    ensures OwnersCalm(s.g, next.g, None, if returned then Some(o) else None) && LoansCalm(s, next, t, None)
  {
  }

  lemma BuiltIsReady(s: World, t: Tid, env: Env)
    requires TaskOk(s, t) && DoBuilt(s, t, env) != s
    ensures TaskOk(DoBuilt(s, t, env), t) && Becomes(s, DoBuilt(s, t, env), t)
  {
  }

  lemma BuiltPools(s: World, t: Tid, env: Env)
    requires Inv(s) && DoBuilt(s, t, env) != s
    ensures var p, o := s.tasks[t].pool, s.tasks[t].at.token;
            PoolsCalm(s, DoBuilt(s, t, env), t, if s.pools[p].closed then None else Some(o))
  {
    assert TaskOk(s, t);
  }

  lemma BuiltGroups(s: World, t: Tid, env: Env)
    requires Inv(s) && DoBuilt(s, t, env) != s
    ensures forall q :: PoolOk(DoBuilt(s, t, env), q)
  {
    var next := DoBuilt(s, t, env);
    assert TaskOk(s, t);
    BuilderIsSafe(s, t);
    forall q ensures PoolOk(next, q) { assert PoolOk(s, q); }
  }

  lemma BuiltKeeps(s: World, t: Tid, env: Env)
    requires Inv(s)
    ensures Inv(Tick(DoBuilt(s, t, env)))
  {
    var next := DoBuilt(s, t, env);
    if next == s {
      NothingKeeps(s);
    } else {
      var p, o := s.tasks[t].pool, s.tasks[t].at.token;
      var returned := !s.pools[p].closed;
      var y := if returned then Some(o) else None;
      BuilderIsSafe(s, t);
      RecordKeeps(s.g, env, o, returned);
      RecordIsCalm(s, t, o, env, returned, next);
      assert TaskOk(s, t);
      BuiltIsReady(s, t, env);
      BuiltPools(s, t, env);
      BuiltGroups(s, t, env);
      BecomesCalm(s, next, t);
      StepKeeps(s, next, t, None, y);
    }
  }

  // ---------------------------------------------------------------- every run

  lemma AcquireStepKeeps(s: World, m: Move)
    requires Inv(s)
    requires match m.act case Acquire(_) => true case Enter => true case ClaimVm(_, _) => true case NoMachine => true
             case Prepared => true case PrepareFails => true case Built(_) => true case BuildFails => true
             case Raises => true case _ => false
    ensures Inv(Step(s, m))
  {
    match m.act
    case Acquire(p) => AcquireKeeps(s, m.t, p);
    case Enter => EnterKeeps(s, m.t);
    case ClaimVm(vm, token) => ClaimStepKeeps(s, m.t, vm, token);
    case NoMachine => NoMachineKeeps(s, m.t);
    case Prepared => PreparedKeeps(s, m.t);
    case PrepareFails => PrepareFailsKeeps(s, m.t);
    case Built(env) => BuiltKeeps(s, m.t, env);
    case BuildFails => BuildFailsKeeps(s, m.t);
    case Raises => RaisesKeeps(s, m.t);
  }

  lemma CleanupStepKeeps(s: World, m: Move)
    requires Inv(s)
    requires match m.act case ExportOne(_) => true case ExportsDone => true case Tidied => true case Resets(_) => true
             case Frees => true case CleanupFails => true case _ => false
    ensures Inv(Step(s, m))
  {
    match m.act
    case ExportOne(env) => ExportOneKeeps(s, m.t, env);
    case ExportsDone => ExportsDoneKeeps(s, m.t);
    case Tidied => TidiedKeeps(s, m.t);
    case Resets(outcome) => ResetStepKeeps(s, m.t, outcome);
    case Frees => FreeStepKeeps(s, m.t);
    case CleanupFails => CleanupFailsKeeps(s, m.t);
  }

  lemma ReleaseStepKeeps(s: World, m: Move)
    requires Inv(s)
    requires match m.act case ReleaseEnv(_, _) => true case EnvExported => true case EnvFails => true case EnvClosed => true
             case Decides => true case Release(_) => true case Drained => true case SweepOne(_) => true
             case SweepDone => true case _ => false
    ensures Inv(Step(s, m))
  {
    match m.act
    case ReleaseEnv(p, env) => ReleaseEnvKeeps(s, m.t, p, env);
    case EnvExported => EnvExportedKeeps(s, m.t);
    case EnvFails => EnvFailsKeeps(s, m.t);
    case EnvClosed => EnvClosedKeeps(s, m.t);
    case Decides => DecidesKeeps(s, m.t);
    case Release(p) => ReleaseKeeps(s, m.t, p);
    case Drained => DrainedKeeps(s, m.t);
    case SweepOne(token) => SweepOneKeeps(s, m.t, token);
    case SweepDone => SweepDoneKeeps(s, m.t);
  }

  lemma StepKeepsInv(s: World, m: Move)
    requires Inv(s)
    ensures Inv(Step(s, m))
  {
    match m.act
    case ExportOne(_) => CleanupStepKeeps(s, m);
    case ExportsDone => CleanupStepKeeps(s, m);
    case Tidied => CleanupStepKeeps(s, m);
    case Resets(_) => CleanupStepKeeps(s, m);
    case Frees => CleanupStepKeeps(s, m);
    case CleanupFails => CleanupStepKeeps(s, m);
    case ReleaseEnv(_, _) => ReleaseStepKeeps(s, m);
    case EnvExported => ReleaseStepKeeps(s, m);
    case EnvFails => ReleaseStepKeeps(s, m);
    case EnvClosed => ReleaseStepKeeps(s, m);
    case Decides => ReleaseStepKeeps(s, m);
    case Release(_) => ReleaseStepKeeps(s, m);
    case Drained => ReleaseStepKeeps(s, m);
    case SweepOne(_) => ReleaseStepKeeps(s, m);
    case SweepDone => ReleaseStepKeeps(s, m);
    case _ => AcquireStepKeeps(s, m);
  }

  lemma OpenInv(scopes: map<Pid, bool>)
    ensures Inv(Open(scopes))
  {
  }

  lemma {:induction false} RunKeepsInv(s: World, moves: seq<Move>)
    requires Inv(s)
    ensures Inv(Run(s, moves))
    decreases |moves|
  {
    if moves != [] {
      StepKeepsInv(s, moves[0]);
      RunKeepsInv(Step(s, moves[0]), moves[1..]);
    }
  }

  // ---------------------------------------------------------------- what is promised

  /** In every run of any pools over one lease table: a machine has at most one owner at a time. */
  lemma OneOwnerPerMachine(scopes: map<Pid, bool>, moves: seq<Move>, t: Token, u: Token)
    ensures var g := Run(Open(scopes), moves).g;
            Live(g, t) && Live(g, u) && g.owners[t].vm == g.owners[u].vm ==>
              t == u && g.owners[t].vm in g.rows && g.rows[g.owners[t].vm] == t
  {
    OpenInv(scopes);
    RunKeepsInv(Open(scopes), moves);
    var g := Run(Open(scopes), moves).g;
    if Live(g, t) && Live(g, u) && g.owners[t].vm == g.owners[u].vm { OneOwner(g, t, u); }
  }

  /** Between two owners of a machine the reset and then the wipe completed with status 0. Every
      environment that had been returned was exported before the reset; one that was merely recorded
      was exported then exactly if it was recorded before the cleanup listed what to export. */
  lemma ResetBetweenOwners(scopes: map<Pid, bool>, moves: seq<Move>, t: Token, u: Token, e: Env)
    ensures var g := Run(Open(scopes), moves).g;
            t in g.owners && u in g.owners && t != u && g.owners[t].vm == g.owners[u].vm
            && g.owners[t].claimAt <= g.owners[u].claimAt ==>
              var o := g.owners[t];
              && o.step == 2 && o.claimAt < o.snapAt < o.resetAt < o.wipeAt < g.owners[u].claimAt
              && (e in g.loans && g.loans[e].owner == t ==>
                    var l := g.loans[e];
                    && (l.returned ==> l.exportedAt.Some?)
                    && (l.exportedAt.Some? <==> l.lentAt < o.snapAt)
                    && (l.exportedAt.Some? ==> l.lentAt < l.exportedAt.value < o.resetAt))
  {
    OpenInv(scopes);
    RunKeepsInv(Open(scopes), moves);
    var g := Run(Open(scopes), moves).g;
    if t in g.owners && u in g.owners && t != u && g.owners[t].vm == g.owners[u].vm && g.owners[t].claimAt <= g.owners[u].claimAt {
      EarlierOwner(g, t, u, e);
    }
  }

  /** Of two calls at most one is ever cleaning up an owner. */
  lemma OneCleanupAtATime(scopes: map<Pid, bool>, moves: seq<Move>, t: Tid, u: Tid)
    ensures var s := Run(Open(scopes), moves);
            Cleans(s, t) && Cleans(s, u) && s.tasks[t].at.token == s.tasks[u].at.token ==> t == u
  {
    OpenInv(scopes);
    RunKeepsInv(Open(scopes), moves);
    var s := Run(Open(scopes), moves);
    if Cleans(s, t) && Cleans(s, u) && s.tasks[t].at.token == s.tasks[u].at.token {
      assert TaskOk(s, t) && TaskOk(s, u);
      Alone(s, t, u, s.tasks[t].at.token);
    }
  }

  /** The step of an owner's reset, where it moved, moved by this call and outcome alone. */
  predicate Advances(s: World, m: Move, next: World) {
    forall o :: o in s.g.owners ==>
      && o in next.g.owners
      && (next.g.owners[o].step != s.g.owners[o].step ==>
            m.act == Resets(Some(Returned(0, true))) && Cleans(s, m.t) && s.tasks[m.t].at.token == o)
  }

  lemma StartAdvances(s: World, m: Move, p: Pid, token: Token, after: After)
    requires token in s.g.owners
    ensures Advances(s, m, StartClean(s, m.t, p, token, after))
  {
  }

  lemma ResetStep(g: Ledger, o: Token, outcome: Option<Outcome>)
    requires o in g.owners && outcome != Some(Returned(0, true))
    ensures o in Reset(g, o, outcome).owners && Reset(g, o, outcome).owners[o].step == g.owners[o].step
  {
  }

  lemma ResetOthers(g: Ledger, o: Token, outcome: Option<Outcome>, u: Token)
    requires o in g.owners && u in g.owners && u != o
    ensures u in Reset(g, o, outcome).owners && Reset(g, o, outcome).owners[u] == g.owners[u]
  {
  }

  lemma ResetAdvances(s: World, m: Move, outcome: Option<Outcome>)
    requires m.act == Resets(outcome)
    ensures Advances(s, m, DoReset(s, m.t, outcome))
  {
    var next := DoReset(s, m.t, outcome);
    if Cleans(s, m.t) && s.tasks[m.t].at.phase.Resetting? {
      var o := s.tasks[m.t].at.token;
      assert next.g == Reset(s.g, o, outcome);
      forall u | u in s.g.owners && u != o ensures u in next.g.owners && next.g.owners[u] == s.g.owners[u] {
        ResetOthers(s.g, o, outcome, u);
      }
      if outcome != Some(Returned(0, true)) { ResetStep(s.g, o, outcome); }
    }
  }

  /** No step but a cleanup's awaiting of a complete status 0 moves its owner through its reset. */
  lemma NothingElseAdvances(s: World, m: Move)
    ensures Advances(s, m, Do(s, m))
  {
    match m.act
    case Resets(outcome) => ResetAdvances(s, m, outcome);
    case Acquire(_) => AcquireAdvances(s, m);
    case Enter => AcquireAdvances(s, m);
    case ClaimVm(_, _) => AcquireAdvances(s, m);
    case NoMachine => AcquireAdvances(s, m);
    case Prepared => StartingAdvances(s, m);
    case PrepareFails => StartingAdvances(s, m);
    case Built(_) => AcquireAdvances(s, m);
    case BuildFails => AcquireAdvances(s, m);
    case Raises => StartingAdvances(s, m);
    case Decides => StartingAdvances(s, m);
    case SweepOne(_) => StartingAdvances(s, m);
    case Frees => CleanupAdvances(s, m);
    case ExportOne(_) => CleanupAdvances(s, m);
    case ExportsDone => CleanupAdvances(s, m);
    case Tidied => CleanupAdvances(s, m);
    case CleanupFails => CleanupAdvances(s, m);
    case _ => ReleaseAdvances(s, m);
  }

  lemma StartingAdvances(s: World, m: Move)
    requires m.act.Prepared? || m.act.PrepareFails? || m.act.Raises? || m.act.Decides? || m.act.SweepOne?
    ensures Advances(s, m, Do(s, m))
  {
    if Do(s, m) != s {
      var p, at := s.tasks[m.t].pool, s.tasks[m.t].at;
      match m.act
      case PrepareFails => StartAdvances(s, m, p, at.token, Raise);
      case Raises => StartAdvances(s, m, p, at.token, Raise);
      case Decides => StartAdvances(s, m, p, at.token, Finish);
      case SweepOne(o) => StartAdvances(s, m, p, o, Sweep(at.todo - {o}));
      case _ =>
    }
  }

  lemma AcquireAdvances(s: World, m: Move)
    requires m.act.Acquire? || m.act.Enter? || m.act.ClaimVm? || m.act.NoMachine? || m.act.Built? || m.act.BuildFails?
    ensures Advances(s, m, Do(s, m))
  {
  }

  lemma CleanupAdvances(s: World, m: Move)
    requires m.act.ExportOne? || m.act.ExportsDone? || m.act.Tidied? || m.act.Frees? || m.act.CleanupFails?
    ensures Advances(s, m, Do(s, m))
  {
  }

  lemma ReleaseAdvances(s: World, m: Move)
    requires m.act.ReleaseEnv? || m.act.EnvExported? || m.act.EnvFails? || m.act.EnvClosed?
             || m.act.Release? || m.act.Drained? || m.act.SweepDone?
    ensures Advances(s, m, Do(s, m))
  {
  }

  /** Nothing is returned of an owner whose cleanup has begun. */
  lemma NothingReturnedOfADoomedOwner(scopes: map<Pid, bool>, moves: seq<Move>, t: Tid, env: Env)
    ensures var s := Run(Open(scopes), moves);
            t in s.tasks && s.tasks[t].at.Building? && DoBuilt(s, t, env) != s && DoBuilt(s, t, env).g.loans[env].returned ==>
              s.tasks[t].at.token in s.g.owners && !s.g.owners[s.tasks[t].at.token].doomed
  {
    OpenInv(scopes);
    RunKeepsInv(Open(scopes), moves);
    var s := Run(Open(scopes), moves);
    if t in s.tasks && s.tasks[t].at.Building? { BuilderIsSafe(s, t); }
  }

  /** The only way to record an environment of an owner whose cleanup has begun: an acquire that found
      it as the group's owner, in a pool that has been closed since; and so it is not returned. */
  lemma LateRecordsAreClosedGroups(s: World, t: Tid)
    requires Inv(s) && t in s.tasks && s.tasks[t].at.Building?
    requires s.tasks[t].at.token in s.g.owners && s.g.owners[s.tasks[t].at.token].doomed
    ensures s.tasks[t].pool in s.pools && !s.tasks[t].at.created
    ensures s.pools[s.tasks[t].pool].grouped && s.pools[s.tasks[t].pool].closed
  {
    assert TaskOk(s, t);
    BuilderIsSafe(s, t);
  }

  // ---------------------------------------------------------------- recorded and not exported

  const Scopes: map<Pid, bool> := map[0 := true]

  ghost predicate Reachable(s: World) {
    exists moves :: s == Run(Open(Scopes), moves)
  }

  lemma {:induction false} RunConcat(s: World, a: seq<Move>, b: seq<Move>)
    ensures Run(s, a + b) == Run(Run(s, a), b)
    decreases |a|
  {
    if a == [] {
      assert a + b == b;
    } else {
      assert (a + b)[1..] == a[1..] + b;
      RunConcat(Step(s, a[0]), a[1..], b);
    }
  }

  lemma Reach(s: World, t: Tid, act: Act) returns (next: World)
    requires Reachable(s)
    ensures next == Step(s, Move(t, act)) && Reachable(next)
  {
    next := Step(s, Move(t, act));
    var moves :| s == Run(Open(Scopes), moves);
    RunConcat(Open(Scopes), moves, [Move(t, act)]);
    var last := [Move(t, act)];
    assert last[1..] == [];
    assert next == Run(Open(Scopes), moves + last);
  }

  /** A world of one group's pool and three calls: two acquires and a release. */
  function Group(g: Ledger, closed: bool, lock: Option<Tid>, group: Option<Token>, a: At, b: At): World {
    World(g, map[0 := Pool(true, closed, lock, group, None)],
          if closed then map[1 := Task(0, a), 2 := Task(0, b), 3 := Task(0, Draining)] else map[1 := Task(0, a), 2 := Task(0, b)])
  }

  lemma Reaches(s: World, t: Tid, act: Act, next: World)
    requires Reachable(s) && Tick(Do(s, Move(t, act))) == next
    ensures Reachable(next)
  {
    var reached := Reach(s, t, act);
  }

  lemma OneArrives()
    ensures Reachable(World(Ledger(1, map[], map[], map[]), map[0 := Pool(true, false, None, None, None)], map[1 := Task(0, Arriving)]))
  {
    var s := Open(Scopes);
    assert s == Run(s, []);
    assert s.pools == map[0 := Pool(true, false, None, None, None)];
    Reaches(s, 1, Acquire(0), World(Ledger(1, map[], map[], map[]), s.pools, map[1 := Task(0, Arriving)]));
  }

  lemma BothArrive()
    ensures Reachable(Group(Ledger(2, map[], map[], map[]), false, None, None, Arriving, Arriving))
  {
    OneArrives();
    var s := World(Ledger(1, map[], map[], map[]), map[0 := Pool(true, false, None, None, None)], map[1 := Task(0, Arriving)]);
    var next := Group(Ledger(2, map[], map[], map[]), false, None, None, Arriving, Arriving);
    assert DoAcquire(s, 2, 0) == next.(g := s.g);
    Reaches(s, 2, Acquire(0), next);
  }

  /** Two acquires of a group are in flight; the first holds the lock */
  lemma TwoArrive()
    ensures Reachable(Group(Ledger(3, map[], map[], map[]), false, Some(1), None, Claiming, Arriving))
  {
    BothArrive();
    var s := Group(Ledger(2, map[], map[], map[]), false, None, None, Arriving, Arriving);
    var next := Group(Ledger(3, map[], map[], map[]), false, Some(1), None, Claiming, Arriving);
    assert DoEnter(s, 1) == next.(g := s.g);
    Reaches(s, 1, Enter, next);
  }

  const Made := Ledger(4, map[0 := 7], map[7 := NewOwner(0, 1, 0, 3)], map[])

  /** and makes an owner. */
  lemma OwnerMade()
    ensures Reachable(Group(Made, false, Some(1), None, Preparing(7), Arriving))
  {
    TwoArrive();
    var s := Group(Ledger(3, map[], map[], map[]), false, Some(1), None, Claiming, Arriving);
    var next := Group(Made, false, Some(1), None, Preparing(7), Arriving);
    assert Claim(s.g, 7, NewOwner(0, 1, 0, 3)) == Made.(now := 3);
    assert DoClaim(s, 1, 0, 7) == next.(g := Made.(now := 3));
    Reaches(s, 1, ClaimVm(0, 7), next);
  }

  lemma OwnerPrepared()
    ensures Reachable(Group(Made.(now := 5), false, Some(1), None, Building(7, true), Arriving))
  {
    OwnerMade();
    var s := Group(Made, false, Some(1), None, Preparing(7), Arriving);
    var next := Group(Made.(now := 5), false, Some(1), None, Building(7, true), Arriving);
    assert DoPrepare(s, 1, true) == next.(g := Made);
    Reaches(s, 1, Prepared, next);
  }

  /** The pool is closed, */
  lemma ClosedMeanwhile()
    ensures Reachable(Group(Made.(now := 6), true, Some(1), None, Building(7, true), Arriving))
  {
    OwnerPrepared();
    var s := Group(Made.(now := 5), false, Some(1), None, Building(7, true), Arriving);
    var next := Group(Made.(now := 6), true, Some(1), None, Building(7, true), Arriving);
    assert DoRelease(s, 3, 0) == next.(g := s.g);
    Reaches(s, 3, Release(0), next);
  }

  const First := Loan(7, 6, false, None, true)
  const Second := Loan(7, 9, false, None, true)

  /** and the first acquire raises with its environment recorded. */
  lemma FirstRecorded()
    ensures Reachable(Group(Made.(now := 7, loans := map[100 := First]), true, None, Some(7), Raising(7, true), Arriving))
  {
    ClosedMeanwhile();
    var s := Group(Made.(now := 6), true, Some(1), None, Building(7, true), Arriving);
    var next := Group(Made.(now := 7, loans := map[100 := First]), true, None, Some(7), Raising(7, true), Arriving);
    assert s.g.owners[7].(lent := false) == s.g.owners[7] && s.g.owners[7 := s.g.owners[7]] == s.g.owners;
    assert Record(s.g, 100, 7, false) == Made.(now := 6, loans := map[100 := First]);
    assert DoBuilt(s, 1, 100) == next.(g := Made.(now := 6, loans := map[100 := First]));
    Reaches(s, 1, Built(100), next);
  }

  /** The books when it has listed what to export. */
  const Listed := Ledger(8, map[0 := 7], map[7 := NewOwner(0, 1, 0, 3).(doomed := true, snapAt := 7)], map[100 := First])

  lemma FirstDooms(s: World)
    requires s == Group(Made.(now := 7, loans := map[100 := First]), true, None, Some(7), Raising(7, true), Arriving)
    ensures DoRaises(s, 1) == Group(Listed.(now := 7), true, None, Some(7), Cleaning(7, Exporting({100}), Raise), Arriving)
  {
    assert OpenLoans(s.g, 7) == {100};
    assert Doom(s.g, 7) == Listed.(now := 7);
  }

  lemma FirstLists()
    ensures Reachable(Group(Listed, true, None, Some(7), Cleaning(7, Exporting({100}), Raise), Arriving))
  {
    FirstRecorded();
    var s := Group(Made.(now := 7, loans := map[100 := First]), true, None, Some(7), Raising(7, true), Arriving);
    var next := Group(Listed, true, None, Some(7), Cleaning(7, Exporting({100}), Raise), Arriving);
    FirstDooms(s);
    Reaches(s, 1, Raises, next);
  }

  /** Then the second acquire finds the same owner, */
  lemma SecondEnters()
    ensures Reachable(Group(Listed.(now := 9), true, Some(2), Some(7), Cleaning(7, Exporting({100}), Raise), Building(7, false)))
  {
    FirstLists();
    var s := Group(Listed, true, None, Some(7), Cleaning(7, Exporting({100}), Raise), Arriving);
    var next := Group(Listed.(now := 9), true, Some(2), Some(7), Cleaning(7, Exporting({100}), Raise), Building(7, false));
    assert DoEnter(s, 2) == next.(g := Listed);
    Reaches(s, 2, Enter, next);
  }

  const BothLent := map[100 := First, 101 := Second]

  lemma SecondRecords(g: Ledger)
    requires g == Listed.(now := 9)
    ensures Record(g, 101, 7, false) == Listed.(now := 9, loans := BothLent)
  {
    assert g.owners[7].(lent := false) == g.owners[7] && g.owners[7 := g.owners[7]] == g.owners;
  }

  /** records an environment of it and raises. */
  lemma SecondRecorded()
    ensures Reachable(Group(Listed.(now := 10, loans := BothLent), true, None, Some(7), Cleaning(7, Exporting({100}), Raise), Raising(7, false)))
  {
    SecondEnters();
    var s := Group(Listed.(now := 9), true, Some(2), Some(7), Cleaning(7, Exporting({100}), Raise), Building(7, false));
    var next := Group(Listed.(now := 10, loans := BothLent), true, None, Some(7), Cleaning(7, Exporting({100}), Raise), Raising(7, false));
    SecondRecords(s.g);
    assert DoBuilt(s, 2, 101) == next.(g := Listed.(now := 9, loans := BothLent));
    Reaches(s, 2, Built(101), next);
  }

  /** What matters of the rest of the run: the first acquire goes on with its cleanup. */
  ghost predicate GoesOn(s: World, phase: Phase) {
    && Reachable(s) && Cleans(s, 1) && s.tasks[1] == Task(0, Cleaning(7, phase, Raise))
    && 101 in s.g.loans && s.g.loans[101] == Second
  }

  lemma FirstExports() returns (s: World)
    ensures GoesOn(s, Exporting({})) && s.g.owners[7].step == 0 && s.g.owners[7].operation.None?
  {
    SecondRecorded();
    var was := Group(Listed.(now := 10, loans := BothLent), true, None, Some(7), Cleaning(7, Exporting({100}), Raise), Raising(7, false));
    var exported := BothLent[100 := First.(exportedAt := Some(10))];
    s := Group(Listed.(now := 11, loans := exported), true, None, Some(7), Cleaning(7, Exporting({}), Raise), Raising(7, false));
    var none: set<Env> := {100} - {100};
    assert none == {};
    assert DoExportOne(was, 1, 100) == s.(g := Listed.(now := 10, loans := exported));
    Reaches(was, 1, ExportOne(100), s);
  }

  lemma FirstTidies() returns (s: World)
    ensures GoesOn(s, Resetting) && s.g.owners[7].step == 0 && s.g.owners[7].operation.None?
  {
    s := FirstExports();
    s := Reach(s, 1, ExportsDone);
    assert GoesOn(s, Tidying);
    s := Reach(s, 1, Tidied);
  }

  lemma CommandIssued(s: World) returns (next: World)
    requires GoesOn(s, Resetting) && s.g.owners[7].step < 2 && s.g.owners[7].operation.None?
    ensures GoesOn(next, Resetting) && next.g.owners[7].step == s.g.owners[7].step && next.g.owners[7].operation.Some?
  {
    next := Reach(s, 1, Resets(None));
  }

  lemma CommandDone(s: World) returns (next: World)
    requires GoesOn(s, Resetting) && s.g.owners[7].step < 2 && s.g.owners[7].operation.Some?
    ensures GoesOn(next, Resetting) && next.g.owners[7].step == s.g.owners[7].step + 1 && next.g.owners[7].operation.None?
  {
    next := Reach(s, 1, Resets(Some(Returned(0, true))));
  }

  lemma OwnerFreed(s: World) returns (next: World)
    requires GoesOn(s, Resetting) && s.g.owners[7].step == 2
    ensures Reachable(next) && 7 in next.g.owners && next.g.owners[7].freedAt.Some?
    ensures 101 in next.g.loans && next.g.loans[101] == Second.(open := false)
  {
    next := Reach(s, 1, Frees);
  }

  /** A run in which an environment is recorded of an owner, is not returned, and is lost with the
      machine: never exported. */
  lemma RecordedMayBeLost()
    ensures exists s :: Reachable(s) && 7 in s.g.owners && s.g.owners[7].freedAt.Some? && 101 in s.g.loans
                        && s.g.loans[101].owner == 7 && !s.g.loans[101].returned && s.g.loans[101].exportedAt.None?
  {
    var s := FirstTidies();
    s := CommandIssued(s);
    s := CommandDone(s);
    s := CommandIssued(s);
    s := CommandDone(s);
    s := OwnerFreed(s);
  }
}
