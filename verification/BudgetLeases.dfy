/**
 Token-budget accounting: spent tokens, the turn leases and deferred reservations that hold
 unspent ones, and the seat caps of a declared team.
 */
module BudgetLeases {
  import opened Wrappers

  type Aid = int
  type Task = nat
  type Key = nat

  datatype Lease = Lease(grant: nat, baseline: nat)
  /** A grant held for provider calls that may still report usage. */
  datatype Deferred = Deferred(aid: Aid, lease: Lease, tasks: set<Task>, finished: set<Task>)

  /** `used` is the session table; `turn` is the turn leases (the source's two dictionaries, grant
      and baseline, always written and popped together); `pending` holds the deferred reservations
      under keys never used twice; `limit` is what each session was told it may spend up to.
      `seats` is the declared team size, none for a dynamic roster. */
  datatype Budget = Budget(total: nat, seats: Option<nat>, used: map<Aid, nat>, turn: map<Aid, Lease>,
                           pending: map<Key, Deferred>, nextKey: Key, limit: map<Aid, nat>)

  function Max(a: int, b: int): int { if a > b then a else b }
  function Min(a: int, b: int): int { if a < b then a else b }

  // ---------------------------------------------------------------- allocation rules

  /** `dynamic_roster_share` */
  function DynamicShare(total: nat): (share: nat)
    ensures share <= total
  {
    Min(total, Max(10_000, total / 4))
  }

  /** `split_budget` */
  function SplitBudget(total: nat, booked: nat): (grant: nat)
    ensures grant <= Max(0, total - booked)
  {
    Min(DynamicShare(total), Max(0, total - booked))
  }

  /** Floor division. */
  function Floor(n: nat, d: nat): (q: nat)
    requires d > 0
    ensures q <= n
  {
    if n < d then 0 else 1 + Floor(n - d, d)
  }

  /** `n` seats at `each` tokens. */
  function Times(n: nat, each: nat): nat {
    if n == 0 then 0 else each + Times(n - 1, each)
  }

  lemma {:induction false} TimesOneMore(n: nat, each: nat)
    ensures Times(n, each + 1) == Times(n, each) + n
  {
    if n > 0 { TimesOneMore(n - 1, each); }
  }

  lemma {:induction false} TimesGrows(n: nat, m: nat, each: nat)
    requires n <= m
    ensures Times(n, each) <= Times(m, each)
    decreases m
  {
    if n < m { TimesGrows(n, m - 1, each); }
  }

  lemma {:induction false} TimesZero(n: nat)
    ensures Times(n, 0) == 0
  {
    if n > 0 { TimesZero(n - 1); }
  }

  lemma {:induction false} FloorIsTheLargestShare(n: nat, d: nat)
    requires d > 0
    ensures Times(d, Floor(n, d)) <= n < Times(d, Floor(n, d) + 1)
    decreases n
  {
    if n < d {
      TimesZero(d);
      TimesOneMore(d, 0);
    } else {
      FloorIsTheLargestShare(n - d, d);
      TimesOneMore(d, Floor(n - d, d));
      TimesOneMore(d, Floor(n, d));
    }
  }

  /** `per_agent_cap` at its share of 1 */
  function SeatCap(total: nat, seats: nat): (cap: nat)
    ensures cap <= total
  {
    if seats == 0 then total else Floor(total, seats)
  }

  /** `_per_agent_cap`: the declared size is at least one. */
  function Cap(b: Budget): Option<nat> {
    if b.seats.None? then None else Some(SeatCap(b.total, Max(1, b.seats.value)))
  }

  // ---------------------------------------------------------------- sums

  ghost function Sum<K>(m: map<K, nat>): nat
    decreases |m|
  {
    if m == map[] then 0
    else
      var k :| k in m;
      m[k] + Sum(m - {k})
  }

  lemma {:induction false} SumRemove<K>(m: map<K, nat>, k: K)
    requires k in m
    ensures Sum(m) == m[k] + Sum(m - {k})
    decreases |m|
  {
    var j :| j in m && Sum(m) == m[j] + Sum(m - {j});
    if j != k {
      SumRemove(m - {j}, k);
      SumRemove(m - {k}, j);
      assert (m - {j}) - {k} == (m - {k}) - {j};
    }
  }

  lemma SumSet<K>(m: map<K, nat>, k: K, v: nat)
    ensures Sum(m[k := v]) == v + Sum(m - {k})
  {
    SumRemove(m[k := v], k);
    assert m[k := v] - {k} == m - {k};
  }

  lemma SumMissing<K>(m: map<K, nat>, k: K)
    requires k !in m
    ensures m - {k} == m
  {
  }

  /** Pointwise no larger, over the same keys. */
  ghost predicate AtMost<K(!new)>(a: map<K, nat>, b: map<K, nat>) {
    a.Keys == b.Keys && forall k :: k in a ==> a[k] <= b[k]
  }

  lemma {:induction false} SumAtMost<K(!new)>(a: map<K, nat>, b: map<K, nat>)
    requires AtMost(a, b)
    ensures Sum(a) <= Sum(b)
    decreases |a|
  {
    if a != map[] {
      var k :| k in a;
      SumRemove(a, k);
      SumRemove(b, k);
      SumAtMost(a - {k}, b - {k});
    } else {
      assert b == map[];
    }
  }

  lemma SumDrops<K(!new)>(a: map<K, nat>, b: map<K, nat>, k: K, x: nat)
    requires AtMost(a, b) && k in a && a[k] + x <= b[k]
    ensures Sum(a) + x <= Sum(b)
  {
    SumRemove(a, k);
    SumRemove(b, k);
    SumAtMost(a - {k}, b - {k});
  }

  // ---------------------------------------------------------------- what is committed

  /** `_session_used_tokens` */
  function Used(used: map<Aid, nat>, aid: Aid): nat {
    if aid in used then used[aid] else 0
  }

  /** `_lease_remaining` */
  function Left(used: map<Aid, nat>, aid: Aid, lease: Lease): nat {
    Max(0, lease.grant - Max(0, Used(used, aid) - lease.baseline))
  }

  function TurnLeft(used: map<Aid, nat>, turn: map<Aid, Lease>): map<Aid, nat> {
    map aid | aid in turn :: Left(used, aid, turn[aid])
  }

  function PendingLeft(used: map<Aid, nat>, pending: map<Key, Deferred>): map<Key, nat> {
    map k | k in pending :: Left(used, pending[k].aid, pending[k].lease)
  }

  ghost function Spent(b: Budget): nat {
    Sum(b.used)
  }

  ghost function Reserved(used: map<Aid, nat>, turn: map<Aid, Lease>, pending: map<Key, Deferred>): nat {
    Sum(TurnLeft(used, turn)) + Sum(PendingLeft(used, pending))
  }

  /** `_budget_committed` */
  ghost function Committed(b: Budget): nat {
    if Cap(b).Some? then Spent(b) else Spent(b) + Reserved(b.used, b.turn, b.pending)
  }

  // ---------------------------------------------------------------- operations

  function WithLease(b: Budget, aid: Aid, lease: Lease): Budget {
    b.(turn := b.turn[aid := lease])
  }

  /** `_release_turn_lease` */
  function Release(b: Budget, aid: Aid): Budget {
    b.(turn := b.turn - {aid})
  }

  /** `_reserve_child_budget`: a seat's cap, or a booked share of what is left. */
  ghost function ReserveChild(b: Budget, aid: Aid): (Budget, nat) {
    if Cap(b).Some? then (b, Cap(b).value)
    else
      var grant := SplitBudget(b.total, Committed(b));
      (WithLease(b, aid, Lease(grant, Used(b.used, aid))), grant)
  }

  /** `_grant_under_cap` for the shared rule */
  ghost function GrantUnderCap(b: Budget, cap: nat, used: nat): nat {
    Max(0, Min(cap - used, b.total - Spent(b)))
  }

  /** The lease and the session limit that a grant sets. */
  function Grant(b: Budget, aid: Aid, grant: nat): Budget {
    var used := Used(b.used, aid);
    var leased := if grant > 0 then WithLease(b, aid, Lease(grant, used)) else b;
    leased.(limit := leased.limit[aid := used + grant])
  }

  /** `_reserve_turn_lease` */
  ghost function ReserveTurn(b: Budget, aid: Aid): Budget {
    var free := Release(b, aid);
    var grant := if Cap(b).Some? then GrantUnderCap(free, Cap(b).value, Used(free.used, aid))
                 else Max(0, free.total - Committed(free));
    Grant(free, aid, grant)
  }

  /** `_restore_turn_lease` */
  ghost function Restore(b: Budget, aid: Aid, lease: Lease): Budget {
    Grant(b, aid, Min(Left(b.used, aid, lease), Max(0, b.total - Committed(b))))
  }

  /** `_defer_budget_lease_for_provider_cleanup` */
  function Defer(b: Budget, aid: Aid, tasks: set<Task>): (Budget, bool) {
    if Cap(b).Some? || tasks == {} || aid !in b.turn then (b, false)
    else
      var held := Deferred(aid, b.turn[aid], tasks, {});
      (Release(b, aid).(pending := b.pending[b.nextKey := held], nextKey := b.nextKey + 1), true)
  }

  /** `_finish_provider_budget_lease` */
  function FinishTask(b: Budget, key: Key, task: Task): Budget {
    if key !in b.pending then b
    else
      var held := b.pending[key].(finished := b.pending[key].finished + {task});
      if held.tasks <= held.finished then b.(pending := b.pending - {key})
      else b.(pending := b.pending[key := held])
  }

  /** `_seed_entry_lease` */
  function Seed(b: Budget): Budget {
    if Cap(b).Some? then b else WithLease(b, 0, Lease(DynamicShare(b.total), Used(b.used, 0)))
  }

  function Spend(b: Budget, aid: Aid, x: nat): Budget {
    b.(used := b.used[aid := Used(b.used, aid) + x])
  }

  // ---------------------------------------------------------------- how each moves the commitment

  lemma TurnLeftSet(used: map<Aid, nat>, turn: map<Aid, Lease>, aid: Aid, lease: Lease)
    ensures TurnLeft(used, turn[aid := lease]) == TurnLeft(used, turn)[aid := Left(used, aid, lease)]
  {
  }

  lemma TurnLeftRemove(used: map<Aid, nat>, turn: map<Aid, Lease>, aid: Aid)
    ensures TurnLeft(used, turn - {aid}) == TurnLeft(used, turn) - {aid}
  {
  }

  lemma ReleaseFrees(b: Budget, aid: Aid)
    requires Cap(b).None?
    ensures Committed(Release(b, aid)) + (if aid in b.turn then Left(b.used, aid, b.turn[aid]) else 0) == Committed(b)
  {
    TurnLeftRemove(b.used, b.turn, aid);
    var left := TurnLeft(b.used, b.turn);
    if aid in b.turn { SumRemove(left, aid); } else { SumMissing(left, aid); }
  }

  lemma LeaseCommits(b: Budget, aid: Aid, grant: nat)
    requires Cap(b).None?
    ensures Committed(WithLease(b, aid, Lease(grant, Used(b.used, aid)))) == Committed(Release(b, aid)) + grant
  {
    var lease := Lease(grant, Used(b.used, aid));
    TurnLeftSet(b.used, b.turn, aid, lease);
    TurnLeftRemove(b.used, b.turn, aid);
    SumSet(TurnLeft(b.used, b.turn), aid, Left(b.used, aid, lease));
  }

  /** A grant never commits more than it found free. */
  lemma GrantFits(b: Budget, aid: Aid, grant: nat)
    requires Cap(b).None? && grant <= Max(0, b.total - Committed(b))
    ensures Committed(Grant(b, aid, grant)) <= Max(b.total, Committed(b))
    ensures Committed(WithLease(b, aid, Lease(grant, Used(b.used, aid)))) <= Max(b.total, Committed(b))
  {
    ReleaseFrees(b, aid);
    LeaseCommits(b, aid, grant);
  }

  /** Deferral moves a grant without releasing a token of it. */
  lemma DeferralKeepsTheCommitment(b: Budget, aid: Aid, tasks: set<Task>)
    requires b.nextKey !in b.pending
    ensures Committed(Defer(b, aid, tasks).0) == Committed(b)
    ensures Defer(b, aid, tasks).1 ==>
              var held := Defer(b, aid, tasks).0;
              && aid in b.turn && aid !in held.turn
              && held.pending == b.pending[b.nextKey := Deferred(aid, b.turn[aid], tasks, {})]
  {
    var (d, deferred) := Defer(b, aid, tasks);
    if deferred {
      var turn, pending := TurnLeft(b.used, b.turn), PendingLeft(b.used, b.pending);
      var left := Left(b.used, aid, b.turn[aid]);
      TurnLeftRemove(b.used, b.turn, aid);
      assert PendingLeft(d.used, d.pending) == pending[b.nextKey := left];
      SumRemove(turn, aid);
      SumSet(pending, b.nextKey, left);
      SumMissing(pending, b.nextKey);
    }
  }

  lemma PendingLeftRemove(used: map<Aid, nat>, pending: map<Key, Deferred>, key: Key)
    ensures PendingLeft(used, pending - {key}) == PendingLeft(used, pending) - {key}
  {
  }

  lemma PendingLeftIgnoresTasks(used: map<Aid, nat>, pending: map<Key, Deferred>, key: Key, held: Deferred)
    requires key in pending && held.aid == pending[key].aid && held.lease == pending[key].lease
    ensures PendingLeft(used, pending[key := held]) == PendingLeft(used, pending)
  {
  }

  lemma FinishFrees(b: Budget, key: Key, task: Task)
    ensures Committed(FinishTask(b, key, task)) <= Committed(b)
  {
    if key in b.pending {
      var held := b.pending[key].(finished := b.pending[key].finished + {task});
      if held.tasks <= held.finished {
        PendingLeftRemove(b.used, b.pending, key);
        SumRemove(PendingLeft(b.used, b.pending), key);
      } else {
        PendingLeftIgnoresTasks(b.used, b.pending, key, held);
      }
    }
  }

  /** Some reservation of the agent still covers `x` tokens. */
  ghost predicate Covered(b: Budget, aid: Aid, x: nat) {
    || (aid in b.turn && x <= Left(b.used, aid, b.turn[aid]))
    || exists k :: k in b.pending && b.pending[k].aid == aid && x <= Left(b.used, aid, b.pending[k].lease)
  }

  /** No lease starts ahead of its agent's spending. */
  ghost predicate Grounded(b: Budget) {
    && (forall aid :: aid in b.turn ==> b.turn[aid].baseline <= Used(b.used, aid))
    && (forall k :: k in b.pending ==> b.pending[k].lease.baseline <= Used(b.used, b.pending[k].aid))
  }

  lemma SpendAdds(used: map<Aid, nat>, aid: Aid, x: nat)
    ensures Sum(used[aid := Used(used, aid) + x]) == Sum(used) + x
  {
    SumSet(used, aid, Used(used, aid) + x);
    if aid in used { SumRemove(used, aid); } else { SumMissing(used, aid); }
  }

  lemma LeftFalls(used: map<Aid, nat>, aid: Aid, x: nat, other: Aid, lease: Lease)
    ensures Left(used[aid := Used(used, aid) + x], other, lease) <= Left(used, other, lease)
    ensures (other == aid && lease.baseline <= Used(used, aid) && x <= Left(used, aid, lease))
              ==> Left(used[aid := Used(used, aid) + x], other, lease) + x <= Left(used, other, lease)
  {
  }

  lemma TurnFalls(used: map<Aid, nat>, turn: map<Aid, Lease>, aid: Aid, x: nat)
    ensures AtMost(TurnLeft(used[aid := Used(used, aid) + x], turn), TurnLeft(used, turn))
  {
  }

  lemma PendingFalls(used: map<Aid, nat>, pending: map<Key, Deferred>, aid: Aid, x: nat)
    ensures AtMost(PendingLeft(used[aid := Used(used, aid) + x], pending), PendingLeft(used, pending))
  {
  }

  /** Spending `x` takes at least `paid` tokens out of the leases. */
  ghost predicate TurnPays(used: map<Aid, nat>, turn: map<Aid, Lease>, aid: Aid, x: nat, paid: nat) {
    Sum(TurnLeft(used[aid := Used(used, aid) + x], turn)) + paid <= Sum(TurnLeft(used, turn))
  }

  ghost predicate PendingPays(used: map<Aid, nat>, pending: map<Key, Deferred>, aid: Aid, x: nat, paid: nat) {
    Sum(PendingLeft(used[aid := Used(used, aid) + x], pending)) + paid <= Sum(PendingLeft(used, pending))
  }

  lemma LeasePays(used: map<Aid, nat>, turn: map<Aid, Lease>, aid: Aid, x: nat)
    requires aid in turn && turn[aid].baseline <= Used(used, aid) && x <= Left(used, aid, turn[aid])
    ensures TurnPays(used, turn, aid, x, x)
  {
    TurnFalls(used, turn, aid, x);
    LeftFalls(used, aid, x, aid, turn[aid]);
    SumDrops(TurnLeft(used[aid := Used(used, aid) + x], turn), TurnLeft(used, turn), aid, x);
  }

  lemma ReservationPays(used: map<Aid, nat>, pending: map<Key, Deferred>, k: Key, aid: Aid, x: nat)
    requires k in pending && pending[k].aid == aid
    requires pending[k].lease.baseline <= Used(used, aid) && x <= Left(used, aid, pending[k].lease)
    ensures PendingPays(used, pending, aid, x, x)
  {
    PendingFalls(used, pending, aid, x);
    LeftFalls(used, aid, x, aid, pending[k].lease);
    SumDrops(PendingLeft(used[aid := Used(used, aid) + x], pending), PendingLeft(used, pending), k, x);
  }

  lemma TurnNeverGains(used: map<Aid, nat>, turn: map<Aid, Lease>, aid: Aid, x: nat)
    ensures TurnPays(used, turn, aid, x, 0)
  {
    TurnFalls(used, turn, aid, x);
    SumAtMost(TurnLeft(used[aid := Used(used, aid) + x], turn), TurnLeft(used, turn));
  }

  lemma PendingNeverGains(used: map<Aid, nat>, pending: map<Key, Deferred>, aid: Aid, x: nat)
    ensures PendingPays(used, pending, aid, x, 0)
  {
    PendingFalls(used, pending, aid, x);
    SumAtMost(PendingLeft(used[aid := Used(used, aid) + x], pending), PendingLeft(used, pending));
  }

  /** With `spent` in place of `used`, no more is committed. */
  ghost predicate Outweighs(used: map<Aid, nat>, spent: map<Aid, nat>, turn: map<Aid, Lease>, pending: map<Key, Deferred>) {
    Sum(spent) + Reserved(spent, turn, pending) <= Sum(used) + Reserved(used, turn, pending)
  }

  lemma PaidIsOutweighed(used: map<Aid, nat>, turn: map<Aid, Lease>, pending: map<Key, Deferred>,
                         aid: Aid, x: nat, fromTurn: nat, fromPending: nat)
    requires fromTurn + fromPending == x
    requires TurnPays(used, turn, aid, x, fromTurn) && PendingPays(used, pending, aid, x, fromPending)
    ensures Outweighs(used, used[aid := Used(used, aid) + x], turn, pending)
  {
    SpendAdds(used, aid, x);
  }

  lemma OutweighedFits(b: Budget, aid: Aid, x: nat)
    requires Cap(b).None? && Outweighs(b.used, b.used[aid := Used(b.used, aid) + x], b.turn, b.pending)
    ensures Committed(Spend(b, aid, x)) <= Committed(b)
  {
  }

  lemma PaidSpendingFits(b: Budget, aid: Aid, x: nat, fromTurn: nat, fromPending: nat)
    requires Cap(b).None? && fromTurn + fromPending == x
    requires TurnPays(b.used, b.turn, aid, x, fromTurn) && PendingPays(b.used, b.pending, aid, x, fromPending)
    ensures Committed(Spend(b, aid, x)) <= Committed(b)
  {
    PaidIsOutweighed(b.used, b.turn, b.pending, aid, x, fromTurn, fromPending);
    OutweighedFits(b, aid, x);
  }

  /** Spending within one of the agent's own reservations never raises the commitment. */
  lemma SpendingIsCovered(b: Budget, aid: Aid, x: nat)
    requires Cap(b).None? && Grounded(b) && Covered(b, aid, x)
    ensures Committed(Spend(b, aid, x)) <= Committed(b)
  {
    if aid in b.turn && x <= Left(b.used, aid, b.turn[aid]) {
      LeasePays(b.used, b.turn, aid, x);
      PendingNeverGains(b.used, b.pending, aid, x);
      PaidSpendingFits(b, aid, x, x, 0);
    } else {
      var k :| k in b.pending && b.pending[k].aid == aid && x <= Left(b.used, aid, b.pending[k].lease);
      TurnNeverGains(b.used, b.turn, aid, x);
      ReservationPays(b.used, b.pending, k, aid, x);
      PaidSpendingFits(b, aid, x, 0, x);
    }
  }

  /** The entry agent's share is booked without looking at what is committed, so it fits exactly
      when everything but its own lease leaves that much: not, for one, after a restore that
      brought back more than the rest. */
  lemma SeedFitsIff(b: Budget)
    requires Cap(b).None?
    ensures Committed(Seed(b)) <= b.total <==> Committed(Release(b, 0)) + DynamicShare(b.total) <= b.total
  {
    LeaseCommits(b, 0, DynamicShare(b.total));
  }

  // ---------------------------------------------------------------- whole runs

  datatype Op =
    | OpReserveChild(aid: Aid)
    | OpReserveTurn(aid: Aid)
    | OpSpend(aid: Aid, x: nat)
    | OpRelease(aid: Aid)
    | OpRestore(aid: Aid, lease: Lease)
    | OpDefer(aid: Aid, tasks: set<Task>)
    | OpFinish(key: Key, task: Task)
    | OpSeed

  /** Creating a seat tells its session the seat's cap. */
  ghost function SeatChild(b: Budget, aid: Aid): Budget {
    var (next, grant) := ReserveChild(b, aid);
    if Cap(b).Some? then next.(limit := next.limit[aid := grant]) else next
  }

  ghost function Step(b: Budget, op: Op): Budget {
    match op
    case OpReserveChild(aid) => SeatChild(b, aid)
    case OpReserveTurn(aid) => ReserveTurn(b, aid)
    case OpSpend(aid, x) => Spend(b, aid, x)
    case OpRelease(aid) => Release(b, aid)
    case OpRestore(aid, lease) => Restore(b, aid, lease)
    case OpDefer(aid, tasks) => Defer(b, aid, tasks).0
    case OpFinish(key, task) => FinishTask(b, key, task)
    case OpSeed => Seed(b)
  }

  type Issued = set<(Aid, Lease)>

  function Issuing(b: Budget, issued: Issued): Issued {
    issued + set aid | aid in b.turn :: (aid, b.turn[aid])
  }

  /** A session spends within a reservation of a dynamic roster, or stops at its seat's limit. Any
      lease may be restored in a dynamic roster; a seat gets back only one that it once held. The
      entry agent is seeded where its share fits. */
  ghost predicate Allowed(b: Budget, issued: Issued, op: Op) {
    match op
    case OpSpend(aid, x) =>
      if Cap(b).None? then Covered(b, aid, x)
      else aid in b.limit && Used(b.used, aid) + x <= b.limit[aid]
    case OpRestore(aid, lease) => Cap(b).None? || (aid, lease) in issued
    case OpSeed => Cap(b).None? ==> Committed(Release(b, 0)) + DynamicShare(b.total) <= b.total
    case _ => true
  }

  ghost function Run(b: Budget, ops: seq<Op>): Budget
    decreases |ops|
  {
    if ops == [] then b else Run(Step(b, ops[0]), ops[1..])
  }

  ghost predicate Legal(b: Budget, issued: Issued, ops: seq<Op>)
    decreases |ops|
  {
    ops == [] ||
    (var now := Issuing(b, issued);
     Allowed(b, now, ops[0]) && Legal(Step(b, ops[0]), now, ops[1..]))
  }

  ghost predicate FreshKeys(b: Budget) {
    forall k :: k in b.pending ==> k < b.nextKey
  }

  lemma StepKeepsRules(b: Budget, op: Op)
    ensures Step(b, op).total == b.total && Step(b, op).seats == b.seats
    ensures b.nextKey <= Step(b, op).nextKey
    ensures FreshKeys(b) ==> FreshKeys(Step(b, op))
  {
  }

  /** Leases other than those the state already had start at their agent's present spending. */
  ghost predicate Anchored(b: Budget, turn: map<Aid, Lease>) {
    forall aid :: aid in turn ==> turn[aid].baseline == Used(b.used, aid) || (aid in b.turn && turn[aid] == b.turn[aid])
  }

  lemma StepAnchors(b: Budget, op: Op)
    requires !op.OpSpend?
    ensures Step(b, op).used == b.used && Anchored(b, Step(b, op).turn)
  {
  }

  lemma SpendKeepsGrounded(b: Budget, aid: Aid, x: nat)
    requires Grounded(b)
    ensures Grounded(Spend(b, aid, x))
  {
  }

  lemma StillGrounded(b: Budget, op: Op)
    requires Grounded(b) && !op.OpSpend?
    ensures Grounded(Step(b, op))
  {
    StepAnchors(b, op);
  }

  lemma StepKeepsGrounded(b: Budget, op: Op)
    requires Grounded(b)
    ensures Grounded(Step(b, op))
  {
    if op.OpSpend? { SpendKeepsGrounded(b, op.aid, op.x); } else { StillGrounded(b, op); }
  }

  lemma ReserveTurnFits(b: Budget, aid: Aid)
    requires Cap(b).None?
    ensures Committed(ReserveTurn(b, aid)) <= Max(b.total, Committed(b))
  {
    var free := Release(b, aid);
    ReleaseFrees(b, aid);
    GrantFits(free, aid, Max(0, free.total - Committed(free)));
  }

  lemma RestoreFits(b: Budget, aid: Aid, lease: Lease)
    requires Cap(b).None?
    ensures Committed(Restore(b, aid, lease)) <= Max(b.total, Committed(b))
  {
    GrantFits(b, aid, Min(Left(b.used, aid, lease), Max(0, b.total - Committed(b))));
  }

  lemma StepFits(b: Budget, issued: Issued, op: Op)
    requires Cap(b).None? && Grounded(b) && FreshKeys(b) && Allowed(b, issued, op)
    ensures Committed(Step(b, op)) <= Max(b.total, Committed(b))
  {
    match op
    case OpReserveChild(aid) => GrantFits(b, aid, SplitBudget(b.total, Committed(b)));
    case OpReserveTurn(aid) => ReserveTurnFits(b, aid);
    case OpSpend(aid, x) => SpendingIsCovered(b, aid, x);
    case OpRelease(aid) => ReleaseFrees(b, aid);
    case OpRestore(aid, lease) => RestoreFits(b, aid, lease);
    case OpDefer(aid, tasks) => DeferralKeepsTheCommitment(b, aid, tasks);
    case OpFinish(key, task) => FinishFrees(b, key, task);
    case OpSeed => SeedFitsIff(b);
  }

  /** Dynamic mode, every interleaving: what is spent is committed, and what is committed never
      passes the total (or the commitment the run began with, where that was already larger). */
  lemma {:induction false} RunNeverOvercommits(b: Budget, issued: Issued, ops: seq<Op>)
    requires Cap(b).None? && Grounded(b) && FreshKeys(b) && Legal(b, issued, ops)
    ensures Spent(Run(b, ops)) <= Committed(Run(b, ops)) <= Max(b.total, Committed(b))
    decreases |ops|
  {
    if ops != [] {
      StepKeepsRules(b, ops[0]);
      StepKeepsGrounded(b, ops[0]);
      StepFits(b, Issuing(b, issued), ops[0]);
      RunNeverOvercommits(Step(b, ops[0]), Issuing(b, issued), ops[1..]);
    }
  }

  function Unspent(total: nat): Budget {
    Budget(total, None, map[], map[], map[], 0, map[])
  }

  lemma UnspentIsFree(total: nat)
    ensures Committed(Unspent(total)) == 0 && Cap(Unspent(total)) == None
    ensures Release(Unspent(total), 1) == Unspent(total)
  {
    assert TurnLeft(map[], map[]) == map[] && PendingLeft(map[], map[]) == map[];
  }

  /** What seeding finds when an agent has spent 15,000 of 20,000 tokens and given back its lease. */
  lemma SpentAndReleased() returns (ops: seq<Op>)
    ensures Legal(Unspent(20_000), {}, ops)
    ensures Run(Unspent(20_000), ops).used == map[1 := 15_000] && Run(Unspent(20_000), ops).turn == map[]
    ensures Run(Unspent(20_000), ops).pending == map[] && Run(Unspent(20_000), ops).total == 20_000
    ensures Run(Unspent(20_000), ops).seats == None
  {
    var b0 := Unspent(20_000);
    UnspentIsFree(20_000);
    var b1 := Step(b0, OpReserveTurn(1));
    assert b1.turn == map[1 := Lease(20_000, 0)] && b1.used == map[];
    var b2 := Step(b1, OpSpend(1, 15_000));
    assert b2.used == map[1 := 15_000];
    var b3 := Step(b2, OpRelease(1));
    assert b3.turn == map[];
    ops := [OpReserveTurn(1), OpSpend(1, 15_000), OpRelease(1)];
    RunsOfThree(b0, ops[0], ops[1], ops[2]);
    assert ops == [ops[0], ops[1], ops[2]];
    assert Covered(b1, 1, 15_000);
    LegalsOfThree(b0, ops[0], ops[1], ops[2]);
  }

  lemma RunsOfThree(b: Budget, x: Op, y: Op, z: Op)
    ensures Run(b, [x, y, z]) == Step(Step(Step(b, x), y), z)
  {
    assert [x, y, z][1..] == [y, z] && [y, z][1..] == [z];
    var last := [z];
    assert last[1..] == [];
    assert Run(Step(b, x), [y, z]) == Run(Step(Step(b, x), y), [z]);
  }

  lemma LegalsOfThree(b: Budget, x: Op, y: Op, z: Op)
    requires x.OpReserveTurn? && z.OpRelease? && forall issued: Issued :: Allowed(Step(b, x), issued, y)
    ensures Legal(b, {}, [x, y, z])
  {
    assert [x, y, z][1..] == [y, z] && [y, z][1..] == [z];
    var last := [z];
    assert last[1..] == [];
    var b1, i1 := Step(b, x), Issuing(b, {});
    var b2, i2 := Step(b1, y), Issuing(b1, i1);
    assert Allowed(b1, i2, y);
    assert Legal(b2, i2, [z]);
    assert Legal(b1, i1, [y, z]);
  }

  /** So a roster restored after such a run is seeded beyond its total. */
  lemma RestoredSeedMayNotFit()
    ensures exists ops :: var b := Run(Unspent(20_000), ops);
              Legal(Unspent(20_000), {}, ops) && Committed(b) <= b.total && Committed(Seed(b)) > b.total
  {
    var ops := SpentAndReleased();
    var b := Run(Unspent(20_000), ops);
    SumRemove(b.used, 1);
    assert b.used - {1} == map[];
    assert TurnLeft(b.used, b.turn) == map[] && PendingLeft(b.used, b.pending) == map[];
    ReleaseFrees(b, 0);
    assert Committed(b) == 15_000;
    LeaseCommits(b, 0, DynamicShare(b.total));
    assert Committed(Seed(b)) == 25_000;
  }

  /** The provider tasks of reservation `key` that a run reports as settled. */
  function Settled(ops: seq<Op>, key: Key): set<Task> {
    set i | 0 <= i < |ops| && ops[i].OpFinish? && ops[i].key == key :: ops[i].task
  }

  lemma SettledFirst(ops: seq<Op>, key: Key)
    requires ops != []
    ensures Settled(ops, key) ==
            (if ops[0].OpFinish? && ops[0].key == key then {ops[0].task} else {}) + Settled(ops[1..], key)
  {
  }

  lemma StepNeverRevives(b: Budget, op: Op, key: Key)
    requires key !in b.pending && key < b.nextKey
    ensures key !in Step(b, op).pending
  {
  }

  lemma {:induction false} GoneReservationStaysGone(b: Budget, ops: seq<Op>, key: Key)
    requires key !in b.pending && key < b.nextKey
    ensures key !in Run(b, ops).pending
    decreases |ops|
  {
    if ops != [] {
      StepKeepsRules(b, ops[0]);
      StepNeverRevives(b, ops[0], key);
      GoneReservationStaysGone(Step(b, ops[0]), ops[1..], key);
    }
  }

  lemma StepKeepsReservation(b: Budget, op: Op, key: Key)
    requires FreshKeys(b) && key in b.pending && !(b.pending[key].tasks <= b.pending[key].finished)
    ensures var held := b.pending[key];
            var done := held.finished + if op.OpFinish? && op.key == key then {op.task} else {};
            if held.tasks <= done then key !in Step(b, op).pending
            else key in Step(b, op).pending && Step(b, op).pending[key] == held.(finished := done)
  {
  }

  lemma {:induction false} ReservationOutlivesTasks(b: Budget, ops: seq<Op>, key: Key)
    requires FreshKeys(b) && key in b.pending && !(b.pending[key].tasks <= b.pending[key].finished)
    ensures var held := b.pending[key];
            var done := held.finished + Settled(ops, key);
            if held.tasks <= done then key !in Run(b, ops).pending
            else key in Run(b, ops).pending && Run(b, ops).pending[key] == held.(finished := done)
    decreases |ops|
  {
    var held := b.pending[key];
    if ops == [] {
      assert held.finished + Settled(ops, key) == held.finished;
    } else {
      var next := Step(b, ops[0]);
      var first: set<Task> := if ops[0].OpFinish? && ops[0].key == key then {ops[0].task} else {};
      StepKeepsRules(b, ops[0]);
      StepKeepsReservation(b, ops[0], key);
      SettledFirst(ops, key);
      assert held.finished + Settled(ops, key) == (held.finished + first) + Settled(ops[1..], key);
      if key in next.pending {
        ReservationOutlivesTasks(next, ops[1..], key);
      } else {
        GoneReservationStaysGone(next, ops[1..], key);
      }
    }
  }

  /** A deferred grant is held, whole, until every one of its provider tasks has settled, in
      whatever order and among whatever other operations; then it is gone. */
  lemma DeferredUntilEveryTaskSettles(b: Budget, aid: Aid, tasks: set<Task>, ops: seq<Op>)
    requires FreshKeys(b) && Defer(b, aid, tasks).1
    ensures var after := Run(Defer(b, aid, tasks).0, ops);
            && (b.nextKey in after.pending <==> !(tasks <= Settled(ops, b.nextKey)))
            && (b.nextKey in after.pending ==>
                  after.pending[b.nextKey] == Deferred(aid, b.turn[aid], tasks, Settled(ops, b.nextKey)))
  {
    var next := Defer(b, aid, tasks).0;
    assert next.pending[b.nextKey].finished == {};
    assert {} + Settled(ops, b.nextKey) == Settled(ops, b.nextKey);
    ReservationOutlivesTasks(next, ops, b.nextKey);
  }

  /** A restored lease never gives back more than was left of the old one, nor lets the session
      past where the old lease ended. */
  lemma RestoreGivesBackAtMostTheRest(b: Budget, aid: Aid, lease: Lease)
    ensures var r := Restore(b, aid, lease);
            && aid in r.limit
            && r.limit[aid] <= Used(b.used, aid) + Left(b.used, aid, lease)
            && (lease.baseline <= Used(b.used, aid) ==> r.limit[aid] <= Max(Used(b.used, aid), lease.baseline + lease.grant))
            && (aid !in b.turn && aid in r.turn ==>
                  Left(r.used, aid, r.turn[aid]) == r.limit[aid] - Used(b.used, aid) <= Left(b.used, aid, lease))
  {
  }

  // ---------------------------------------------------------------- declared seats

  ghost predicate LeaseUnder(used: map<Aid, nat>, aid: Aid, lease: Lease, cap: nat) {
    lease.baseline <= Used(used, aid) && lease.baseline + lease.grant <= cap
  }

  /** No seat has spent, or been told that it may spend, more than its cap; nor would a lease it
      ever held let it. */
  ghost predicate UnderCaps(b: Budget, issued: Issued) {
    && Cap(b).Some?
    && (forall aid :: aid in b.used ==> b.used[aid] <= Cap(b).value)
    && (forall aid :: aid in b.limit ==> b.limit[aid] <= Cap(b).value)
    && (forall aid :: aid in b.turn ==> LeaseUnder(b.used, aid, b.turn[aid], Cap(b).value))
    && (forall p :: p in issued ==> LeaseUnder(b.used, p.0, p.1, Cap(b).value))
  }

  lemma IssuingKeepsCaps(b: Budget, issued: Issued)
    requires UnderCaps(b, issued)
    ensures UnderCaps(b, Issuing(b, issued))
  {
  }

  lemma GrantKeepsCaps(b: Budget, issued: Issued, aid: Aid, grant: nat)
    requires UnderCaps(b, issued) && Used(b.used, aid) + grant <= Cap(b).value
    ensures UnderCaps(Grant(b, aid, grant), issued)
  {
  }

  lemma SpendKeepsCaps(b: Budget, issued: Issued, aid: Aid, x: nat)
    requires UnderCaps(b, issued) && Used(b.used, aid) + x <= Cap(b).value
    ensures UnderCaps(Spend(b, aid, x), issued)
  {
  }

  lemma StepKeepsCaps(b: Budget, issued: Issued, op: Op)
    requires UnderCaps(b, issued) && Allowed(b, issued, op)
    ensures UnderCaps(Step(b, op), issued)
  {
    match op
    case OpReserveTurn(aid) =>
      var free := Release(b, aid);
      assert UnderCaps(free, issued);
      GrantKeepsCaps(free, issued, aid, GrantUnderCap(free, Cap(b).value, Used(free.used, aid)));
    case OpRestore(aid, lease) =>
      assert LeaseUnder(b.used, aid, lease, Cap(b).value) by { assert (aid, lease) in issued; }
      GrantKeepsCaps(b, issued, aid, Min(Left(b.used, aid, lease), Max(0, b.total - Committed(b))));
    case OpSpend(aid, x) => SpendKeepsCaps(b, issued, aid, x);
    case _ =>
  }

  /** A seat that stops at its limit never passes its cumulative cap, in any run. */
  lemma {:induction false} SeatsStayUnderTheirCaps(b: Budget, issued: Issued, ops: seq<Op>)
    requires UnderCaps(b, issued) && Legal(b, issued, ops)
    ensures Cap(Run(b, ops)) == Cap(b)
    ensures forall aid :: Used(Run(b, ops).used, aid) <= Cap(b).value
    ensures forall aid :: aid in Run(b, ops).limit ==> Run(b, ops).limit[aid] <= Cap(b).value
    decreases |ops|
  {
    if ops != [] {
      IssuingKeepsCaps(b, issued);
      StepKeepsRules(b, ops[0]);
      StepKeepsCaps(b, Issuing(b, issued), ops[0]);
      SeatsStayUnderTheirCaps(Step(b, ops[0]), Issuing(b, issued), ops[1..]);
    }
  }

  lemma {:induction false} SumBounded<K(!new)>(m: map<K, nat>, cap: nat)
    requires forall k :: k in m ==> m[k] <= cap
    ensures Sum(m) <= Times(|m|, cap)
    decreases |m|
  {
    if m != map[] {
      var k :| k in m;
      SumRemove(m, k);
      SumBounded(m - {k}, cap);
      assert |m| == |m - {k}| + 1 by { assert m.Keys == (m - {k}).Keys + {k}; }
    }
  }

  /** With no more spenders than declared seats, the caps alone keep the team within its total. */
  lemma SeatsShareTheTotal(b: Budget, issued: Issued, ops: seq<Op>)
    requires UnderCaps(b, issued) && Legal(b, issued, ops)
    requires |Run(b, ops).used| <= Max(1, b.seats.value)
    ensures Spent(Run(b, ops)) <= b.total
  {
    SeatsStayUnderTheirCaps(b, issued, ops);
    var used, cap, seats := Run(b, ops).used, Cap(b).value, Max(1, b.seats.value);
    forall aid | aid in used ensures used[aid] <= cap { assert Used(used, aid) == used[aid]; }
    SumBounded(used, cap);
    TimesGrows(|used|, seats, cap);
    FloorIsTheLargestShare(b.total, seats);
  }

  // ---------------------------------------------------------------- the scheduler's tables

  function Part<K>(m: map<K, nat>, keys: set<K>): map<K, nat> {
    map k | k in m && k in keys :: m[k]
  }

  lemma PartRest<K(!new)>(m: map<K, nat>, keys: set<K>, k: K)
    requires k in keys && k in m
    ensures Sum(Part(m, keys)) == m[k] + Sum(Part(m, keys - {k}))
  {
    SumRemove(Part(m, keys), k);
    assert Part(m, keys) - {k} == Part(m, keys - {k});
  }

  method Total<K(!new, ==)>(m: map<K, nat>) returns (sum: nat)
    ensures sum == Sum(m)
  {
    var keys := m.Keys;
    sum := 0;
    assert Part(m, keys) == m;
    while keys != {}
      invariant keys <= m.Keys
      invariant sum + Sum(Part(m, keys)) == Sum(m)
      decreases keys
    {
      var k :| k in keys;
      PartRest(m, keys, k);
      sum := sum + m[k];
      keys := keys - {k};
    }
    assert Part(m, keys) == map[];
  }

  class Scheduler {
    const total: nat
    const seats: Option<nat>
    var used: map<Aid, nat>
    var turnLease: map<Aid, nat>
    var leaseBaseline: map<Aid, nat>
    var pending: map<Key, Deferred>
    var nextKey: Key
    var limit: map<Aid, nat>

    /** Grants and baselines are written and popped together. */
    ghost predicate Valid()
      reads this`turnLease, this`leaseBaseline
    {
      turnLease.Keys == leaseBaseline.Keys
    }

    ghost function Turns(): map<Aid, Lease>
      reads this`turnLease, this`leaseBaseline
      requires Valid()
    {
      map aid | aid in turnLease :: Lease(turnLease[aid], leaseBaseline[aid])
    }

    ghost function State(): Budget
      reads this
      requires Valid()
    {
      Budget(total, seats, used, Turns(), pending, nextKey, limit)
    }

    constructor (total: nat, seats: Option<nat>)
      ensures Valid() && State() == Budget(total, seats, map[], map[], map[], 0, map[])
    {
      this.total, this.seats := total, seats;
      used, turnLease, leaseBaseline, pending, nextKey, limit := map[], map[], map[], map[], 0, map[];
    }

    function PerAgentCap(): (cap: Option<nat>) {
      if seats.None? then None else Some(SeatCap(total, Max(1, seats.value)))
    }

    /** The unspent parts of the turn leases, then of the deferred reservations. */
    method BudgetCommitted() returns (sum: nat)
      requires Valid()
      ensures sum == Committed(State())
    {
      sum := Total(used);
      if PerAgentCap().Some? { return; }
      var turns := Total(map aid | aid in turnLease :: Left(used, aid, Lease(turnLease[aid], leaseBaseline[aid])));
      var held := Total(PendingLeft(used, pending));
      assert TurnLeft(used, Turns()) ==
             map aid | aid in turnLease :: Left(used, aid, Lease(turnLease[aid], leaseBaseline[aid]));
      sum := sum + turns + held;
    }

    method ReleaseTurnLease(aid: Aid) returns (lease: Option<Lease>)
      requires Valid()
      modifies this
      ensures Valid() && State() == Release(old(State()), aid)
      ensures lease == if aid in old(State()).turn then Some(old(State()).turn[aid]) else None
    {
      lease := CurrentTurnLease(aid);
      turnLease, leaseBaseline := turnLease - {aid}, leaseBaseline - {aid};
      assert Turns() == old(Turns()) - {aid};
    }

    method CurrentTurnLease(aid: Aid) returns (lease: Option<Lease>)
      requires Valid()
      ensures lease == if aid in State().turn then Some(State().turn[aid]) else None
    {
      if aid in turnLease { return Some(Lease(turnLease[aid], leaseBaseline[aid])); }
      return None;
    }

    method Book(aid: Aid, grant: nat, baseline: nat)
      requires Valid()
      modifies this`turnLease, this`leaseBaseline
      ensures Valid() && State() == WithLease(old(State()), aid, Lease(grant, baseline))
    {
      turnLease, leaseBaseline := turnLease[aid := grant], leaseBaseline[aid := baseline];
      assert Turns() == old(Turns())[aid := Lease(grant, baseline)];
    }

    method SeedEntryLease()
      requires Valid()
      modifies this
      ensures Valid() && State() == Seed(old(State()))
    {
      if PerAgentCap().Some? { return; }
      Book(0, DynamicShare(total), Used(used, 0));
    }

    method ReserveChildBudget(aid: Aid) returns (grant: nat)
      requires Valid()
      modifies this
      ensures Valid() && (State(), grant) == ReserveChild(old(State()), aid)
    {
      if PerAgentCap().Some? { return PerAgentCap().value; }
      var booked := BudgetCommitted();
      grant := SplitBudget(total, booked);
      Book(aid, grant, Used(used, aid));
    }

    /** A lease for a positive grant, and the session's new limit either way. */
    method SetGrant(aid: Aid, grant: nat)
      requires Valid()
      modifies this
      ensures Valid() && State() == Grant(old(State()), aid, grant)
    {
      var baseline := Used(used, aid);
      if grant > 0 { Book(aid, grant, baseline); }
      limit := limit[aid := baseline + grant];
    }

    method ReserveTurnLease(aid: Aid) returns (grant: nat)
      requires Valid()
      modifies this
      ensures Valid() && State() == ReserveTurn(old(State()), aid)
      ensures State().limit[aid] == Used(used, aid) + grant
    {
      var _ := ReleaseTurnLease(aid);
      if PerAgentCap().None? {
        var booked := BudgetCommitted();
        grant := Max(0, total - booked);
      } else {
        var spent := Total(used);
        grant := Max(0, Min(PerAgentCap().value - Used(used, aid), total - spent));
      }
      SetGrant(aid, grant);
    }

    method RestoreTurnLease(aid: Aid, lease: Option<Lease>)
      requires Valid()
      modifies this
      ensures Valid() && State() == if lease.None? then old(State()) else Restore(old(State()), aid, lease.value)
    {
      if lease.None? { return; }
      var booked := BudgetCommitted();
      SetGrant(aid, Min(Left(used, aid, lease.value), Max(0, total - booked)));
    }

    method DeferBudgetLease(aid: Aid, tasks: set<Task>) returns (deferred: bool)
      requires Valid()
      modifies this
      ensures Valid() && (State(), deferred) == Defer(old(State()), aid, tasks)
    {
      if PerAgentCap().Some? { return false; }
      var lease := CurrentTurnLease(aid);
      if tasks == {} || lease.None? { return false; }
      var _ := ReleaseTurnLease(aid);
      pending, nextKey := pending[nextKey := Deferred(aid, lease.value, tasks, {})], nextKey + 1;
      deferred := true;
    }

    method FinishProviderBudgetLease(key: Key, task: Task)
      requires Valid()
      modifies this
      ensures Valid() && State() == FinishTask(old(State()), key, task)
    {
      if key !in pending { return; }
      var held := pending[key].(finished := pending[key].finished + {task});
      pending := pending[key := held];
      assert Turns() == old(Turns());
      if !(held.tasks <= held.finished) { return; }
      pending := pending - {key};
      assert pending == old(pending) - {key};
      assert Turns() == old(Turns());
    }
  }
}
