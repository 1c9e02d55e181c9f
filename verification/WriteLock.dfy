/**
 The per-target write lock: a guarded table of counted lock entries, an owner table that lets the
 owning task re-enter, and waiters that poll. Each step is one guarded section or one operation
 on an entry's lock; a waiter may be cancelled, and an acquirer may find its environment inactive.
 A task runs one step at a time, but nothing below depends on that: its stages at different keys
 may be interleaved in any way.
 */
module WriteLock {

  type Key = nat
  type Task = nat
  /** A lock entry, by identity. */
  type Entry = nat

  /** How far a task is with one key, from counting in to counting out; inside, how often it has
      re-entered. */
  datatype Stage = Waiting | Acquired | Inside(depth: nat) | Leaving | Unlocked

  datatype Use = Use(entry: Entry, stage: Stage)
  datatype User = User(task: Task, key: Key)

  /** `locks` is `_WRITE_LOCKS`, `owners` is `_WRITE_LOCK_OWNERS`; `counts` holds the users field of
      every entry ever made and `holder` says which task has its lock. */
  datatype Table = Table(locks: map<Key, Entry>, counts: map<Entry, nat>, holder: map<Entry, Task>,
                         owners: map<Key, Task>, uses: map<User, Use>)

  datatype Act = Enter(made: Entry) | TryLock | Cancel | Own | Inactive | Exit | Unlock | Leave

  function Put(s: Table, u: User, entry: Entry, stage: Stage): Table {
    s.(uses := s.uses[u := Use(entry, stage)])
  }

  /** The guarded section at the start: re-enter, or count in on the key's entry. `made` is the
      entry that `setdefault` adds if there is none. */
  function DoEnter(s: Table, u: User, made: Entry): Table {
    if u in s.uses then
      var Use(e, stage) := s.uses[u];
      if stage.Inside? && u.key in s.owners && s.owners[u.key] == u.task then Put(s, u, e, Inside(stage.depth + 1)) else s
    else if u.key in s.locks then
      var e := s.locks[u.key];
      if e in s.counts then Put(s, u, e, Waiting).(counts := s.counts[e := s.counts[e] + 1]) else s
    else if made in s.counts then s
    else Put(s, u, made, Waiting).(locks := s.locks[u.key := made], counts := s.counts[made := 1])
  }

  /** One operation of a task that is already a user of the key. */
  function DoUse(s: Table, u: User, a: Act): Table
    requires u in s.uses
  {
    var Use(e, stage) := s.uses[u];
    match (a, stage)
    case (TryLock, Waiting) => if e in s.holder then s else Put(s, u, e, Acquired).(holder := s.holder[e := u.task])
    case (Cancel, Waiting) => Put(s, u, e, Unlocked)
    case (Own, Acquired) => Put(s, u, e, Inside(0)).(owners := s.owners[u.key := u.task])
    case (Inactive, Acquired) => Put(s, u, e, Leaving)
    case (Exit, Inside(depth)) =>
      if depth > 0 then Put(s, u, e, Inside(depth - 1)) else Put(s, u, e, Leaving).(owners := s.owners - {u.key})
    case (Unlock, Leaving) => Put(s, u, e, Unlocked).(holder := s.holder - {e})
    case _ => s
  }

  /** The guarded section at the end: count out, and remove the entry with its last user. */
  function DoLeave(s: Table, u: User): Table {
    if u !in s.uses || !s.uses[u].stage.Unlocked? then s
    else
      var e := s.uses[u].entry;
      if e !in s.counts || s.counts[e] == 0 then s
      else
        var n := s.counts[e] - 1;
        var next := s.(uses := s.uses - {u}, counts := s.counts[e := n]);
        if n == 0 then next.(locks := s.locks - {u.key}) else next
  }

  function Step(s: Table, u: User, a: Act): Table {
    match a
    case Enter(made) => DoEnter(s, u, made)
    case Leave => DoLeave(s, u)
    case _ => if u in s.uses then DoUse(s, u, a) else s
  }

  function Run(s: Table, moves: seq<(User, Act)>): Table
    decreases |moves|
  {
    if moves == [] then s else Run(Step(s, moves[0].0, moves[0].1), moves[1..])
  }

  function Empty(): Table {
    Table(map[], map[], map[], map[], map[])
  }

  // ---------------------------------------------------------------- what every step keeps

  /** Having the lock of the key's entry. */
  predicate Holding(stage: Stage) {
    stage.Acquired? || stage.Inside? || stage.Leaving?
  }

  function UsersOf(uses: map<User, Use>, key: Key): set<Task> {
    set u | u in uses && u.key == key :: u.task
  }

  /** A user works through the entry in the table; it has the lock, or is the owner, exactly in the
      stages that say so. */
  ghost predicate UserOk(s: Table, u: User, use: Use) {
    && u.key in s.locks && s.locks[u.key] == use.entry
    && (Holding(use.stage) <==> use.entry in s.holder && s.holder[use.entry] == u.task)
    && (use.stage.Inside? <==> u.key in s.owners && s.owners[u.key] == u.task)
  }

  ghost predicate UsersOk(s: Table) {
    && (forall u :: u in s.uses ==> UserOk(s, u, s.uses[u]))
    && (forall key :: key in s.owners ==> User(s.owners[key], key) in s.uses)
    && (forall key :: key in s.locks && s.locks[key] in s.holder ==> User(s.holder[s.locks[key]], key) in s.uses)
  }

  ghost predicate KeyCounted(s: Table, key: Key)
    requires key in s.locks
  {
    s.locks[key] in s.counts && s.counts[s.locks[key]] == |UsersOf(s.uses, key)| > 0
  }

  /** Each key has its own entry, whose count is the number of its users and never zero. */
  ghost predicate Counted(s: Table) {
    && (forall key :: key in s.locks ==> KeyCounted(s, key))
    && (forall k, l :: k in s.locks && l in s.locks && s.locks[k] == s.locks[l] ==> k == l)
    && (forall e :: e in s.holder ==> e in s.counts)
  }

  ghost predicate Inv(s: Table) {
    UsersOk(s) && Counted(s)
  }

  lemma UsersPut(uses: map<User, Use>, u: User, use: Use, key: Key)
    ensures UsersOf(uses[u := use], key) == if key == u.key then UsersOf(uses, key) + {u.task} else UsersOf(uses, key)
  {
    var next := uses[u := use];
    forall t | t in UsersOf(next, key) ensures t in UsersOf(uses, key) || (key == u.key && t == u.task) {
      var v :| v in next && v.key == key && v.task == t;
    }
    forall t | t in UsersOf(uses, key) ensures t in UsersOf(next, key) {
      var v :| v in uses && v.key == key && v.task == t;
      assert v in next;
    }
    assert u in next;
  }

  lemma UsersRemove(uses: map<User, Use>, u: User, key: Key)
    ensures UsersOf(uses - {u}, key) == if key == u.key then UsersOf(uses, key) - {u.task} else UsersOf(uses, key)
  {
    var next := uses - {u};
    forall t | t in UsersOf(uses, key) && !(key == u.key && t == u.task) ensures t in UsersOf(next, key) {
      var v :| v in uses && v.key == key && v.task == t;
      assert v in next;
    }
  }

  lemma IsUser(uses: map<User, Use>, u: User)
    ensures u.task in UsersOf(uses, u.key) <==> u in uses
  {
    if u.task in UsersOf(uses, u.key) {
      var v :| v in uses && v.key == u.key && v.task == u.task;
      assert v == u;
    }
  }

  lemma ArrivingKeepsUsers(s: Table, u: User, a: Act)
    requires Inv(s) && u in s.uses && (a.TryLock? || a.Cancel? || a.Own?)
    ensures UsersOk(DoUse(s, u, a))
  {
    assert UserOk(s, u, s.uses[u]);
  }

  lemma LeavingKeepsUsers(s: Table, u: User, a: Act)
    requires Inv(s) && u in s.uses && !(a.TryLock? || a.Cancel? || a.Own?)
    ensures UsersOk(DoUse(s, u, a))
  {
    assert UserOk(s, u, s.uses[u]);
  }

  lemma SameUsersKeepCounts(s: Table, u: User, use: Use, next: Table)
    requires Inv(s) && u in s.uses && next.uses == s.uses[u := use]
    requires next.locks == s.locks && next.counts == s.counts
    requires forall e :: e in next.holder ==> e in s.counts
    ensures Counted(next)
  {
    IsUser(s.uses, u);
    forall key | key in s.locks ensures KeyCounted(next, key) {
      UsersPut(s.uses, u, use, key);
      assert UsersOf(next.uses, key) == UsersOf(s.uses, key);
      assert KeyCounted(s, key);
    }
  }

  lemma UseKeepsInv(s: Table, u: User, a: Act)
    requires Inv(s) && u in s.uses
    ensures Inv(DoUse(s, u, a))
  {
    var next := DoUse(s, u, a);
    assert UserOk(s, u, s.uses[u]);
    if a.TryLock? || a.Cancel? || a.Own? { ArrivingKeepsUsers(s, u, a); } else { LeavingKeepsUsers(s, u, a); }
    if next != s { SameUsersKeepCounts(s, u, next.uses[u], next); }
  }

  /** Counting in on the entry of the key, there or just made. */
  ghost predicate CountsIn(s: Table, u: User, e: Entry, next: Table) {
    && u !in s.uses && next.holder == s.holder
    && next.uses == s.uses[u := Use(e, Waiting)] && next.locks == s.locks[u.key := e]
    && (u.key in s.locks ==> e == s.locks[u.key] && e in s.counts && next.counts == s.counts[e := s.counts[e] + 1])
    && (u.key !in s.locks ==> e !in s.counts && next.counts == s.counts[e := 1])
  }

  lemma EntersKey(s: Table, u: User, e: Entry, next: Table)
    requires Inv(s) && CountsIn(s, u, e, next)
    ensures KeyCounted(next, u.key)
  {
    UsersPut(s.uses, u, next.uses[u], u.key);
    IsUser(s.uses, u);
    if u.key in s.locks { assert KeyCounted(s, u.key); } else { NoEntryNoUsers(s, u.key); }
  }

  lemma EntersOther(s: Table, u: User, e: Entry, next: Table, key: Key)
    requires Inv(s) && CountsIn(s, u, e, next) && key in s.locks && key != u.key
    ensures KeyCounted(next, key)
  {
    UsersPut(s.uses, u, next.uses[u], key);
    assert KeyCounted(s, key);
  }

  lemma EnterKeepsCounts(s: Table, u: User, e: Entry, next: Table)
    requires Inv(s) && CountsIn(s, u, e, next)
    ensures Counted(next)
  {
    forall key | key in next.locks ensures KeyCounted(next, key) {
      if key == u.key { EntersKey(s, u, e, next); } else { EntersOther(s, u, e, next, key); }
    }
    assert forall key :: key in s.locks ==> KeyCounted(s, key);
  }

  lemma NoEntryNoUsers(s: Table, key: Key)
    requires UsersOk(s) && key !in s.locks
    ensures UsersOf(s.uses, key) == {} && key !in s.owners
  {
    forall u | u in s.uses ensures u.key != key { assert UserOk(s, u, s.uses[u]); }
  }

  lemma ReenterKeepsInv(s: Table, u: User, stage: Stage)
    requires Inv(s) && u in s.uses && s.uses[u].stage.Inside? && stage.Inside?
    ensures Inv(Put(s, u, s.uses[u].entry, stage))
  {
    var next := Put(s, u, s.uses[u].entry, stage);
    assert UserOk(s, u, s.uses[u]);
    SameUsersKeepCounts(s, u, next.uses[u], next);
  }

  lemma JoinKeepsInv(s: Table, u: User)
    requires Inv(s) && u !in s.uses && u.key in s.locks
    ensures Inv(DoEnter(s, u, 0))
  {
    assert KeyCounted(s, u.key) && s.locks[u.key := s.locks[u.key]] == s.locks;
    var next := DoEnter(s, u, 0);
    NewcomerOk(s, u, next);
    EnterKeepsCounts(s, u, s.locks[u.key], next);
  }

  lemma OpenKeepsInv(s: Table, u: User, made: Entry)
    requires Inv(s) && u !in s.uses && u.key !in s.locks && made !in s.counts
    ensures Inv(DoEnter(s, u, made))
  {
    var next := DoEnter(s, u, made);
    NewcomerOk(s, u, next);
    EnterKeepsCounts(s, u, made, next);
  }

  lemma EnterKeepsInv(s: Table, u: User, made: Entry)
    requires Inv(s)
    ensures Inv(DoEnter(s, u, made))
  {
    if DoEnter(s, u, made) != s {
      if u in s.uses {
        ReenterKeepsInv(s, u, Inside(s.uses[u].stage.depth + 1));
      } else if u.key in s.locks {
        JoinKeepsInv(s, u);
      } else {
        OpenKeepsInv(s, u, made);
      }
    }
  }

  lemma NewcomerOk(s: Table, u: User, next: Table)
    requires Inv(s) && u !in s.uses && next.holder == s.holder && next.owners == s.owners
    requires u in next.uses && next.uses == s.uses[u := Use(next.uses[u].entry, Waiting)]
    requires next.locks == s.locks[u.key := next.uses[u].entry]
    requires if u.key in s.locks then next.uses[u].entry == s.locks[u.key] else next.uses[u].entry !in s.counts
    ensures UsersOk(next)
  {
    if u.key !in s.locks { NoEntryNoUsers(s, u.key); }
    assert u.key in s.owners ==> s.owners[u.key] != u.task;
    forall v | v in s.uses ensures UserOk(next, v, s.uses[v]) { assert UserOk(s, v, s.uses[v]); }
  }

  /** The user leaves; the entry goes too if it was the last one. */
  ghost predicate CountsOut(s: Table, u: User, next: Table) {
    && u in s.uses && s.uses[u].stage.Unlocked? && u.key in s.locks && KeyCounted(s, u.key)
    && next.uses == s.uses - {u} && next.holder == s.holder && next.owners == s.owners
    && next.counts == s.counts[s.locks[u.key] := |UsersOf(s.uses, u.key)| - 1]
    && next.locks == if |UsersOf(s.uses, u.key)| == 1 then s.locks - {u.key} else s.locks
  }

  lemma LeaveCountsOut(s: Table, u: User)
    requires Inv(s) && DoLeave(s, u) != s
    ensures CountsOut(s, u, DoLeave(s, u)) && UserOk(s, u, s.uses[u])
  {
    assert UserOk(s, u, s.uses[u]) && KeyCounted(s, u.key);
  }

  lemma LeavesKey(s: Table, u: User, next: Table, key: Key)
    requires Inv(s) && CountsOut(s, u, next) && key in next.locks
    ensures KeyCounted(next, key)
  {
    assert KeyCounted(s, key);
    IsUser(s.uses, u);
    UsersRemove(s.uses, u, key);
  }

  lemma LeaveKeepsCounts(s: Table, u: User, next: Table)
    requires Inv(s) && CountsOut(s, u, next)
    ensures Counted(next)
  {
    forall key | key in next.locks ensures KeyCounted(next, key) { LeavesKey(s, u, next, key); }
  }

  lemma LastUser(s: Table, u: User)
    requires Inv(s) && u in s.uses && u.key in s.locks && |UsersOf(s.uses, u.key)| == 1
    ensures forall v :: v in s.uses && v.key == u.key ==> v == u
  {
    IsUser(s.uses, u);
    var users := UsersOf(s.uses, u.key);
    assert users == {u.task} by { assert |users - {u.task}| == 0; }
    forall v | v in s.uses && v.key == u.key ensures v == u { assert v.task in users; }
  }

  lemma OtherStays(s: Table, u: User, next: Table, v: User)
    requires Inv(s) && CountsOut(s, u, next) && v in s.uses && v != u
    ensures v in next.uses && UserOk(next, v, next.uses[v])
  {
    assert UserOk(s, v, s.uses[v]);
    if |UsersOf(s.uses, u.key)| == 1 { LastUser(s, u); }
  }

  lemma LeaveKeepsUsers(s: Table, u: User, next: Table)
    requires Inv(s) && CountsOut(s, u, next)
    ensures UsersOk(next)
  {
    assert UserOk(s, u, s.uses[u]);
    forall v | v in next.uses ensures UserOk(next, v, next.uses[v]) { OtherStays(s, u, next, v); }
  }

  lemma StepKeepsInv(s: Table, u: User, a: Act)
    requires Inv(s)
    ensures Inv(Step(s, u, a))
  {
    match a
    case Enter(made) => EnterKeepsInv(s, u, made);
    case Leave =>
      if DoLeave(s, u) != s {
        LeaveCountsOut(s, u);
        LeaveKeepsCounts(s, u, DoLeave(s, u));
        LeaveKeepsUsers(s, u, DoLeave(s, u));
      }
    case _ => if u in s.uses { UseKeepsInv(s, u, a); }
  }

  lemma {:induction false} RunKeepsInv(s: Table, moves: seq<(User, Act)>)
    requires Inv(s)
    ensures Inv(Run(s, moves))
    decreases |moves|
  {
    if moves != [] {
      StepKeepsInv(s, moves[0].0, moves[0].1);
      RunKeepsInv(Step(s, moves[0].0, moves[0].1), moves[1..]);
    }
  }

  // ---------------------------------------------------------------- what the lock promises

  predicate IsInside(s: Table, t: Task, key: Key) {
    User(t, key) in s.uses && s.uses[User(t, key)].stage.Inside?
  }

  /** Two different tasks are never inside the write section of the same target, re-entered or not. */
  lemma NeverTwoInside(moves: seq<(User, Act)>, key: Key, t: Task, v: Task)
    ensures var s := Run(Empty(), moves);
            IsInside(s, t, key) && IsInside(s, v, key) ==> t == v
  {
    RunKeepsInv(Empty(), moves);
    var s := Run(Empty(), moves);
    if User(t, key) in s.uses && User(v, key) in s.uses {
      assert UserOk(s, User(t, key), s.uses[User(t, key)]) && UserOk(s, User(v, key), s.uses[User(v, key)]);
    }
  }

  /** Coming in goes straight inside for the owner alone; everybody else waits. */
  lemma OnlyTheOwnerReenters(moves: seq<(User, Act)>, u: User, made: Entry)
    ensures var s := Run(Empty(), moves);
            var next := DoEnter(s, u, made);
            next != s && next.uses[u].stage.Inside? <==> u.key in s.owners && s.owners[u.key] == u.task
  {
    RunKeepsInv(Empty(), moves);
    var s := Run(Empty(), moves);
    if u in s.uses { assert UserOk(s, u, s.uses[u]); }
  }

  /** A key has an entry exactly while somebody uses it, and all its users work through that one. */
  lemma EntryWhileUsed(moves: seq<(User, Act)>, key: Key)
    ensures var s := Run(Empty(), moves);
            && (key in s.locks <==> exists t :: User(t, key) in s.uses)
            && (forall t :: User(t, key) in s.uses ==> s.uses[User(t, key)].entry == s.locks[key])
  {
    RunKeepsInv(Empty(), moves);
    var s := Run(Empty(), moves);
    if key in s.locks {
      assert KeyCounted(s, key);
      var t :| t in UsersOf(s.uses, key);
      var u :| u in s.uses && u.key == key && u.task == t;
      assert u == User(t, key);
    } else {
      NoEntryNoUsers(s, key);
    }
    forall t | User(t, key) in s.uses ensures key in s.locks && s.uses[User(t, key)].entry == s.locks[key] {
      assert UserOk(s, User(t, key), s.uses[User(t, key)]);
    }
  }

  /** A step replaces no entry: it stays the same object, or goes with its last user. */
  lemma EntryStaysTheSame(s: Table, u: User, a: Act, key: Key)
    requires Inv(s) && key in s.locks
    ensures var next := Step(s, u, a);
            if key in next.locks then next.locks[key] == s.locks[key]
            else a.Leave? && u.key == key && UsersOf(s.uses, key) == {u.task}
  {
    if !a.Leave? { OnlyLeavingRemoves(s, u, a, key); }
    if a.Leave? && DoLeave(s, u) != s {
      LeaveCountsOut(s, u);
      IsUser(s.uses, u);
      if |UsersOf(s.uses, u.key)| == 1 { LastUser(s, u); }
    }
  }

  lemma OnlyLeavingRemoves(s: Table, u: User, a: Act, key: Key)
    requires key in s.locks && !a.Leave?
    ensures key in Step(s, u, a).locks && Step(s, u, a).locks[key] == s.locks[key]
  {
  }
}
