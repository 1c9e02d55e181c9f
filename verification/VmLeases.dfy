/**
 The books of exclusive virtual machines: the lease table that all pools share, who owns or owned
 each machine, and what was lent on it. `now` counts the steps; records keep when each thing
 happened, so that the promises can be stated as an order in time. Which of these steps a pool
 takes, and when, is in `VmIsolation`.
 */
module VmLeases {
  import opened Wrappers

  type Vm = nat
  type Token = nat
  type Env = nat
  type Pid = nat
  type Tid = nat

  datatype Command = ResetCommand | WipeCommand

  /** An owner of `vm`, made for `pool` by the acquire `creator`. `lent`: an environment of it was
      returned to a caller. `doomed`: a cleanup of it has begun; `snapAt` is when the last one listed
      what to export. `cleaned`: everything but the machine itself is cleaned up. `step` counts the
      commands that have completed, `operation` is the command whose outcome is awaited. */
  datatype Owner = Owner(pool: Pid, creator: Tid, vm: Vm, lent: bool, doomed: bool, cleaned: bool,
                         step: nat, operation: Option<Command>,
                         claimAt: nat, snapAt: nat, resetAt: nat, wipeAt: nat, freedAt: Option<nat>)

  /** An environment of an owner: recorded at `lentAt`, `returned` to a caller or not, and `open` while
      the pool's table of leases has it. */
  datatype Loan = Loan(owner: Token, lentAt: nat, returned: bool, exportedAt: Option<nat>, open: bool)

  /** `rows` is the shared table; owners and loans keep their records when they are done. */
  datatype Ledger = Ledger(now: nat, rows: map<Vm, Token>, owners: map<Token, Owner>, loans: map<Env, Loan>)

  /** How awaiting a reset operation ends: with a status and possibly cut output, or with an error.
      An operation error that leaves nothing pending gives the operation up; any other error,
      such as a failure that the guest reports, keeps it. */
  datatype Outcome = Returned(status: int, complete: bool) | Errored(kept: bool)

  const NoLedger := Ledger(0, map[], map[], map[])

  predicate Live(g: Ledger, t: Token) {
    t in g.owners && g.owners[t].freedAt.None?
  }

  function Later(g: Ledger): Ledger {
    g.(now := g.now + 1)
  }

  // ---------------------------------------------------------------- entries in the books

  function SetOwner(g: Ledger, t: Token, o: Owner): Ledger {
    g.(owners := g.owners[t := o])
  }

  function SetLoan(g: Ledger, e: Env, l: Loan): Ledger {
    g.(loans := g.loans[e := l])
  }

  /** `_try_acquire`: a row for a machine that has none. */
  function Claim(g: Ledger, t: Token, o: Owner): Ledger {
    SetOwner(g, t, o).(rows := g.rows[o.vm := t])
  }

  function NewOwner(pool: Pid, creator: Tid, vm: Vm, now: nat): Owner {
    Owner(pool, creator, vm, false, false, false, 0, None, now, 0, 0, 0, None)
  }

  /** An acquire records its environment, and returns it or not. */
  function Record(g: Ledger, e: Env, t: Token, returned: bool): Ledger
    requires t in g.owners
  {
    SetLoan(SetOwner(g, t, g.owners[t].(lent := g.owners[t].lent || returned)), e, Loan(t, g.now, returned, None, true))
  }

  function Export(g: Ledger, e: Env): Ledger
    requires e in g.loans
  {
    if g.loans[e].exportedAt.Some? then g else SetLoan(g, e, g.loans[e].(exportedAt := Some(g.now)))
  }

  function GiveBack(g: Ledger, e: Env): Ledger
    requires e in g.loans
  {
    SetLoan(g, e, g.loans[e].(open := false))
  }

  /** A cleanup begins, and lists what is lent. */
  function Doom(g: Ledger, t: Token): Ledger
    requires t in g.owners
  {
    SetOwner(g, t, g.owners[t].(doomed := true, snapAt := g.now))
  }

  function Clean(g: Ledger, t: Token): Ledger
    requires t in g.owners
  {
    SetOwner(g, t, g.owners[t].(cleaned := true))
  }

  function CommandAt(step: nat): Command {
    if step == 0 then ResetCommand else WipeCommand
  }

  /** Command `c` is known to have completed with status 0. */
  function Completed(o: Owner, c: Command, now: nat): Owner {
    var next := o.(step := o.step + 1, operation := None);
    if c == ResetCommand then next.(resetAt := now) else next.(wipeAt := now)
  }

  /** A new operation for the next command when none is awaited; else the awaited one's outcome. */
  function Reset(g: Ledger, t: Token, outcome: Option<Outcome>): Ledger
    requires t in g.owners
  {
    var o := g.owners[t];
    if o.step >= 2 then g
    else
      match outcome
      case None => if o.operation.None? then SetOwner(g, t, o.(operation := Some(CommandAt(o.step)))) else g
      case Some(Errored(kept)) => if kept then g else SetOwner(g, t, o.(operation := None))
      case Some(Returned(status, complete)) =>
        if o.operation.None? then g
        else if status != 0 then SetOwner(g, t, o.(operation := None))
        else if !complete then g
        else SetOwner(g, t, Completed(o, o.operation.value, g.now))
  }

  /** The end of `_cleanup_owner`: the row goes, and the leases of the owner with it. */
  function Free(g: Ledger, t: Token): Ledger
    requires t in g.owners
  {
    var o := g.owners[t];
    SetOwner(g, t, o.(freedAt := Some(g.now))).(rows := g.rows - {o.vm}, loans := Closed(g.loans, t))
  }

  function Closed(loans: map<Env, Loan>, t: Token): map<Env, Loan> {
    map e | e in loans :: if loans[e].owner == t then loans[e].(open := false) else loans[e]
  }

  // ---------------------------------------------------------------- books in order

  /** An owner's history so far, in order; a live owner has the row of its machine. */
  ghost predicate OwnerOk(g: Ledger, t: Token, o: Owner) {
    && o.claimAt < g.now && o.step <= 2
    && (o.doomed ==> o.claimAt < o.snapAt < g.now)
    && (o.cleaned ==> o.doomed)
    && (o.step >= 1 ==> o.cleaned && o.snapAt < o.resetAt < g.now)
    && (o.step == 2 ==> o.resetAt < o.wipeAt < g.now)
    && (o.operation.Some? ==> o.cleaned && o.step < 2 && o.operation.value == CommandAt(o.step))
    && (o.freedAt.Some? ==> o.step == 2 && o.wipeAt < o.freedAt.value < g.now)
    && (o.freedAt.None? ==> o.vm in g.rows && g.rows[o.vm] == t)
  }

  /** What a loan is under its owner `o`: exported when it is given back; not exported or returned once
      the listing is past; and, from the cleanup on, exported exactly if it was listed. */
  ghost predicate LoanUnder(l: Loan, o: Owner, now: nat) {
    && o.claimAt < l.lentAt < now
    && (l.exportedAt.Some? ==> l.lentAt < l.exportedAt.value < now)
    && (l.returned ==> o.lent) && (l.returned && l.open ==> o.freedAt.None?)
    && (!l.open && o.freedAt.None? ==> l.exportedAt.Some?)
    && (o.doomed && (l.exportedAt.Some? || l.returned) ==> l.lentAt < o.snapAt)
    && (o.cleaned && l.lentAt < o.snapAt ==> l.exportedAt.Some?)
    && (o.step >= 1 && l.exportedAt.Some? ==> l.exportedAt.value < o.resetAt)
  }

  ghost predicate LoanOk(g: Ledger, l: Loan) {
    l.owner in g.owners && LoanUnder(l, g.owners[l.owner], g.now)
  }

  /** Whoever gave a machine up did so before it was claimed again. */
  ghost predicate InTurn(a: Owner, b: Owner) {
    a.vm == b.vm && a.claimAt < b.claimAt ==> a.freedAt.Some? && a.freedAt.value < b.claimAt
  }

  ghost predicate Turns(owners: map<Token, Owner>) {
    && (forall t, u :: t in owners && u in owners ==> InTurn(owners[t], owners[u]))
    && (forall t, u :: t in owners && u in owners && owners[t].claimAt == owners[u].claimAt ==> t == u)
  }

  ghost predicate Rows(g: Ledger) {
    forall vm :: vm in g.rows ==> Live(g, g.rows[vm]) && g.owners[g.rows[vm]].vm == vm
  }

  ghost predicate InOrder(g: Ledger) {
    && (forall t :: t in g.owners ==> OwnerOk(g, t, g.owners[t]))
    && (forall e :: e in g.loans ==> LoanOk(g, g.loans[e]))
    && Turns(g.owners) && Rows(g)
  }

  /** What holds of an owner or a loan goes on holding while nothing of its own changes. */
  lemma OwnerLater(g: Ledger, next: Ledger, t: Token, o: Owner)
    requires OwnerOk(g, t, o) && next.now >= g.now
    requires o.freedAt.None? ==> o.vm in next.rows && next.rows[o.vm] == t
    ensures OwnerOk(next, t, o)
  {
  }

  lemma LoanLater(g: Ledger, next: Ledger, l: Loan)
    requires LoanOk(g, l) && next.now >= g.now && l.owner in next.owners && next.owners[l.owner] == g.owners[l.owner]
    ensures LoanOk(next, l)
  {
  }

  lemma TimePasses(g: Ledger)
    requires InOrder(g)
    ensures InOrder(Later(g))
  {
    forall t | t in g.owners ensures OwnerOk(Later(g), t, g.owners[t]) { OwnerLater(g, Later(g), t, g.owners[t]); }
    forall e | e in g.loans ensures LoanOk(Later(g), g.loans[e]) { LoanLater(g, Later(g), g.loans[e]); }
  }

  // ---------------------------------------------------------------- claiming

  predicate IsNew(g: Ledger, t: Token, o: Owner) {
    t !in g.owners && o.vm !in g.rows && o == NewOwner(o.pool, o.creator, o.vm, g.now)
  }

  lemma TurnsOfNewcomer(g: Ledger, t: Token, o: Owner)
    requires InOrder(g) && IsNew(g, t, o)
    ensures Turns(g.owners[t := o])
  {
    forall u | u in g.owners ensures g.owners[u].claimAt < o.claimAt && InTurn(g.owners[u], o) {
      assert OwnerOk(g, u, g.owners[u]);
    }
  }

  lemma ClaimedOwners(g: Ledger, t: Token, o: Owner, u: Token)
    requires InOrder(g) && IsNew(g, t, o) && u in Claim(g, t, o).owners
    ensures OwnerOk(Later(Claim(g, t, o)), u, Claim(g, t, o).owners[u])
  {
    if u != t {
      assert OwnerOk(g, u, g.owners[u]);
      OwnerLater(g, Later(Claim(g, t, o)), u, g.owners[u]);
    }
  }

  lemma ClaimedLoans(g: Ledger, t: Token, o: Owner, e: Env)
    requires InOrder(g) && IsNew(g, t, o) && e in g.loans
    ensures LoanOk(Later(Claim(g, t, o)), g.loans[e])
  {
    assert LoanOk(g, g.loans[e]);
    LoanLater(g, Later(Claim(g, t, o)), g.loans[e]);
  }

  lemma ClaimedRows(g: Ledger, t: Token, o: Owner)
    requires Rows(g) && IsNew(g, t, o)
    ensures Rows(Claim(g, t, o))
  {
  }

  lemma ClaimKeeps(g: Ledger, t: Token, o: Owner)
    requires InOrder(g) && IsNew(g, t, o)
    ensures InOrder(Later(Claim(g, t, o)))
  {
    var next := Later(Claim(g, t, o));
    TurnsOfNewcomer(g, t, o);
    ClaimedRows(g, t, o);
    forall u | u in next.owners ensures OwnerOk(next, u, next.owners[u]) { ClaimedOwners(g, t, o, u); }
    forall e | e in g.loans ensures LoanOk(next, g.loans[e]) { ClaimedLoans(g, t, o, e); }
  }

  // ---------------------------------------------------------------- loans and owners

  lemma LoanKeeps(g: Ledger, e: Env, l: Loan)
    requires InOrder(g) && LoanOk(Later(g), l)
    ensures InOrder(Later(SetLoan(g, e, l)))
  {
    var next := Later(SetLoan(g, e, l));
    forall t | t in g.owners ensures OwnerOk(next, t, g.owners[t]) { OwnerLater(g, next, t, g.owners[t]); }
    forall d | d in next.loans ensures LoanOk(next, next.loans[d]) {
      if d != e { LoanLater(g, next, g.loans[d]); } else { LoanLater(Later(g), next, l); }
    }
  }

  /** The same machine, claim and release. */
  predicate SameTenure(o: Owner, p: Owner) {
    o.vm == p.vm && o.claimAt == p.claimAt && o.freedAt == p.freedAt
  }

  lemma TurnsOfSame(owners: map<Token, Owner>, t: Token, o: Owner)
    requires Turns(owners) && t in owners && SameTenure(o, owners[t])
    ensures Turns(owners[t := o])
  {
  }

  /** `o` in place of `t`'s record, now or one step on. */
  ghost predicate IsRewritten(g: Ledger, t: Token, o: Owner, next: Ledger) {
    && next.owners == g.owners[t := o] && next.rows == g.rows && next.loans == g.loans
    && Rewrites(g, t, o, next.now)
  }

  ghost predicate Rewrites(g: Ledger, t: Token, o: Owner, now: nat) {
    && t in g.owners && SameTenure(o, g.owners[t]) && OwnerOk(g.(now := now), t, o) && now >= g.now
    && LoansUnder(g, t, o, now)
  }

  /** All loans of `t` as they should be under `o`. */
  ghost predicate LoansUnder(g: Ledger, t: Token, o: Owner, now: nat) {
    forall e :: e in g.loans && g.loans[e].owner == t ==> LoanUnder(g.loans[e], o, now)
  }

  lemma OwnLoans(g: Ledger, t: Token)
    requires InOrder(g) && t in g.owners
    ensures LoansUnder(g, t, g.owners[t], g.now) && OwnerOk(g, t, g.owners[t])
  {
    forall e | e in g.loans && g.loans[e].owner == t ensures LoanUnder(g.loans[e], g.owners[t], g.now) {
      assert LoanOk(g, g.loans[e]);
    }
  }

  lemma RewrittenOwners(g: Ledger, t: Token, o: Owner, next: Ledger, u: Token)
    requires InOrder(g) && IsRewritten(g, t, o, next) && u in next.owners
    ensures OwnerOk(next, u, next.owners[u])
  {
    if u != t {
      assert OwnerOk(g, u, g.owners[u]);
      OwnerLater(g, next, u, g.owners[u]);
    }
  }

  lemma RewrittenLoans(g: Ledger, t: Token, o: Owner, next: Ledger, e: Env)
    requires InOrder(g) && IsRewritten(g, t, o, next) && e in g.loans
    ensures LoanOk(next, g.loans[e])
  {
    assert LoanOk(g, g.loans[e]);
    if g.loans[e].owner != t { LoanLater(g, next, g.loans[e]); }
  }

  lemma RewrittenRows(g: Ledger, t: Token, o: Owner, next: Ledger)
    requires Rows(g) && IsRewritten(g, t, o, next)
    ensures Rows(next)
  {
  }

  lemma RewriteKeeps(g: Ledger, t: Token, o: Owner, next: Ledger)
    requires InOrder(g) && IsRewritten(g, t, o, next)
    ensures InOrder(next)
  {
    TurnsOfSame(g.owners, t, o);
    RewrittenRows(g, t, o, next);
    forall u | u in next.owners ensures OwnerOk(next, u, next.owners[u]) { RewrittenOwners(g, t, o, next, u); }
    forall e | e in g.loans ensures LoanOk(next, g.loans[e]) { RewrittenLoans(g, t, o, next, e); }
  }

  lemma LentUnder(g: Ledger, t: Token, o: Owner)
    requires t in g.owners && o == g.owners[t].(lent := o.lent) && (g.owners[t].lent ==> o.lent)
    requires OwnerOk(g, t, g.owners[t]) && LoansUnder(g, t, g.owners[t], g.now)
    ensures Rewrites(g, t, o, g.now)
  {
  }

  lemma DoomUnder(g: Ledger, t: Token, o: Owner)
    requires Live(g, t) && !g.owners[t].cleaned && o == g.owners[t].(doomed := true, snapAt := g.now)
    requires OwnerOk(g, t, g.owners[t]) && LoansUnder(g, t, g.owners[t], g.now)
    ensures Rewrites(g, t, o, g.now + 1)
  {
  }

  lemma CleanUnder(g: Ledger, t: Token, o: Owner)
    requires Live(g, t) && g.owners[t].doomed && AllExported(g, t) && o == g.owners[t].(cleaned := true)
    requires OwnerOk(g, t, g.owners[t]) && LoansUnder(g, t, g.owners[t], g.now)
    ensures Rewrites(g, t, o, g.now + 1)
  {
  }

  lemma AwaitUnder(g: Ledger, t: Token, o: Owner)
    requires Live(g, t) && g.owners[t].cleaned && g.owners[t].step < 2
    requires o == g.owners[t].(operation := None) || o == g.owners[t].(operation := Some(CommandAt(g.owners[t].step)))
    requires OwnerOk(g, t, g.owners[t]) && LoansUnder(g, t, g.owners[t], g.now)
    ensures Rewrites(g, t, o, g.now + 1)
  {
  }

  lemma CompleteUnder(g: Ledger, t: Token, o: Owner)
    requires Live(g, t) && g.owners[t].cleaned && g.owners[t].step < 2
    requires o == Completed(g.owners[t], CommandAt(g.owners[t].step), g.now)
    requires OwnerOk(g, t, g.owners[t]) && LoansUnder(g, t, g.owners[t], g.now)
    ensures Rewrites(g, t, o, g.now + 1)
  {
  }

  /** An environment may be recorded for any owner, and returned for one that is not doomed. */
  lemma RecordKeeps(g: Ledger, e: Env, t: Token, returned: bool)
    requires InOrder(g) && t in g.owners && e !in g.loans && (returned ==> !g.owners[t].doomed && Live(g, t))
    ensures InOrder(Later(Record(g, e, t, returned)))
  {
    var o := g.owners[t].(lent := g.owners[t].lent || returned);
    OwnLoans(g, t);
    LentUnder(g, t, o);
    RewriteKeeps(g, t, o, SetOwner(g, t, o));
    LoanKeeps(SetOwner(g, t, o), e, Loan(t, g.now, returned, None, true));
  }

  /** What may be exported: anything of an owner not doomed, and what the listing of a doomed one has. */
  predicate Exportable(g: Ledger, e: Env) {
    && e in g.loans && g.loans[e].owner in g.owners
    && (g.loans[e].exportedAt.None? ==>
          !g.owners[g.loans[e].owner].cleaned && (g.owners[g.loans[e].owner].doomed ==> g.loans[e].lentAt < g.owners[g.loans[e].owner].snapAt))
  }

  lemma ExportKeeps(g: Ledger, e: Env)
    requires InOrder(g) && Exportable(g, e)
    ensures InOrder(Later(Export(g, e)))
  {
    assert LoanOk(g, g.loans[e]) && OwnerOk(g, g.loans[e].owner, g.owners[g.loans[e].owner]);
    if g.loans[e].exportedAt.Some? { TimePasses(g); } else { LoanKeeps(g, e, g.loans[e].(exportedAt := Some(g.now))); }
  }

  lemma GiveBackKeeps(g: Ledger, e: Env)
    requires InOrder(g) && e in g.loans && g.loans[e].exportedAt.Some?
    ensures InOrder(Later(GiveBack(g, e)))
  {
    assert LoanOk(g, g.loans[e]);
    LoanKeeps(g, e, g.loans[e].(open := false));
  }

  lemma DoomKeeps(g: Ledger, t: Token)
    requires InOrder(g) && Live(g, t) && !g.owners[t].cleaned
    ensures InOrder(Later(Doom(g, t)))
  {
    var o := g.owners[t].(doomed := true, snapAt := g.now);
    OwnLoans(g, t);
    DoomUnder(g, t, o);
    RewriteKeeps(g, t, o, Later(SetOwner(g, t, o)));
  }

  /** Everything listed has been exported. */
  ghost predicate AllExported(g: Ledger, t: Token)
    requires t in g.owners
  {
    forall e :: e in g.loans && g.loans[e].owner == t && g.loans[e].lentAt < g.owners[t].snapAt ==> g.loans[e].exportedAt.Some?
  }

  lemma CleanKeeps(g: Ledger, t: Token)
    requires InOrder(g) && Live(g, t) && g.owners[t].doomed && AllExported(g, t)
    ensures InOrder(Later(Clean(g, t)))
  {
    var o := g.owners[t].(cleaned := true);
    OwnLoans(g, t);
    CleanUnder(g, t, o);
    RewriteKeeps(g, t, o, Later(SetOwner(g, t, o)));
  }

  lemma CommandKeeps(g: Ledger, t: Token, o: Owner)
    requires InOrder(g) && Live(g, t) && g.owners[t].cleaned && g.owners[t].step < 2
    requires || o == g.owners[t].(operation := None)
             || o == g.owners[t].(operation := Some(CommandAt(g.owners[t].step)))
             || o == Completed(g.owners[t], CommandAt(g.owners[t].step), g.now)
    ensures InOrder(Later(SetOwner(g, t, o)))
  {
    OwnLoans(g, t);
    if o == Completed(g.owners[t], CommandAt(g.owners[t].step), g.now) { CompleteUnder(g, t, o); } else { AwaitUnder(g, t, o); }
    RewriteKeeps(g, t, o, Later(SetOwner(g, t, o)));
  }

  lemma ResetShape(g: Ledger, t: Token, outcome: Option<Outcome>)
    requires t in g.owners && (g.owners[t].operation.Some? ==> g.owners[t].operation.value == CommandAt(g.owners[t].step))
    ensures var o, next := g.owners[t], Reset(g, t, outcome);
            || next == g
            || (o.step < 2 && (|| next == SetOwner(g, t, o.(operation := None))
                               || next == SetOwner(g, t, o.(operation := Some(CommandAt(o.step))))
                               || next == SetOwner(g, t, Completed(o, CommandAt(o.step), g.now))))
  {
  }

  lemma ResetKeeps(g: Ledger, t: Token, outcome: Option<Outcome>)
    requires InOrder(g) && Live(g, t) && g.owners[t].cleaned
    ensures InOrder(Later(Reset(g, t, outcome)))
  {
    var o, next := g.owners[t], Reset(g, t, outcome);
    assert OwnerOk(g, t, o);
    ResetShape(g, t, outcome);
    if next == g {
      TimePasses(g);
    } else if next == SetOwner(g, t, o.(operation := None)) {
      CommandKeeps(g, t, o.(operation := None));
    } else if next == SetOwner(g, t, o.(operation := Some(CommandAt(o.step)))) {
      CommandKeeps(g, t, o.(operation := Some(CommandAt(o.step))));
    } else {
      CommandKeeps(g, t, Completed(o, CommandAt(o.step), g.now));
    }
  }

  // ---------------------------------------------------------------- releasing

  lemma TurnsOfFreed(g: Ledger, t: Token, o: Owner)
    requires InOrder(g) && Live(g, t) && o == g.owners[t].(freedAt := Some(g.now))
    ensures Turns(g.owners[t := o])
  {
  }

  lemma FreedOwners(g: Ledger, t: Token, u: Token)
    requires InOrder(g) && Live(g, t) && g.owners[t].step == 2 && u in g.owners
    ensures OwnerOk(Later(Free(g, t)), u, Free(g, t).owners[u])
  {
    assert OwnerOk(g, t, g.owners[t]) && OwnerOk(g, u, g.owners[u]);
  }

  lemma FreedLoans(g: Ledger, t: Token, e: Env)
    requires InOrder(g) && Live(g, t) && g.owners[t].step == 2 && e in g.loans
    ensures LoanOk(Later(Free(g, t)), Free(g, t).loans[e])
  {
    assert LoanOk(g, g.loans[e]);
  }

  lemma FreedRows(g: Ledger, t: Token)
    requires InOrder(g) && Live(g, t)
    ensures Rows(Free(g, t))
  {
    assert OwnerOk(g, t, g.owners[t]);
  }

  lemma FreeKeeps(g: Ledger, t: Token)
    requires InOrder(g) && Live(g, t) && g.owners[t].step == 2
    ensures InOrder(Later(Free(g, t)))
  {
    var next := Later(Free(g, t));
    TurnsOfFreed(g, t, g.owners[t].(freedAt := Some(g.now)));
    FreedRows(g, t);
    forall u | u in next.owners ensures OwnerOk(next, u, next.owners[u]) { FreedOwners(g, t, u); }
    forall e | e in next.loans ensures LoanOk(next, next.loans[e]) { FreedLoans(g, t, e); }
  }

  // ---------------------------------------------------------------- what the books promise

  /** A machine has at most one owner at a time, the one in its row. */
  lemma OneOwner(g: Ledger, t: Token, u: Token)
    requires InOrder(g) && Live(g, t) && Live(g, u) && g.owners[t].vm == g.owners[u].vm
    ensures t == u && g.owners[t].vm in g.rows && g.rows[g.owners[t].vm] == t
  {
    assert OwnerOk(g, t, g.owners[t]) && OwnerOk(g, u, g.owners[u]);
  }

  /** Of two owners of one machine, the earlier one's reset and then its wipe completed with status 0
      before the later one's claim; what it had returned was exported before the reset, and what it
      had merely recorded exactly if that was before its cleanup listed what to export. */
  lemma EarlierOwner(g: Ledger, t: Token, u: Token, e: Env)
    requires InOrder(g) && t in g.owners && u in g.owners && t != u
    requires g.owners[t].vm == g.owners[u].vm && g.owners[t].claimAt <= g.owners[u].claimAt
    ensures var o := g.owners[t];
            && o.step == 2 && o.claimAt < o.snapAt < o.resetAt < o.wipeAt < g.owners[u].claimAt
            && (e in g.loans && g.loans[e].owner == t ==>
                  var l := g.loans[e];
                  && (l.exportedAt.Some? <==> l.lentAt < o.snapAt)
                  && (l.exportedAt.Some? ==> l.lentAt < l.exportedAt.value < o.resetAt)
                  && (l.returned ==> l.exportedAt.Some?))
  {
    assert OwnerOk(g, t, g.owners[t]) && InTurn(g.owners[t], g.owners[u]);
    if e in g.loans { assert LoanOk(g, g.loans[e]); }
  }

  /** A command counts as done exactly on the complete return, with status 0, of an operation that
      was issued for that very command. One that returns another status is given up, to be issued
      afresh; one of unknown outcome is awaited again. */
  lemma OnlyAStatusZeroAdvances(g: Ledger, t: Token, outcome: Outcome)
    requires InOrder(g) && Live(g, t) && g.owners[t].operation.Some?
    ensures var o, o' := g.owners[t], Reset(g, t, Some(outcome)).owners[t];
            && (outcome == Returned(0, true) ==> o'.step == o.step + 1 && o.operation == Some(CommandAt(o.step)))
            && (outcome != Returned(0, true) ==> o'.step == o.step)
            && (o'.operation == o.operation <==> outcome == Errored(true) || outcome == Returned(0, false))
            && (o'.operation != o.operation ==> o'.operation == None)
  {
    assert OwnerOk(g, t, g.owners[t]);
  }
}
