/** The invariant holds after every run of the machine. */
module MachineRuns {
  import opened Basics
  import opened Tables
  import opened Directory
  import opened Machine
  import opened MachineInvariant
  import opened MachineStable
  import opened MachineSteps
  import opened MachineCommit

  /** A transaction with fewer surprises: replacing one entry keeps the facts of the others. */
  lemma ReplaceTxn(cfg: Config, s: State, t: Tid, next: Txn)
    requires Inv(cfg, s) && TxnOk(cfg, s.db, s.now, next) && LockFree(s.txns, t, next)
    ensures Inv(cfg, s.(txns := s.txns[t := next]))
  {
    hide DbOk, TxnOk;
  }

  lemma TickOk(cfg: Config, s: State, dt: nat)
    requires Inv(cfg, s)
    ensures Inv(cfg, s.(now := s.now + dt))
  {
    var now' := s.now + dt;
    forall t | t in s.txns
      ensures TxnOk(cfg, s.db, now', s.txns[t])
    {
      EvolvesReflexive(s.db, s.txns[t]);
      TxnStable(cfg, s.db, s.db, s.now, now', s.txns[t]);
    }
    forall u: nat
      ensures |Live(s.db.tokens, u, Base(s.db.subjects, u), now')| <= cfg.quota
    {
      assert |Live(s.db.tokens, u, Base(s.db.subjects, u), s.now)| <= cfg.quota;
      SubsetSize(Live(s.db.tokens, u, Base(s.db.subjects, u), now'),
                 Live(s.db.tokens, u, Base(s.db.subjects, u), s.now));
    }
    hide TxnOk;
    assert DbOk(cfg, s.db, now', s.log);
  }

  lemma BeginOk(cfg: Config, s: State, t: Tid, prog: Prog)
    requires Inv(cfg, s) && Enabled(cfg, s, Begin(t, prog))
    ensures Inv(cfg, Next(cfg, s, Begin(t, prog)))
  {
    var txn := Txn(prog, {}, {}, s.now, NO_WRITES);
    assert LockFree(s.txns, t, txn);
    hide WritesOk, Knows, ProvidedOk, Starts, IdentitiesOk, LockFree, LogOk, SpentGone, TokensOk, RevocationOk,
      SessionsOk, AdmissionsOk, WithinQuota;
    BeginWrites(cfg, s.db, s.now, prog);
    BeginKnows(cfg, s.db, s.now, prog);
    hide TxnOk;
    ReplaceTxn(cfg, s, t, txn);
  }

  lemma BeginWrites(cfg: Config, db: Db, now: nat, prog: Prog)
    requires IdentitiesOk(db.identities)
    ensures WritesOk(cfg, db, now, Txn(prog, {}, {}, now, NO_WRITES))
  {
    assert ViewIds(db, NO_WRITES) == db.identities;
  }

  lemma BeginKnows(cfg: Config, db: Db, now: nat, prog: Prog)
    requires Starts(cfg, db, prog)
    ensures Knows(cfg, db, now, Txn(prog, {}, {}, now, NO_WRITES))
  {
  }

  lemma CommitSpares(cfg: Config, s: State, t: Tid, u: Tid)
    requires Inv(cfg, s) && t in s.txns && u in s.txns && t != u
    ensures TxnOk(cfg, Apply(s.db, s.txns[t].writes, |s.log|), s.now, s.txns[u])
  {
    hide LogOk, SpentGone, TokensOk, RevocationOk, SessionsOk, ProvidedOk, AdmissionsOk, WithinQuota, WritesOk, Knows,
      Apply, Evolves;
    CommitEvolves(cfg, s.db, s.now, |s.log|, s.txns[t], s.txns[u]);
    TxnStable(cfg, s.db, Apply(s.db, s.txns[t].writes, |s.log|), s.now, s.now, s.txns[u]);
  }

  lemma CommitAnswers(cfg: Config, s: State, t: Tid, answered: bool)
    requires Enabled(cfg, s, Commit(t, answered)) && Inv(cfg, s)
    ensures var s' := Next(cfg, s, Commit(t, answered));
            forall n | n in s'.replies :: n < |s'.log|
  {
    hide DbOk, TxnOk;
    LogShape(s.log, s.txns[t].writes);
  }

  lemma CommitPublishes(cfg: Config, s: State, t: Tid)
    requires Inv(cfg, s) && t in s.txns
    ensures ProvidedOk(Apply(s.db, s.txns[t].writes, |s.log|).identities, LogAfter(s.log, s.txns[t].writes), s.rebound)
  {
    assert WritesOk(cfg, s.db, s.now, s.txns[t]);
    CommitProvided(s.db, s.log, s.txns[t], s.rebound);
  }

  lemma CommitOk(cfg: Config, s: State, t: Tid, answered: bool)
    requires Enabled(cfg, s, Commit(t, answered)) && Inv(cfg, s)
    ensures Inv(cfg, Next(cfg, s, Commit(t, answered)))
  {
    hide DbOk, TxnOk, LogAfter, Apply, ProvidedOk;
    var s' := Next(cfg, s, Commit(t, answered));
    CommitKeepsTables(cfg, s.db, s.now, s.log, s.txns[t]);
    CommitPublishes(cfg, s, t);
    CommitAnswers(cfg, s, t, answered);
    forall u | u in s'.txns
      ensures TxnOk(cfg, s'.db, s'.now, s'.txns[u])
    {
      CommitSpares(cfg, s, t, u);
    }
  }

  lemma RunStepOk(cfg: Config, s: State, t: Tid, ch: Choice)
    requires Inv(cfg, s) && Enabled(cfg, s, Run(t, ch))
    ensures Inv(cfg, Next(cfg, s, Run(t, ch)))
  {
    hide LogOk, SpentGone, TokensOk, RevocationOk, SessionsOk, ProvidedOk, AdmissionsOk, WithinQuota, WritesOk, Knows,
      Advance;
    AdvanceKeeps(cfg, s.db, s.now, s.txns[t], ch);
    ReplaceTxn(cfg, s, t, Advance(cfg, s.db, s.now, s.txns[t], ch).value.(at := s.now));
  }

  lemma EditStepOk(cfg: Config, s: State, t: Tid, op: EditOp)
    requires Inv(cfg, s) && Enabled(cfg, s, Edit(t, op))
    ensures Inv(cfg, Next(cfg, s, Edit(t, op)))
  {
    hide DbOk, TxnOk, EditStep;
    EditKeeps(cfg, s.db, s.now, s.txns[t], op);
    ReplaceTxn(cfg, s, t, EditStep(s.db, s.txns[t], op));
  }

  lemma StepOk(cfg: Config, s: State, step: Step)
    requires Inv(cfg, s) && Enabled(cfg, s, step)
    ensures Inv(cfg, Next(cfg, s, step))
  {
    hide DbOk, TxnOk;
    match step
    case Tick(dt) => TickOk(cfg, s, dt);
    case Begin(t, prog) => BeginOk(cfg, s, t, prog);
    case Run(t, ch) => RunStepOk(cfg, s, t, ch);
    case Edit(t, op) => EditStepOk(cfg, s, t, op);
    case Commit(t, answered) => CommitOk(cfg, s, t, answered);
    case Abort(t) =>
  }
}
