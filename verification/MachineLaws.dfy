/** What the statement-level requests do to single rows: which client token they accept, which row they remove, whom
    they sign out, and under which name. */
module MachineLaws {
  import opened Basics
  import opened Tables
  import opened Directory
  import opened Machine
  import opened MachineInvariant
  import opened MachineCommit
  import opened MachineTheorems
  import MachineAdmissions
  import opened LifecycleTheorems
  import W = Lifecycle
  import MA = MigrationApply
  import MV = MigrationValidate
  import RP = ResolutionPlan
  import Res = ResolutionApply
  import R = RequestLaws
  import L = LoginLaws

  /** While a request is open, the gate is there and open, in a version the program knows. */
  lemma OpenRequestsMeanOpenGate(site: W.Site, w: W.World, t: Tid)
    requires Arrives(site, w) && t in w.m.txns && !w.m.txns[t].prog.Editing?
    ensures var gate := w.m.db.gate; gate.Some? && gate.value.phase == Open && gate.value.version in {1, 2}
  {
    hide Arrives;
    ArrivesOk(site, w);
    hide Inv;
    assert !W.Idle(w);
  }

  /** A step of the operator leaves everything but the identity rows and the gate: accounts, players, mappings,
      generations, tokens, sessions, open transactions, the history and the clock. */
  lemma OperatorSpares(site: W.Site, w: W.World, step: W.WorldStep)
    requires W.Enabled(site, w, step) && !step.Runtime?
    ensures var m, m' := w.m, W.Next(site, w, step).m;
            m' == m.(db := m.db.(identities := m'.db.identities, gate := m'.db.gate), rebound := m'.rebound)
  {
    if step.Operate? {
      EffectSpares(site, w, step.tx);
    }
    hide Enabled, Next, W.Effect, W.Permitted, W.StatementEnabled, W.StartEnabled, W.Idle;
  }

  lemma EffectSpares(site: W.Site, w: W.World, tx: W.Transaction)
    requires W.Permitted(site, w, tx)
    ensures var m, m' := w.m, W.Effect(site, w, tx).m;
            m' == m.(db := m.db.(identities := m'.db.identities, gate := m'.db.gate), rebound := m'.rebound)
  {
    if tx.Stage? {
      hide W.Permitted;
    }
    hide W.StageEnabled, MA.Activatable, MA.ReadState, Res.CanApply, Res.CanRollback, Res.CanOpen, Res.Resolves,
      Res.Unresolves, W.NoLinks, RP.ValidResolution, MV.ValidPlan;
  }

  // ---- client tokens ----

  /** A request that has locked its token row has named no client token, or the one the row still has. */
  lemma AccessMatchesClient(cfg: Config, s: State, t: Tid)
    requires Reachable(cfg, s) && t in s.txns && s.txns[t].prog.Access? && s.txns[t].prog.access.pc >= 5
    ensures var v := s.txns[t].prog.access;
            && v.hash in s.db.tokens && (v.client == "" || v.client == s.db.tokens[v.hash].client)
  {
    hide Reachable, WritesOk, IdentitiesOk, GoalKnows;
    TxnNow(cfg, s, t);
    assert Knows(cfg, s.db, s.now, s.txns[t]);
  }

  // ---- Invalidate ----

  /** An Invalidate that commits removes at most the row of its hash, and that only under no client token or the row's;
      nothing else changes. */
  lemma DropIsExact(cfg: Config, s: State, t: Tid, answered: bool)
    requires Reachable(cfg, s) && t in s.txns && s.txns[t].prog.Drop? && Ready(s.txns[t].prog)
    ensures var v, db' := s.txns[t].prog.drop, Next(cfg, s, Commit(t, answered)).db;
            && (db' == s.db || (v.hash in s.db.tokens && db' == s.db.(tokens := s.db.tokens - {v.hash})))
            && (v.hash in s.db.tokens && v.hash !in db'.tokens ==>
                  v.client == "" || v.client == s.db.tokens[v.hash].client)
  {
    hide Reachable, IdentitiesOk, Apply, Knows, WritesOk;
    TxnNow(cfg, s, t);
    DropCommits(cfg, s.db, s.now, |s.log|, s.txns[t], s.txns[t].prog.drop);
  }

  lemma DropCommits(cfg: Config, db: Db, now: nat, serial: nat, txn: Txn, v: DropVars)
    requires TxnOk(cfg, db, now, txn) && txn.prog == Drop(v) && v.pc == 5
    ensures Apply(db, txn.writes, serial) == db.(tokens := db.tokens - txn.writes.kills) && txn.writes.kills <= {v.hash}
    ensures var db' := Apply(db, txn.writes, serial);
            && (db' == db || (v.hash in db.tokens && db' == db.(tokens := db.tokens - {v.hash})))
            && (v.hash in db.tokens && v.hash !in db'.tokens ==>
                  v.client == "" || v.client == db.tokens[v.hash].client)
  {
    assert LockedPart(db, txn) && DropKnows(db, txn, v);
    hide WritesOk, TxnOk;
    NarrowCommit(db, txn.writes, serial);
    hide Apply, LockedPart;
    if v.hash in txn.writes.kills {
      assert txn.writes.kills == {v.hash};
    } else {
      assert txn.writes.kills == {} && db.tokens - {} == db.tokens;
    }
  }

  /** The Invalidate is about to remove the row, or there is none but one issued later than `n`. */
  ghost predicate Doomed(s: State, t: Tid, n: nat)
  {
    t in s.txns && s.txns[t].prog.Drop? && s.txns[t].prog.drop.pc == 5 ==>
      var v := s.txns[t].prog.drop;
      || s.txns[t].writes.kills == {v.hash}
      || (v.hash in s.db.tokens ==> n <= s.db.tokens[v.hash].serial)
  }

  lemma DropStatement(cfg: Config, db: Db, now: nat, txn: Txn, ch: Choice)
    requires Advance(cfg, db, now, txn, ch).Some?
    ensures var next := Advance(cfg, db, now, txn, ch).value;
            next.prog.Drop? ==>
              && txn.prog.Drop? && next.prog.drop.hash == txn.prog.drop.hash && txn.prog.drop.pc != 5
              && (next.prog.drop.pc == 5 ==>
                    next.writes.kills == {next.prog.drop.hash} || next.prog.drop.hash !in db.tokens)
  {
    hide BoundIdentity, LookupUuid, ReadIdentity, IsEviction, LoginOwner, ViewIds, UniquePlayerName;
  }

  lemma DoomedByStep(cfg: Config, s: State, step: Step, t: Tid, n: nat)
    requires Enabled(cfg, s, step) && Doomed(s, t, n) && n <= |s.log|
    ensures Doomed(Next(cfg, s, step), t, n) && n <= |Next(cfg, s, step).log|
  {
    hide Starts, Advance, Apply, LogAfter, EditStep;
    match step
    case Run(u, ch) =>
      DropStatement(cfg, s.db, s.now, s.txns[u], ch);
    case Edit(u, op) =>
      EditStaysEdit(s.db, s.txns[u], op);
    case Commit(u, _) =>
      LogGrows(s.log, s.txns[u].writes);
      if t in s.txns && s.txns[t].prog.Drop?
         && s.txns[t].prog.drop.hash in Apply(s.db, s.txns[u].writes, |s.log|).tokens {
        CommitTokenRows(s.db, s.txns[u].writes, |s.log|, s.txns[t].prog.drop.hash);
      }
    case Begin(_, prog) =>
      if prog.Drop? {
        DropBegins(cfg, s.db, prog);
      }
    case _ =>
  }

  lemma DropBegins(cfg: Config, db: Db, prog: Prog)
    requires Starts(cfg, db, prog) && prog.Drop?
    ensures prog.drop.pc == 0
  {
  }

  lemma EditStaysEdit(db: Db, txn: Txn, op: EditOp)
    ensures EditStep(db, txn, op).prog == txn.prog
  {
  }

  lemma LogGrows(log: seq<Event>, w: Writes)
    ensures |log| <= |LogAfter(log, w)|
  {
  }

  lemma DoomedByWorldStep(site: W.Site, w: W.World, step: W.WorldStep, t: Tid, n: nat)
    requires W.Enabled(site, w, step) && Doomed(w.m, t, n) && n <= |w.m.log|
    ensures Doomed(W.Next(site, w, step).m, t, n) && n <= |W.Next(site, w, step).m.log|
  {
    if step.Runtime? {
      hide Enabled, Next, Doomed;
      DoomedByStep(w.cfg, w.m, step.step, t, n);
    } else {
      OperatorSpares(site, w, step);
      hide W.Next, W.Enabled;
    }
  }

  lemma {:induction false} DoomedByRun(site: W.Site, w: W.World, steps: seq<W.WorldStep>, w': W.World, t: Tid, n: nat)
    requires W.Execute(site, w, steps) == Some(w') && Doomed(w.m, t, n) && n <= |w.m.log|
    ensures Doomed(w'.m, t, n)
    decreases |steps|
  {
    hide W.Enabled, W.Next, Doomed;
    if steps != [] {
      DoomedByWorldStep(site, w, steps[0], t, n);
      DoomedByRun(site, W.Next(site, w, steps[0]), steps[1..], w', t, n);
    }
  }

  /** An Invalidate that opens and commits, whatever runs meanwhile, leaves no token row under its hash, unless one was
      issued after it had opened. */
  lemma DropRemoves(site: W.Site, w: W.World, steps: seq<W.WorldStep>, w': W.World, t: Tid, answered: bool)
    requires Arrives(site, w) && t !in w.m.txns && W.Execute(site, w, steps) == Some(w')
    requires t in w'.m.txns && w'.m.txns[t].prog.Drop? && W.Enabled(site, w', W.Runtime(Commit(t, answered)))
    ensures var h, db' := w'.m.txns[t].prog.drop.hash, W.Next(site, w', W.Runtime(Commit(t, answered))).m.db;
            h in db'.tokens ==> |w.m.log| <= db'.tokens[h].serial
  {
    hide Arrives, W.WorldOk, W.Execute, Apply, W.Next, W.Enabled;
    DoomedByRun(site, w, steps, w', t, |w.m.log|);
    ArrivesOk(site, w);
    W.WorldRunOk(site, w, steps, w');
    RuntimeCan(w');
    CommitsSo(site, w', t, answered);
    hide Doomed;
    DropLeaves(w'.cfg, w'.m, t, |w.m.log|);
  }

  lemma CommitsSo(site: W.Site, w: W.World, t: Tid, answered: bool)
    requires W.Enabled(site, w, W.Runtime(Commit(t, answered)))
    ensures t in w.m.txns && Ready(w.m.txns[t].prog)
    ensures W.Next(site, w, W.Runtime(Commit(t, answered))).m.db == Apply(w.m.db, w.m.txns[t].writes, |w.m.log|)
  {
    hide Apply;
  }

  lemma DropLeaves(cfg: Config, s: State, t: Tid, n: nat)
    requires Inv(cfg, s) && Doomed(s, t, n) && t in s.txns && s.txns[t].prog.Drop? && s.txns[t].prog.drop.pc == 5
    ensures var h, db' := s.txns[t].prog.drop.hash, Apply(s.db, s.txns[t].writes, |s.log|);
            h in db'.tokens ==> n <= db'.tokens[h].serial
  {
    assert TxnOk(cfg, s.db, s.now, s.txns[t]);
    hide Inv, TxnOk, Apply;
    DropCommits(cfg, s.db, s.now, |s.log|, s.txns[t], s.txns[t].prog.drop);
  }

  // ---- Signout and login ----

  /** A sign-out that commits: the account is there, is allowed, and has the password that was verified. Its generation
      rises by one, which is recorded, no token of it authorizes any more, and nothing else changes. */
  lemma LogoutIsExact(cfg: Config, s: State, t: Tid, answered: bool, h: Hash, client: string, at: nat)
    requires Reachable(cfg, s) && t in s.txns && s.txns[t].prog.Logout? && Ready(s.txns[t].prog)
    ensures var v, s' := s.txns[t].prog.logout, Next(cfg, s, Commit(t, answered));
            var uid := v.cred.uid;
            && uid in s.db.users && cfg.env.allowed(s.db.users[uid].permission, s.db.users[uid].verified)
            && cfg.env.verify(v.cred.password, s.db.users[uid].password)
            && s'.db == s.db.(subjects := s.db.subjects[uid := Base(s.db.subjects, uid) + 1])
            && s'.log == s.log + [Revoked(uid, SignedOut)]
            && (h in s.db.tokens && s.db.tokens[h].owner == uid ==>
                  Authorize(cfg.env, s'.db, h, client, at) == Err(Invalid))
  {
    hide Reachable, Inv, TxnOk, IdentitiesOk, Apply, LogAfter, Authorize;
    ReachableOk(cfg, s);
    TokensBelow(cfg, s, h);
    TxnNow(cfg, s, t);
    LogoutCommits(cfg, s.db, s.now, s.log, s.txns[t], s.txns[t].prog.logout);
    if h in s.db.tokens && s.db.tokens[h].owner == s.txns[t].prog.logout.cred.uid {
      StaleIsRefused(cfg.env, Next(cfg, s, Commit(t, answered)).db, h, client, at);
    }
  }

  lemma TokensBelow(cfg: Config, s: State, h: Hash)
    requires Inv(cfg, s)
    ensures h in s.db.tokens ==> s.db.tokens[h].generation <= Base(s.db.subjects, s.db.tokens[h].owner)
  {
    hide LogOk, SpentGone, RevocationOk, WithinQuota, SessionsOk, AdmissionsOk, ProvidedOk, TxnOk, IdentitiesOk;
    assert TokensOk(s.db, s.log);
  }

  lemma StaleIsRefused(env: Env, db: Db, h: Hash, client: string, at: nat)
    requires h in db.tokens && db.tokens[h].generation < Base(db.subjects, db.tokens[h].owner)
    ensures Authorize(env, db, h, client, at) == Err(Invalid)
  {
  }

  lemma LogoutCommits(cfg: Config, db: Db, now: nat, log: seq<Event>, txn: Txn, v: LogoutVars)
    requires TxnOk(cfg, db, now, txn) && txn.prog == Logout(v) && v.pc == 3
    ensures var db', uid := Apply(db, txn.writes, |log|), v.cred.uid;
            && uid in db.users && cfg.env.allowed(db.users[uid].permission, db.users[uid].verified)
            && cfg.env.verify(v.cred.password, db.users[uid].password)
            && db' == db.(subjects := db.subjects[uid := Base(db.subjects, uid) + 1])
            && LogAfter(log, txn.writes) == log + [Revoked(uid, SignedOut)]
  {
    assert LogoutKnows(cfg, db, txn, v);
    hide WritesOk, TxnOk;
    EmptyMerge(db.users);
    EmptyMerge(db.players);
    EmptyMerge(db.sessions);
    assert db.identities + map[] == db.identities && db.tokens - {} == db.tokens;
    assert db.subjects + map[v.cred.uid := Base(db.subjects, v.cred.uid) + 1]
        == db.subjects[v.cred.uid := Base(db.subjects, v.cred.uid) + 1];
  }

  /** The rows a committed login leaves: its own, for the account, generation, client and profile it worked with,
      and all others but those that made way. These counted when they were chosen, and are older than every
      counting one that stays. */
  lemma LoginLeavesRows(cfg: Config, s: State, t: Tid, answered: bool)
    requires Reachable(cfg, s) && t in s.txns && s.txns[t].prog.Login? && Ready(s.txns[t].prog)
    ensures var v, s' := s.txns[t].prog.login, Next(cfg, s, Commit(t, answered));
            var uid := v.cred.uid;
            && |s.log| < |s'.log| && s'.log[|s.log|].LoggedIn?
            && var h, row := s'.log[|s.log|].hash, s'.log[|s.log|].row;
            && h !in s.db.tokens && h in s'.db.tokens && s'.db.tokens[h] == row
            && row.owner == uid && row.client == v.client && row.generation == v.gen
            && row.identity == (if v.chosen.Some? then Some(v.chosen.value.id) else None)
            && v.evictAt <= row.created <= s.now && row.expires == row.created + cfg.env.ttl
            && uid in s'.db.subjects && s'.db.subjects[uid] == v.gen
            && (forall k | k in s'.db.tokens && k != h :: k in s.db.tokens && s'.db.tokens[k] == s.db.tokens[k])
            && (forall k | k in s.db.tokens && k !in s'.db.tokens :: L.Counts(s.db.tokens[k], uid, v.gen, v.evictAt))
            && (forall k, m | k in s.db.tokens && k !in s'.db.tokens && m in s'.db.tokens && m != h
                              && L.Counts(s'.db.tokens[m], uid, v.gen, v.evictAt) ::
                  || s.db.tokens[k].created < s'.db.tokens[m].created
                  || (s.db.tokens[k].created == s'.db.tokens[m].created && k < m))
  {
    hide Reachable, IsEviction, Live, Apply, LogAfter, Advance, LoginEffect, Next, IdentitiesOk, WritesOk, Knows;
    LoginIsExact(cfg, s, t, answered);
    var v, s' := s.txns[t].prog.login, Next(cfg, s, Commit(t, answered));
    var h, row :| LoginEffect(cfg.env, s.db, s'.db, v, h, row, s.now)
                  && row.serial == |s.log| && s'.log == s.log + [LoggedIn(h, row)] + Provisions(v.profiles);
    assert s'.log[|s.log|] == LoggedIn(h, row);
    LimitIsPositive(cfg, s, t);
    L.EvictedAre(s.db.tokens, v.cred.uid, v.gen, v.limit, v.evictAt, v.victims);
    LoginEffectIs(cfg.env, s.db, s'.db, v, h, row, s.now);
  }

  lemma LoginEffectIs(env: Env, db: Db, db': Db, v: LoginVars, h: Hash, row: Token, now: nat)
    requires LoginEffect(env, db, db', v, h, row, now) && v.gen == Base(db'.subjects, v.cred.uid)
    requires forall k | k in v.victims :: k in db.tokens && L.Counts(db.tokens[k], v.cred.uid, v.gen, v.evictAt)
    requires forall k, m | k in v.victims && m in db.tokens && m !in v.victims
                           && L.Counts(db.tokens[m], v.cred.uid, v.gen, v.evictAt) ::
               || db.tokens[k].created < db.tokens[m].created
               || (db.tokens[k].created == db.tokens[m].created && k < m)
    ensures h !in db.tokens && h in db'.tokens && db'.tokens[h] == row
    ensures row.owner == v.cred.uid && row.client == v.client && row.generation == v.gen
    ensures row.identity == (if v.chosen.Some? then Some(v.chosen.value.id) else None)
    ensures v.evictAt <= row.created <= now && row.expires == row.created + env.ttl
    ensures v.cred.uid in db'.subjects && db'.subjects[v.cred.uid] == v.gen
    ensures forall k | k in db'.tokens && k != h :: k in db.tokens && db'.tokens[k] == db.tokens[k]
    ensures forall k | k in db.tokens && k !in db'.tokens :: L.Counts(db.tokens[k], v.cred.uid, v.gen, v.evictAt)
    ensures forall k, m | k in db.tokens && k !in db'.tokens && m in db'.tokens && m != h
                          && L.Counts(db'.tokens[m], v.cred.uid, v.gen, v.evictAt) ::
              || db.tokens[k].created < db'.tokens[m].created
              || (db.tokens[k].created == db'.tokens[m].created && k < m)
  {
    hide L.Counts;
  }

  lemma LimitIsPositive(cfg: Config, s: State, t: Tid)
    requires Reachable(cfg, s) && t in s.txns && s.txns[t].prog.Login?
    ensures s.txns[t].prog.login.limit > 0
  {
    hide Reachable, IdentitiesOk, WritesOk;
    TxnNow(cfg, s, t);
    assert Knows(cfg, s.db, s.now, s.txns[t]);
  }

  /** The credentials of a login or sign-out that is past its check of the name. */
  function Checked(s: State, t: Tid): Option<Credentials>
  {
    if t !in s.txns then None
    else match s.txns[t].prog
      case Login(v) => if v.pc >= 2 then Some(v.cred) else None
      case Logout(v) => if v.pc >= 2 then Some(v.cred) else None
      case _ => None
  }

  lemma CheckedByStatement(cfg: Config, db: Db, now: nat, txn: Txn, ch: Choice)
    requires Advance(cfg, db, now, txn, ch).Some?
    ensures var next := Advance(cfg, db, now, txn, ch).value;
            && (next.prog.Login? ==>
                  && txn.prog.Login? && next.prog.login.cred == txn.prog.login.cred
                  && (next.prog.login.pc >= 2 && txn.prog.login.pc < 2 ==>
                        LoginOwner(cfg.env, db, next.prog.login.cred.username) == Ok(next.prog.login.cred.uid)))
            && (next.prog.Logout? ==>
                  && txn.prog.Logout? && next.prog.logout.cred == txn.prog.logout.cred
                  && (next.prog.logout.pc >= 2 && txn.prog.logout.pc < 2 ==>
                        LoginOwner(cfg.env, db, next.prog.logout.cred.username) == Ok(next.prog.logout.cred.uid)))
  {
    hide BoundIdentity, LookupUuid, ReadIdentity, IsEviction, LoginOwner, UniquePlayerName;
  }

  lemma CheckedByStep(cfg: Config, s: State, step: Step, t: Tid)
    requires Enabled(cfg, s, step) && Checked(Next(cfg, s, step), t).Some?
    ensures var c := Checked(Next(cfg, s, step), t);
            Checked(s, t) == c || LoginOwner(cfg.env, s.db, c.value.username) == Ok(c.value.uid)
    ensures Checked(s, t) != Checked(Next(cfg, s, step), t) ==> Next(cfg, s, step).db == s.db
  {
    hide Starts, Advance, Apply, LogAfter, EditStep, LoginOwner;
    match step
    case Run(u, ch) =>
      CheckedByStatement(cfg, s.db, s.now, s.txns[u], ch);
    case Edit(u, op) =>
      EditStaysEdit(s.db, s.txns[u], op);
    case Begin(_, prog) =>
      NothingChecked(cfg, s.db, prog);
    case _ =>
  }

  lemma NothingChecked(cfg: Config, db: Db, prog: Prog)
    requires Starts(cfg, db, prog)
    ensures prog.Login? ==> prog.login.pc == 0
    ensures prog.Logout? ==> prog.logout.pc == 0
  {
  }

  lemma CheckedByWorldStep(site: W.Site, w: W.World, step: W.WorldStep, t: Tid)
    requires W.Enabled(site, w, step) && Checked(W.Next(site, w, step).m, t).Some?
    ensures var w', c := W.Next(site, w, step), Checked(W.Next(site, w, step).m, t);
            Checked(w.m, t) == c || R.StandsFor(w'.cfg.env, w'.m.db, c.value.username, c.value.uid)
  {
    if step.Runtime? {
      var c := Checked(W.Next(site, w, step).m, t).value;
      hide Enabled, Next, Checked, LoginOwner, R.StandsFor;
      CheckedByStep(w.cfg, w.m, step.step, t);
      R.OwnerExactly(w.cfg.env, w.m.db, c.username, c.uid);
    } else {
      OperatorSpares(site, w, step);
      hide W.Next, W.Enabled, R.StandsFor;
    }
  }

  /** A login or a sign-out that is past its check of the name found, at one moment since it opened, that the login name
      stands for its account: the only one with that e-mail address, or the owner of the only player so named. */
  lemma {:induction false} NameStoodFor(site: W.Site, w: W.World, steps: seq<W.WorldStep>, w': W.World, t: Tid)
    returns (k: nat, mid: W.World)
    requires W.Execute(site, w, steps) == Some(w') && t !in w.m.txns && Checked(w'.m, t).Some?
    ensures k <= |steps| && W.Execute(site, w, steps[..k]) == Some(mid)
    ensures var c := Checked(w'.m, t).value; R.StandsFor(mid.cfg.env, mid.m.db, c.username, c.uid)
    decreases |steps|
  {
    hide W.Enabled, W.Next, R.StandsFor;
    assert steps != [];
    var n := |steps| - 1;
    var prev := MachineAdmissions.LastStep(site, w, steps, w');
    CheckedByWorldStep(site, prev, steps[n], t);
    if Checked(prev.m, t) == Checked(w'.m, t) {
      k, mid := NameStoodFor(site, w, steps[..n], prev, t);
      assert steps[..n][..k] == steps[..k];
    } else {
      k, mid := |steps|, w';
      assert steps[..k] == steps;
    }
  }
}
