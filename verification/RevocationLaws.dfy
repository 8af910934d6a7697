/** What a change to an account does to the tokens of its owner, said of the account rows: one statement, one
    transaction, any run. */
module RevocationLaws {
  import opened Basics
  import opened Tables
  import opened Directory
  import opened Machine
  import opened MachineInvariant
  import opened MachineTheorems
  import opened LifecycleTheorems
  import opened MachineLaws
  import W = Lifecycle

  // ---- one statement ----

  /** What one write of an account row leaves pending. The row is what was written. If the transaction itself saw the
      account with another password or permission, or deletes it, a revocation is noted and the pending generation
      rises by one; otherwise neither happens. Nothing else is touched. */
  lemma AccountWriteIsExact(db: Db, txn: Txn, uid: nat, user: Option<User>)
    ensures var next := EditStep(db, txn, PutUser(uid, user));
            var before, after := Merge(db.users, txn.writes.users), Merge(db.users, next.writes.users);
            var was, pending := db.subjects + txn.writes.subjects, db.subjects + next.writes.subjects;
            && after == (if user.Some? then before[uid := user.value] else before - {uid})
            && txn.writes.events <= next.writes.events
            && (if uid in before && (|| user.None? || user.value.password != before[uid].password
                                     || user.value.permission != before[uid].permission)
                then Revokes(next.writes.events, uid) && Base(pending, uid) == Base(was, uid) + 1
                     && |next.writes.events| == |txn.writes.events| + 1
                else pending == was && next.writes.events == txn.writes.events)
            && (forall v | v != uid :: Base(pending, v) == Base(was, v))
            && next.writes == txn.writes.(users := next.writes.users, subjects := next.writes.subjects,
                                          events := next.writes.events)
            && next.prog == txn.prog && UserRow(uid) in next.excl
  {
    hide Merge, EditStep, Revokes;
    AccountWriteShape(db, txn, uid, user);
    AccountWritten(db.users, txn.writes.users, uid, user);
    AccountNoted(db, txn, uid, user);
  }

  lemma AccountWriteShape(db: Db, txn: Txn, uid: nat, user: Option<User>)
    ensures var next := EditStep(db, txn, PutUser(uid, user));
            && next.writes == txn.writes.(users := txn.writes.users[uid := user], subjects := next.writes.subjects,
                                          events := next.writes.events)
            && next.prog == txn.prog && UserRow(uid) in next.excl
  {
    hide Merge;
  }

  lemma AccountWritten(users: map<nat, User>, w: map<nat, Option<User>>, uid: nat, user: Option<User>)
    ensures Merge(users, w[uid := user])
            == if user.Some? then Merge(users, w)[uid := user.value] else Merge(users, w) - {uid}
  {
  }

  lemma AccountNoted(db: Db, txn: Txn, uid: nat, user: Option<User>)
    ensures var next := EditStep(db, txn, PutUser(uid, user));
            var before := Merge(db.users, txn.writes.users);
            var was, pending := db.subjects + txn.writes.subjects, db.subjects + next.writes.subjects;
            && txn.writes.events <= next.writes.events
            && (if uid in before && (|| user.None? || user.value.password != before[uid].password
                                     || user.value.permission != before[uid].permission)
                then Revokes(next.writes.events, uid) && Base(pending, uid) == Base(was, uid) + 1
                     && |next.writes.events| == |txn.writes.events| + 1
                else pending == was && next.writes.events == txn.writes.events)
            && (forall v | v != uid :: Base(pending, v) == Base(was, v))
  {
    hide Merge;
    var next := EditStep(db, txn, PutUser(uid, user));
    var n := |txn.writes.events|;
    if |next.writes.events| == n + 1 {
      assert next.writes.events[n].Revoked?;
    }
  }

  // ---- one transaction ----

  /** A transaction of the account system that is open and has noted a revocation of this account. */
  predicate Marked(txns: map<Tid, Txn>, t: Tid, uid: nat)
  {
    t in txns && txns[t].prog.Editing? && Revokes(txns[t].writes.events, uid)
  }

  lemma EditKeepsMark(db: Db, txn: Txn, op: EditOp, uid: nat)
    requires Revokes(txn.writes.events, uid)
    ensures Revokes(EditStep(db, txn, op).writes.events, uid)
  {
    var k :| 0 <= k < |txn.writes.events| && txn.writes.events[k].Revoked? && txn.writes.events[k].uid == uid;
    assert EditStep(db, txn, op).writes.events[k] == txn.writes.events[k];
  }

  predicate Ends(step: W.WorldStep, t: Tid)
  {
    step.Runtime? && (step.step.Commit? || step.step.Abort?) && step.step.t == t
  }

  lemma StepKeepsMark(site: W.Site, w: W.World, step: W.WorldStep, t: Tid, uid: nat)
    requires W.Enabled(site, w, step) && Marked(w.m.txns, t, uid) && !Ends(step, t)
    ensures Marked(W.Next(site, w, step).m.txns, t, uid)
  {
    hide W.Permitted, Revokes, EditStep, Starts;
    if step.Runtime? && step.step.Edit? && step.step.t == t {
      EditKeepsMark(w.m.db, w.m.txns[t], step.step.op, uid);
      EditStaysEdit(w.m.db, w.m.txns[t], step.step.op);
    }
  }

  lemma {:induction false} RunKeepsMark(site: W.Site, w: W.World, steps: seq<W.WorldStep>, w': W.World, t: Tid,
                                        uid: nat)
    requires W.Execute(site, w, steps) == Some(w') && Marked(w.m.txns, t, uid)
    requires forall k :: 0 <= k < |steps| ==> !Ends(steps[k], t)
    ensures Marked(w'.m.txns, t, uid)
    decreases |steps|
  {
    hide W.Enabled, W.Next, Marked, Ends;
    if steps != [] {
      StepKeepsMark(site, w, steps[0], t, uid);
      RunKeepsMark(site, W.Next(site, w, steps[0]), steps[1..], w', t, uid);
    }
  }

  /** There and back again. A transaction writes another password or permission than it saw, or deletes the account;
      anything may follow in it and beside it, and the row it commits may equal the first. When it commits, the
      generation rises, and no token row that was there authorizes any more, at any time, for any client. */
  lemma ThereAndBackRevokes(site: W.Site, w: W.World, t: Tid, uid: nat, user: Option<User>, steps: seq<W.WorldStep>,
                            w1: W.World, answered: bool, h: Hash, client: string, at: nat)
    requires Arrives(site, w) && W.Enabled(site, w, W.Runtime(Edit(t, PutUser(uid, user))))
    requires var view := Merge(w.m.db.users, w.m.txns[t].writes.users);
             uid in view && (|| user.None? || user.value.password != view[uid].password
                             || user.value.permission != view[uid].permission)
    requires W.Execute(site, W.Next(site, w, W.Runtime(Edit(t, PutUser(uid, user)))), steps) == Some(w1)
    requires forall k :: 0 <= k < |steps| ==> !Ends(steps[k], t)
    requires W.Enabled(site, w1, W.Runtime(Commit(t, answered)))
    ensures var w2 := W.Next(site, w1, W.Runtime(Commit(t, answered)));
            && Base(w1.m.db.subjects, uid) < Base(w2.m.db.subjects, uid)
            && (h in w1.m.db.tokens && w1.m.db.tokens[h].owner == uid ==>
                  Authorize(w1.cfg.env, w2.m.db, h, client, at) == Err(Invalid))
  {
    var first := W.Next(site, w, W.Runtime(Edit(t, PutUser(uid, user))));
    AlterationMarks(site, w, t, uid, user);
    hide W.Next, Arrives, W.WorldOk, W.Enabled, Marked, EditStep, Merge, Authorize, W.Execute;
    RunKeepsMark(site, first, steps, w1, t, uid);
    ArrivesOk(site, w);
    W.WorldStepOk(site, w, W.Runtime(Edit(t, PutUser(uid, user))));
    W.WorldRunOk(site, first, steps, w1);
    RuntimeCan(w1);
    MarkedRevokes(w1.cfg, w1.m, t, uid, h, client, at);
    CommitsSo(site, w1, t, answered);
  }

  lemma AlterationMarks(site: W.Site, w: W.World, t: Tid, uid: nat, user: Option<User>)
    requires W.Enabled(site, w, W.Runtime(Edit(t, PutUser(uid, user))))
    requires var view := Merge(w.m.db.users, w.m.txns[t].writes.users);
             uid in view && (|| user.None? || user.value.password != view[uid].password
                             || user.value.permission != view[uid].permission)
    ensures Marked(W.Next(site, w, W.Runtime(Edit(t, PutUser(uid, user)))).m.txns, t, uid)
  {
    AccountNoted(w.m.db, w.m.txns[t], uid, user);
    AccountWriteShape(w.m.db, w.m.txns[t], uid, user);
    hide EditStep, Merge, Revokes;
  }

  lemma MarkedRevokes(cfg: Config, s: State, t: Tid, uid: nat, h: Hash, client: string, at: nat)
    requires Inv(cfg, s) && Marked(s.txns, t, uid)
    ensures var db' := Apply(s.db, s.txns[t].writes, |s.log|);
            && Base(s.db.subjects, uid) < Base(db'.subjects, uid)
            && (h in s.db.tokens && s.db.tokens[h].owner == uid ==>
                  Authorize(cfg.env, db', h, client, at) == Err(Invalid))
  {
    var txn := s.txns[t];
    MarkedKnows(cfg, s, t, uid);
    hide Inv;
    MarkRaises(s.db, txn, uid);
    EditsKeepTokens(s.db, txn, |s.log|);
    hide Apply, EditKnows, SubjectsPart, Authorize, Marked;
    if h in s.db.tokens && s.db.tokens[h].owner == uid {
      StaleIsRefused(cfg.env, Apply(s.db, txn.writes, |s.log|), h, client, at);
    }
  }

  lemma MarkedKnows(cfg: Config, s: State, t: Tid, uid: nat)
    requires Inv(cfg, s) && Marked(s.txns, t, uid)
    ensures SubjectsPart(s.db, s.txns[t]) && EditKnows(s.db, s.txns[t]) && TokensOk(s.db, s.log)
  {
    hide SubjectsPart, EditKnows, TokensOk, LockedPart, IssuePart, IdsPart, SessionsPart, EventsPart, LogOk, SpentGone,
      RevocationOk, WithinQuota, SessionsOk, AdmissionsOk, IdentitiesOk, Revokes, ProvidedOk, Compatible;
    assert TxnOk(cfg, s.db, s.now, s.txns[t]) && DbOk(cfg, s.db, s.now, s.log);
  }

  lemma MarkRaises(db: Db, txn: Txn, uid: nat)
    requires SubjectsPart(db, txn) && Revokes(txn.writes.events, uid)
    ensures Base(db.subjects, uid) < Base(db.subjects + txn.writes.subjects, uid)
  {
  }

  lemma EditsKeepTokens(db: Db, txn: Txn, serial: nat)
    requires EditKnows(db, txn)
    ensures Apply(db, txn.writes, serial).tokens == db.tokens
    ensures Apply(db, txn.writes, serial).subjects == db.subjects + txn.writes.subjects
  {
    assert db.tokens - {} == db.tokens;
  }

  // ---- any run ----

  lemma AlteredInStep(site: W.Site, w: W.World, step: W.WorldStep, uid: nat)
    requires W.WorldOk(w) && W.Enabled(site, w, step)
    ensures var w' := W.Next(site, w, step);
            && w.m.log <= w'.m.log
            && (Altered(w.m.db.users, w'.m.db.users, uid) ==> Revokes(w'.m.log[|w.m.log|..], uid))
  {
    RuntimeCan(w);
    if step.Runtime? {
      if step.step.Commit? {
        assert TxnOk(w.cfg, w.m.db, w.m.now, w.m.txns[step.step.t]);
        hide Inv, W.WorldOk, TxnOk, LogAfter, Apply, Revokes, Altered;
        CommitRevokes(w.cfg, w.m.db, w.m.now, w.m.log, w.m.txns[step.step.t], uid);
      } else {
        hide Inv, W.WorldOk, Starts, Advance, EditStep, LogAfter, Apply;
        assert W.Next(site, w, step).m.db == w.m.db && W.Next(site, w, step).m.log == w.m.log;
      }
    } else {
      hide Inv, W.WorldOk;
      OperatorSpares(site, w, step);
    }
  }

  /** An account that a run leaves without, or with another password or permission, was revoked on the way. */
  lemma {:induction false} AlterationIsRecorded(site: W.Site, w: W.World, steps: seq<W.WorldStep>, w': W.World,
                                                uid: nat)
    requires W.WorldOk(w) && W.Execute(site, w, steps) == Some(w')
    ensures w.m.log <= w'.m.log
    ensures Altered(w.m.db.users, w'.m.db.users, uid) ==> !NoneRevokedSince(w'.m.log, |w.m.log|, uid)
    decreases |steps|
  {
    hide W.WorldOk, W.Enabled, W.Next;
    if steps != [] {
      var mid := W.Next(site, w, steps[0]);
      W.WorldStepOk(site, w, steps[0]);
      AlteredInStep(site, w, steps[0], uid);
      AlterationIsRecorded(site, mid, steps[1..], w', uid);
      if Revokes(mid.m.log[|w.m.log|..], uid) {
        var k :| 0 <= k < |mid.m.log| - |w.m.log| && mid.m.log[|w.m.log|..][k].Revoked?
            && mid.m.log[|w.m.log|..][k].uid == uid;
        assert w'.m.log[|w.m.log| + k] == mid.m.log[|w.m.log|..][k];
      }
    }
  }

  /** The run so far, seen from its middle. */
  lemma {:induction false} ExecuteSplits(site: W.Site, w: W.World, steps: seq<W.WorldStep>, w': W.World, n: nat)
    returns (mid: W.World)
    requires n <= |steps| && W.Execute(site, w, steps) == Some(w')
    ensures W.Execute(site, w, steps[..n]) == Some(mid) && W.Execute(site, mid, steps[n..]) == Some(w')
    decreases n
  {
    hide W.Enabled, W.Next;
    if n == 0 {
      mid := w;
      assert steps[0..] == steps && steps[..0] == [];
    } else {
      mid := ExecuteSplits(site, W.Next(site, w, steps[0]), steps[1..], w', n - 1);
      assert steps[..n][1..] == steps[1..][..n - 1] && steps[1..][n - 1..] == steps[n..];
    }
  }

  /** End to end. If a token authorizes when a run of the installation ends, and the login it descends from was before
      the run, then in every state the run went through where its owner had an account, the account had the password
      and the permission it has at the end. */
  lemma AuthorizedMeansUnaltered(site: W.Site, w: W.World, steps: seq<W.WorldStep>, w': W.World, h: Hash,
                                 client: string, at: nat, n: nat, mid: W.World)
    requires Arrives(site, w) && W.Execute(site, w, steps) == Some(w') && n <= |steps|
    requires W.Execute(site, w, steps[..n]) == Some(mid)
    requires Authorize(w'.cfg.env, w'.m.db, h, client, at).Ok?
    requires h in w'.m.db.tokens && Birth(w'.m.log, w'.m.db.tokens[h].serial) < |w.m.log|
    ensures var uid := w'.m.db.tokens[h].owner;
            && uid in w'.m.db.users
            && (uid in mid.m.db.users ==>
                  && mid.m.db.users[uid].password == w'.m.db.users[uid].password
                  && mid.m.db.users[uid].permission == w'.m.db.users[uid].permission)
            && Base(w'.m.db.subjects, uid) == w'.m.db.tokens[h].generation
  {
    var uid := w'.m.db.tokens[h].owner;
    AuthorizedOwner(w'.cfg.env, w'.m.db, h, client, at);
    ArrivesOk(site, w);
    hide Arrives, W.WorldOk, Authorize, Birth, NoneRevokedSince, W.Execute;
    var same := ExecuteSplits(site, w, steps, w', n);
    assert same == mid;
    W.WorldRunOk(site, w, steps[..n], mid);
    W.WorldRunOk(site, w, steps, w');
    RuntimeCan(w');
    AlterationIsRecorded(site, w, steps[..n], mid, uid);
    AlterationIsRecorded(site, mid, steps[n..], w', uid);
    GrantNotRevoked(w'.cfg, w'.m, h, client, at);
    LaterToo(w'.m.log, Birth(w'.m.log, w'.m.db.tokens[h].serial), |mid.m.log|, uid);
  }

  lemma LaterToo(log: seq<Event>, from: nat, later: nat, uid: nat)
    requires NoneRevokedSince(log, from, uid) && from <= later
    ensures NoneRevokedSince(log, later, uid)
  {
  }

  lemma AuthorizedOwner(env: Env, db: Db, h: Hash, client: string, at: nat)
    requires Authorize(env, db, h, client, at).Ok?
    ensures h in db.tokens && db.tokens[h].owner in db.users
    ensures Base(db.subjects, db.tokens[h].owner) == db.tokens[h].generation
  {
    hide BoundIdentity;
  }

  lemma GrantNotRevoked(cfg: Config, s: State, h: Hash, client: string, at: nat)
    requires Inv(cfg, s) && Authorize(cfg.env, s.db, h, client, at).Ok? && h in s.db.tokens
    ensures NoneRevokedSince(s.log, Birth(s.log, s.db.tokens[h].serial), s.db.tokens[h].owner)
  {
    assert DbOk(cfg, s.db, s.now, s.log) && RevocationOk(s.db, s.log);
    hide Inv, DbOk;
    AuthorizedOwner(cfg.env, s.db, h, client, at);
  }
}
