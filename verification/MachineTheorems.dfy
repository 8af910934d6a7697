/** What holds in every reachable state and of every step taken from one. */
module MachineTheorems {
  import opened Basics
  import opened Tables
  import opened Directory
  import opened Machine
  import opened MachineInvariant
  import opened MachineCommit
  import Lifecycle
  import opened Cleanup

  /** A state of the service at some moment of the installation's life, whatever its operators did before. */
  ghost predicate Reachable(cfg: Config, s: State)
  {
    exists site, w0, steps, w :: Lifecycle.Initial(w0) && Lifecycle.Execute(site, w0, steps) == Some(w)
                                 && w.cfg == cfg && w.m == s
  }

  lemma ReachableOk(cfg: Config, s: State)
    requires Reachable(cfg, s)
    ensures Inv(cfg, s)
  {
    var site, w0, steps, w :| Lifecycle.Initial(w0) && Lifecycle.Execute(site, w0, steps) == Some(w) && w.cfg == cfg
        && w.m == s;
    Lifecycle.InitialOk(w0);
    Lifecycle.WorldRunOk(site, w0, steps, w);
    hide Inv;
  }

  /** What an open transaction knows, without the rest of the invariant. */
  lemma TxnNow(cfg: Config, s: State, t: Tid)
    requires Reachable(cfg, s) && t in s.txns
    ensures TxnOk(cfg, s.db, s.now, s.txns[t]) && IdentitiesOk(s.db.identities)
  {
    hide Reachable;
    ReachableOk(cfg, s);
    hide TxnOk, WithinQuota, LogOk, TokensOk, Reachable;
  }

  /** The tables after a commit that leaves users, players, identities and subjects alone. */
  lemma NarrowCommit(db: Db, w: Writes, serial: nat)
    requires w.users == map[] && w.players == map[] && w.identities == map[] && w.subjects == map[]
    ensures Apply(db, w, serial)
        == db.(tokens := CommitTokens(db.tokens, w, serial), sessions := Merge(db.sessions, w.sessions))
    ensures w.kills == {} && w.issue.None? ==> CommitTokens(db.tokens, w, serial) == db.tokens
    ensures w.sessions == map[] ==> Merge(db.sessions, w.sessions) == db.sessions
  {
    EmptyMerge(db.users);
    EmptyMerge(db.players);
    EmptyMerge(db.sessions);
    assert db.subjects + map[] == db.subjects && db.identities + map[] == db.identities;
    assert db.tokens - {} == db.tokens;
  }

  lemma EmptyMerge<K, V>(m: map<K, V>)
    ensures Merge(m, map[]) == m
  {
  }

  // ---- lineage ----

  /** Following the refresh chain back from any issued row ends at a login with the same owner, generation and
      client token, whose identity, if it had one, the row still carries. */
  lemma {:induction false} BirthIsLogin(log: seq<Event>, row: Token)
    requires LogOk(log) && row.serial < |log| && IssuesRow(log[row.serial], row)
    ensures var b := Birth(log, row.serial);
            b <= row.serial && log[b].LoggedIn? && Inherits(log[b].row, row)
    decreases row.serial
  {
    if log[row.serial].Refreshed? {
      BirthIsLogin(log, log[row.serial].prior);
    }
  }

  /** Each token row is consumed by at most one committed Refresh, and the row it consumes is one the service issued,
      which its successor inherits from. */
  lemma SingleWinnerAndLineage(cfg: Config, s: State, k: nat)
    requires Reachable(cfg, s) && k < |s.log| && s.log[k].Refreshed?
    ensures var e := s.log[k];
            && e.row.serial == k && e.prior.serial < k && IssuesRow(s.log[e.prior.serial], e.prior)
            && Inherits(e.prior, e.row)
            && (forall j :: 0 <= j < |s.log| && s.log[j].Refreshed? && s.log[j].prior.serial == e.prior.serial ==>
                    j == k)
            && (forall h | h in s.db.tokens :: s.db.tokens[h].serial != e.prior.serial)
  {
    hide Reachable;
    ReachableOk(cfg, s);
  }

  // ---- revocation ----

  /** If a token authorizes on the committed tables, then since the login at the start of its refresh chain no
      password change, permission change, deletion or sign-out of its owner has committed. */
  lemma NoAuthorizationAfterRevocation(cfg: Config, s: State, hash: Hash, client: string, at: nat)
    requires Reachable(cfg, s) && Authorize(cfg.env, s.db, hash, client, at).Ok?
    ensures hash in s.db.tokens
    ensures var row := s.db.tokens[hash];
            var b := Birth(s.log, row.serial);
            && b < |s.log| && s.log[b].LoggedIn? && Inherits(s.log[b].row, row)
            && NoneRevokedSince(s.log, b, row.owner)
  {
    hide Reachable;
    ReachableOk(cfg, s);
    var row := s.db.tokens[hash];
    BirthIsLogin(s.log, row);
    assert Base(s.db.subjects, row.owner) == row.generation;
  }

  /** Every transaction that has passed authorization and has not ended still holds a decision that the committed
      tables confirm: nothing can revoke the token before the transaction ends. */
  lemma AuthorizationHoldsToTheEnd(cfg: Config, s: State, t: Tid)
    requires Reachable(cfg, s) && t in s.txns && s.txns[t].prog.Access? && s.txns[t].prog.access.pc >= 8
    ensures var v := s.txns[t].prog.access;
            && v.hash in s.db.tokens
            && Authorize(cfg.env, s.db, v.hash, v.client, v.checkedAt)
               == Ok(Grant(v.owner, v.gen, s.db.tokens[v.hash].client, v.bound, s.db.tokens[v.hash].expires))
            && NoneRevokedSince(s.log, Birth(s.log, s.db.tokens[v.hash].serial), v.owner)
  {
    hide Reachable;
    ReachableOk(cfg, s);
    AccessAuthorizes(cfg, s, t);
    NoAuthorizationAfterRevocation(cfg, s, s.txns[t].prog.access.hash, s.txns[t].prog.access.client,
                                   s.txns[t].prog.access.checkedAt);
  }

  lemma AccessAuthorizes(cfg: Config, s: State, t: Tid)
    requires Inv(cfg, s) && t in s.txns && s.txns[t].prog.Access? && s.txns[t].prog.access.pc >= 8
    ensures var v := s.txns[t].prog.access;
            && v.hash in s.db.tokens && s.db.tokens[v.hash] == v.row && v.row.owner == v.owner
            && Authorize(cfg.env, s.db, v.hash, v.client, v.checkedAt)
               == Ok(Grant(v.owner, v.gen, v.row.client, v.bound, v.row.expires))
  {
    hide WritesOk, LogOk, SpentGone, TokensOk, RevocationOk, WithinQuota, SessionsOk, ProvidedOk, AdmissionsOk,
      GoalKnows;
    var v := s.txns[t].prog.access;
    assert Knows(cfg, s.db, s.now, s.txns[t]);
    if v.bound.Some? {
      var x := v.bound.value;
      ReadIdentityIff(s.db.identities, x.player, s.db.players[x.player], x);
      assert BoundIdentity(s.db, v.owner, x.id) == Ok(x);
    }
  }

  lemma OnlyEditsWriteUsers(cfg: Config, db: Db, now: nat, txn: Txn)
    requires Knows(cfg, db, now, txn) && !txn.prog.Editing?
    ensures txn.writes.users == map[]
  {
    match txn.prog
    case Login(_) =>
    case Access(_) =>
    case Logout(v) =>
    case Drop(_) =>
    case Ensure(_) =>
    case Sweep(_) =>
    case Names(_) =>
  }

  /** An account is there before, and afterwards it is gone or has another password or permission. */
  predicate Altered(users: map<nat, User>, users': map<nat, User>, uid: nat)
  {
    uid in users && (uid !in users' || users'[uid].password != users[uid].password
                                    || users'[uid].permission != users[uid].permission)
  }

  /** Generations never fall or disappear. A committed change of a password's bytes or of the permission, or a deletion,
      raises the owner's generation and is recorded, even when the final row equals the first. */
  lemma SecurityChangesRevoke(cfg: Config, s: State, step: Step, uid: nat)
    requires Reachable(cfg, s) && Enabled(cfg, s, step)
    ensures var s' := Next(cfg, s, step);
            && Base(s.db.subjects, uid) <= Base(s'.db.subjects, uid)
            && s.log <= s'.log
            && (uid in s.db.users && (|| uid !in s'.db.users
                                      || s'.db.users[uid].password != s.db.users[uid].password
                                      || s'.db.users[uid].permission != s.db.users[uid].permission) ==>
                    Revokes(s'.log[|s.log|..], uid))
            && (Revokes(s'.log[|s.log|..], uid) ==> Base(s.db.subjects, uid) < Base(s'.db.subjects, uid))
  {
    hide Reachable;
    if step.Commit? {
      TxnNow(cfg, s, step.t);
      hide TxnOk;
      CommitRevokes(cfg, s.db, s.now, s.log, s.txns[step.t], uid);
    } else {
      assert s.log[|s.log|..] == [];
    }
  }

  lemma CommitRevokes(cfg: Config, db: Db, now: nat, log: seq<Event>, txn: Txn, uid: nat)
    requires TxnOk(cfg, db, now, txn)
    ensures var db' := Apply(db, txn.writes, |log|);
            var log' := LogAfter(log, txn.writes);
            && Base(db.subjects, uid) <= Base(db'.subjects, uid)
            && log <= log'
            && (Altered(db.users, db'.users, uid) ==> Revokes(log'[|log|..], uid))
            && (Revokes(log'[|log|..], uid) ==> Base(db.subjects, uid) < Base(db'.subjects, uid))
  {
    var w := txn.writes;
    CommitSubjects(db, txn, |log|, uid);
    RecordedRevocations(log, w, uid);
    if uid in w.users && !Revokes(w.events, uid) {
      UnmarkedUser(cfg, db, now, txn, uid);
    }
    hide WritesOk, Knows, LogAfter, Revokes;
    assert Lookup(Merge(db.users, w.users), uid) == (if uid in w.users then w.users[uid] else Lookup(db.users, uid));
  }

  lemma RecordedRevocations(log: seq<Event>, w: Writes, uid: nat)
    ensures log <= LogAfter(log, w)
    ensures Revokes(LogAfter(log, w)[|log|..], uid) <==> Revokes(w.events, uid)
  {
    var more := IssueEvents(w, |log|) + w.events;
    assert LogAfter(log, w)[|log|..] == more;
    if Revokes(w.events, uid) {
      var k :| 0 <= k < |w.events| && w.events[k].Revoked? && w.events[k].uid == uid;
      assert more[|IssueEvents(w, |log|)| + k] == w.events[k];
    } else {
      IssueRevokesNothing(w, |log|, uid);
    }
  }

  lemma UnmarkedUser(cfg: Config, db: Db, now: nat, txn: Txn, uid: nat)
    requires Knows(cfg, db, now, txn) && !Revokes(txn.writes.events, uid) && uid in txn.writes.users
    ensures TriggerFires(Lookup(db.users, uid), txn.writes.users[uid]).None?
  {
    if !txn.prog.Editing? {
      OnlyEditsWriteUsers(cfg, db, now, txn);
    }
  }

  // ---- quota and eviction ----

  /** No account ever has more than the configured number of unexpired tokens of its current generation. */
  lemma QuotaHolds(cfg: Config, s: State, uid: nat, hashes: set<Hash>)
    requires Reachable(cfg, s)
    requires forall h | h in hashes :: h in s.db.tokens && s.db.tokens[h].owner == uid
                                       && s.now < s.db.tokens[h].expires && uid in s.db.subjects
                                       && s.db.tokens[h].generation == s.db.subjects[uid]
    ensures |hashes| <= cfg.quota
  {
    hide Reachable;
    ReachableOk(cfg, s);
    assert |Live(s.db.tokens, uid, Base(s.db.subjects, uid), s.now)| <= cfg.quota;
    SubsetSize(hashes, Live(s.db.tokens, uid, Base(s.db.subjects, uid), s.now));
  }

  /** The error "locked token eviction count changed" is unreachable: when the DELETE runs, all victims are there. */
  lemma EvictionCountNeverChanges(cfg: Config, s: State, t: Tid, ch: Choice)
    requires Reachable(cfg, s) && t in s.txns && s.txns[t].prog.Login? && s.txns[t].prog.login.pc == 10
    ensures s.txns[t].prog.login.victims <= s.db.tokens.Keys
    ensures Advance(cfg, s.db, s.now, s.txns[t], ch).Some?
  {
    hide Reachable, Inv, TxnOk, IdentitiesOk, Advance;
    TxnNow(cfg, s, t);
    VictimsPresent(cfg, s.db, s.now, s.txns[t], ch);
  }

  lemma VictimsPresent(cfg: Config, db: Db, now: nat, txn: Txn, ch: Choice)
    requires TxnOk(cfg, db, now, txn) && txn.prog.Login? && txn.prog.login.pc == 10
    ensures txn.prog.login.victims <= db.tokens.Keys && Advance(cfg, db, now, txn, ch).Some?
  {
    hide WritesOk, LoginProfiled, LoginIssued;
  }

  /** The row a login issues and the tables it leaves. */
  ghost predicate LoginEffect(env: Env, db: Db, db': Db, v: LoginVars, h: Hash, row: Token, now: nat)
  {
    && h !in db.tokens && db'.tokens == (db.tokens - v.victims)[h := row]
    && row.owner == v.cred.uid && row.generation == v.gen && row.client == v.client && row.identity == IdOf(v.chosen)
    && v.evictAt <= row.created <= now && row.expires == row.created + env.ttl
    && db'.users == db.users && db'.players == db.players && db'.sessions == db.sessions
    && db'.subjects == (if v.cred.uid in db.subjects then db.subjects else db.subjects[v.cred.uid := 1])
  }

  /** A login that commits replaces exactly the oldest live tokens by one whose hash was in no row, and at that instant
      the account still has the password that was verified and is still allowed. */
  lemma LoginIsExact(cfg: Config, s: State, t: Tid, answered: bool)
    requires Reachable(cfg, s) && t in s.txns && s.txns[t].prog.Login? && Ready(s.txns[t].prog)
    ensures var v := s.txns[t].prog.login;
            var s' := Next(cfg, s, Commit(t, answered));
            && v.cred.uid in s.db.users
            && cfg.env.allowed(s.db.users[v.cred.uid].permission, s.db.users[v.cred.uid].verified)
            && cfg.env.verify(v.cred.password, s.db.users[v.cred.uid].password)
            && v.gen == Base(s'.db.subjects, v.cred.uid) && v.evictAt <= s.now
            && IsEviction(s.db.tokens, Live(s.db.tokens, v.cred.uid, v.gen, v.evictAt), v.limit, v.victims)
            && exists h, row :: LoginEffect(cfg.env, s.db, s'.db, v, h, row, s.now)
                 && row.serial == |s.log| && s'.log == s.log + [LoggedIn(h, row)] + Provisions(v.profiles)
  {
    hide Reachable;
    TxnNow(cfg, s, t);
    LoginCommits(cfg, s.db, s.now, s.log, s.txns[t], s.txns[t].prog.login);
    hide IdentitiesOk, LoginKnows, WritesOk, LoginEffect, IsEviction, Apply;
    var i := s.txns[t].writes.issue.value;
    assert LoginEffect(cfg.env, s.db, Next(cfg, s, Commit(t, answered)).db, s.txns[t].prog.login, i.hash,
                       Numbered(i, |s.log|), s.now);
  }

  lemma LoginCommits(cfg: Config, db: Db, now: nat, log: seq<Event>, txn: Txn, v: LoginVars)
    requires LoginKnows(cfg, db, now, txn, v) && txn.at <= now && IssuePart(cfg, db, now, txn) && v.pc == 11
    ensures var w := txn.writes;
            && v.cred.uid in db.users && cfg.env.allowed(db.users[v.cred.uid].permission, db.users[v.cred.uid].verified)
            && cfg.env.verify(v.cred.password, db.users[v.cred.uid].password)
            && v.gen == Base(Apply(db, w, |log|).subjects, v.cred.uid) && v.evictAt <= now
            && IsEviction(db.tokens, Live(db.tokens, v.cred.uid, v.gen, v.evictAt), v.limit, v.victims)
            && w.issue.Some?
            && LoginEffect(cfg.env, db, Apply(db, w, |log|), v, w.issue.value.hash, Numbered(w.issue.value, |log|), now)
            && LogAfter(log, w) == log + [LoggedIn(w.issue.value.hash,
                                                   Numbered(w.issue.value, |log|))] + Provisions(v.profiles)
  {
    EmptyMerge(db.users);
    EmptyMerge(db.players);
    EmptyMerge(db.sessions);
    hide IsEviction, LoginProfiled;
    assert db.subjects + map[] == db.subjects;
    assert db.subjects + map[v.cred.uid := 1] == db.subjects[v.cred.uid := 1];
  }

  /** The decision on a token once its account and its identity are known to be good. */
  lemma GrantFor(env: Env, db: Db, h: Hash, x: Option<Identity>, client: string, at: nat)
    requires IdentitiesOk(db.identities) && h in db.tokens
    requires var row := db.tokens[h];
             && row.owner in db.users && env.allowed(db.users[row.owner].permission, db.users[row.owner].verified)
             && row.owner in db.subjects && db.subjects[row.owner] == row.generation && row.identity == IdOf(x)
             && (x.Some? ==> PlayerHas(db, x.value) && x.value.owner == row.owner)
    ensures var row := db.tokens[h];
            Authorize(env, db, h, client, at)
            == if at < row.expires && MatchesClient(row.client, client)
               then Ok(Grant(row.owner, row.generation, row.client, x, row.expires)) else Err(Invalid)
  {
    hide IdentitiesOk;
    if x.Some? {
      ReadIdentityIff(db.identities, x.value.player, db.players[x.value.player], x.value);
    }
  }

  /** The player of a published identity has it, under its present name and account. */
  ghost predicate PlayerHas(db: Db, x: Identity)
  {
    && x.player in db.players && db.players[x.player] == Player(x.owner, x.name)
    && Carries(db.identities, x.id, x.player, x.uuid)
  }

  /** The token a login issues works from the instant it is committed until it expires, for its client, and carries
      exactly the profile that was chosen: with an e-mail the account's only one, with a player name one whose
      player bears it. */
  lemma LoginAuthorizes(cfg: Config, s: State, t: Tid, answered: bool, client: string, at: nat)
    requires Reachable(cfg, s) && t in s.txns && s.txns[t].prog.Login? && Ready(s.txns[t].prog)
    ensures var v := s.txns[t].prog.login;
            var s' := Next(cfg, s, Commit(t, answered));
            && |s.log| < |s'.log| && s'.log[|s.log|].LoggedIn?
            && var e := s'.log[|s.log|];
            && Authorize(cfg.env, s'.db, e.hash, client, at)
               == (if at < e.row.expires && MatchesClient(v.client, client)
                   then Ok(Grant(v.cred.uid, v.gen, v.client, v.chosen, e.row.expires)) else Err(Invalid))
            && (v.chosen.Some? ==>
                  && v.chosen.value in v.profiles && v.chosen.value.player in s'.db.players
                  && s'.db.players[v.chosen.value.player] == Player(v.cred.uid, v.chosen.value.name))
            && (if '@' in v.cred.username then
                  v.chosen == if |v.profiles| == 1 then Some(v.profiles[0]) else None
                else v.chosen.Some? && cfg.env.key(v.chosen.value.name) == cfg.env.key(v.cred.username))
  {
    hide Reachable, IdentitiesOk, Authorize, Apply, LogAfter, Knows, WritesOk;
    TxnNow(cfg, s, t);
    LoginGrants(cfg, s.db, s.now, s.log, s.txns[t], s.txns[t].prog.login, client, at);
  }

  lemma LoginGrants(cfg: Config, db: Db, now: nat, log: seq<Event>, txn: Txn, v: LoginVars, client: string, at: nat)
    requires IdentitiesOk(db.identities) && TxnOk(cfg, db, now, txn) && txn.prog == Login(v) && v.pc == 11
    ensures var db', log' := Apply(db, txn.writes, |log|), LogAfter(log, txn.writes);
            && |log| < |log'| && log'[|log|].LoggedIn?
            && var e := log'[|log|];
            && Authorize(cfg.env, db', e.hash, client, at)
               == (if at < e.row.expires && MatchesClient(v.client, client)
                   then Ok(Grant(v.cred.uid, v.gen, v.client, v.chosen, e.row.expires)) else Err(Invalid))
            && (v.chosen.Some? ==> v.chosen.value in v.profiles && PlayerHas(db', v.chosen.value)
                                   && v.chosen.value.owner == v.cred.uid)
            && ChosenFor(cfg.env, v)
  {
    assert WritesOk(cfg, db, now, txn) && LoginKnows(cfg, db, now, txn, v);
    LoginCommits(cfg, db, now, log, txn, v);
    CommitIdentities(cfg, db, txn, |log|);
    LoginHas(cfg, db, txn, v, |log|);
    var i := txn.writes.issue.value;
    hide Apply, WritesOk, LoginProfiled, LoginCounted, IdentitiesOk, Authorize, PlayerHas, ChosenFor, IsEviction,
      LogAfter;
    GrantFor(cfg.env, Apply(db, txn.writes, |log|), i.hash, v.chosen, client, at);
  }

  lemma LoginHas(cfg: Config, db: Db, txn: Txn, v: LoginVars, serial: nat)
    requires LoginProfiled(cfg, db, txn, v) && v.pc == 11 && txn.writes.players == map[]
    ensures v.chosen.Some? ==> v.chosen.value in v.profiles && PlayerHas(Apply(db, txn.writes, serial), v.chosen.value)
                               && v.chosen.value.owner == v.cred.uid
    ensures ChosenFor(cfg.env, v)
  {
    EmptyMerge(db.players);
  }

  // ---- refresh ----

  /** The effect of a refresh on the tables, as one atomic operation. */
  function RefreshEffect(db: Db, hash: Hash, next: Hash, row: Token): Db
  {
    db.(tokens := (db.tokens - {hash})[next := row])
  }

  /** A refresh that commits does, to the tables as they are at that instant, what one atomic refresh would do:
      the old token authorizes, the new one differs in hash and inherits from it, and nothing else changes. */
  lemma RefreshIsAtomic(cfg: Config, s: State, t: Tid, answered: bool)
    requires Reachable(cfg, s) && t in s.txns && s.txns[t].prog.Access? && Ready(s.txns[t].prog)
    requires s.txns[t].prog.access.goal.Refresh?
    ensures var v := s.txns[t].prog.access;
            var s' := Next(cfg, s, Commit(t, answered));
            && Authorize(cfg.env, s.db, v.hash, v.client, v.checkedAt).Ok? && v.checkedAt <= s.now
            && v.hash in s.db.tokens && s.db.tokens[v.hash].owner == v.owner
            && exists next, row ::
                 && next !in s.db.tokens && s'.db == RefreshEffect(s.db, v.hash, next, row)
                 && Inherits(s.db.tokens[v.hash], row) && row.expires == row.created + cfg.env.ttl
                 && v.checkedAt <= row.created <= s.now
                 && s'.log == s.log + [Refreshed(s.db.tokens[v.hash], next, row)]
                 && (v.goal.selected.Some? ==>
                       row.identity.Some? && row.identity.value in s.db.identities
                       && s.db.identities[row.identity.value].uuid == Some(v.goal.selected.value)
                       && s.db.identities[row.identity.value].state == Active)
                 && (v.goal.selected.None? ==> row.identity == s.db.tokens[v.hash].identity)
  {
    hide Reachable, IdentitiesOk, Authorize, LockedPart, SubjectsPart, IdsPart, SessionsPart, EventsPart,
      NoneRevokedSince, Birth;
    AuthorizationHoldsToTheEnd(cfg, s, t);
    TxnNow(cfg, s, t);
    var v := s.txns[t].prog.access;
    var w := s.txns[t].writes;
    assert GoalKnows(cfg, s.db, s.now, s.txns[t], v) && IssuePart(cfg, s.db, s.now, s.txns[t]);
    var i := w.issue.value;
    NarrowCommit(s.db, w, |s.log|);
    assert Next(cfg, s, Commit(t, answered)).db == RefreshEffect(s.db, v.hash, i.hash, Numbered(i, |s.log|));
  }

  /** After a committed refresh the old token is refused and the new one works, for the same client and account,
      under the profile it was bound to or the one that was selected, until it expires. */
  lemma RefreshAuthorizes(cfg: Config, s: State, t: Tid, answered: bool, client: string, at: nat)
    requires Reachable(cfg, s) && t in s.txns && s.txns[t].prog.Access? && Ready(s.txns[t].prog)
    requires s.txns[t].prog.access.goal.Refresh?
    ensures var v := s.txns[t].prog.access;
            var s' := Next(cfg, s, Commit(t, answered));
            && |s.log| < |s'.log| && s'.log[|s.log|].Refreshed?
            && var e := s'.log[|s.log|];
            && Authorize(cfg.env, s'.db, v.hash, client, at) == Err(Invalid)
            && Authorize(cfg.env, s'.db, e.hash, client, at)
               == (if at < e.row.expires && MatchesClient(v.row.client, client)
                   then Ok(Grant(v.owner, v.gen, v.row.client, v.picked, e.row.expires)) else Err(Invalid))
            && (v.picked.Some? ==>
                  && v.picked.value.player in s'.db.players
                  && s'.db.players[v.picked.value.player] == Player(v.owner, v.picked.value.name))
            && (v.bound.Some? ==> v.picked == v.bound)
            && (v.goal.selected.Some? ==> v.picked.Some? && v.picked.value.uuid == v.goal.selected.value)
  {
    hide Reachable, IdentitiesOk, Authorize, Apply, LogAfter, Knows, WritesOk;
    TxnNow(cfg, s, t);
    RefreshGrants(cfg, s.db, s.now, s.log, s.txns[t], s.txns[t].prog.access, client, at);
  }

  lemma RefreshGrants(cfg: Config, db: Db, now: nat, log: seq<Event>, txn: Txn, v: AccessVars, client: string, at: nat)
    requires IdentitiesOk(db.identities) && TxnOk(cfg, db, now, txn) && txn.prog == Access(v) && v.pc == 11
    requires v.goal.Refresh?
    ensures var db', log' := Apply(db, txn.writes, |log|), LogAfter(log, txn.writes);
            && |log| < |log'| && log'[|log|].Refreshed?
            && var e := log'[|log|];
            && Authorize(cfg.env, db', v.hash, client, at) == Err(Invalid)
            && Authorize(cfg.env, db', e.hash, client, at)
               == (if at < e.row.expires && MatchesClient(v.row.client, client)
                   then Ok(Grant(v.owner, v.gen, v.row.client, v.picked, e.row.expires)) else Err(Invalid))
            && (v.picked.Some? ==> PlayerHas(db', v.picked.value) && v.picked.value.owner == v.owner)
            && (v.bound.Some? ==> v.picked == v.bound)
            && (v.goal.selected.Some? ==> v.picked.Some? && v.picked.value.uuid == v.goal.selected.value)
  {
    assert AccessKnows(cfg, db, now, txn, v) && GoalKnows(cfg, db, now, txn, v) && IssuePart(cfg, db, now, txn);
    NarrowCommit(db, txn.writes, |log|);
    var i := txn.writes.issue.value;
    hide Apply, WritesOk, IdentitiesOk, Authorize, Live;
    assert v.hash !in Apply(db, txn.writes, |log|).tokens;
    assert Authorize(cfg.env, Apply(db, txn.writes, |log|), v.hash, client, at) == Err(Invalid) by {
      GoneIsRefused(cfg.env, Apply(db, txn.writes, |log|), v.hash, client, at);
    }
    GrantFor(cfg.env, Apply(db, txn.writes, |log|), i.hash, v.picked, client, at);
  }

  lemma GoneIsRefused(env: Env, db: Db, h: Hash, client: string, at: nat)
    requires h !in db.tokens
    ensures Authorize(env, db, h, client, at) == Err(Invalid)
  {
  }

  // ---- identities ----

  /** All requests that were given an identity for one player since operators last changed a row were given the
      same one, and the player still has it. */
  lemma IdentitiesConverge(cfg: Config, s: State, j: nat, k: nat)
    requires Reachable(cfg, s) && s.rebound <= j < |s.log| && s.rebound <= k < |s.log|
    requires s.log[j].Provided? && s.log[k].Provided? && s.log[j].pid == s.log[k].pid
    ensures s.log[j].id == s.log[k].id && s.log[j].uuid == s.log[k].uuid
    ensures s.log[j].id in s.db.identities && s.db.identities[s.log[j].id].state == Active
    ensures s.db.identities[s.log[j].id].player == Some(s.log[j].pid)
    ensures s.db.identities[s.log[j].id].uuid == Some(s.log[j].uuid)
  {
    hide Reachable;
    ReachableOk(cfg, s);
    var a, b := s.log[j], s.log[k];
    assert Conflict(s.db.identities[a.id], s.db.identities[b.id]) ==> a.id == b.id;
  }

  /** No step alters an identity row; a row that a step adds is an active one for a player above the watermark. */
  lemma BindingsAreForever(cfg: Config, s: State, step: Step, i: nat)
    requires Reachable(cfg, s) && Enabled(cfg, s, step)
    ensures var ids, ids' := s.db.identities, Next(cfg, s, step).db.identities;
            && (i in ids ==> i in ids' && ids'[i] == ids[i])
            && (i in ids' && i !in ids ==>
                  && ids'[i].player.Some? && ids'[i].player.value > cfg.watermark
                  && ids'[i].uuid.Some? && ids'[i] == NewRow(ids'[i].player.value, ids'[i].uuid.value))
  {
    hide Reachable;
    ReachableOk(cfg, s);
    if step.Commit? {
      assert IdsPart(cfg, s.db, s.txns[step.t]);
    }
  }

  /** A committed EnsureIdentity leaves its player with the identity it reports. */
  lemma EnsureIsBound(cfg: Config, s: State, t: Tid, answered: bool)
    requires Reachable(cfg, s) && t in s.txns && s.txns[t].prog.Ensure? && Ready(s.txns[t].prog)
    ensures var v := s.txns[t].prog.ensure;
            var s' := Next(cfg, s, Commit(t, answered));
            && v.found.Some? && v.pid in s.db.players
            && v.found.value.id in s'.db.identities && s'.db.identities[v.found.value.id].state == Active
            && s'.db.identities[v.found.value.id].player == Some(v.pid)
            && s'.db.identities[v.found.value.id].uuid == Some(v.found.value.uuid)
            && Provided(v.pid, v.found.value.id, v.found.value.uuid) in s'.log
            && s'.db == s.db.(identities := s'.db.identities)
  {
    hide Reachable, IdentitiesOk, TxnOk, Apply, LogAfter;
    TxnNow(cfg, s, t);
    EnsureCommits(cfg, s.db, s.now, s.log, s.txns[t], s.txns[t].prog.ensure);
  }

  lemma EnsureCommits(cfg: Config, db: Db, now: nat, log: seq<Event>, txn: Txn, v: EnsureVars)
    requires TxnOk(cfg, db, now, txn) && txn.prog == Ensure(v) && v.pc == 3
    ensures var db' := Apply(db, txn.writes, |log|);
            && v.found.Some? && v.pid in db.players
            && Carries(db'.identities, v.found.value.id, v.pid, v.found.value.uuid)
            && Provided(v.pid, v.found.value.id, v.found.value.uuid) in LogAfter(log, txn.writes)
            && db' == db.(identities := db'.identities)
  {
    hide WritesOk, IdentitiesOk;
    EmptyMerge(db.users);
    EmptyMerge(db.players);
    EmptyMerge(db.sessions);
    assert db.subjects + map[] == db.subjects;
    assert db.tokens - {} == db.tokens;
    LogShape(log, txn.writes);
  }

  // ---- join sessions ----

  /** An unexpired session row is never replaced, rebound, extended or removed. */
  lemma UnexpiredSessionsStay(cfg: Config, s: State, step: Step, server: string)
    requires Reachable(cfg, s) && Enabled(cfg, s, step)
    requires server in s.db.sessions && s.now < s.db.sessions[server].expires
    ensures server in Next(cfg, s, step).db.sessions
    ensures Next(cfg, s, step).db.sessions[server] == s.db.sessions[server]
  {
    hide Reachable;
    ReachableOk(cfg, s);
    if step.Commit? {
      assert SessionsPart(s.db, s.now, s.txns[step.t]);
    }
  }

  /** A successful HasJoined changes nothing. When it ends its token still authorizes, the token's player still bears
      the name, and a Join for that server with that token and that address committed less than thirty seconds
      before its check. */
  lemma AdmissionIsJustified(cfg: Config, s: State, t: Tid, answered: bool)
    requires Reachable(cfg, s) && t in s.txns && s.txns[t].prog.Access? && Ready(s.txns[t].prog)
    requires s.txns[t].prog.access.goal.Admit?
    ensures var v := s.txns[t].prog.access;
            var s' := Next(cfg, s, Commit(t, answered));
            && s'.db == s.db && |s'.log| == |s.log| + 1
            && Authorize(cfg.env, s.db, v.hash, "", v.checkedAt).Ok?
            && Authorize(cfg.env, s.db, v.hash, "", v.checkedAt).value.identity == v.bound
            && v.bound.Some? && v.bound.value.player in Named(cfg.env.key, s.db.players, v.goal.name)
            && var e := s'.log[|s.log|];
            && e.Admitted? && e.server == v.goal.at && e.from == v.goal.from && e.hash == v.hash
            && e.pid == v.bound.value.player && v.checkedAt <= e.at <= s.now && e.at < s.db.tokens[v.hash].expires
            && exists j :: 0 <= j < |s.log| && s'.log[j].Joined? && s'.log[j].server == e.server
                 && s'.log[j].hash == v.hash && e.at < s'.log[j].at + 30_000_000
                 && (e.from.Some? ==> s'.log[j].ip == e.from.value)
  {
    hide Reachable, IdentitiesOk, Authorize, TxnOk, NoneRevokedSince, AdmissionsOk, UniquePlayerName, Apply, LogAfter,
      Birth;
    AuthorizationHoldsToTheEnd(cfg, s, t);
    AdmissionsAfter(cfg, s, t, answered);
    TxnNow(cfg, s, t);
    AdmissionCommits(cfg, s.db, s.now, s.log, s.txns[t], s.txns[t].prog.access);
    EveryAdmission(LogAfter(s.log, s.txns[t].writes), |s.log|);
  }

  /** The commit of an admission on the tables it is checked against. */
  lemma AdmissionCommits(cfg: Config, db: Db, now: nat, log: seq<Event>, txn: Txn, v: AccessVars)
    requires TxnOk(cfg, db, now, txn) && txn.prog == Access(v) && v.pc == 11 && v.goal.Admit?
    ensures var log' := LogAfter(log, txn.writes);
            && Apply(db, txn.writes, |log|) == db && |log'| == |log| + 1 && v.client == ""
            && v.bound.Some? && v.bound.value.player in Named(cfg.env.key, db.players, v.goal.name)
            && v.hash in db.tokens
            && var e := log'[|log|];
            && e.Admitted? && e.server == v.goal.at && e.from == v.goal.from && e.hash == v.hash
            && e.pid == v.bound.value.player && v.checkedAt <= e.at <= now && e.at < db.tokens[v.hash].expires
  {
    hide WritesOk, IdentitiesOk;
    NarrowCommit(db, txn.writes, |log|);
    assert LogAfter(log, txn.writes) == log + txn.writes.events;
  }

  lemma AdmissionsAfter(cfg: Config, s: State, t: Tid, answered: bool)
    requires Reachable(cfg, s) && t in s.txns && Ready(s.txns[t].prog)
    ensures AdmissionsOk(Next(cfg, s, Commit(t, answered)).log)
  {
    hide Reachable, DbOk, TxnOk, Apply, LogAfter;
    ReachableOk(cfg, s);
    AdmissionsKept(cfg, s.db, s.now, s.log, s.txns[t]);
  }

  lemma AdmissionsKept(cfg: Config, db: Db, now: nat, log: seq<Event>, txn: Txn)
    requires DbOk(cfg, db, now, log) && TxnOk(cfg, db, now, txn)
    ensures AdmissionsOk(LogAfter(log, txn.writes))
  {
    assert EventsPart(db, txn);
    hide EventsPart, LogAfter, LogOk, SpentGone, TokensOk, RevocationOk, WithinQuota, IdentitiesOk, Knows;
    CommitAdmissions(db, now, log, txn);
  }

  lemma EveryAdmission(log: seq<Event>, k: nat)
    requires AdmissionsOk(log) && k < |log| && log[k].Admitted?
    ensures JoinedBefore(log, k, log[k])
  {
  }

  /** A Join that commits leaves a session with its own token and address, and its token authorizes. */
  lemma JoinIsBound(cfg: Config, s: State, t: Tid, answered: bool)
    requires Reachable(cfg, s) && t in s.txns && s.txns[t].prog.Access? && Ready(s.txns[t].prog)
    requires s.txns[t].prog.access.goal.Join?
    ensures var v := s.txns[t].prog.access;
            var db' := Next(cfg, s, Commit(t, answered)).db;
            && Authorize(cfg.env, s.db, v.hash, "", v.checkedAt).Ok?
            && v.bound.Some? && v.bound.value.uuid == v.goal.profile
            && v.goal.server in db'.sessions
            && db'.sessions[v.goal.server].hash == v.hash && db'.sessions[v.goal.server].ip == v.goal.ip
            && db' == s.db.(sessions := db'.sessions)
            && (forall x | x != v.goal.server :: Lookup(db'.sessions, x) == Lookup(s.db.sessions, x))
  {
    hide Reachable, IdentitiesOk, Authorize, TxnOk, NoneRevokedSince, Apply, LogAfter, Birth, Lookup;
    AuthorizationHoldsToTheEnd(cfg, s, t);
    TxnNow(cfg, s, t);
    JoinCommits(cfg, s.db, s.now, |s.log|, s.txns[t], s.txns[t].prog.access);
  }

  lemma JoinCommits(cfg: Config, db: Db, now: nat, serial: nat, txn: Txn, v: AccessVars)
    requires TxnOk(cfg, db, now, txn) && txn.prog == Access(v) && v.pc == 11 && v.goal.Join?
    ensures var db' := Apply(db, txn.writes, serial);
            && v.client == "" && v.bound.Some? && v.bound.value.uuid == v.goal.profile && v.goal.server in db'.sessions
            && db'.sessions[v.goal.server].hash == v.hash && db'.sessions[v.goal.server].ip == v.goal.ip
            && db' == db.(sessions := db'.sessions)
            && (forall x | x != v.goal.server :: Lookup(db'.sessions, x) == Lookup(db.sessions, x))
  {
    hide WritesOk, IdentitiesOk;
    NarrowCommit(db, txn.writes, serial);
  }

  // ---- cleanup ----

  /** A cleanup that commits, whatever ran meanwhile, removes only rows that have expired, at most a batch from
      each table; so CleanupIsInvisible applies to it at every later time. */
  lemma SweepRemovesExpired(cfg: Config, s: State, t: Tid, answered: bool)
    requires Reachable(cfg, s) && t in s.txns && s.txns[t].prog.Sweep? && Ready(s.txns[t].prog)
    ensures var s' := Next(cfg, s, Commit(t, answered));
            && OnlyExpiredGone(s.db, s'.db, s.now) && s'.log == s.log
            && |s.db.tokens.Keys - s'.db.tokens.Keys| <= s.txns[t].prog.sweep.batch
            && |s.db.sessions.Keys - s'.db.sessions.Keys| <= s.txns[t].prog.sweep.batch
            && s'.db == s.db.(tokens := s'.db.tokens, sessions := s'.db.sessions)
            && (forall h | h in s'.db.tokens :: h in s.db.tokens && s'.db.tokens[h] == s.db.tokens[h])
            && (forall x | x in s'.db.sessions :: x in s.db.sessions && s'.db.sessions[x] == s.db.sessions[x])
            && (forall h | h in s.db.tokens && h !in s'.db.tokens :: s.db.tokens[h].expires <= s.now)
            && (forall x | x in s.db.sessions && x !in s'.db.sessions :: s.db.sessions[x].expires <= s.now)
  {
    hide Reachable, IdentitiesOk, TxnOk, Apply, LogAfter;
    TxnNow(cfg, s, t);
    SweepCommits(cfg, s.db, s.now, s.log, s.txns[t], s.txns[t].prog.sweep);
  }

  lemma SweepCommits(cfg: Config, db: Db, now: nat, log: seq<Event>, txn: Txn, v: SweepVars)
    requires TxnOk(cfg, db, now, txn) && txn.prog == Sweep(v)
    ensures var db' := Apply(db, txn.writes, |log|);
            && OnlyExpiredGone(db, db', now) && LogAfter(log, txn.writes) == log
            && |db.tokens.Keys - db'.tokens.Keys| <= v.batch && |db.sessions.Keys - db'.sessions.Keys| <= v.batch
  {
    assert SessionsPart(db, now, txn) && SweepKnows(db, now, txn, v);
    hide OnlyExpiredGone, WritesOk, Apply, SessionsPart;
    SweepOnly(db, now, |log|, txn, v);
    assert LogAfter(log, txn.writes) == log;
  }

  /** Pending deletions of sessions delete those rows, which have expired. */
  lemma SweepDeletes(db: Db, now: nat, txn: Txn, v: SweepVars)
    requires SweepKnows(db, now, txn, v) && SessionsPart(db, now, txn)
    ensures Merge(db.sessions, txn.writes.sessions) == db.sessions - txn.writes.sessions.Keys
    ensures forall x | x in txn.writes.sessions.Keys && x in db.sessions :: db.sessions[x].expires <= now
  {
  }

  lemma DeletedRows(db: Db, now: nat, hashes: set<Hash>, servers: set<string>)
    requires forall h | h in hashes && h in db.tokens :: db.tokens[h].expires <= now
    requires forall v | v in servers && v in db.sessions :: db.sessions[v].expires <= now
    ensures var db' := db.(tokens := db.tokens - hashes, sessions := db.sessions - servers);
            && OnlyExpiredGone(db, db', now)
            && |db.tokens.Keys - db'.tokens.Keys| <= |hashes| && |db.sessions.Keys - db'.sessions.Keys| <= |servers|
  {
    SubsetSize(db.tokens.Keys - (db.tokens - hashes).Keys, hashes);
    SubsetSize(db.sessions.Keys - (db.sessions - servers).Keys, servers);
  }

  lemma SweepOnly(db: Db, now: nat, serial: nat, txn: Txn, v: SweepVars)
    requires SweepKnows(db, now, txn, v) && SessionsPart(db, now, txn)
    ensures var db' := Apply(db, txn.writes, serial);
            && OnlyExpiredGone(db, db', now)
            && |db.tokens.Keys - db'.tokens.Keys| <= v.batch && |db.sessions.Keys - db'.sessions.Keys| <= v.batch
  {
    var w := txn.writes;
    assert w == NO_WRITES.(kills := w.kills, sessions := w.sessions) && |w.kills| <= v.batch;
    assert |w.sessions.Keys| <= v.batch;
    assert forall h | h in w.kills && h in db.tokens :: db.tokens[h].expires <= now;
    SweepDeletes(db, now, txn, v);
    NarrowCommit(db, w, serial);
    hide Merge, Apply, SweepKnows, SessionsPart, OnlyExpiredGone;
    DeletedRows(db, now, w.kills, w.sessions.Keys);
  }

  // ---- answers ----

  /** A step tells callers exactly what it commits, and only if its answer arrives. The history never changes. */
  lemma OnlyAnsweredIsPublished(cfg: Config, s: State, step: Step, n: nat)
    requires Enabled(cfg, s, step)
    ensures var s' := Next(cfg, s, step);
            && s.log <= s'.log
            && (n in s'.replies <==> n in s.replies || (step.Commit? && step.answered && |s.log| <= n < |s'.log|))
  {
    if step.Commit? {
      LogShape(s.log, s.txns[step.t].writes);
      assert Between(n, |s.log|, |LogAfter(s.log, s.txns[step.t].writes)|)
             <==> |s.log| <= n < |LogAfter(s.log, s.txns[step.t].writes)|;
    }
  }

  /** What a caller has been told stays told, and nothing committed without an answer is ever told later. */
  lemma {:induction false} PublishedOrNever(cfg: Config, s: State, steps: seq<Step>, s': State, n: nat)
    requires Execute(cfg, s, steps) == Some(s') && n < |s.log|
    ensures s.log <= s'.log && (n in s'.replies <==> n in s.replies)
    decreases |steps|
  {
    hide Enabled, Next;
    if steps != [] {
      OnlyAnsweredIsPublished(cfg, s, steps[0], n);
      PublishedOrNever(cfg, Next(cfg, s, steps[0]), steps[1..], s', n);
    }
  }

  /** A commit whose answer is lost has its effect, but whatever it committed (a token, an identity, an admission)
      is told to no caller, then or at any later time. */
  lemma LostAnswerPublishesNothing(cfg: Config, s: State, t: Tid, steps: seq<Step>, s': State, n: nat)
    requires Reachable(cfg, s) && Enabled(cfg, s, Commit(t, false))
    requires Execute(cfg, Next(cfg, s, Commit(t, false)), steps) == Some(s')
    requires |s.log| <= n < |LogAfter(s.log, s.txns[t].writes)|
    ensures n < |s'.log| && s'.log[n] == LogAfter(s.log, s.txns[t].writes)[n] && n !in s'.replies
  {
    hide Reachable;
    ReachableOk(cfg, s);
    OnlyAnsweredIsPublished(cfg, s, Commit(t, false), n);
    hide Inv, Reachable, Enabled, Advance;
    PublishedOrNever(cfg, Next(cfg, s, Commit(t, false)), steps, s', n);
  }

  /** Everything a caller was ever told is committed history: a token is the row that serial names, a provided
      identity is the player's active row unless operators have moved rows since, an admission had its Join. */
  lemma PublishedIsCommitted(cfg: Config, s: State, n: nat)
    requires Reachable(cfg, s) && n in s.replies
    ensures n < |s.log|
    ensures s.log[n].LoggedIn? || s.log[n].Refreshed? ==> s.log[n].row.serial == n
    ensures s.log[n].Provided? && s.rebound <= n ==>
              Carries(s.db.identities, s.log[n].id, s.log[n].pid, s.log[n].uuid)
    ensures s.log[n].Admitted? ==> JoinedBefore(s.log, n, s.log[n])
  {
    hide Reachable;
    ReachableOk(cfg, s);
  }
}
