/** One account from its creation to the moment a game server admits its player, and what may go wrong with the
    name there. */
module Playing {
  import opened Basics
  import opened Uuids
  import opened Tables
  import opened Directory
  import opened Machine
  import opened MachineInvariant
  import opened MachineTheorems
  import opened MachineAdmissions
  import opened MachineProgress
  import Service
  import Profiles = AccountProfiles
  import Login = Authenticate
  import LoginProgress
  import Opening
  import Lifecycle

  // ---- runs of the service are runs of the installation ----

  lemma {:induction false} WorldFollows(site: Lifecycle.Site, w0: Lifecycle.World, before: seq<Lifecycle.WorldStep>,
                                        w: Lifecycle.World, steps: seq<Step>, s': State)
    returns (all: seq<Lifecycle.WorldStep>)
    requires Lifecycle.Execute(site, w0, before) == Some(w) && Execute(w.cfg, w.m, steps) == Some(s')
    ensures Lifecycle.Execute(site, w0, all) == Some(w.(m := s'))
    decreases |steps|
  {
    hide Enabled, Next;
    if steps == [] {
      all := before;
    } else {
      var step := Lifecycle.Runtime(steps[0]);
      Lifecycle.ExecuteAppend(site, w0, before, w, step);
      all := WorldFollows(site, w0, before + [step], w.(m := Next(w.cfg, w.m, steps[0])), steps[1..], s');
    }
  }

  lemma ReachableLeads(cfg: Config, s: State, s': State)
    requires Reachable(cfg, s) && Leads(cfg, s, s')
    ensures Reachable(cfg, s')
  {
    hide Execute, Lifecycle.Initial, Lifecycle.Execute;
    var site, w0, before, w :| Lifecycle.Initial(w0) && Lifecycle.Execute(site, w0, before) == Some(w) && w.cfg == cfg
        && w.m == s;
    var steps :| Execute(cfg, s, steps) == Some(s');
    var all := WorldFollows(site, w0, before, w, steps, s');
  }

  // ---- a rival for the name ----

  /** The account system gives a player a name, in one transaction. */
  function Rename(u: Tid, q: nat, row: Player): seq<Step>
  {
    [Begin(u, Editing), Edit(u, PutPlayer(q, Some(row))), Commit(u, true)]
  }

  /** The open transactions and the tables after it. */
  function Renamed(s: State, u: Tid, q: nat, row: Player): State
  {
    s.(db := s.db.(players := s.db.players[q := row]))
  }

  /** Nothing stops another player from getting an equivalent name between the check and the commit of a HasJoined:
      in every state in which the request is ready, the account system can commit it, the request stays ready, and
      then two players bear the name. */
  lemma RivalCanAppear(cfg: Config, s: State, t: Tid, u: Tid, q: nat, row: Player)
    requires t in s.txns && s.txns[t].prog.Access? && s.txns[t].prog.access.goal.Admit? && Ready(s.txns[t].prog)
    requires u !in s.txns && (forall x | x in s.txns :: !Locks(s.txns[x], PlayerRow(q)))
    requires s.txns[t].prog.access.bound.Some? && q != s.txns[t].prog.access.bound.value.player
    requires cfg.env.key(row.name) == cfg.env.key(s.txns[t].prog.access.goal.name)
    ensures Execute(cfg, s, Rename(u, q, row)) == Some(Renamed(s, u, q, row))
    ensures var s' := Renamed(s, u, q, row);
            && s'.txns == s.txns && Enabled(cfg, s', Commit(t, true))
            && q in Named(cfg.env.key, s'.db.players, s.txns[t].prog.access.goal.name)
            && !BearsAlone(cfg.env, s'.db, s.txns[t].prog.access)
  {
    var txn0 := Txn(Editing, {}, {}, s.now, NO_WRITES);
    var s1 := s.(txns := s.txns[u := txn0]);
    assert Next(cfg, s, Begin(u, Editing)) == s1;
    var txn1 := EditStep(s.db, txn0, PutPlayer(q, Some(row)));
    var s2 := s.(txns := s.txns[u := txn1]);
    assert Enabled(cfg, s1, Edit(u, PutPlayer(q, Some(row)))) && Next(cfg, s1, Edit(u, PutPlayer(q, Some(row)))) == s2;
    OnlyPlayer(s.db, txn1.writes, |s.log|, q, row);
    assert s2.txns - {u} == s.txns;
    assert Next(cfg, s2, Commit(u, true)) == Renamed(s, u, q, row);
    RunsThree(cfg, s, Rename(u, q, row), s1, s2, Renamed(s, u, q, row));
  }

  lemma RunsThree(cfg: Config, s: State, steps: seq<Step>, s1: State, s2: State, s3: State)
    requires |steps| == 3 && Enabled(cfg, s, steps[0]) && Next(cfg, s, steps[0]) == s1
    requires Enabled(cfg, s1, steps[1]) && Next(cfg, s1, steps[1]) == s2
    requires Enabled(cfg, s2, steps[2]) && Next(cfg, s2, steps[2]) == s3
    ensures Execute(cfg, s, steps) == Some(s3)
  {
    hide Enabled, Next;
    assert Execute(cfg, s3, steps[1..][1..][1..]) == Some(s3);
    assert Execute(cfg, s2, steps[1..][1..]) == Some(s3);
    assert Execute(cfg, s1, steps[1..]) == Some(s3);
  }

  lemma OnlyPlayer(db: Db, w: Writes, serial: nat, q: nat, row: Player)
    requires w == NO_WRITES.(players := map[q := Some(row)])
    ensures Apply(db, w, serial) == db.(players := db.players[q := row])
  {
    assert db.subjects + map[] == db.subjects && db.tokens - {} == db.tokens && db.identities + map[] == db.identities;
    assert Merge(db.users, map[]) == db.users && Merge(db.sessions, map[]) == db.sessions;
    assert Merge(db.players, w.players) == db.players[q := row];
  }

  // ---- from an account to an admission ----

  /** Everything that is chosen freely: the account, its player, and the random candidates. */
  datatype Newcomer = Newcomer(uid: nat, user: User, password: string, pid: nat, name: string, id: nat, uuid: Uuid,
                               hash: Hash, client: string, server: string, ip: seq<int>)

  /** The account is new and allowed, its player is new, nobody has the name, and the candidates are unused. */
  ghost predicate Unknown(cfg: Config, db: Db, n: Newcomer)
  {
    && n.uid !in db.users && cfg.env.allowed(n.user.permission, n.user.verified)
    && cfg.env.verify(n.password, n.user.password)
    && n.pid > cfg.watermark && n.pid !in db.players && Named(cfg.env.key, db.players, n.name) == {} && '@' !in n.name
    && (forall p | p in db.players :: db.players[p].owner != n.uid)
    && n.id !in db.identities
    && (forall i | i in db.identities :: db.identities[i].uuid != Some(n.uuid)
                                         && db.identities[i].player != Some(n.pid))
    && n.hash !in db.tokens && n.server !in db.sessions
  }

  function Profile(n: Newcomer): Identity
  {
    Identity(n.id, n.pid, n.uuid, n.name, n.uid)
  }

  /** The account and its player are there. */
  ghost predicate Registered(cfg: Config, s: State, n: Newcomer)
  {
    && s.txns == map[] && ServiceOpen(s.db.gate) && Service.Watermark(s.db) == cfg.watermark
    && n.uid in s.db.users && s.db.users[n.uid] == n.user && cfg.env.allowed(n.user.permission, n.user.verified)
    && n.pid in s.db.players && s.db.players[n.pid] == Player(n.uid, n.name)
    && Named(cfg.env.key, s.db.players, n.name) == {n.pid}
    && n.hash !in s.db.tokens && n.server !in s.db.sessions
    && (forall p | p in s.db.players && s.db.players[p].owner == n.uid :: p == n.pid)
  }

  /** The player has its identity. */
  ghost predicate Identifiable(cfg: Config, s: State, n: Newcomer)
  {
    && IdentitiesOk(s.db.identities) && Carries(s.db.identities, n.id, n.pid, n.uuid)
  }

  lemma Registers(cfg: Config, s: State, t: Tid, n: Newcomer) returns (s': State)
    requires s.txns == map[] && ServiceOpen(s.db.gate) && Unknown(cfg, s.db, n)
    requires Service.Watermark(s.db) == cfg.watermark
    ensures Leads(cfg, s, s') && Registered(cfg, s', n) && s'.db.identities == s.db.identities
  {
    hide Leads;
    AccountIsCreated(cfg, s, t, n.uid, n.user, n.pid, Player(n.uid, n.name));
    s' :| Leads(cfg, s, s') && s'.txns == map[] && s'.now == s.now && s'.log == s.log
            && s'.db == s.db.(users := s.db.users[n.uid := n.user],
                              players := s.db.players[n.pid := Player(n.uid, n.name)]);
    forall p
      ensures p in Named(cfg.env.key, s'.db.players, n.name) <==> p == n.pid
    {
      assert p in s.db.players ==> p !in Named(cfg.env.key, s.db.players, n.name);
    }
  }

  lemma Identifies(cfg: Config, s: State, t: Tid, n: Newcomer) returns (s': State)
    requires Registered(cfg, s, n) && IdentitiesOk(s.db.identities) && n.pid > cfg.watermark && n.id !in s.db.identities
    requires forall i | i in s.db.identities ::
              s.db.identities[i].uuid != Some(n.uuid) && s.db.identities[i].player != Some(n.pid)
    ensures Leads(cfg, s, s') && Registered(cfg, s', n) && Identifiable(cfg, s', n)
  {
    hide Leads, Named;
    EnsureSucceeds(cfg, s, t, EnsureVars(0, n.pid, 0, None), n.id, n.uuid);
    var ids := ProvidedRows(s.db.identities, n.pid, s.db.players[n.pid], n.id, n.uuid);
    s' :| Leads(cfg, s, s') && s'.txns == map[] && s'.now == s.now && s'.db == s.db.(identities := ids);
    assert ids == s.db.identities[n.id := NewRow(n.pid, n.uuid)];
    NewRowFits(s.db.identities, n.id, n.pid, n.uuid);
  }

  /** The new player's token is in the table, bound to its profile. */
  ghost predicate HasToken(cfg: Config, s: State, n: Newcomer)
  {
    forall client, at :: s.now <= at < s.now + cfg.env.ttl && MatchesClient(n.client, client) ==>
      var r := Authorize(cfg.env, s.db, n.hash, client, at);
      r.Ok? && r.value.identity == Some(Profile(n)) && r.value.expires == s.now + cfg.env.ttl
  }

  lemma LogsIn(cfg: Config, s: State, t: Tid, n: Newcomer) returns (s': State)
    requires Registered(cfg, s, n) && Identifiable(cfg, s, n) && cfg.env.verify(n.password, n.user.password)
    requires '@' !in n.name
    requires cfg.quota > 0 && cfg.env.ttl > 0
    ensures Leads(cfg, s, s') && s'.txns == map[] && ServiceOpen(s'.db.gate) && s'.now == s.now
    ensures s'.db.players == s.db.players && s'.db.sessions == s.db.sessions && HasToken(cfg, s', n)
  {
    var v := LoginVars(0, Credentials(n.name, n.password, n.uid, n.user.password), n.client, 1, 0, 0, {}, [], [],
                       None, 0);
    var x := LoginProgress.Inputs((p, k) => n.uuid, k => n.hash, [n.pid]);
    assert Starts(cfg, s.db, Machine.Login(v));
    MayLogIn(cfg, s, n, v.cred, x);
    hide Leads, Authorize, IdentitiesOk, ReadIdentity, Named, Login.LoginEnds, Starts, AccountHolds, LoginOwner,
      LoginProgress.CanLogIn, LoginProgress.Unnumbered;
    var after, r := LoginProgress.LoginSucceeds(cfg, s, t, v, x);
    s' := after;
    LoggedIn(cfg, s, n, v, x, s', r);
    TokenWorks(cfg, s', n);
  }

  lemma MayLogIn(cfg: Config, s: State, n: Newcomer, cred: Credentials, x: LoginProgress.Inputs)
    requires Registered(cfg, s, n) && Identifiable(cfg, s, n) && '@' !in n.name
    requires cred.uid == n.uid && cred.username == n.name && cred.stored == n.user.password
    requires x.pids == [n.pid] && forall k :: x.coin(k) == n.hash
    ensures AccountHolds(cfg.env, s.db, cred) && LoginOwner(cfg.env, s.db, n.name) == Ok(n.uid)
    ensures LoginProgress.CanLogIn(cfg.env, s.db, n.uid, n.name, x)
  {
    ReadIdentityIff(s.db.identities, n.pid, s.db.players[n.pid], Profile(n));
    assert n.pid in Named(cfg.env.key, s.db.players, n.name);
    hide IdentitiesOk, ReadIdentity, Named, Profiles.Allotted;
    NothingAllotted(s.db.identities, s.db.players, cfg.watermark, x.draw, n.pid);
  }

  /** A player that has an identity needs no candidate. */
  lemma NothingAllotted(ids: map<nat, IdRow>, players: map<nat, Player>, watermark: nat, draw: Service.Draw, pid: nat)
    requires pid in players && ReadIdentity(ids, pid, players[pid]).Ok?
    ensures Profiles.Allotted(ids, players, watermark, draw, [pid]) == Some(map[])
  {
    assert [pid][..0] == [];
    assert Profiles.Allotted(ids, players, watermark, draw, []) == Some(map[]);
  }

  /** What the login left: a token of the newcomer's player, and otherwise the same tables. */
  lemma LoggedIn(cfg: Config, s: State, n: Newcomer, v: LoginVars, x: LoginProgress.Inputs, s': State,
                 r: Login.LoginResult)
    requires Registered(cfg, s, n) && Identifiable(cfg, s, n) && IdentitiesOk(s'.db.identities) && '@' !in n.name
    requires v.cred.uid == n.uid && v.cred.username == n.name && v.client == n.client && v.limit == 1
    requires x.pids == [n.pid] && (forall k :: x.coin(k) == n.hash) && s'.now == s.now
    requires r.token.access.Some? && r.token.access.value in s'.db.tokens
    requires Login.LoginEnds(cfg.env, s.db, LoginProgress.Unnumbered(s'.db, r.token.access.value), n.uid, n.name,
                             n.client, 1, x.draw, x.coin, s.now, Ok(r))
    ensures s'.db.players == s.db.players && s'.db.sessions == s.db.sessions && s'.db.users == s.db.users
    ensures s'.db.gate == s.db.gate && n.hash in s'.db.tokens && n.uid in s'.db.subjects
    ensures PlayerHas(s'.db, Profile(n))
    ensures s'.db.tokens[n.hash].(serial := 0)
            == Token(n.uid, s'.db.subjects[n.uid], Some(n.id), n.client, s.now, s.now + cfg.env.ttl, 0)
  {
    hide IdentitiesOk, Login.LoginEnds, Named, IsEviction, Live, Profiles.Gathered, LoginProgress.Unnumbered;
    var h := r.token.access.value;
    var after := LoginProgress.Unnumbered(s'.db, h);
    OnlyNumber(s'.db, h);
    var pids, victims := Login.LoginEnded(cfg.env, s.db, after, n.uid, n.name, n.client, 1, x.draw, x.coin, s.now, r);
    OnlyPlayerOf(s.db.players, n.uid, n.pid, pids);
    NothingNew(s.db.identities, after.identities, s.db.players, cfg.watermark, x.draw, n, r.profiles);
    assert Named(cfg.env.key, s.db.players, n.name) == {n.pid};
  }

  lemma OnlyNumber(db: Db, h: Hash)
    requires h in db.tokens
    ensures var after := LoginProgress.Unnumbered(db, h);
            && after == db.(tokens := after.tokens) && h in after.tokens
            && after.tokens[h] == db.tokens[h].(serial := 0)
  {
  }

  lemma OnlyPlayerOf(players: map<nat, Player>, uid: nat, pid: nat, pids: seq<nat>)
    requires Profiles.Owned(players, uid, pids) && pid in players && players[pid].owner == uid
    requires forall p | p in players && players[p].owner == uid :: p == pid
    ensures pids == [pid]
  {
    assert pid in pids;
    assert Elements(pids) == {pid};
    DistinctSize(pids);
  }

  /** A login of an account whose only player has its identity adds no row. */
  lemma NothingNew(before: map<nat, IdRow>, after: map<nat, IdRow>, players: map<nat, Player>, watermark: nat,
                   draw: Service.Draw, n: Newcomer, profiles: seq<Identity>)
    requires IdentitiesOk(before) && Carries(before, n.id, n.pid, n.uuid)
    requires n.pid in players && players[n.pid] == Player(n.uid, n.name)
    requires Profiles.Gathered(before, after, players, watermark, draw, [n.pid], profiles)
    ensures after == before && profiles == [Profile(n)]
  {
    ReadIdentityIff(before, n.pid, players[n.pid], Profile(n));
    hide IdentitiesOk, ReadIdentity, Profiles.Served;
    NothingAllotted(before, players, watermark, draw, n.pid);
    assert forall i | i in after :: i in before;
    assert [n.pid][..0] == [] && Profiles.Profiles(after, players, []) == [];
    assert Profiles.Profiles(after, players, [n.pid]) == [] + [Profile(n)];
  }

  lemma TokenWorks(cfg: Config, s: State, n: Newcomer)
    requires n.hash in s.db.tokens && n.uid in s.db.users && n.uid in s.db.subjects && IdentitiesOk(s.db.identities)
    requires s.db.users[n.uid] == n.user && cfg.env.allowed(n.user.permission, n.user.verified)
    requires PlayerHas(s.db, Profile(n))
    requires s.db.tokens[n.hash].(serial := 0)
             == Token(n.uid, s.db.subjects[n.uid], Some(n.id), n.client, s.now, s.now + cfg.env.ttl, 0)
    ensures HasToken(cfg, s, n)
  {
    forall client, at | s.now <= at < s.now + cfg.env.ttl && MatchesClient(n.client, client)
      ensures var r := Authorize(cfg.env, s.db, n.hash, client, at);
              r.Ok? && r.value.identity == Some(Profile(n)) && r.value.expires == s.now + cfg.env.ttl
    {
      hide Authorize, PlayerHas, IdentitiesOk;
      GrantFor(cfg.env, s.db, n.hash, Some(Profile(n)), client, at);
    }
  }

  lemma Joins(cfg: Config, s: State, t: Tid, n: Newcomer) returns (s': State)
    requires s.txns == map[] && ServiceOpen(s.db.gate) && HasToken(cfg, s, n) && n.server !in s.db.sessions
    requires cfg.env.ttl > 0
    ensures Leads(cfg, s, s') && s'.txns == map[] && s'.now == s.now
    ensures s'.db == s.db.(sessions := s.db.sessions[n.server := Session(n.hash, n.ip, s.now, s.now + SESSION_TTL)])
    ensures HasToken(cfg, s', n)
  {
    hide Leads;
    var v := AccessVars(1, Join(n.uuid, n.server, n.ip), n.hash, "", 0, 0, Token(0, 0, None, "", 0, 0, 0), 0, None, 0,
                        None, 0);
    JoinSucceeds(cfg, s, t, v);
    s' :| Leads(cfg, s, s') && s'.txns == map[] && s'.now == s.now
            && s'.db == s.db.(sessions := JoinedRows(s.db.sessions, n.server, n.hash, n.ip, s.now));
    forall client, at
      ensures Authorize(cfg.env, s'.db, n.hash, client, at) == Authorize(cfg.env, s.db, n.hash, client, at)
    {
      SessionsDoNotMatter(cfg.env, s.db, s'.db, n.hash, client, at);
    }
  }

  lemma SessionsDoNotMatter(env: Env, a: Db, b: Db, h: Hash, client: string, at: nat)
    requires b == a.(sessions := b.sessions)
    ensures Authorize(env, b, h, client, at) == Authorize(env, a, h, client, at)
  {
  }

  /** The HasJoined a game server sends for the player. */
  function Question(n: Newcomer): AccessVars
  {
    AccessVars(0, Admit(n.name, n.server, Some(n.ip)), 0, "", 0, 0, Token(0, 0, None, "", 0, 0, 0), 0, None, 0, None, 0)
  }

  /** Wherever the installation is, if no request is open and the gate is, a new account can be created, its player
      gets an identity, the account logs in with the player's name, the player joins a server, and the server's
      HasJoined becomes ready to commit. So the theorems on logins, joins and admissions are about runs that exist. */
  lemma NewcomerIsAdmitted(cfg: Config, s: State, t: Tid, n: Newcomer) returns (s': State)
    requires Reachable(cfg, s) && s.txns == map[] && ServiceOpen(s.db.gate) && Unknown(cfg, s.db, n)
    ensures Leads(cfg, s, s') && Reachable(cfg, s') && t in s'.txns && s'.txns == map[t := s'.txns[t]]
    ensures s'.txns[t].prog.Access? && Ready(s'.txns[t].prog) && s'.txns[t].prog.access.goal == Question(n).goal
    ensures s'.txns[t].prog.access.bound == Some(Profile(n)) && BearsAlone(cfg.env, s'.db, s'.txns[t].prog.access)
    ensures forall q | q != n.pid :: !Locks(s'.txns[t], PlayerRow(q))
  {
    hide Reachable;
    InstallationOk(cfg, s);
    hide Leads, Registered, Identifiable, HasToken, IdentitiesOk, Authorize;
    assert IdentitiesOk(s.db.identities) && cfg.quota > 0 && cfg.env.ttl > 0;
    var s1 := Registers(cfg, s, t, n);
    var s2 := Identifies(cfg, s1, t, n);
    LeadsFar(cfg, s, s1, s2);
    RegisteredNames(cfg, s2, n);
    var s3 := LogsIn(cfg, s2, t, n);
    LeadsFar(cfg, s, s2, s3);
    var s4 := Joins(cfg, s3, t, n);
    LeadsFar(cfg, s, s3, s4);
    var done := AsksToAdmit(cfg, s4, t, n);
    s' := At(s4, t, done);
    LeadsFar(cfg, s, s4, s');
    ReachableLeads(cfg, s, s');
  }

  lemma InstallationOk(cfg: Config, s: State)
    requires Reachable(cfg, s)
    ensures IdentitiesOk(s.db.identities) && cfg.quota > 0 && cfg.env.ttl > 0
    ensures s.db.gate.Some? ==> Service.Watermark(s.db) == cfg.watermark
  {
    ReachableOk(cfg, s);
    hide Inv, Lifecycle.Execute, Lifecycle.Initial;
    var site, w0, steps, w :| Lifecycle.Initial(w0) && Lifecycle.Execute(site, w0, steps) == Some(w) && w.cfg == cfg
        && w.m == s;
    Lifecycle.InitialOk(w0);
    Lifecycle.WorldRunOk(site, w0, steps, w);
    Lifecycle.RowsOk(w);
    hide IdentitiesOk;
  }

  lemma RegisteredNames(cfg: Config, s: State, n: Newcomer)
    requires Registered(cfg, s, n)
    ensures Named(cfg.env.key, s.db.players, n.name) == {n.pid} && n.server !in s.db.sessions
  {
  }

  lemma AsksToAdmit(cfg: Config, s: State, t: Tid, n: Newcomer) returns (done: Txn)
    requires s.txns == map[] && ServiceOpen(s.db.gate) && HasToken(cfg, s, n) && cfg.env.ttl > 0
    requires Named(cfg.env.key, s.db.players, n.name) == {n.pid}
    requires n.server in s.db.sessions && s.db.sessions[n.server] == Session(n.hash, n.ip, s.now, s.now + SESSION_TTL)
    ensures Leads(cfg, s, At(s, t, done)) && done.prog.Access? && Ready(done.prog)
    ensures done.prog.access.goal == Question(n).goal
    ensures done.prog.access.bound == Some(Profile(n)) && BearsAlone(cfg.env, s.db, done.prog.access)
    ensures forall q | q != n.pid :: !Locks(done, PlayerRow(q))
  {
    assert MatchesClient(n.client, "");
    assert Authorize(cfg.env, s.db, n.hash, "", s.now).Ok?;
    hide Leads, Authorize;
    done := AdmitSucceeds(cfg, s, t, Question(n), n.hash);
  }

  /** Alone when checked is not alone when answered: a run in which a HasJoined is about to commit for one player
      while two players bear the name. */
  lemma CheckedAloneIsNotAloneForever(cfg: Config, s: State, t: Tid, u: Tid, n: Newcomer, q: nat, row: Player)
    returns (s': State)
    requires Reachable(cfg, s) && s.txns == map[] && ServiceOpen(s.db.gate) && Unknown(cfg, s.db, n)
    requires u != t && q != n.pid && cfg.env.key(row.name) == cfg.env.key(n.name)
    ensures Reachable(cfg, s') && t in s'.txns && s'.txns[t].prog.Access? && Enabled(cfg, s', Commit(t, true))
    ensures s'.txns[t].prog.access.goal == Question(n).goal && s'.txns[t].prog.access.bound == Some(Profile(n))
    ensures {n.pid, q} <= Named(cfg.env.key, s'.db.players, n.name)
  {
    hide Reachable;
    var ready := NewcomerIsAdmitted(cfg, s, t, n);
    RivalCanAppear(cfg, ready, t, u, q, row);
    s' := Renamed(ready, u, q, row);
    assert Leads(cfg, ready, s');
    hide Leads;
    ReachableLeads(cfg, ready, s');
    assert n.pid in Named(cfg.env.key, ready.db.players, n.name);
  }

  /** No premise is left open: in an installation that started empty, under a policy that allows everybody, this
      happens. */
  lemma TwoBearersAtCommit() returns (cfg: Config, s: State, t: Tid, q: nat)
    ensures Reachable(cfg, s) && t in s.txns && s.txns[t].prog.Access? && s.txns[t].prog.access.goal.Admit?
    ensures Enabled(cfg, s, Commit(t, true)) && s.txns[t].prog.access.bound.Some?
    ensures var v := s.txns[t].prog.access;
            q != v.bound.value.player && {v.bound.value.player, q} <= Named(cfg.env.key, s.db.players, v.goal.name)
  {
    hide Reachable, Inv;
    var env := Env(name => name, (permission, verified) => true, (given, stored) => given == stored, 1);
    Opening.EmptyInstallationOpens(env, 1);
    var w := Opening.Filled(Opening.EmptyWorld(env, 1), Opening.EMPTY_PLAN, Open);
    var n := Newcomer(1, User("secret", 0, true, ""), "secret", 1, "Alex", 1, NIL, 7, "", "server", [1]);
    cfg, t, q := w.cfg, 0, 2;
    s := CheckedAloneIsNotAloneForever(cfg, w.m, t, 1, n, q, Player(2, "Alex"));
  }
}
