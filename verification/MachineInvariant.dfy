/** What every reachable state of the machine satisfies. The committed tables agree with the history, and
    each open transaction knows certain facts about the tables that its own locks keep true. */
module MachineInvariant {
  import opened Basics
  import opened Uuids
  import opened Tables
  import opened Directory
  import opened Machine

  // ---- the history ----

  predicate Issues(e: Event, hash: Hash, row: Token)
  {
    match e
    case LoggedIn(h, r) => h == hash && r == row
    case Refreshed(_, h, r) => h == hash && r == row
    case _ => false
  }

  predicate IssuesRow(e: Event, row: Token)
  {
    match e
    case LoggedIn(_, r) => r == row
    case Refreshed(_, _, r) => r == row
    case _ => false
  }

  /** The position of the login at the start of a token's refresh chain. */
  function Birth(log: seq<Event>, serial: nat): nat
    decreases serial
  {
    if serial < |log| && log[serial].Refreshed? && log[serial].prior.serial < serial
    then Birth(log, log[serial].prior.serial)
    else serial
  }

  predicate NoneRevokedSince(log: seq<Event>, from: nat, uid: nat)
  {
    forall k :: from <= k < |log| && log[k].Revoked? ==> log[k].uid != uid
  }

  /** A refresh replaces one issued row by another with the same owner, generation and client token,
      and with the same identity once there is one. */
  predicate Inherits(prior: Token, row: Token)
  {
    && row.owner == prior.owner && row.generation == prior.generation && row.client == prior.client
    && (prior.identity.Some? ==> row.identity == prior.identity)
  }

  predicate LogOk(log: seq<Event>)
  {
    && (forall k :: 0 <= k < |log| && log[k].LoggedIn? ==> log[k].row.serial == k)
    && (forall k :: 0 <= k < |log| && log[k].Refreshed? ==>
          && log[k].row.serial == k && log[k].prior.serial < k
          && IssuesRow(log[log[k].prior.serial], log[k].prior)
          && Inherits(log[k].prior, log[k].row))
    && (forall j, k :: 0 <= j < k < |log| && log[j].Refreshed? && log[k].Refreshed? ==>
          log[j].prior.serial != log[k].prior.serial)
  }

  /** A consumed token row is gone for good. */
  ghost predicate SpentGone(tokens: map<Hash, Token>, log: seq<Event>)
  {
    forall h, k :: h in tokens && 0 <= k < |log| && log[k].Refreshed? ==> tokens[h].serial != log[k].prior.serial
  }

  // ---- the committed tables ----

  ghost predicate TokensOk(db: Db, log: seq<Event>)
  {
    forall h | h in db.tokens ::
      var row := db.tokens[h];
      && row.owner in db.subjects && 1 <= row.generation <= db.subjects[row.owner]
      && (row.identity.Some? ==> row.identity.value in db.identities)
      && row.created < row.expires
      && row.serial < |log| && Issues(log[row.serial], h, row)
  }

  /** A token of the current generation was never revoked since the login it descends from. */
  ghost predicate RevocationOk(db: Db, log: seq<Event>)
  {
    forall h | h in db.tokens && Base(db.subjects, db.tokens[h].owner) == db.tokens[h].generation ::
      NoneRevokedSince(log, Birth(log, db.tokens[h].serial), db.tokens[h].owner)
  }

  ghost predicate WithinQuota(db: Db, now: nat, quota: nat)
  {
    forall u: nat :: |Live(db.tokens, u, Base(db.subjects, u), now)| <= quota
  }

  /** Every session row was written by a committed Join, thirty seconds before it expires. */
  ghost predicate SessionsOk(sessions: map<string, Session>, now: nat, log: seq<Event>)
  {
    forall v | v in sessions ::
      var r := sessions[v];
      && r.created <= now && r.expires == r.created + SESSION_TTL
      && Joined(v, r.hash, r.ip, r.created) in log
  }

  /** Every identity published since operators last changed a row is still the player's active row. */
  ghost predicate ProvidedOk(ids: map<nat, IdRow>, log: seq<Event>, from: nat)
  {
    from <= |log| && forall k :: from <= k < |log| && log[k].Provided? ==>
            Carries(ids, log[k].id, log[k].pid, log[k].uuid)
  }

  predicate Carries(ids: map<nat, IdRow>, id: nat, pid: nat, u: Uuid)
  {
    id in ids && ids[id].state == Active && ids[id].player == Some(pid) && ids[id].uuid == Some(u)
  }

  /** Every admission had a matching Join less than thirty seconds before it. */
  ghost predicate AdmissionsOk(log: seq<Event>)
  {
    forall k :: 0 <= k < |log| && log[k].Admitted? ==> JoinedBefore(log, k, log[k])
  }

  ghost predicate JoinedBefore(log: seq<Event>, k: nat, e: Event)
    requires e.Admitted?
  {
    exists j :: 0 <= j < k && j < |log| && log[j].Joined? && log[j].server == e.server && log[j].hash == e.hash
      && e.at < log[j].at + SESSION_TTL && (e.from.Some? ==> log[j].ip == e.from.value)
  }

  ghost predicate DbOk(cfg: Config, db: Db, now: nat, log: seq<Event>)
  {
    && IdentitiesOk(db.identities)
    && (forall u | u in db.subjects :: db.subjects[u] >= 1)
    && LogOk(log) && SpentGone(db.tokens, log)
    && TokensOk(db, log)
    && RevocationOk(db, log)
    && WithinQuota(db, now, cfg.quota)
    && SessionsOk(db.sessions, now, log)
    && AdmissionsOk(log)
  }

  // ---- what a transaction's pending writes satisfy ----

  predicate Revokes(events: seq<Event>, uid: nat)
  {
    exists k :: 0 <= k < |events| && events[k].Revoked? && events[k].uid == uid
  }

  ghost predicate SubjectsPart(db: Db, txn: Txn)
  {
    var w := txn.writes;
    && (forall u | u in w.subjects ::
          && SubjectRow(u) in txn.excl && w.subjects[u] >= 1 && w.subjects[u] >= Base(db.subjects, u)
          && (Revokes(w.events, u) ==> w.subjects[u] > Base(db.subjects, u)))
    && (forall k :: 0 <= k < |w.events| && w.events[k].Revoked? ==> w.events[k].uid in w.subjects)
  }

  ghost predicate LockedPart(db: Db, txn: Txn)
  {
    var w := txn.writes;
    && (forall u | u in w.users :: UserRow(u) in txn.excl)
    && (forall p | p in w.players :: PlayerRow(p) in txn.excl)
    && (forall h | h in w.kills :: TokenRow(h) in txn.excl && h in db.tokens)
  }

  ghost predicate IssuePart(cfg: Config, db: Db, now: nat, txn: Txn)
  {
    var w := txn.writes;
    w.issue.Some? ==>
      var i := w.issue.value;
      && TokenRow(i.hash) in txn.excl && i.hash !in db.tokens
      && SubjectRow(i.row.owner) in txn.excl
      && i.row.owner in db.subjects + w.subjects
      && i.row.generation == Base(db.subjects + w.subjects, i.row.owner)
      && !Revokes(w.events, i.row.owner)
      && (i.row.identity.Some? ==> i.row.identity.value in ViewIds(db, w))
      && i.row.created <= now && i.row.expires == i.row.created + cfg.env.ttl
      && (i.from.Some? ==> Inherits(i.from.value, i.row) && Replaces(db, w, i.from.value))
  }

  /** The refreshed row is still in the table and about to be deleted. */
  ghost predicate Replaces(db: Db, w: Writes, prior: Token)
  {
    exists h :: h in w.kills && h in db.tokens && db.tokens[h] == prior
  }

  ghost predicate IdsPart(cfg: Config, db: Db, txn: Txn)
  {
    var w := txn.writes;
    && Unique(ViewIds(db, w))
    && forall i | i in w.identities ::
      var r := w.identities[i];
      && i !in db.identities && IdentityRow(i) in txn.excl
      && r.player.Some? && r.player.value > 0 && r.player.value > cfg.watermark && PlayerKey(r.player.value) in txn.excl
      && r.uuid.Some? && UuidKey(r.uuid.value) in txn.excl
      && r.state == Active && r.legacy.None? && r.target.None?
  }

  ghost predicate SessionsPart(db: Db, now: nat, txn: Txn)
  {
    var w := txn.writes;
    forall v | v in w.sessions ::
      && SessionRow(v) in txn.excl
      && (v in db.sessions ==> db.sessions[v].expires <= now)
      && (w.sessions[v].Some? ==>
            var r := w.sessions[v].value;
            && r.created <= now && r.expires == r.created + SESSION_TTL
            && Joined(v, r.hash, r.ip, r.created) in w.events)
  }

  ghost predicate EventsPart(db: Db, txn: Txn)
  {
    var w := txn.writes;
    forall e | e in w.events ::
      match e
      case LoggedIn(_, _) => false
      case Refreshed(_, _, _) => false
      case Revoked(_, _) => true
      case Provided(pid, id, u) => Carries(ViewIds(db, w), id, pid, u)
      case Joined(_, _, _, _) => true
      case Admitted(server, from, hash, _, at) =>
        && SessionRow(server) in txn.shared
        && server in db.sessions && db.sessions[server].hash == hash && at < db.sessions[server].expires
        && (from.Some? ==> db.sessions[server].ip == from.value)
  }

  ghost predicate WritesOk(cfg: Config, db: Db, now: nat, txn: Txn)
  {
    && LockedPart(db, txn) && SubjectsPart(db, txn) && IssuePart(cfg, db, now, txn)
    && IdsPart(cfg, db, txn) && SessionsPart(db, now, txn) && EventsPart(db, txn)
  }

  // ---- what each program knows at each of its statements ----

  ghost predicate UserKnown(env: Env, db: Db, txn: Txn, uid: nat)
  {
    && UserRow(uid) in txn.shared && uid in db.users
    && env.allowed(db.users[uid].permission, db.users[uid].verified)
  }

  /** Nothing is pending except what is listed. */
  predicate OnlyTokenWrites(w: Writes)
  {
    w.users == map[] && w.players == map[] && w.sessions == map[]
  }

  ghost predicate LoginKnows(cfg: Config, db: Db, now: nat, txn: Txn, v: LoginVars)
  {
    var w := txn.writes;
    var uid := v.cred.uid;
    && 1 <= v.limit <= cfg.quota && OnlyTokenWrites(w)
    && cfg.env.verify(v.cred.password, v.cred.stored)
    && (v.pc >= 1 ==> UserKnown(cfg.env, db, txn, uid) && db.users[uid].password == v.cred.stored)
    && (v.pc < 3 ==> w.subjects == map[])
    && (v.pc >= 3 ==>
          && SubjectRow(uid) in txn.excl
          && w.subjects == (if uid in db.subjects then map[] else map[uid := 1]))
    && (v.pc >= 4 ==> v.gen == Base(db.subjects + w.subjects, uid))
    && (v.pc >= 5 ==> LoginCounted(db, txn, v))
    && LoginProfiled(cfg, db, txn, v)
    && LoginIssued(txn, v)
  }

  /** The live tokens are counted and locked, and the victims chosen among them. */
  ghost predicate LoginCounted(db: Db, txn: Txn, v: LoginVars)
  {
    var live := Live(db.tokens, v.cred.uid, v.gen, v.evictAt);
    && v.evictAt <= txn.at && IsEviction(db.tokens, live, v.limit, v.victims)
    && forall h | h in live :: TokenRow(h) in txn.excl
  }

  ghost predicate LoginProfiled(cfg: Config, db: Db, txn: Txn, v: LoginVars)
  {
    var ids := ViewIds(db, txn.writes);
    && (forall p | p in v.todo :: PlayerRow(p) in txn.shared && p in db.players && db.players[p].owner == v.cred.uid)
    && (v.pc == 7 ==> v.todo != [] && v.todo[0] > cfg.watermark)
    && (forall x | x in v.profiles :: Carries(ids, x.id, x.player, x.uuid) && x.owner == v.cred.uid
                                      && HoldsPlayer(db, txn, x))
    && (v.chosen.Some? ==> v.chosen.value in v.profiles)
    && (v.pc >= 9 ==> ChosenFor(cfg.env, v))
  }

  /** The profile the token is bound to: the only one, or one of the player that was named. */
  predicate ChosenFor(env: Env, v: LoginVars)
  {
    if '@' in v.cred.username then v.chosen == OnlyOne(v.profiles)
    else v.chosen.Some? && env.key(v.chosen.value.name) == env.key(v.cred.username)
  }

  predicate LoginIssued(txn: Txn, v: LoginVars)
  {
    var w := txn.writes;
    && (v.pc < 11 ==> w.kills == {} && w.events == [])
    && (v.pc < 10 ==> w.issue.None?)
    && (v.pc >= 10 ==> w.issue.Some?)
    && (v.pc >= 10 ==>
          var i := w.issue.value;
          && i.from.None? && i.row.owner == v.cred.uid && i.row.generation == v.gen && i.row.client == v.client
          && i.row.identity == IdOf(v.chosen) && v.evictAt <= i.row.created)
    && (v.pc == 11 ==> w.kills == v.victims && w.events == Provisions(v.profiles))
  }

  /** After authorization: the decision taken at `checkedAt` is still the decision on the present tables. */
  ghost predicate AccessKnows(cfg: Config, db: Db, now: nat, txn: Txn, v: AccessVars)
  {
    var w := txn.writes;
    && w.users == map[] && w.players == map[] && w.identities == map[] && w.subjects == map[]
    && (v.goal.Join? || v.goal.Admit? ==> v.client == "")
    && (v.pc >= 3 ==> UserKnown(cfg.env, db, txn, v.owner))
    && (v.pc >= 4 ==> SubjectRow(v.owner) in txn.excl && v.owner in db.subjects && v.gen == db.subjects[v.owner])
    && (v.pc >= 5 ==>
          && TokenRow(v.hash) in txn.excl && v.hash in db.tokens && v.row == db.tokens[v.hash]
          && v.row.owner == v.owner && v.row.generation == v.gen && MatchesClient(v.row.client, v.client)
          && v.lockedAt <= txn.at && txn.at <= now && |Live(db.tokens, v.owner, v.gen, v.lockedAt)| <= cfg.quota)
    && (v.pc < 7 ==> v.bound.None?)
    && (v.pc == 6 ==>
          && v.row.identity.Some? && v.row.identity.value in db.identities
          && db.identities[v.row.identity.value].player.Some?
          && PlayerRow(db.identities[v.row.identity.value].player.value) in txn.shared)
    && (v.pc >= 7 ==>
          && v.row.identity.Some? == v.bound.Some?
          && (v.bound.Some? ==>
                && HoldsIdentity(db, txn, v.bound.value) && v.bound.value.id == v.row.identity.value
                && v.bound.value.owner == v.owner))
    && (v.pc >= 8 ==>
          && v.lockedAt <= v.checkedAt <= txn.at && v.checkedAt < v.row.expires
          && (v.picked.Some? ==> HoldsIdentity(db, txn, v.picked.value) && v.picked.value.owner == v.owner)
          && (v.bound.Some? ==> v.picked == v.bound)
          && (!v.goal.Refresh? || v.pc == 8 ==> v.picked == v.bound))
    && GoalKnows(cfg, db, now, txn, v)
  }

  ghost predicate HoldsPlayer(db: Db, txn: Txn, x: Identity)
  {
    && PlayerRow(x.player) in txn.shared && x.player in db.players
    && db.players[x.player] == Player(x.owner, x.name)
  }

  ghost predicate HoldsIdentity(db: Db, txn: Txn, x: Identity)
  {
    && HoldsPlayer(db, txn, x) && Carries(db.identities, x.id, x.player, x.uuid)
  }

  ghost predicate GoalKnows(cfg: Config, db: Db, now: nat, txn: Txn, v: AccessVars)
  {
    var w := txn.writes;
    match v.goal
    case Validate => w == NO_WRITES
    case Refresh(selected) =>
      && w.sessions == map[] && w.events == []
      && w.kills == (if v.pc >= 10 then {v.hash} else {})
      && (v.pc < 11 ==> w.issue.None?)
      && (v.pc >= 9 && selected.Some? ==> v.picked.Some? && v.picked.value.uuid == selected.value)
      && (v.pc >= 9 && selected.None? ==> v.picked == v.bound)
      && (v.pc >= 11 ==> w.issue.Some?)
      && (v.pc >= 11 ==>
            var i := w.issue.value;
            && i.from == Some(v.row) && i.row.owner == v.owner && i.row.generation == v.gen
            && i.row.client == v.row.client
            && i.hash != v.hash && v.checkedAt <= i.row.created
            && i.row.identity == IdOf(v.picked))
    case Join(profile, server, ip) =>
      && w.kills == {} && w.issue.None?
      && (v.pc < 9 ==> w == NO_WRITES)
      && (v.pc >= 9 ==> v.bound.Some? && v.bound.value.uuid == profile)
      && (v.pc < 11 ==> w.events == [])
      && w.sessions.Keys <= {server}
      && (v.pc < 11 && server in w.sessions ==> w.sessions[server].None?)
      && (v.pc == 11 ==>
            && SessionRow(server) in txn.excl && server in Merge(db.sessions, w.sessions)
            && Merge(db.sessions, w.sessions)[server].hash == v.hash && Merge(db.sessions, w.sessions)[server].ip == ip)
    case Admit(name, server, from) =>
      && w == NO_WRITES.(events := w.events)
      && (v.pc < 11 ==> w.events == [])
      && (v.pc >= 9 ==> v.bound.Some? && cfg.env.key(v.bound.value.name) == cfg.env.key(name))
      && (v.pc == 11 ==>
            && |w.events| == 1 && w.events[0].Admitted? && w.events[0].pid == v.bound.value.player
            && w.events[0].server == server && w.events[0].from == from && w.events[0].hash == v.hash
            && w.events[0].at < v.row.expires && v.checkedAt <= w.events[0].at <= now)
  }

  ghost predicate LogoutKnows(cfg: Config, db: Db, txn: Txn, v: LogoutVars)
  {
    var w := txn.writes;
    && v.pc <= 3 && cfg.env.verify(v.cred.password, v.cred.stored)
    && (v.pc >= 1 ==> UserKnown(cfg.env, db, txn, v.cred.uid) && db.users[v.cred.uid].password == v.cred.stored)
    && (v.pc < 3 ==> w == NO_WRITES)
    && (v.pc == 3 ==> w == NO_WRITES.(subjects := map[v.cred.uid := Base(db.subjects, v.cred.uid) + 1],
                                     events := [Revoked(v.cred.uid, SignedOut)]))
  }

  ghost predicate DropKnows(db: Db, txn: Txn, v: DropVars)
  {
    var w := txn.writes;
    && w == NO_WRITES.(kills := w.kills) && w.kills <= {v.hash}
    && (v.pc < 5 ==> w.kills == {})
    && (v.pc == 4 ==> TokenRow(v.hash) in txn.excl && v.hash in db.tokens)
    && (v.pc >= 4 && v.hash in db.tokens && TokenRow(v.hash) in txn.excl ==>
            MatchesClient(db.tokens[v.hash].client, v.client))
  }

  ghost predicate EnsureKnows(cfg: Config, db: Db, txn: Txn, v: EnsureVars)
  {
    var w := txn.writes;
    && w == NO_WRITES.(identities := w.identities, events := w.events)
    && (v.pc >= 1 ==> PlayerRow(v.pid) in txn.shared && v.pid in db.players)
    && (v.pc == 2 ==> v.pid > cfg.watermark)
    && (v.pc < 3 ==> w == NO_WRITES)
    && (v.pc == 3 ==>
          && v.found.Some? && v.found.value.player == v.pid
          && Carries(ViewIds(db, w), v.found.value.id, v.pid, v.found.value.uuid)
          && w.events == [Provided(v.pid, v.found.value.id, v.found.value.uuid)])
  }

  ghost predicate SweepKnows(db: Db, now: nat, txn: Txn, v: SweepVars)
  {
    var w := txn.writes;
    && w == NO_WRITES.(kills := w.kills, sessions := w.sessions)
    && (v.pc < 2 ==> w.sessions == map[])
    && (v.pc < 1 ==> w.kills == {})
    && (forall h | h in w.kills && h in db.tokens :: db.tokens[h].expires <= now)
    && |w.kills| <= v.batch && |w.sessions.Keys| <= v.batch
    && (forall x | x in w.sessions :: w.sessions[x].None?)
  }

  /** The player is locked and has the identity, under a name that was asked for. */
  ghost predicate Answerable(env: Env, db: Db, txn: Txn, names: seq<string>, x: Identity)
  {
    && HoldsPlayer(db, txn, x) && Carries(ViewIds(db, txn.writes), x.id, x.player, x.uuid)
    && Asked(env, names, x.name)
  }

  predicate Asked(env: Env, names: seq<string>, name: string)
  {
    exists k :: 0 <= k < |names| && env.key(names[k]) == env.key(name)
  }

  ghost predicate LookupKnows(cfg: Config, db: Db, txn: Txn, v: LookupVars)
  {
    var w := txn.writes;
    && w == NO_WRITES.(identities := w.identities, events := w.events)
    && w.events == (if v.pc < 6 then [] else Provisions(v.answers))
    && (forall h | h in v.hits :: h.name in v.names)
    && (2 <= v.pc <= 4 ==> v.hits != [] && PlayerRow(v.hits[0].pid) in txn.shared && v.hits[0].pid in db.players)
    && (3 <= v.pc <= 4 ==> cfg.env.key(db.players[v.hits[0].pid].name) == cfg.env.key(v.hits[0].name))
    && (v.pc == 4 ==> v.hits[0].pid > cfg.watermark)
    && (forall p | p in v.resolved :: v.resolved[p].player == p && Answerable(cfg.env, db, txn, v.names, v.resolved[p]))
    && (forall x | x in v.answers :: x.player !in v.resolved && Answerable(cfg.env, db, txn, v.names, x))
    && (forall i, j :: 0 <= i < j < |v.answers| ==> v.answers[i].player != v.answers[j].player)
    && (if v.single then v.pc != 5 && |v.names| == 1 && v.resolved == map[]
                         && |v.answers| == (if v.pc == 6 then 1 else 0)
        else |v.answers| <= v.read && v.read <= |v.names| && (v.pc < 5 ==> v.answers == []))
  }

  ghost predicate EditKnows(db: Db, txn: Txn)
  {
    var w := txn.writes;
    && w == NO_WRITES.(users := w.users, players := w.players, subjects := w.subjects, events := w.events)
    && (forall e | e in w.events :: e.Revoked?)
    && (forall u | u in w.users :: TriggerFires(Lookup(db.users, u), w.users[u]).Some? ==> Revokes(w.events, u))
  }

  ghost predicate Knows(cfg: Config, db: Db, now: nat, txn: Txn)
  {
    match txn.prog
    case Login(v) => LoginKnows(cfg, db, now, txn, v)
    case Access(v) => AccessKnows(cfg, db, now, txn, v)
    case Logout(v) => LogoutKnows(cfg, db, txn, v)
    case Drop(v) => DropKnows(db, txn, v)
    case Ensure(v) => EnsureKnows(cfg, db, txn, v)
    case Sweep(v) => SweepKnows(db, now, txn, v)
    case Names(v) => LookupKnows(cfg, db, txn, v)
    case Editing => EditKnows(db, txn)
  }

  ghost predicate TxnOk(cfg: Config, db: Db, now: nat, txn: Txn)
  {
    txn.at <= now && WritesOk(cfg, db, now, txn) && Knows(cfg, db, now, txn)
  }

  ghost predicate Inv(cfg: Config, s: State)
  {
    && cfg.env.ttl > 0 && cfg.quota > 0
    && DbOk(cfg, s.db, s.now, s.log) && ProvidedOk(s.db.identities, s.log, s.rebound)
    && (forall t | t in s.txns :: TxnOk(cfg, s.db, s.now, s.txns[t]))
    && (forall t, u | t in s.txns && u in s.txns && t != u :: Compatible(s.txns[t], s.txns[u]))
    && (forall n | n in s.replies :: n < |s.log|)
  }

  // ---- interference ----

  predicate Holds(txn: Txn, row: Row)
  {
    row in txn.shared || row in txn.excl
  }

  /** How another transaction's commit may change the tables under the eyes of `txn`: rows it has locked stay,
      accounts it has locked get no new token, identities only grow. */
  ghost predicate Evolves(db: Db, db': Db, txn: Txn)
  {
    && (forall u | Holds(txn, UserRow(u)) :: Lookup(db.users, u) == Lookup(db'.users, u))
    && (forall p | Holds(txn, PlayerRow(p)) :: Lookup(db.players, p) == Lookup(db'.players, p))
    && (forall u | SubjectRow(u) in txn.excl :: Lookup(db.subjects, u) == Lookup(db'.subjects, u))
    && (forall h | TokenRow(h) in txn.excl :: Lookup(db.tokens, h) == Lookup(db'.tokens, h))
    && (forall h | h in db'.tokens :: Lookup(db.tokens, h) == Some(db'.tokens[h])
                                      || SubjectRow(db'.tokens[h].owner) !in txn.excl)
    && (forall v | Holds(txn, SessionRow(v)) :: Lookup(db.sessions, v) == Lookup(db'.sessions, v))
    && IdentitiesOk(db'.identities)
    && (forall i | i in db.identities :: i in db'.identities && db'.identities[i] == db.identities[i])
    && (forall i | i in db'.identities && i !in db.identities ::
          var r := db'.identities[i];
          && IdentityRow(i) !in txn.excl
          && (r.player.Some? ==> PlayerKey(r.player.value) !in txn.excl)
          && (r.uuid.Some? ==> UuidKey(r.uuid.value) !in txn.excl)
          && r.legacy.None?)
  }
}
