/** The service as concurrent transactions, one SQL statement a step.

    A transaction holds shared and exclusive row locks until it ends. Its writes stay private until it
    commits, so a non-locking read sees the committed tables (and the reader's own writes), which is what
    READ COMMITTED gives. A statement that must wait for a lock is a step that is not enabled. A statement
    takes its timestamp when it starts, which may be earlier than the instant it completes.

    Fewer locks are modelled than the storage engine takes (no gap locks, no lock for a failed insert), and
    a transaction may abort at any time, so every behaviour of the service is a behaviour of the machine. */
module Machine {
  import opened Basics
  import opened Uuids
  import opened Tables
  import opened Directory

  type Tid = nat

  datatype Config = Config(env: Env, watermark: nat, quota: nat)

  /** What a lock protects: a row, or the entry of a UNIQUE key. */
  datatype Row =
    | UserRow(uid: nat)
    | SubjectRow(uid: nat)
    | TokenRow(hash: Hash)
    | PlayerRow(pid: nat)
    | IdentityRow(id: nat)
    | PlayerKey(pid: nat)
    | UuidKey(uuid: Uuid)
    | SessionRow(server: string)

  datatype Change = PasswordChanged | PermissionChanged | AccountDeleted | SignedOut

  /** The history of committed effects. The serial of a token row is the position of the event that issued it. */
  datatype Event =
    | LoggedIn(hash: Hash, row: Token)
    | Refreshed(prior: Token, hash: Hash, row: Token)
    | Revoked(uid: nat, why: Change)
    | Provided(pid: nat, id: nat, uuid: Uuid)
    | Joined(server: string, hash: Hash, ip: seq<int>, at: nat)
    | Admitted(server: string, from: Option<seq<int>>, hash: Hash, pid: nat, at: nat)

  datatype Issue = Issue(hash: Hash, row: Token, from: Option<Token>)

  datatype Writes = Writes(
    users: map<nat, Option<User>>, players: map<nat, Option<Player>>, identities: map<nat, IdRow>,
    subjects: map<nat, nat>, kills: set<Hash>, issue: Option<Issue>,
    sessions: map<string, Option<Session>>, events: seq<Event>)

  const NO_WRITES: Writes := Writes(map[], map[], map[], map[], {}, None, map[], [])

  datatype Credentials = Credentials(username: string, password: string, uid: nat, stored: string)

  datatype Goal =
    | Validate
    | Refresh(selected: Option<Uuid>)
    | Join(profile: Uuid, server: string, ip: seq<int>)
    | Admit(name: string, at: string, from: Option<seq<int>>)

  /** The variables of each program. `pc` counts the statements that have completed. */
  datatype LoginVars = LoginVars(
    pc: nat, cred: Credentials, client: string, limit: nat, gen: nat, evictAt: nat, victims: set<Hash>,
    todo: seq<nat>, profiles: seq<Identity>, chosen: Option<Identity>, tries: nat)

  datatype AccessVars = AccessVars(
    pc: nat, goal: Goal, hash: Hash, client: string, owner: nat, gen: nat, row: Token, lockedAt: nat,
    bound: Option<Identity>, checkedAt: nat, picked: Option<Identity>, tries: nat)

  datatype LogoutVars = LogoutVars(pc: nat, cred: Credentials)
  datatype DropVars = DropVars(pc: nat, hash: Hash, client: string, owner: nat)
  datatype EnsureVars = EnsureVars(pc: nat, pid: nat, tries: nat, found: Option<Identity>)
  datatype SweepVars = SweepVars(pc: nat, batch: nat)

  /** A player found under a requested name, with the account it belonged to then. */
  datatype Hit = Hit(name: string, pid: nat, owner: nat)

  /** A public lookup by names. With `single` it is the lookup of one name, which fails where the lookup of many
      passes over a name. */
  datatype LookupVars = LookupVars(
    pc: nat, single: bool, names: seq<string>, read: nat, hits: seq<Hit>, tries: nat, resolved: map<nat, Identity>,
    answers: seq<Identity>)

  datatype Prog =
    | Login(login: LoginVars)
    | Access(access: AccessVars)
    | Logout(logout: LogoutVars)
    | Drop(drop: DropVars)
    | Ensure(ensure: EnsureVars)
    | Sweep(sweep: SweepVars)
    | Names(lookup: LookupVars)
    | Editing

  datatype Txn = Txn(prog: Prog, shared: set<Row>, excl: set<Row>, at: nat, writes: Writes)

  /** `rebound` is a history variable: how long the history was when operators last changed identity rows. */
  datatype State = State(db: Db, now: nat, log: seq<Event>, txns: map<Tid, Txn>, replies: set<nat>, rebound: nat)

  /** Everything a statement leaves open: its timestamp, the random candidates, the rows it returns. */
  datatype Choice = Choice(at: nat, hash: Hash, uuid: Uuid, id: nat, hashes: set<Hash>, pids: seq<nat>,
                           servers: set<string>)

  datatype EditOp = LockUser(uid: nat) | PutUser(uid: nat, user: Option<User>) | PutPlayer(pid: nat,
          player: Option<Player>)

  datatype Step =
    | Tick(dt: nat)
    | Begin(t: Tid, prog: Prog)
    | Run(t: Tid, ch: Choice)
    | Edit(t: Tid, op: EditOp)
    | Commit(t: Tid, answered: bool)
    | Abort(t: Tid)

  // ---- tables as one transaction sees them ----

  function Merge<K, V>(m: map<K, V>, w: map<K, Option<V>>): map<K, V>
  {
    map k | k in m.Keys + w.Keys && (k in w ==> w[k].Some?) :: if k in w then w[k].value else m[k]
  }

  function Base(subjects: map<nat, nat>, uid: nat): nat
  {
    if uid in subjects then subjects[uid] else 0
  }

  /** The effect of `INSERT (uid, 1) ON DUPLICATE KEY UPDATE generation = generation + 1`. */
  function Bump(db: Db, w: Writes, uid: nat): Writes
  {
    w.(subjects := w.subjects[uid := Base(db.subjects + w.subjects, uid) + 1])
  }

  function Numbered(i: Issue, serial: nat): Token
  {
    i.row.(serial := serial)
  }

  function CommitTokens(tokens: map<Hash, Token>, w: Writes, serial: nat): map<Hash, Token>
  {
    var rest := tokens - w.kills;
    if w.issue.None? then rest else rest[w.issue.value.hash := Numbered(w.issue.value, serial)]
  }

  function Apply(db: Db, w: Writes, serial: nat): Db
  {
    db.(users := Merge(db.users, w.users), players := Merge(db.players, w.players),
        identities := db.identities + w.identities, subjects := db.subjects + w.subjects,
        tokens := CommitTokens(db.tokens, w, serial), sessions := Merge(db.sessions, w.sessions))
  }

  function IssueEvents(w: Writes, serial: nat): seq<Event>
  {
    match w.issue
    case None => []
    case Some(i) =>
      match i.from
      case None => [LoggedIn(i.hash, Numbered(i, serial))]
      case Some(prior) => [Refreshed(prior, i.hash, Numbered(i, serial))]
  }

  function LogAfter(log: seq<Event>, w: Writes): seq<Event>
  {
    log + IssueEvents(w, |log|) + w.events
  }

  predicate Between(n: nat, from: nat, to: nat)
  {
    from <= n < to
  }

  /** The positions of the events a commit appends. What a request returns to its caller is in them. */
  function Appended(log: seq<Event>, w: Writes): set<nat>
  {
    set n: nat | 0 <= n < |LogAfter(log, w)| && Between(n, |log|, |LogAfter(log, w)|)
  }

  // ---- locks ----

  predicate Compatible(a: Txn, b: Txn)
  {
    a.excl !! b.excl + b.shared && b.excl !! a.shared
  }

  ghost predicate LockFree(txns: map<Tid, Txn>, t: Tid, next: Txn)
  {
    forall u | u in txns && u != t :: Compatible(next, txns[u])
  }

  function Share(txn: Txn, rows: set<Row>): Txn
  {
    txn.(shared := txn.shared + rows)
  }

  function Lock(txn: Txn, rows: set<Row>): Txn
  {
    txn.(excl := txn.excl + rows)
  }

  ghost function TokenRows(hashes: set<Hash>): set<Row>
  {
    set h | h in hashes :: TokenRow(h)
  }

  ghost function PlayerRows(pids: seq<nat>): set<Row>
  {
    set p | p in pids :: PlayerRow(p)
  }

  ghost function SessionRows(servers: set<string>): set<Row>
  {
    set v | v in servers :: SessionRow(v)
  }

  // ---- statements shared by several programs ----

  /** The account is present, its stored password is the one that was verified, and the policy allows it. */
  predicate AccountHolds(env: Env, db: Db, cred: Credentials)
  {
    && cred.uid in db.users
    && db.users[cred.uid].password == cred.stored
    && env.allowed(db.users[cred.uid].permission, db.users[cred.uid].verified)
  }

  datatype Allocation = Allocated(txn: Txn, made: Identity) | Existing(found: Identity) | Collided | Refused

  ghost function ViewIds(db: Db, w: Writes): map<nat, IdRow>
  {
    db.identities + w.identities
  }

  /** One turn of the allocation loop: insert a candidate, or after a duplicate read the player's row again. */
  ghost function Allocate(db: Db, txn: Txn, pid: nat, ch: Choice): Allocation
    requires pid in db.players
  {
    var ids := ViewIds(db, txn.writes);
    if exists i :: i in ids && (ids[i].player == Some(pid) || ids[i].uuid == Some(ch.uuid)) then
      match ReadIdentity(ids, pid, db.players[pid])
      case Ok(x) => Existing(x)
      case Err(NotFound) => Collided
      case _ => Refused
    else if ch.id in ids || pid == 0 then Refused
    else
      Allocated(Lock(txn, {IdentityRow(ch.id), PlayerKey(pid), UuidKey(ch.uuid)})
                  .(writes := txn.writes.(identities := txn.writes.identities[ch.id := NewRow(pid, ch.uuid)])),
                Identity(ch.id, pid, ch.uuid, db.players[pid].name, db.players[pid].owner))
  }

  predicate Increasing(s: seq<nat>)
  {
    forall i, j :: 0 <= i < j < |s| ==> s[i] < s[j]
  }

  // ---- Authenticate ----

  /** With an e-mail, the profile is chosen if it is the only one. */
  function OnlyOne(profiles: seq<Identity>): Option<Identity>
  {
    if |profiles| == 1 then Some(profiles[0]) else None
  }

  function IdOf(x: Option<Identity>): Option<nat>
  {
    if x.Some? then Some(x.value.id) else None
  }

  ghost function LoginStep(cfg: Config, db: Db, txn: Txn, ch: Choice): Option<Txn>
    requires txn.prog.Login?
  {
    var p := txn.prog.login;
    var uid := p.cred.uid;
    match p.pc
    case 0 => // SELECT ... FROM users WHERE uid=? FOR SHARE, compared with the verified snapshot
      if AccountHolds(cfg.env, db, p.cred) then Some(Share(txn, {UserRow(uid)}).(prog := Login(p.(pc := 1)))) else None
    case 1 => // the login name still designates this account
      if LoginOwner(cfg.env, db, p.cred.username) == Ok(uid) then Some(txn.(prog := Login(p.(pc := 2)))) else None
    case 2 => // upsert of the subject row
      var w := if uid in db.subjects then txn.writes else txn.writes.(subjects := txn.writes.subjects[uid := 1]);
      Some(Lock(txn, {SubjectRow(uid)}).(prog := Login(p.(pc := 3)), writes := w))
    case 3 => // SELECT generation ... FOR UPDATE
      Some(txn.(prog := Login(p.(pc := 4, gen := Base(db.subjects + txn.writes.subjects, uid)))))
    case 4 => // SELECT the live tokens ORDER BY created_at, token_hash FOR UPDATE
      var live := Live(db.tokens, uid, p.gen, ch.at);
      if IsEviction(db.tokens, live, p.limit, ch.hashes) then
        Some(Lock(txn, TokenRows(live)).(prog := Login(p.(pc := 5, evictAt := ch.at, victims := ch.hashes))))
      else None
    case 5 => // SELECT the account's players ORDER BY pid FOR SHARE
      if Increasing(ch.pids) && forall q :: q in ch.pids <==> (q in db.players && db.players[q].owner == uid) then
        Some(Share(txn, PlayerRows(ch.pids)).(prog := Login(p.(pc := 6, todo := ch.pids))))
      else None
    case 6 => // the next player's identity, or the end of the list
      if p.todo == [] then Some(txn.(prog := Login(p.(pc := 8))))
      else if p.todo[0] !in db.players then None
      else
        var pid := p.todo[0];
        (match ReadIdentity(ViewIds(db, txn.writes), pid, db.players[pid])
         case Ok(x) => Some(txn.(prog := Login(p.(todo := p.todo[1..], profiles := p.profiles + [x]))))
         case Err(NotFound) =>
           if pid <= cfg.watermark then Some(txn.(prog := Login(p.(todo := p.todo[1..]))))
           else Some(txn.(prog := Login(p.(pc := 7, tries := 0))))
         case Err(_) => Some(txn.(prog := Login(p.(todo := p.todo[1..])))))
    case 7 => // allocation of an identity for a new player
      if p.todo == [] || p.todo[0] !in db.players || p.tries >= 3 then None
      else
        (match Allocate(db, txn, p.todo[0], ch)
         case Allocated(next, made) =>
           Some(next.(prog := Login(p.(pc := 6, todo := p.todo[1..], profiles := p.profiles + [made]))))
         case Existing(x) => Some(txn.(prog := Login(p.(pc := 6, todo := p.todo[1..], profiles := p.profiles + [x]))))
         case Collided => Some(txn.(prog := Login(p.(tries := p.tries + 1))))
         case Refused => None)
    case 8 => // the identity the token will carry
      if '@' in p.cred.username then
        Some(txn.(prog := Login(p.(pc := 9, tries := 0, chosen := OnlyOne(p.profiles)))))
      else
        (match UniquePlayerName(cfg.env, db.players, p.cred.username)
         case Err(_) => None
         case Ok(pid) =>
           if exists k :: 0 <= k < |p.profiles| && p.profiles[k].player == pid then
             var k :| 0 <= k < |p.profiles| && p.profiles[k].player == pid;
             Some(txn.(prog := Login(p.(pc := 9, tries := 0, chosen := Some(p.profiles[k])))))
           else None)
    case 9 => // INSERT of a candidate token, at most three times
      if p.tries >= 3 then None
      else if ch.hash in db.tokens then Some(txn.(prog := Login(p.(tries := p.tries + 1))))
      else
        var row := Token(uid, p.gen, IdOf(p.chosen), p.client, ch.at, ch.at + cfg.env.ttl, 0);
        Some(Lock(txn, {TokenRow(ch.hash)})
               .(prog := Login(p.(pc := 10)), writes := txn.writes.(issue := Some(Issue(ch.hash, row, None)))))
    case 10 => // DELETE of the victims; any other count is an error
      if p.victims <= db.tokens.Keys then
        Some(txn.(prog := Login(p.(pc := 11)),
                  writes := txn.writes.(kills := p.victims, events := txn.writes.events + Provisions(p.profiles))))
      else None
    case _ => None
  }

  function Provisions(xs: seq<Identity>): seq<Event>
  {
    seq(|xs|, k requires 0 <= k < |xs| => Provided(xs[k].player, xs[k].id, xs[k].uuid))
  }

  // ---- Validate, Refresh, Join, HasJoined ----

  ghost function AccessStep(cfg: Config, db: Db, now: nat, txn: Txn, ch: Choice): Option<Txn>
    requires txn.prog.Access?
  {
    var p := txn.prog.access;
    match p.pc
    case 0 => // HasJoined first reads which token the session names
      if p.goal.Admit? && p.goal.at in db.sessions then
        Some(txn.(prog := Access(p.(pc := 1, hash := db.sessions[p.goal.at].hash))))
      else None
    case 1 => // SELECT user_id FROM the token, without a lock
      if p.hash in db.tokens then Some(txn.(prog := Access(p.(pc := 2, owner := db.tokens[p.hash].owner)))) else None
    case 2 => // lockUser
      if p.owner in db.users && cfg.env.allowed(db.users[p.owner].permission, db.users[p.owner].verified) then
        Some(Share(txn, {UserRow(p.owner)}).(prog := Access(p.(pc := 3))))
      else None
    case 3 => // lockGeneration
      if p.owner in db.subjects then
        Some(Lock(txn, {SubjectRow(p.owner)}).(prog := Access(p.(pc := 4, gen := db.subjects[p.owner]))))
      else None
    case 4 => // the token row again, FOR UPDATE
      if p.hash in db.tokens then
        var row := db.tokens[p.hash];
        if row.owner == p.owner && row.generation == p.gen && MatchesClient(row.client, p.client) then
          Some(Lock(txn, {TokenRow(p.hash)}).(prog := Access(p.(pc := 5, row := row, lockedAt := now))))
        else None
      else None
    case 5 => // the player the token's identity belongs to, FOR SHARE
      (match p.row.identity
       case None => Some(txn.(prog := Access(p.(pc := 7))))
       case Some(iid) =>
         if iid in db.identities && db.identities[iid].player.Some?
            && db.identities[iid].player.value in db.players then
           Some(Share(txn, {PlayerRow(db.identities[iid].player.value)}).(prog := Access(p.(pc := 6))))
         else None)
    case 6 => // the identity of that player
      if p.row.identity.None? then None
      else
        (match BoundIdentity(db, p.owner, p.row.identity.value)
         case Ok(x) => Some(txn.(prog := Access(p.(pc := 7, bound := Some(x)))))
         case Err(_) => None)
    case 7 => // not expired
      if ch.at < p.row.expires then
        Some(txn.(prog := Access(p.(pc := 8, checkedAt := ch.at, picked := p.bound))))
      else None
    case 8 => AccessChecked(cfg, db, txn, ch)
    case 9 => AccessStore(cfg, db, txn, ch)
    case 10 => // INSERT of a candidate that differs from the old token, at most three times
      if !p.goal.Refresh? || p.tries >= 3 then None
      else if ch.hash == p.hash || ch.hash in db.tokens then Some(txn.(prog := Access(p.(tries := p.tries + 1))))
      else
        var row := Token(p.owner, p.gen, IdOf(p.picked), p.row.client, ch.at, ch.at + cfg.env.ttl, 0);
        Some(Lock(txn, {TokenRow(ch.hash)})
               .(prog := Access(p.(pc := 11)), writes := txn.writes.(issue := Some(Issue(ch.hash, row, Some(p.row))))))
    case _ => None
  }

  /** The first statement after authorization. */
  ghost function AccessChecked(cfg: Config, db: Db, txn: Txn, ch: Choice): Option<Txn>
    requires txn.prog.Access?
  {
    var p := txn.prog.access;
    match p.goal
    case Validate => None
    case Refresh(selected) => // the selected profile, if one is named
      (match selected
       case None => Some(txn.(prog := Access(p.(pc := 9))))
       case Some(u) =>
         if p.bound.Some? then (if p.bound.value.uuid == u then Some(txn.(prog := Access(p.(pc := 9)))) else None)
         else
           (match LookupUuid(db, u)
            case Err(_) => None
            case Ok(x) =>
              if x.owner == p.owner then
                Some(Share(txn, {PlayerRow(x.player)}).(prog := Access(p.(pc := 9, picked := Some(x)))))
              else None))
    case Join(profile, server, ip) => // DELETE the session if it has expired
      if p.bound.Some? && p.bound.value.uuid == profile then
        if server in db.sessions && db.sessions[server].expires <= ch.at then
          Some(Lock(txn, {SessionRow(server)})
                 .(prog := Access(p.(pc := 9)), writes := txn.writes.(sessions := txn.writes.sessions[server := None])))
        else Some(txn.(prog := Access(p.(pc := 9))))
      else None
    case Admit(name, server, ip) => // the name designates the token's player, and only that player
      if p.bound.Some? && UniquePlayerName(cfg.env, db.players, name) == Ok(p.bound.value.player) then
        Some(txn.(prog := Access(p.(pc := 9))))
      else None
  }

  /** The statement that stores the outcome, or for HasJoined compares it with the stored session. */
  ghost function AccessStore(cfg: Config, db: Db, txn: Txn, ch: Choice): Option<Txn>
    requires txn.prog.Access?
  {
    var p := txn.prog.access;
    match p.goal
    case Validate => None
    case Refresh(_) => // DELETE the old token
      Some(txn.(prog := Access(p.(pc := 10, tries := 0)), writes := txn.writes.(kills := {p.hash})))
    case Join(_, server, ip) => // INSERT the session, or compare with the one that is there
      if server in Merge(db.sessions, txn.writes.sessions) then
        var there := Merge(db.sessions, txn.writes.sessions)[server];
        if there.hash == p.hash && there.ip == ip then
          Some(Lock(txn, {SessionRow(server)}).(prog := Access(p.(pc := 11))))
        else None
      else
        Some(Lock(txn, {SessionRow(server)})
               .(prog := Access(p.(pc := 11)),
                 writes := txn.writes.(
                   sessions := txn.writes.sessions[server := Some(Session(p.hash, ip, ch.at, ch.at + SESSION_TTL))],
                   events := txn.writes.events + [Joined(server, p.hash, ip, ch.at)])))
    case Admit(_, server, ip) => // SELECT the session FOR SHARE
      if && server in db.sessions && db.sessions[server].hash == p.hash
         && ch.at < db.sessions[server].expires && ch.at < p.row.expires
         && (ip.Some? ==> db.sessions[server].ip == ip.value)
         && p.bound.Some?
      then
        Some(Share(txn, {SessionRow(server)})
               .(prog := Access(p.(pc := 11)),
                 writes := txn.writes.(events := txn.writes.events
                                         + [Admitted(server, ip, p.hash, p.bound.value.player, ch.at)])))
      else None
  }

  // ---- Signout, Invalidate, EnsureIdentity, CleanupExpired ----

  ghost function LogoutStep(cfg: Config, db: Db, txn: Txn): Option<Txn>
    requires txn.prog.Logout?
  {
    var p := txn.prog.logout;
    var uid := p.cred.uid;
    match p.pc
    case 0 =>
      if AccountHolds(cfg.env, db, p.cred) then Some(Share(txn, {UserRow(uid)}).(prog := Logout(p.(pc := 1)))) else None
    case 1 =>
      if LoginOwner(cfg.env, db, p.cred.username) == Ok(uid) then Some(txn.(prog := Logout(p.(pc := 2)))) else None
    case 2 =>
      var w := Bump(db, txn.writes, uid);
      Some(Lock(txn, {SubjectRow(uid)}).(prog := Logout(p.(pc := 3)),
                                         writes := w.(events := w.events + [Revoked(uid, SignedOut)])))
    case _ => None
  }

  ghost function DropStep(db: Db, txn: Txn): Option<Txn>
    requires txn.prog.Drop?
  {
    var p := txn.prog.drop;
    match p.pc
    case 0 =>
      if p.hash in db.tokens then Some(txn.(prog := Drop(p.(pc := 1, owner := db.tokens[p.hash].owner))))
      else Some(txn.(prog := Drop(p.(pc := 5))))
    case 1 => // a deleted account does not stop revocation
      Some((if p.owner in db.users then Share(txn, {UserRow(p.owner)}) else txn).(prog := Drop(p.(pc := 2))))
    case 2 =>
      if p.owner in db.subjects then Some(Lock(txn, {SubjectRow(p.owner)}).(prog := Drop(p.(pc := 3)))) else None
    case 3 =>
      if p.hash !in db.tokens then Some(txn.(prog := Drop(p.(pc := 5))))
      else if MatchesClient(db.tokens[p.hash].client, p.client)
        then Some(Lock(txn, {TokenRow(p.hash)}).(prog := Drop(p.(pc := 4))))
      else None
    case 4 => Some(txn.(prog := Drop(p.(pc := 5)), writes := txn.writes.(kills := {p.hash})))
    case _ => None
  }

  ghost function EnsureStep(cfg: Config, db: Db, txn: Txn, ch: Choice): Option<Txn>
    requires txn.prog.Ensure?
  {
    var p := txn.prog.ensure;
    match p.pc
    case 0 =>
      if p.pid in db.players && p.pid > 0 then Some(Share(txn, {PlayerRow(p.pid)}).(prog := Ensure(p.(pc := 1))))
        else None
    case 1 =>
      if p.pid !in db.players then None
      else
        (match ReadIdentity(ViewIds(db, txn.writes), p.pid, db.players[p.pid])
         case Ok(x) => Some(EnsureDone(txn, x))
         case Err(NotFound) =>
           if p.pid <= cfg.watermark then None else Some(txn.(prog := Ensure(p.(pc := 2, tries := 0))))
         case Err(_) => None)
    case 2 =>
      if p.pid !in db.players || p.tries >= 3 then None
      else
        (match Allocate(db, txn, p.pid, ch)
         case Allocated(next, made) => Some(EnsureDone(next, made))
         case Existing(x) => Some(EnsureDone(txn, x))
         case Collided => Some(txn.(prog := Ensure(p.(tries := p.tries + 1))))
         case Refused => None)
    case _ => None
  }

  ghost function EnsureDone(txn: Txn, x: Identity): Txn
    requires txn.prog.Ensure?
  {
    txn.(prog := Ensure(txn.prog.ensure.(pc := 3, found := Some(x))),
         writes := txn.writes.(events := txn.writes.events + [Provided(x.player, x.id, x.uuid)]))
  }

  ghost function SweepStep(db: Db, txn: Txn, ch: Choice): Option<Txn>
    requires txn.prog.Sweep?
  {
    var p := txn.prog.sweep;
    match p.pc
    case 0 =>
      if ch.hashes <= ExpiredTokens(db.tokens, ch.at) && |ch.hashes| <= p.batch then
        Some(Lock(txn, TokenRows(ch.hashes)).(prog := Sweep(p.(pc := 1)), writes := txn.writes.(kills := ch.hashes)))
      else None
    case 1 =>
      if ch.servers <= ExpiredSessions(db.sessions, ch.at) && |ch.servers| <= p.batch then
        Some(Lock(txn, SessionRows(ch.servers))
               .(prog := Sweep(p.(pc := 2)),
                 writes := txn.writes.(sessions := txn.writes.sessions + map v | v in ch.servers :: None)))
      else None
    case _ => None
  }

  // ---- ResolveIdentityByName, ResolveIdentitiesByNames ----

  /** Candidates are sorted by player, so that players are locked in one order. */
  function InsertHit(s: seq<Hit>, h: Hit): seq<Hit>
  {
    if s == [] || h.pid < s[0].pid then [h] + s else [s[0]] + InsertHit(s[1..], h)
  }

  /** The candidate at the front leads to nothing. */
  function PassOver(txn: Txn): Option<Txn>
    requires txn.prog.Names?
  {
    var p := txn.prog.lookup;
    if p.single || p.hits == [] then None else Some(txn.(prog := Names(p.(pc := 1, hits := p.hits[1..]))))
  }

  /** The candidate at the front is resolved; the lookup of a single name ends with it. */
  function Resolve(txn: Txn, x: Identity): Option<Txn>
    requires txn.prog.Names?
  {
    var p := txn.prog.lookup;
    if p.hits == [] then None
    else if p.single then
      Some(txn.(prog := Names(p.(pc := 6, hits := p.hits[1..], answers := [x])),
                writes := txn.writes.(events := txn.writes.events + Provisions([x]))))
    else Some(txn.(prog := Names(p.(pc := 1, hits := p.hits[1..], resolved := p.resolved[p.hits[0].pid := x]))))
  }

  ghost function LookupStep(cfg: Config, db: Db, txn: Txn, ch: Choice): Option<Txn>
    requires txn.prog.Names?
  {
    var p := txn.prog.lookup;
    match p.pc
    case 0 => LookupFinds(cfg, db, txn)
    case 1 => // the next player, FOR SHARE
      if p.hits == [] then (if p.single then None else Some(txn.(prog := Names(p.(pc := 5, read := 0)))))
      else if p.hits[0].pid in db.players then
        Some(Share(txn, {PlayerRow(p.hits[0].pid)}).(prog := Names(p.(pc := 2))))
      else PassOver(txn)
    case 2 => // it may have been renamed or moved to another account before the lock
      if p.hits == [] || p.hits[0].pid !in db.players then None
      else if UniquePlayerName(cfg.env, db.players, p.hits[0].name) == Ok(p.hits[0].pid)
              && db.players[p.hits[0].pid].owner == p.hits[0].owner then
        Some(txn.(prog := Names(p.(pc := 3))))
      else PassOver(txn)
    case 3 =>
      if p.hits == [] || p.hits[0].pid !in db.players then None
      else
        (match ReadIdentity(ViewIds(db, txn.writes), p.hits[0].pid, db.players[p.hits[0].pid])
         case Ok(x) => Resolve(txn, x)
         case Err(NotFound) =>
           if p.hits[0].pid <= cfg.watermark then PassOver(txn) else Some(txn.(prog := Names(p.(pc := 4, tries := 0))))
         case Err(_) => PassOver(txn))
    case 4 =>
      if p.hits == [] || p.hits[0].pid !in db.players then None
      else if p.tries >= 3 then PassOver(txn)
      else
        (match Allocate(db, txn, p.hits[0].pid, ch)
         case Allocated(next, made) => Resolve(next, made)
         case Existing(x) => Resolve(txn, x)
         case Collided => Some(txn.(prog := Names(p.(tries := p.tries + 1))))
         case Refused => if ch.id in ViewIds(db, txn.writes) then None else PassOver(txn))
    case 5 => LookupAnswers(cfg, db, txn)
    case _ => None
  }

  /** Without locks, whom the next name designates; a player is noted once. */
  ghost function LookupFinds(cfg: Config, db: Db, txn: Txn): Option<Txn>
    requires txn.prog.Names?
  {
    var p := txn.prog.lookup;
    if p.read >= |p.names| then Some(txn.(prog := Names(p.(pc := 1))))
    else
      match UniquePlayerName(cfg.env, db.players, p.names[p.read])
      case Err(_) => if p.single then None else Some(txn.(prog := Names(p.(read := p.read + 1))))
      case Ok(pid) =>
        assert pid in Named(cfg.env.key, db.players, p.names[p.read]);
        if exists h :: h in p.hits && h.pid == pid then
          Some(txn.(prog := Names(p.(read := p.read + 1))))
        else
          var hit := Hit(p.names[p.read], pid, db.players[pid].owner);
          Some(txn.(prog := Names(p.(read := p.read + 1, hits := InsertHit(p.hits, hit)))))
  }

  /** In the order of the request, whom the next name designates now; a player is returned once. */
  ghost function LookupAnswers(cfg: Config, db: Db, txn: Txn): Option<Txn>
    requires txn.prog.Names?
  {
    var p := txn.prog.lookup;
    if p.read >= |p.names| then
      Some(txn.(prog := Names(p.(pc := 6)), writes := txn.writes.(events := txn.writes.events + Provisions(p.answers))))
    else
      match UniquePlayerName(cfg.env, db.players, p.names[p.read])
      case Err(_) => Some(txn.(prog := Names(p.(read := p.read + 1))))
      case Ok(pid) =>
        if pid in p.resolved then
          Some(txn.(prog := Names(p.(read := p.read + 1, answers := p.answers + [p.resolved[pid]],
                                     resolved := p.resolved - {pid}))))
        else Some(txn.(prog := Names(p.(read := p.read + 1))))
  }

  ghost function Advance(cfg: Config, db: Db, now: nat, txn: Txn, ch: Choice): Option<Txn>
  {
    match txn.prog
    case Login(_) => LoginStep(cfg, db, txn, ch)
    case Access(_) => AccessStep(cfg, db, now, txn, ch)
    case Logout(_) => LogoutStep(cfg, db, txn)
    case Drop(_) => DropStep(db, txn)
    case Ensure(_) => EnsureStep(cfg, db, txn, ch)
    case Sweep(_) => SweepStep(db, txn, ch)
    case Names(_) => LookupStep(cfg, db, txn, ch)
    case Editing => None
  }

  predicate Ready(p: Prog)
  {
    match p
    case Login(v) => v.pc == 11
    case Access(v) => v.pc == (if v.goal.Validate? then 8 else 11)
    case Logout(v) => v.pc == 3
    case Drop(v) => v.pc == 5
    case Ensure(v) => v.pc == 3
    case Sweep(v) => v.pc == 2
    case Names(v) => v.pc == 6
    case Editing => true
  }

  // ---- edits made by the account system, with the two triggers on `users` ----

  /** What the update and delete triggers call a security change; `None` when they stay silent. */
  function TriggerFires(before: Option<User>, after: Option<User>): Option<Change>
  {
    match (before, after)
    case (Some(a), Some(b)) =>
      if a.password != b.password then Some(PasswordChanged)
      else if a.permission != b.permission then Some(PermissionChanged)
      else None
    case (Some(_), None) => Some(AccountDeleted)
    case _ => None
  }

  function Lookup<K, V>(m: map<K, V>, k: K): Option<V>
  {
    if k in m then Some(m[k]) else None
  }

  ghost function EditStep(db: Db, txn: Txn, op: EditOp): Txn
  {
    match op
    case LockUser(uid) => Lock(txn, {UserRow(uid)})
    case PutUser(uid, user) =>
      var w := txn.writes.(users := txn.writes.users[uid := user]);
      (match TriggerFires(Lookup(Merge(db.users, txn.writes.users), uid), user)
       case None => Lock(txn, {UserRow(uid)}).(writes := w)
       case Some(why) =>
         var b := Bump(db, w, uid);
         Lock(txn, {UserRow(uid), SubjectRow(uid)}).(writes := b.(events := b.events + [Revoked(uid, why)])))
    case PutPlayer(pid, player) =>
      Lock(txn, {PlayerRow(pid)}).(writes := txn.writes.(players := txn.writes.players[pid := player]))
  }

  // ---- the whole machine ----

  /** A request before its first statement. A password is verified against a snapshot of the account that was read
      some time before, outside any transaction; nothing is known of the account now. The client token of a login
      is the one that was given, or else one that was drawn. */
  ghost predicate Starts(cfg: Config, db: Db, p: Prog)
  {
    match p
    case Login(v) =>
      && v.pc == 0 && 1 <= v.limit <= cfg.quota && v.profiles == [] && v.todo == [] && v.chosen == None
      && cfg.env.verify(v.cred.password, v.cred.stored)
    case Access(v) =>
      && v.pc == (if v.goal.Admit? then 0 else 1) && v.bound == None && v.picked == None
      && (v.goal.Admit? || v.goal.Join? ==> v.client == "")
    case Logout(v) => v.pc == 0 && cfg.env.verify(v.cred.password, v.cred.stored)
    case Drop(v) => v.pc == 0
    case Ensure(v) => v.pc == 0 && v.found == None
    case Sweep(v) => v.pc == 0
    case Names(v) =>
      && v.pc == 0 && v.read == 0 && v.hits == [] && v.resolved == map[] && v.answers == []
      && (if v.single then |v.names| == 1 else |v.names| <= 10)
    case Editing => true
  }

  ghost predicate Enabled(cfg: Config, s: State, step: Step)
  {
    match step
    case Tick(_) => true
    case Begin(t, prog) => t !in s.txns && (prog.Editing? || ServiceOpen(s.db.gate)) && Starts(cfg, s.db, prog)
    case Run(t, ch) =>
      && t in s.txns && s.txns[t].at <= ch.at <= s.now
      && Advance(cfg, s.db, s.now, s.txns[t], ch).Some?
      && LockFree(s.txns, t, Advance(cfg, s.db, s.now, s.txns[t], ch).value)
    case Edit(t, op) =>
      && t in s.txns && s.txns[t].prog.Editing? && LockFree(s.txns, t, EditStep(s.db, s.txns[t], op))
    case Commit(t, _) => t in s.txns && Ready(s.txns[t].prog)
    case Abort(t) => t in s.txns
  }

  ghost function Next(cfg: Config, s: State, step: Step): State
    requires Enabled(cfg, s, step)
  {
    match step
    case Tick(dt) => s.(now := s.now + dt)
    case Begin(t, prog) => s.(txns := s.txns[t := Txn(prog, {}, {}, s.now, NO_WRITES)])
    case Run(t, ch) => s.(txns := s.txns[t := Advance(cfg, s.db, s.now, s.txns[t], ch).value.(at := s.now)])
    case Edit(t, op) => s.(txns := s.txns[t := EditStep(s.db, s.txns[t], op)])
    case Commit(t, answered) =>
      var w := s.txns[t].writes;
      s.(db := Apply(s.db, w, |s.log|), log := LogAfter(s.log, w), txns := s.txns - {t},
         replies := if answered then s.replies + Appended(s.log, w) else s.replies)
    case Abort(t) => s.(txns := s.txns - {t})
  }

  /** The state after a sequence of steps, if each was enabled in its turn. */
  ghost function Execute(cfg: Config, s: State, steps: seq<Step>): Option<State>
    decreases |steps|
  {
    if steps == [] then Some(s)
    else if Enabled(cfg, s, steps[0]) then Execute(cfg, Next(cfg, s, steps[0]), steps[1..])
    else None
  }
}
