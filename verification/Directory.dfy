/** Read rules over the tables: what a name, an identifier, a login name or a token means right now. */
module Directory {
  import opened Basics
  import opened Uuids
  import opened Tables

  /** What every request checks first, reading the state row FOR SHARE and so keeping it until it ends. */
  predicate ServiceOpen(gate: Option<Gate>)
  {
    gate.Some? && (gate.value.version == 1 || gate.value.version == 2) && gate.value.phase == Open
  }

  /** Players the collation considers to have this name. */
  function Named(key: string -> string, players: map<nat, Player>, name: string): set<nat>
  {
    set p | p in players && key(players[p].name) == key(name)
  }

  ghost function UniquePlayerName(env: Env, players: map<nat, Player>, name: string): (r: Result<nat, Error>)
    ensures forall p :: r == Ok(p) <==> Named(env.key, players, name) == {p}
    ensures r == Err(NotFound) <==> Named(env.key, players, name) == {}
    ensures r.Err? ==> r.error.NotFound? || r.error.IdentityConflict?
  {
    var hits := Named(env.key, players, name);
    if hits == {} then Err(NotFound)
    else if |hits| == 1 then Ok(Only(hits))
    else
      assert forall p :: hits == {p} ==> |hits| == 1;
      Err(IdentityConflict)
  }

  ghost function WithEmail(env: Env, users: map<nat, User>, email: string): set<nat>
  {
    set u | u in users && env.key(users[u].email) == env.key(email)
  }

  /** The account a login name designates: by e-mail if it contains '@', otherwise by player name. */
  ghost function LoginOwner(env: Env, db: Db, username: string): (r: Result<nat, Error>)
    ensures '@' in username ==> forall u :: r == Ok(u) <==> WithEmail(env, db.users, username) == {u}
    ensures '@' !in username ==> forall u :: r == Ok(u) <==>
              exists p :: Named(env.key, db.players, username) == {p} && p in db.players && db.players[p].owner == u
  {
    if '@' in username then
      var hits := WithEmail(env, db.users, username);
      assert forall u :: hits == {u} ==> |hits| == 1;
      if |hits| == 1 then Ok(Only(hits)) else Err(Invalid)
    else
      match UniquePlayerName(env, db.players, username)
      case Ok(p) => assert p in Named(env.key, db.players, username); Ok(db.players[p].owner)
      case Err(e) => Err(e)
  }

  /** The identity row bound to a player, if any. */
  ghost function RowOf(ids: map<nat, IdRow>, pid: nat): (r: Option<nat>)
    ensures r.Some? ==> r.value in ids && ids[r.value].player == Some(pid)
    ensures r.None? ==> forall i | i in ids :: ids[i].player != Some(pid)
  {
    if exists i :: i in ids && ids[i].player == Some(pid) then
      var i :| i in ids && ids[i].player == Some(pid); Some(i)
    else None
  }

  ghost function ReadIdentity(ids: map<nat, IdRow>, pid: nat, player: Player): (r: Result<Identity, Error>)
  {
    match RowOf(ids, pid)
    case None => Err(NotFound)
    case Some(i) =>
      if ids[i].state != Active || ids[i].uuid.None? then Err(IdentityConflict)
      else Ok(Identity(i, pid, ids[i].uuid.value, player.name, player.owner))
  }

  /** With the UNIQUE keys in force, reading is characterised by the rows alone. */
  lemma ReadIdentityIff(ids: map<nat, IdRow>, pid: nat, player: Player, x: Identity)
    requires IdentitiesOk(ids)
    ensures ReadIdentity(ids, pid, player) == Ok(x) <==>
              && x.player == pid && x.name == player.name && x.owner == player.owner
              && x.id in ids && ids[x.id].state == Active && ids[x.id].player == Some(pid)
              && ids[x.id].uuid == Some(x.uuid)
  {
    if x.id in ids && ids[x.id].player == Some(pid) {
      var r := RowOf(ids, pid);
      assert r.Some? && (r.value != x.id ==> Conflict(ids[r.value], ids[x.id]));
    }
  }

  /** Public lookup by name without provisioning. NotFound means no such player, or a player newer
      than the watermark that has no identity yet. */
  ghost function LookupName(env: Env, db: Db, watermark: nat, name: string): Result<Identity, Error>
  {
    match UniquePlayerName(env, db.players, name)
    case Err(e) => Err(e)
    case Ok(p) =>
      assert p in Named(env.key, db.players, name);
      match ReadIdentity(db.identities, p, db.players[p])
      case Err(NotFound) => if p <= watermark then Err(IdentityConflict) else Err(NotFound)
      case r => r
  }

  /** The active row that carries an identifier. */
  ghost function ActiveRow(ids: map<nat, IdRow>, u: Uuid): (r: Option<nat>)
    ensures r.Some? ==> r.value in ids && ids[r.value].uuid == Some(u) && ids[r.value].state == Active
    ensures r.None? ==> forall i | i in ids :: !(ids[i].uuid == Some(u) && ids[i].state == Active)
  {
    if exists i :: i in ids && ids[i].uuid == Some(u) && ids[i].state == Active then
      var i :| i in ids && ids[i].uuid == Some(u) && ids[i].state == Active; Some(i)
    else None
  }

  ghost function LookupUuid(db: Db, u: Uuid): Result<Identity, Error>
  {
    match ActiveRow(db.identities, u)
    case None => Err(NotFound)
    case Some(i) =>
      match db.identities[i].player
      case None => Err(Backend)
      case Some(p) =>
        if p !in db.players then Err(NotFound)
        else ReadIdentity(db.identities, p, db.players[p])
  }

  predicate MatchesClient(stored: string, supplied: string)
  {
    supplied == "" || stored == supplied
  }

  /** A token that has passed every check, with the identity it is bound to. */
  datatype Grant = Grant(owner: nat, generation: nat, client: string, identity: Option<Identity>, expires: nat)

  function InvalidIfMissing(e: Error): Error
  {
    if e.NotFound? then Invalid else e
  }

  /** The identity part of authorization. */
  ghost function BoundIdentity(db: Db, owner: nat, iid: nat): (r: Result<Identity, Error>)
    ensures r.Ok? ==> r.value.id == iid && r.value.owner == owner
  {
    if iid !in db.identities then Err(Invalid)
    else match db.identities[iid].player
      case None => Err(Backend)   // a NULL player does not scan into an unsigned integer
      case Some(p) =>
        if p !in db.players then Err(Invalid)
        else match ReadIdentity(db.identities, p, db.players[p])
          case Err(e) => Err(InvalidIfMissing(e))
          case Ok(x) => if x.owner != owner || x.id != iid then Err(Invalid) else Ok(x)
  }

  /** The whole authorization decision at one instant. */
  ghost function Authorize(env: Env, db: Db, hash: Hash, client: string, now: nat): (r: Result<Grant, Error>)
  {
    if hash !in db.tokens then Err(Invalid)
    else
      var token := db.tokens[hash];
      if token.owner !in db.users then Err(Invalid)
      else
        var user := db.users[token.owner];
        if !env.allowed(user.permission, user.verified) then Err(Invalid)
        else if token.owner !in db.subjects then Err(Invalid)
        else if token.generation != db.subjects[token.owner] || !MatchesClient(token.client, client) then Err(Invalid)
        else
          match token.identity
          case None =>
            if token.expires <= now then Err(Invalid)
            else Ok(Grant(token.owner, token.generation, token.client, None, token.expires))
          case Some(iid) =>
            match BoundIdentity(db, token.owner, iid)
            case Err(e) => Err(e)
            case Ok(x) =>
              if token.expires <= now then Err(Invalid)
              else Ok(Grant(token.owner, token.generation, token.client, Some(x), token.expires))
  }

  function ExpiredTokens(tokens: map<Hash, Token>, at: nat): set<Hash>
  {
    set h | h in tokens && tokens[h].expires <= at
  }

  function ExpiredSessions(sessions: map<string, Session>, at: nat): set<string>
  {
    set v | v in sessions && sessions[v].expires <= at
  }

  /** Tokens that count against an account's quota. */
  ghost function Live(tokens: map<Hash, Token>, owner: nat, generation: nat, at: nat): set<Hash>
  {
    set h | h in tokens && tokens[h].owner == owner && tokens[h].generation == generation && tokens[h].expires > at
  }

  predicate Older(tokens: map<Hash, Token>, a: Hash, b: Hash)
    requires a in tokens && b in tokens
  {
    tokens[a].created < tokens[b].created || (tokens[a].created == tokens[b].created && a < b)
  }

  /** `victims` are exactly the oldest tokens of `live` that must go so that one more fits in `limit`. */
  ghost predicate IsEviction(tokens: map<Hash, Token>, live: set<Hash>, limit: nat, victims: set<Hash>)
    requires live <= tokens.Keys
  {
    && victims <= live
    && |live - victims| == (if |live| < limit then |live| else limit - 1)
    && forall v, k | v in victims && k in live - victims :: Older(tokens, v, k)
  }

  /** The choice of victims is forced. */
  lemma EvictionUnique(tokens: map<Hash, Token>, live: set<Hash>, limit: nat, a: set<Hash>, b: set<Hash>)
    requires live <= tokens.Keys && limit > 0
    requires IsEviction(tokens, live, limit, a) && IsEviction(tokens, live, limit, b)
    ensures a == b
  {
    if a != b {
      if b <= a {
        StrictlyFewer(live, b, a);
      } else if a <= b {
        StrictlyFewer(live, a, b);
      } else {
        var x :| x in a && x !in b;
        var y :| y in b && y !in a;
        EvictedIsOlder(tokens, live, limit, a, x, y);
        EvictedIsOlder(tokens, live, limit, b, y, x);
      }
    }
  }

  lemma EvictedIsOlder(tokens: map<Hash, Token>, live: set<Hash>, limit: nat, victims: set<Hash>, v: Hash, k: Hash)
    requires live <= tokens.Keys && IsEviction(tokens, live, limit, victims)
    requires v in victims && k in live && k !in victims
    ensures Older(tokens, v, k)
  {
    assert k in live - victims;
  }

  lemma StrictlyFewer<T>(all: set<T>, small: set<T>, large: set<T>)
    requires small < large <= all
    ensures |all - large| < |all - small|
  {
    var x :| x in large && x !in small;
    SubsetSize(all - large, all - small - {x});
  }
}
