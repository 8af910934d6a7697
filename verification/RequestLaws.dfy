/** What the requests promise, said of the rows alone: no statement here rests on how the other modules name a
    condition. */
module RequestLaws {
  import opened Basics
  import opened Uuids
  import opened Tables
  import opened Directory
  import opened Service
  import opened Auth
  import AP = AccountProfiles
  import L = Authenticate
  import S = Sessions
  import C = Cleanup
  import P = Profiles
  import R = CleanupRuns

  // ---- tokens ----

  /** A token authorizes exactly if its row is there and has not expired, the client token is none or the row's, the
      owner's account is there and allowed, the generation is the owner's, and the identity it is bound to, if any, is
      an active row of a player of the owner. The grant is what those rows say. */
  lemma AuthorizesExactly(env: Env, db: Db, h: Hash, client: string, at: nat, g: Grant)
    requires IdentitiesOk(db.identities)
    ensures Authorize(env, db, h, client, at) == Ok(g) <==>
            && h in db.tokens && var row := db.tokens[h];
            && at < row.expires && (client == "" || client == row.client)
            && row.owner in db.users && env.allowed(db.users[row.owner].permission, db.users[row.owner].verified)
            && row.owner in db.subjects && db.subjects[row.owner] == row.generation
            && g.owner == row.owner && g.generation == row.generation && g.client == row.client
            && g.expires == row.expires
            && match row.identity
               case None => g.identity == None
               case Some(i) =>
                 && g.identity.Some? && var x := g.identity.value;
                 && x.id == i && i in db.identities && db.identities[i].state == Active
                 && db.identities[i].player == Some(x.player) && db.identities[i].uuid == Some(x.uuid)
                 && x.player in db.players && db.players[x.player] == Player(row.owner, x.name) && x.owner == row.owner
  {
    if h in db.tokens && db.tokens[h].identity.Some? && g.identity.Some? {
      BindsExactly(db, db.tokens[h].owner, db.tokens[h].identity.value, g.identity.value);
    }
    hide BoundIdentity, IdentitiesOk;
  }

  lemma BindsExactly(db: Db, owner: nat, i: nat, x: Identity)
    requires IdentitiesOk(db.identities)
    ensures BoundIdentity(db, owner, i) == Ok(x) <==>
            && x.id == i && i in db.identities && db.identities[i].state == Active
            && db.identities[i].player == Some(x.player) && db.identities[i].uuid == Some(x.uuid)
            && x.player in db.players && db.players[x.player] == Player(owner, x.name) && x.owner == owner
  {
    if i in db.identities && db.identities[i].player.Some? && db.identities[i].player.value in db.players {
      var p := db.identities[i].player.value;
      ReadIdentityIff(db.identities, p, db.players[p], x);
      hide ReadIdentity, IdentitiesOk;
    }
  }

  /** The wrong client token is refused, whatever else is right. */
  lemma WrongClientIsRefused(env: Env, db: Db, h: Hash, a: string, b: string, at: nat)
    requires h in db.tokens && db.tokens[h].client == a && b != "" && b != a
    ensures Authorize(env, db, h, b, at) == Err(Invalid)
  {
  }

  /** Validate and Refresh with it fail and Invalidate with it fails; none of them changes a table. */
  lemma WrongClientDoesNothing(env: Env, before: Db, after: Db, h: Hash, a: string, b: string, selected: string,
                               coin: Coin, now: nat, v: Result<TokenResult, Error>, r: Result<TokenResult, Error>,
                               i: Result<(), Error>)
    requires before.gate.Some? && before.gate.value.phase == Open && before.gate.value.version in {1, 2}
    requires h in before.tokens && before.tokens[h].client == a && b != "" && b != a
    ensures ValidateBody(env, before, after, h, b, now, v) ==> v == Err(Invalid) && after == before
    ensures RefreshBody(env, before, after, h, b, selected, coin, now, r) ==> r == Err(Invalid)
    ensures InvalidateBody(before, after, h, b, i) ==> i == Err(Invalid)
  {
    WrongClientIsRefused(env, before, h, a, b, now);
    hide Authorize;
  }

  /** Invalidate succeeds exactly for an unknown token, or for one of an account with an anchor under no client token
      or the right one; then that row is gone, and only that row. */
  lemma InvalidatesExactly(before: Db, after: Db, h: Hash, client: string, r: Result<(), Error>)
    requires InvalidateBody(before, after, h, client, r)
    requires before.gate.Some? && before.gate.value.phase == Open && before.gate.value.version in {1, 2}
    ensures r == Ok(()) || r == Err(Invalid)
    ensures r == Ok(()) <==>
            (h in before.tokens ==>
               && before.tokens[h].owner in before.subjects
               && (client == "" || client == before.tokens[h].client))
    ensures r == Ok(()) ==> after == before.(tokens := after.tokens) && h !in after.tokens
    ensures r == Ok(()) ==> forall k | k != h :: k in after.tokens <==> k in before.tokens
    ensures r == Ok(()) ==> forall k | k in after.tokens :: after.tokens[k] == before.tokens[k]
  {
  }

  /** A refresh that succeeds had a row that was current, of an allowed account, under no client token or the right
      one. It leaves one row for it, with that row's owner, generation and client token, that lasts as long as a new
      one, and under a hash that was in no other row. */
  lemma RefreshesInRows(env: Env, before: Db, after: Db, h: Hash, client: string, selected: string, coin: Coin,
                        now: nat, x: TokenResult)
    requires Sound(before) && RefreshBody(env, before, after, h, client, selected, coin, now, Ok(x))
    ensures h in before.tokens && var row := before.tokens[h];
            && now < row.expires && (client == "" || client == row.client)
            && row.owner in before.users
            && env.allowed(before.users[row.owner].permission, before.users[row.owner].verified)
            && row.owner in before.subjects && before.subjects[row.owner] == row.generation
            && x.client == row.client && x.owner == row.owner && x.access.Some?
            && x.access.value in {coin(0), coin(1), coin(2)}
            && x.access.value != h && x.access.value !in before.tokens
            && after == before.(tokens := (before.tokens - {h})[x.access.value := Token(row.owner, row.generation,
                                  if x.identity.Some? then Some(x.identity.value.id) else None, row.client, now,
                                  now + env.ttl, 0)])
    ensures var row := before.tokens[h];
            row.identity.Some? ==> x.identity.Some? && x.identity.value.id == row.identity.value
    ensures x.identity.Some? ==>
              var y := x.identity.value;
              && y.id in before.identities && before.identities[y.id].state == Active
              && before.identities[y.id].player == Some(y.player) && before.identities[y.id].uuid == Some(y.uuid)
              && y.player in before.players && before.players[y.player] == Player(x.owner, y.name)
    ensures if selected == "" then (before.tokens[h].identity.None? ==> x.identity == None)
            else x.identity.Some? && (Lower(selected) == Format(x.identity.value.uuid)
                                      || Lower(selected) == Dashed(x.identity.value.uuid))
  {
    var g := Authorize(env, before, h, client, now).value;
    SoundIds(before);
    AuthorizesExactly(env, before, h, client, now, g);
    SelectionBinds(env, before, h, client, selected, now, g);
    assert Selected(before, g, selected) == Ok(x.identity);
    if x.identity.Some? {
      BindsExactly(before, g.owner, x.identity.value.id, x.identity.value);
      ParseMeans(selected, x.identity.value.uuid);
    }
    hide Authorize, Parse, BoundIdentity, LookupUuid, IdentitiesOk, Lower, Dashed, Format, Sound, Selected;
  }

  lemma SoundIds(db: Db)
    requires Sound(db)
    ensures IdentitiesOk(db.identities)
  {
    hide IdentitiesOk;
  }

  // ---- lookups ----

  /** An identifier is found as an identity exactly if an active row carries it, for a player that is there. */
  lemma FindsUuidExactly(db: Db, u: Uuid, x: Identity)
    requires IdentitiesOk(db.identities)
    ensures LookupUuid(db, u) == Ok(x) <==>
            && x.uuid == u && x.id in db.identities && db.identities[x.id].state == Active
            && db.identities[x.id].uuid == Some(u) && db.identities[x.id].player == Some(x.player)
            && x.player in db.players && db.players[x.player] == Player(x.owner, x.name)
  {
    var r := ActiveRow(db.identities, u);
    if r.Some? {
      assert x.id in db.identities && db.identities[x.id].uuid == Some(u) && x.id != r.value ==>
          Conflict(db.identities[x.id], db.identities[r.value]);
      if db.identities[r.value].player.Some? && db.identities[r.value].player.value in db.players {
        var p := db.identities[r.value].player.value;
        ReadIdentityIff(db.identities, p, db.players[p], x);
        LookupBindsRow(db, r.value, p);
      }
    }
  }

  lemma LookupBindsRow(db: Db, i: nat, p: nat)
    requires IdentitiesOk(db.identities) && i in db.identities && db.identities[i].player == Some(p)
    ensures RowOf(db.identities, p) == Some(i)
  {
    var j := RowOf(db.identities, p);
    assert j.Some? && (j.value != i ==> Conflict(db.identities[i], db.identities[j.value]));
  }

  /** A name is found as an identity exactly if one player has it, up to the collation, and that player has an
      active row. */
  lemma FindsNameExactly(env: Env, db: Db, watermark: nat, name: string, x: Identity)
    requires IdentitiesOk(db.identities)
    ensures LookupName(env, db, watermark, name) == Ok(x) <==>
            && x.player in db.players && db.players[x.player] == Player(x.owner, x.name)
            && (forall q | q in db.players :: env.key(db.players[q].name) == env.key(name) <==> q == x.player)
            && x.id in db.identities && db.identities[x.id].state == Active
            && db.identities[x.id].player == Some(x.player) && db.identities[x.id].uuid == Some(x.uuid)
  {
    var r := UniquePlayerName(env, db.players, name);
    AloneExactly(env, db.players, name, x.player);
    if r.Ok? {
      assert r.value in Named(env.key, db.players, name);
      ReadIdentityIff(db.identities, r.value, db.players[r.value], x);
      hide ReadIdentity, IdentitiesOk;
    }
  }

  lemma AloneExactly(env: Env, players: map<nat, Player>, name: string, pid: nat)
    ensures UniquePlayerName(env, players, name) == Ok(pid) <==>
            pid in players && forall q | q in players :: env.key(players[q].name) == env.key(name) <==> q == pid
  {
    if pid in players && forall q | q in players :: env.key(players[q].name) == env.key(name) <==> q == pid {
      assert Named(env.key, players, name) == {pid};
    }
    if UniquePlayerName(env, players, name) == Ok(pid) {
      forall q | q in players
        ensures env.key(players[q].name) == env.key(name) <==> q == pid
      {
        assert q in Named(env.key, players, name) <==> env.key(players[q].name) == env.key(name);
      }
      assert pid in Named(env.key, players, name);
    }
  }

  // ---- credentials ----

  /** The account a login name stands for: the only one with that e-mail address, or the owner of the only player with
      that name. */
  ghost predicate StandsFor(env: Env, db: Db, username: string, uid: nat)
  {
    if '@' in username then
      uid in db.users && forall v | v in db.users :: env.key(db.users[v].email) == env.key(username) <==> v == uid
    else
      exists p :: p in db.players && db.players[p].owner == uid
                  && forall q | q in db.players :: env.key(db.players[q].name) == env.key(username) <==> q == p
  }

  lemma OwnerExactly(env: Env, db: Db, username: string, uid: nat)
    ensures LoginOwner(env, db, username) == Ok(uid) <==> StandsFor(env, db, username, uid)
  {
    if '@' in username {
      var all := WithEmail(env, db.users, username);
      assert forall v :: v in all <==> v in db.users && env.key(db.users[v].email) == env.key(username);
      assert all == {uid} <==> uid in all && forall v | v in all :: v == uid;
      assert StandsFor(env, db, username, uid) <==> uid in all && forall v | v in all :: v == uid;
    } else {
      hide UniquePlayerName;
      forall p: nat
        ensures UniquePlayerName(env, db.players, username) == Ok(p) <==>
                p in db.players && forall q | q in db.players :: env.key(db.players[q].name) == env.key(username) <==>
                                                                   q == p
      {
        AloneExactly(env, db.players, username, p);
      }
      hide LoginOwner;
      LoginByName(env, db, username, uid);
    }
  }

  lemma LoginByName(env: Env, db: Db, username: string, uid: nat)
    requires '@' !in username
    ensures LoginOwner(env, db, username) == Ok(uid) <==>
            exists p :: UniquePlayerName(env, db.players, username) == Ok(p) && p in db.players
                        && db.players[p].owner == uid
  {
  }

  /** A name and a password designate an account exactly if neither is empty, the name stands for the account, the
      policy allows it, and the password is the account's. */
  lemma DesignatesExactly(env: Env, db: Db, username: string, password: string, uid: nat)
    ensures Credentials(env, db, username, password) == Ok(uid) <==>
            && username != "" && password != "" && StandsFor(env, db, username, uid) && uid in db.users
            && env.allowed(db.users[uid].permission, db.users[uid].verified)
            && env.verify(password, db.users[uid].password)
  {
    OwnerExactly(env, db, username, uid);
    hide LoginOwner, StandsFor;
  }

  /** With the wrong password, or for an account that is not allowed, the designation is refused as invalid. */
  lemma WrongPasswordIsInvalid(env: Env, db: Db, username: string, password: string, uid: nat)
    requires StandsFor(env, db, username, uid)
    requires uid !in db.users || !env.verify(password, db.users[uid].password)
             || !env.allowed(db.users[uid].permission, db.users[uid].verified)
    ensures Credentials(env, db, username, password) == Err(Invalid)
  {
    OwnerExactly(env, db, username, uid);
    hide LoginOwner, StandsFor;
  }

  /** Whoever logs in has named one account, that account is allowed, and the password is that account's. */
  lemma LoginProves(env: Env, before: Db, after: Db, username: string, password: string, client: string, limit: int,
                    draw: Draw, coin: Coin, now: nat, x: L.LoginResult)
    requires L.AuthenticateBody(env, before, after, username, password, client, limit, draw, coin, now, Ok(x))
    ensures limit > 0 && username != "" && password != "" && StandsFor(env, before, username, x.token.owner)
    ensures x.token.owner in before.users && var user := before.users[x.token.owner];
            env.verify(password, user.password) && env.allowed(user.permission, user.verified)
    ensures before.gate.Some? && before.gate.value.phase == Open && before.gate.value.version in {1, 2}
  {
    hide LoginOwner, L.LoginEnds, Credentials, AP.Gathered, L.Chooses, IsEviction, Live, NextHash, AP.Owned, IssuedRow,
      StandsFor;
    var uid := Credentials(env, before, username, password).value;
    DesignatesExactly(env, before, username, password, uid);
    var pids, victims := L.LoginEnded(env, before, after, uid, username, client, limit, draw, coin, now, x);
  }

  /** Whoever signs out has proved the same; the account's generation rises by one and nothing else changes. */
  lemma SignoutProves(env: Env, before: Db, after: Db, username: string, password: string) returns (uid: nat)
    requires SignoutBody(env, before, after, username, password, Ok(()))
    ensures username != "" && password != "" && StandsFor(env, before, username, uid) && uid in before.users
    ensures var user := before.users[uid];
            env.verify(password, user.password) && env.allowed(user.permission, user.verified)
    ensures before.gate.Some? && before.gate.value.phase == Open && before.gate.value.version in {1, 2}
    ensures after == before.(subjects := after.subjects) && uid in after.subjects
    ensures after.subjects[uid] == (if uid in before.subjects then before.subjects[uid] else 0) + 1
    ensures forall v | v != uid :: v in after.subjects <==> v in before.subjects
    ensures forall v | v != uid && v in before.subjects :: after.subjects[v] == before.subjects[v]
  {
    hide LoginOwner, Credentials, StandsFor;
    uid := Credentials(env, before, username, password).value;
    DesignatesExactly(env, before, username, password, uid);
  }

  /** With a password that is not the account's, both requests answer Invalid. */
  lemma WrongPasswordIsRefused(env: Env, before: Db, after: Db, username: string, password: string, uid: nat,
                               client: string, limit: int, draw: Draw, coin: Coin, now: nat,
                               r: Result<L.LoginResult, Error>, s: Result<(), Error>)
    requires StandsFor(env, before, username, uid) && uid in before.users && limit > 0
    requires !env.verify(password, before.users[uid].password)
    ensures L.AuthenticateBody(env, before, after, username, password, client, limit, draw, coin, now, r) ==>
              r == Err(Invalid)
    ensures SignoutBody(env, before, after, username, password, s) ==> s == Err(Invalid)
  {
    WrongPasswordIsInvalid(env, before, username, password, uid);
    hide Credentials, L.LoginEnds, StandsFor;
  }

  // ---- sessions ----

  /** A Join that succeeds: a server id of 1 to 255 characters, an address of 4 or 16 octets without a zone, a token
      that authorizes without a client token and is bound to the profile. The session is left with that token and
      address for thirty seconds, unless it was there, unexpired, with the very same two. */
  lemma JoinsInRows(env: Env, before: Db, after: Db, h: Hash, selected: string, server: string, ip: S.Address, now: nat)
    requires IdentitiesOk(before.identities)
    requires S.JoinBody(env, before, after, h, selected, server, ip, now, Ok(()))
    ensures 1 <= |server| <= 255 && ip.zone == "" && |ip.octets| in {4, 16}
    ensures h in before.tokens && now < before.tokens[h].expires && before.tokens[h].identity.Some?
    ensures var i := before.tokens[h].identity.value;
            && i in before.identities && before.identities[i].state == Active && before.identities[i].uuid.Some?
            && (Lower(selected) == Format(before.identities[i].uuid.value)
                || Lower(selected) == Dashed(before.identities[i].uuid.value))
    ensures after == before.(sessions := after.sessions) && server in after.sessions
    ensures var row := after.sessions[server];
            && row.hash == h
            && row.ip == (if |ip.octets| == 16 && ip.octets[..12] == [0, 0, 0, 0, 0, 0, 0, 0, 0, 0, 255, 255]
                          then ip.octets[12..] else ip.octets)
            && if server in before.sessions && now < before.sessions[server].expires then row == before.sessions[server]
               else row.created == now && row.expires == now + 30_000_000
    ensures forall v | v != server :: v in after.sessions <==> v in before.sessions
    ensures forall v | v != server && v in before.sessions :: after.sessions[v] == before.sessions[v]
  {
    var g := Authorize(env, before, h, "", now).value;
    AuthorizesExactly(env, before, h, "", now, g);
    ParseMeans(selected, g.identity.value.uuid);
    hide Authorize, Parse, IdentitiesOk, Lower, Dashed, Format;
  }

  /** HasJoined answers exactly for an unexpired session of a token that authorizes, whose player alone has the name,
      from the session's address or from no address. */
  lemma AdmitsExactly(env: Env, db: Db, name: string, server: string, ip: S.Address, now: nat, x: Identity)
    requires IdentitiesOk(db.identities)
    ensures S.Joined(env, db, name, server, ip, now) == Ok(x) <==>
            && 1 <= |server| <= 255 && name != "" && ip.zone == ""
            && db.gate.Some? && db.gate.value.phase == Open && db.gate.value.version in {1, 2}
            && server in db.sessions && var row := db.sessions[server];
            && now < row.expires && row.hash in db.tokens && var token := db.tokens[row.hash];
            && now < token.expires && token.owner in db.users
            && env.allowed(db.users[token.owner].permission, db.users[token.owner].verified)
            && token.owner in db.subjects && db.subjects[token.owner] == token.generation
            && token.identity == Some(x.id) && x.id in db.identities && db.identities[x.id].state == Active
            && db.identities[x.id].player == Some(x.player) && db.identities[x.id].uuid == Some(x.uuid)
            && x.player in db.players && db.players[x.player] == Player(token.owner, x.name) && x.owner == token.owner
            && (forall q | q in db.players :: env.key(db.players[q].name) == env.key(name) <==> q == x.player)
            && (|ip.octets| in {4, 16} && (forall o | o in ip.octets :: 0 <= o < 256) ==>
                  row.ip == (if |ip.octets| == 16 && ip.octets[..12] == [0, 0, 0, 0, 0, 0, 0, 0, 0, 0, 255, 255]
                             then ip.octets[12..] else ip.octets))
  {
    if server in db.sessions {
      var h := db.sessions[server].hash;
      if Authorize(env, db, h, "", now).Ok? {
        AuthorizesExactly(env, db, h, "", now, Authorize(env, db, h, "", now).value);
      }
      if h in db.tokens {
        AuthorizesExactly(env, db, h, "", now, Grant(db.tokens[h].owner, db.tokens[h].generation, db.tokens[h].client,
                                                     Some(x), db.tokens[h].expires));
      }
    }
    AloneExactly(env, db.players, name, x.player);
    assert forall i :: 0 <= i < |ip.octets| ==> ip.octets[i] in ip.octets;
    assert S.IsAddress(ip) <==> |ip.octets| in {4, 16} && forall o | o in ip.octets :: 0 <= o < 256;
    hide Authorize, UniquePlayerName, IdentitiesOk;
  }

  // ---- cleanup ----

  /** A cleanup that succeeds: a batch of 1 to 10000; only expired rows go; if fewer than a batch go, no expired row is
      left; and what goes expired no later than what is left. */
  lemma CleansInRows(before: Db, after: Db, batch: int, now: nat, r: C.Removed)
    requires C.CleanupBody(before, after, batch, now, Ok(r))
    ensures 1 <= batch <= 10_000 && r.tokens <= batch && r.sessions <= batch
    ensures after == before.(tokens := after.tokens, sessions := after.sessions)
    ensures forall h | h in after.tokens :: h in before.tokens && after.tokens[h] == before.tokens[h]
    ensures forall v | v in after.sessions :: v in before.sessions && after.sessions[v] == before.sessions[v]
    ensures forall h | h in before.tokens && h !in after.tokens :: before.tokens[h].expires <= now
    ensures forall v | v in before.sessions && v !in after.sessions :: before.sessions[v].expires <= now
    ensures |before.tokens.Keys - after.tokens.Keys| == r.tokens
    ensures |before.sessions.Keys - after.sessions.Keys| == r.sessions
    ensures r.tokens < batch ==> forall h | h in after.tokens :: now < after.tokens[h].expires
    ensures r.sessions < batch ==> forall v | v in after.sessions :: now < after.sessions[v].expires
    ensures forall h, k | h in before.tokens && h !in after.tokens && k in after.tokens ::
              before.tokens[h].expires <= after.tokens[k].expires
    ensures forall v, k | v in before.sessions && v !in after.sessions && k in after.sessions ::
              before.sessions[v].expires <= after.sessions[k].expires
  {
    hide C.CleanupBody, C.TokensDue, C.SessionsDue;
    var tokens, sessions := CleanupTook(before, after, batch, now, r);
    TokensCleaned(before.tokens, after.tokens, now, batch, tokens);
    SessionsCleaned(before.sessions, after.sessions, now, batch, sessions);
  }

  lemma CleanupTook(before: Db, after: Db, batch: int, now: nat, r: C.Removed)
    returns (tokens: set<Hash>, sessions: set<string>)
    requires C.CleanupBody(before, after, batch, now, Ok(r))
    ensures 1 <= batch <= 10_000 && after == before.(tokens := after.tokens, sessions := after.sessions)
    ensures C.TokensDue(before.tokens, now, batch, tokens) && C.SessionsDue(before.sessions, now, batch, sessions)
    ensures after.tokens == before.tokens - tokens && after.sessions == before.sessions - sessions
    ensures r == C.Removed(|tokens|, |sessions|)
  {
    hide C.TokensDue, C.SessionsDue;
    tokens, sessions :|
      && C.TokensDue(before.tokens, now, batch, tokens)
      && C.SessionsDue(before.sessions, now, batch, sessions)
      && after == before.(tokens := before.tokens - tokens, sessions := before.sessions - sessions)
      && r == C.Removed(|tokens|, |sessions|);
  }

  lemma TokensCleaned(before: map<Hash, Token>, after: map<Hash, Token>, now: nat, batch: nat, gone: set<Hash>)
    requires C.TokensDue(before, now, batch, gone) && after == before - gone
    ensures forall h | h in after :: h in before && after[h] == before[h]
    ensures forall h | h in before && h !in after :: before[h].expires <= now
    ensures |before.Keys - after.Keys| == |gone| <= batch
    ensures |gone| < batch ==> forall h | h in after :: now < after[h].expires
    ensures forall h, k | h in before && h !in after && k in after :: before[h].expires <= after[k].expires
  {
    hide C.TokensDue;
    TokensGo(before, now, batch, gone);
    TokensStay(before, now, batch, gone);
  }

  lemma SessionsCleaned(before: map<string, Session>, after: map<string, Session>, now: nat, batch: nat,
                        gone: set<string>)
    requires C.SessionsDue(before, now, batch, gone) && after == before - gone
    ensures forall v | v in after :: v in before && after[v] == before[v]
    ensures forall v | v in before && v !in after :: before[v].expires <= now
    ensures |before.Keys - after.Keys| == |gone| <= batch
    ensures |gone| < batch ==> forall v | v in after :: now < after[v].expires
    ensures forall v, k | v in before && v !in after && k in after :: before[v].expires <= after[k].expires
  {
    hide C.SessionsDue;
    SessionsGo(before, now, batch, gone);
    SessionsStay(before, now, batch, gone);
  }

  lemma TokensGo(tokens: map<Hash, Token>, now: nat, batch: nat, gone: set<Hash>)
    requires C.TokensDue(tokens, now, batch, gone)
    ensures tokens.Keys - (tokens - gone).Keys == gone && |gone| <= batch
    ensures forall h | h in gone :: h in tokens && tokens[h].expires <= now
  {
    hide C.TokenExpiry;
  }

  lemma TokensStay(tokens: map<Hash, Token>, now: nat, batch: nat, gone: set<Hash>)
    requires C.TokensDue(tokens, now, batch, gone)
    ensures |gone| < batch ==> forall h | h in tokens && h !in gone :: now < tokens[h].expires
    ensures forall h, k | h in tokens && h in gone && k in tokens && k !in gone ::
              tokens[h].expires <= tokens[k].expires
  {
    var expired := ExpiredTokens(tokens, now);
    if |gone| < batch {
      AllOf(gone, expired);
    }
    forall h, k | h in gone && h in tokens && k in tokens && k !in gone
      ensures tokens[h].expires <= tokens[k].expires
    {
      assert h in expired;
      if k in expired {
        assert C.TokenExpiry(tokens)(h, k);
      }
    }
  }

  lemma SessionsGo(sessions: map<string, Session>, now: nat, batch: nat, gone: set<string>)
    requires C.SessionsDue(sessions, now, batch, gone)
    ensures sessions.Keys - (sessions - gone).Keys == gone && |gone| <= batch
    ensures forall v | v in gone :: v in sessions && sessions[v].expires <= now
  {
    hide C.SessionExpiry;
  }

  lemma SessionsStay(sessions: map<string, Session>, now: nat, batch: nat, gone: set<string>)
    requires C.SessionsDue(sessions, now, batch, gone)
    ensures |gone| < batch ==> forall v | v in sessions && v !in gone :: now < sessions[v].expires
    ensures forall v, k | v in sessions && v in gone && k in sessions && k !in gone ::
              sessions[v].expires <= sessions[k].expires
  {
    var expired := ExpiredSessions(sessions, now);
    if |gone| < batch {
      AllOf(gone, expired);
    }
    forall v, k | v in gone && v in sessions && k in sessions && k !in gone
      ensures sessions[v].expires <= sessions[k].expires
    {
      assert v in expired;
      if k in expired {
        assert C.SessionExpiry(sessions)(v, k);
      }
    }
  }

  lemma AllOf<T>(some: set<T>, all: set<T>)
    requires some <= all && |some| == |all|
    ensures some == all
  {
    if x :| x in all && x !in some {
      SubsetSize(some, all - {x});
    }
  }

  // ---- identities ----

  /** EnsureIdentity succeeds exactly for a player that is there and has an active row, or that is newer than the
      migration, has no row, and finds one of its three candidates in no row. */
  lemma EnsuresExactly(before: Db, after: Db, pid: nat, draw: Draw, r: Result<Identity, Error>)
    requires IdentitiesOk(before.identities) && EnsureBody(before, after, pid, draw, r)
    ensures r.Ok? <==>
            && pid > 0 && pid in before.players
            && before.gate.Some? && before.gate.value.phase == Open && before.gate.value.version in {1, 2}
            && ((exists i :: i in before.identities && before.identities[i].player == Some(pid)
                             && before.identities[i].state == Active && before.identities[i].uuid.Some?)
                || (&& pid > before.gate.value.watermark
                    && (forall i | i in before.identities :: before.identities[i].player != Some(pid))
                    && exists k :: k in {0, 1, 2} && forall i | i in before.identities ::
                         before.identities[i].uuid != Some(draw(pid, k))))
    ensures r.Ok? ==>
              var x := r.value;
              && x.player == pid && before.players[pid] == Player(x.owner, x.name)
              && x.id in after.identities && after.identities[x.id].state == Active
              && after.identities[x.id].player == Some(pid) && after.identities[x.id].uuid == Some(x.uuid)
              && (x.id in before.identities ==> after == before)
              && (x.id !in before.identities ==>
                    && x.uuid in {draw(pid, 0), draw(pid, 1), draw(pid, 2)}
                    && after == before.(identities := before.identities[x.id := IdRow(Some(pid), Some(x.uuid), Active,
                                                                                      None, None)]))
  {
    if pid in before.players {
      ReadsExactly(before.identities, pid, before.players[pid]);
      SomeIsFree(before.identities, draw, pid);
    }
    hide ReadIdentity, IdentitiesOk, Pick;
  }

  lemma ReadsExactly(ids: map<nat, IdRow>, pid: nat, player: Player)
    requires IdentitiesOk(ids)
    ensures ReadIdentity(ids, pid, player) == Err(NotFound) <==> forall i | i in ids :: ids[i].player != Some(pid)
    ensures ReadIdentity(ids, pid, player).Ok? <==>
            exists i :: i in ids && ids[i].player == Some(pid) && ids[i].state == Active && ids[i].uuid.Some?
    ensures ReadIdentity(ids, pid, player).Ok? ==>
              var x := ReadIdentity(ids, pid, player).value;
              && x.player == pid && player == Player(x.owner, x.name) && x.id in ids && ids[x.id].state == Active
              && ids[x.id].player == Some(pid) && ids[x.id].uuid == Some(x.uuid)
  {
    forall i | i in ids && ids[i].player == Some(pid)
      ensures RowOf(ids, pid) == Some(i)
    {
      var j := RowOf(ids, pid);
      assert j.Some? && (j.value != i ==> Conflict(ids[i], ids[j.value]));
    }
  }

  lemma SomeIsFree(ids: map<nat, IdRow>, draw: Draw, pid: nat)
    ensures Pick(ids, draw, pid).Some? <==>
            exists k :: k in {0, 1, 2} && forall i | i in ids :: ids[i].uuid != Some(draw(pid, k))
    ensures Pick(ids, draw, pid).Some? ==>
              && Pick(ids, draw, pid).value in {draw(pid, 0), draw(pid, 1), draw(pid, 2)}
              && forall i | i in ids :: ids[i].uuid != Pick(ids, draw, pid)
  {
    assert forall k :: k in {0, 1, 2} ==> (Free(ids, draw(pid, k)) <==>
                                            forall i | i in ids :: ids[i].uuid != Some(draw(pid, k)));
    hide Free;
    assert Pick(ids, draw, pid).Some? <==>
        Free(ids, draw(pid, 0)) || Free(ids, draw(pid, 1)) || Free(ids, draw(pid, 2));
    if Pick(ids, draw, pid).Some? {
      var k :| k in {0, 1, 2} && Pick(ids, draw, pid) == Some(draw(pid, k)) && Free(ids, draw(pid, k));
    }
  }

  // ---- the gate ----

  /** No request succeeds unless the gate is there and open, in a version this program knows. */
  lemma ClosedGateRefuses(env: Env, q: R.Request, before: Db, left: Db, now: nat, r: R.Answer)
    requires R.Body(env, q, before, left, now, r) && r.Ok?
    ensures before.gate.Some? && before.gate.value.phase == Open && before.gate.value.version in {1, 2}
  {
    hide Authorize, Selected, UniquePlayerName, L.LoginEnds, Credentials, Provides, P.Batch, LookupUuid, Parse,
      NextHash;
  }
}
