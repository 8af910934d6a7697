/** Which error a request answers when it does not succeed, said of the rows. */
module RequestErrors {
  import opened Basics
  import opened Uuids
  import opened Tables
  import opened Directory
  import opened Service
  import opened Auth
  import L = Authenticate
  import S = Sessions
  import P = Profiles
  import opened MigrationRules
  import opened RequestLaws
  import opened RequestConditions

  /** Everything about a token but the identity it is bound to and its expiry. */
  ghost predicate Standing(env: Env, db: Db, h: Hash, client: string)
  {
    && h in db.tokens && var row := db.tokens[h];
    && (client == "" || client == row.client)
    && row.owner in db.users && env.allowed(db.users[row.owner].permission, db.users[row.owner].verified)
    && row.owner in db.subjects && db.subjects[row.owner] == row.generation
  }

  /** A token that does not authorize is Invalid, except when it stands and is bound to a row of a player that is there
      but is not active (a conflict), or to a row without a player (a driver error). */
  lemma TokenErrors(env: Env, db: Db, h: Hash, client: string, at: nat)
    requires IdentitiesOk(db.identities) && Authorize(env, db, h, client, at).Err?
    ensures var e := Authorize(env, db, h, client, at).error;
            && e in {Invalid, IdentityConflict, Backend}
            && (e == IdentityConflict <==>
                  && Standing(env, db, h, client) && db.tokens[h].identity.Some?
                  && var i := db.tokens[h].identity.value;
                  && i in db.identities && db.identities[i].player.Some?
                  && db.identities[i].player.value in db.players && db.identities[i].state != Active)
            && (e == Backend <==>
                  && Standing(env, db, h, client) && db.tokens[h].identity.Some?
                  && db.tokens[h].identity.value in db.identities
                  && db.identities[db.tokens[h].identity.value].player.None?)
  {
    if h in db.tokens && db.tokens[h].identity.Some? {
      BindingErrors(db, db.tokens[h].owner, db.tokens[h].identity.value);
    }
    hide BoundIdentity, IdentitiesOk;
  }

  lemma BindingErrors(db: Db, owner: nat, i: nat)
    requires IdentitiesOk(db.identities)
    ensures BoundIdentity(db, owner, i).Err? ==>
              var e := BoundIdentity(db, owner, i).error;
              && e in {Invalid, IdentityConflict, Backend}
              && (e == IdentityConflict <==>
                    && i in db.identities && db.identities[i].player.Some?
                    && db.identities[i].player.value in db.players && db.identities[i].state != Active)
              && (e == Backend <==> i in db.identities && db.identities[i].player.None?)
    ensures BoundIdentity(db, owner, i).Ok? ==>
              i in db.identities && db.identities[i].player.Some? && db.identities[i].state == Active
  {
    if i in db.identities && db.identities[i].player.Some? {
      LookupBindsRow(db, i, db.identities[i].player.value);
      assert CheckV2(db.identities[i]);
    }
  }

  /** A closed gate is NotReady, whatever the token; an open one gives the token's own error. */
  lemma ValidateErrors(env: Env, before: Db, after: Db, h: Hash, client: string, now: nat,
                       r: Result<TokenResult, Error>)
    requires IdentitiesOk(before.identities) && ValidateBody(env, before, after, h, client, now, r)
    ensures r == Err(NotReady) <==> !GateIsOpen(before.gate)
    ensures r.Err? && GateIsOpen(before.gate) ==>
              Authorize(env, before, h, client, now).Err? && r.error == Authorize(env, before, h, client, now).error
  {
    if Authorize(env, before, h, client, now).Err? {
      TokenErrors(env, before, h, client, now);
    }
    hide Authorize, IdentitiesOk;
  }

  /** Refresh: the same; a selection that is not allowed is Invalid, or a conflict or driver error of the selected row;
      and only when all three candidates are taken it is exhausted. */
  lemma RefreshErrors(env: Env, before: Db, after: Db, h: Hash, client: string, selected: string, coin: Coin, now: nat,
                      r: Result<TokenResult, Error>)
    requires IdentitiesOk(before.identities) && RefreshBody(env, before, after, h, client, selected, coin, now, r)
    ensures r == Err(NotReady) <==> !GateIsOpen(before.gate)
    ensures r == Err(Exhausted) <==>
            && GateIsOpen(before.gate) && Current(env, before, h, client, now) && Selectable(before, h, selected)
            && coin(0) in before.tokens && coin(1) in before.tokens && coin(2) in before.tokens
    ensures r.Err? ==> r.error in {NotReady, Exhausted, Invalid, IdentityConflict, Backend}
  {
    CurrentExactly(env, before, h, client, now);
    if Authorize(env, before, h, client, now).Err? {
      TokenErrors(env, before, h, client, now);
    } else {
      var g := Authorize(env, before, h, client, now).value;
      AuthorizesExactly(env, before, h, client, now, g);
      SelectsExactly(before, h, g, selected);
      SelectionErrors(before, g, selected);
    }
    hide Authorize, IdentitiesOk, Selected, Current, Selectable;
  }

  lemma SelectionErrors(db: Db, g: Grant, selected: string)
    ensures Selected(db, g, selected).Err? ==> Selected(db, g, selected).error in {Invalid, IdentityConflict, Backend}
  {
    hide Parse;
  }

  /** Missing or wrong credentials are Invalid; a player name that several players have is a conflict. */
  lemma CredentialErrors(env: Env, db: Db, username: string, password: string)
    requires Credentials(env, db, username, password).Err?
    ensures var e := Credentials(env, db, username, password).error;
            && e in {Invalid, IdentityConflict}
            && (e == IdentityConflict <==>
                  && username != "" && password != "" && '@' !in username
                  && exists p, q :: p in db.players && q in db.players && p != q
                                    && env.key(db.players[p].name) == env.key(username)
                                    && env.key(db.players[q].name) == env.key(username))
  {
    if '@' !in username {
      SharedName(env, db.players, username);
      hide UniquePlayerName;
    }
  }

  lemma SharedName(env: Env, players: map<nat, Player>, name: string)
    ensures UniquePlayerName(env, players, name) == Err(IdentityConflict) <==>
            exists p, q :: p in players && q in players && p != q && env.key(players[p].name) == env.key(name)
                           && env.key(players[q].name) == env.key(name)
    ensures UniquePlayerName(env, players, name) == Err(NotFound) <==>
            forall p | p in players :: env.key(players[p].name) != env.key(name)
  {
    var hits := Named(env.key, players, name);
    assert forall p :: p in hits <==> p in players && env.key(players[p].name) == env.key(name);
    if p :| p in hits {
      SingleMeans(hits, p);
    }
  }

  /** Signout and login look at the credentials before the gate. */
  lemma SignoutErrors(env: Env, before: Db, after: Db, username: string, password: string, r: Result<(), Error>)
    requires SignoutBody(env, before, after, username, password, r)
    ensures Credentials(env, before, username, password).Err? ==>
              r == Err(Credentials(env, before, username, password).error)
    ensures r == Err(NotReady) <==> Credentials(env, before, username, password).Ok? && !GateIsOpen(before.gate)
  {
    if Credentials(env, before, username, password).Err? {
      CredentialErrors(env, before, username, password);
    }
    hide Credentials;
  }

  lemma LoginErrors(env: Env, before: Db, after: Db, username: string, password: string, client: string, limit: int,
                    draw: Draw, coin: Coin, now: nat, r: Result<L.LoginResult, Error>)
    requires L.AuthenticateBody(env, before, after, username, password, client, limit, draw, coin, now, r)
    ensures limit <= 0 ==> r == Err(NotReady)
    ensures limit > 0 && Credentials(env, before, username, password).Err? ==>
              r == Err(Credentials(env, before, username, password).error)
    ensures limit > 0 && Credentials(env, before, username, password).Ok? && !GateIsOpen(before.gate) ==>
              r == Err(NotReady)
  {
    hide Credentials, L.LoginEnds;
  }

  /** Join: bad arguments, the wrong profile and a server id that somebody else holds are Invalid; a closed gate is
      NotReady; otherwise it is the token's own error. */
  lemma JoinErrors(env: Env, before: Db, after: Db, h: Hash, selected: string, server: string, ip: S.Address, now: nat,
                   r: Result<(), Error>)
    requires IdentitiesOk(before.identities) && S.JoinBody(env, before, after, h, selected, server, ip, now, r)
    ensures !(1 <= |server| <= 255) || ip.zone != "" || |ip.octets| !in {4, 16} ==> r == Err(Invalid)
    ensures r == Err(NotReady) ==> !GateIsOpen(before.gate)
    ensures r.Err? ==> r.error in {Invalid, NotReady, IdentityConflict, Backend}
    ensures r.Err? && r.error in {IdentityConflict, Backend} ==>
              Authorize(env, before, h, "", now).Err? && r.error == Authorize(env, before, h, "", now).error
  {
    if Authorize(env, before, h, "", now).Err? {
      TokenErrors(env, before, h, "", now);
    }
    hide Authorize, IdentitiesOk, Parse;
  }

  /** HasJoined: bad arguments are Invalid, then a closed gate is NotReady, then an unknown server id is Invalid. A
      conflict is one of the token's row, or of the name. */
  lemma HasJoinedErrors(env: Env, db: Db, name: string, server: string, ip: S.Address, now: nat)
    requires IdentitiesOk(db.identities) && S.Joined(env, db, name, server, ip, now).Err?
    ensures var e, good := S.Joined(env, db, name, server, ip, now).error,
                           1 <= |server| <= 255 && name != "" && ip.zone == "";
            && e in {Invalid, NotReady, IdentityConflict, Backend}
            && (!good ==> e == Invalid)
            && (e == NotReady <==> good && !GateIsOpen(db.gate))
            && (good && GateIsOpen(db.gate) && server !in db.sessions ==> e == Invalid)
            && (e == IdentityConflict ==>
                  && server in db.sessions
                  && (|| Authorize(env, db, db.sessions[server].hash, "", now) == Err(IdentityConflict)
                      || exists p, q :: p in db.players && q in db.players && p != q
                                        && env.key(db.players[p].name) == env.key(name)
                                        && env.key(db.players[q].name) == env.key(name)))
  {
    if server in db.sessions && Authorize(env, db, db.sessions[server].hash, "", now).Err? {
      TokenErrors(env, db, db.sessions[server].hash, "", now);
    }
    SharedName(env, db.players, name);
    hide Authorize, UniquePlayerName, IdentitiesOk, S.IsAddress;
  }

  /** A name is not found if nobody has it, or if its only bearer is newer than the migration and has no row yet; in
      every other case that gives no identity it is a conflict. */
  lemma NameErrors(env: Env, db: Db, watermark: nat, name: string)
    requires IdentitiesOk(db.identities) && LookupName(env, db, watermark, name).Err?
    ensures var e := LookupName(env, db, watermark, name).error;
            && e in {NotFound, IdentityConflict}
            && (e == NotFound <==>
                  || (forall p | p in db.players :: env.key(db.players[p].name) != env.key(name))
                  || (exists p :: p in db.players && p > watermark
                                  && (forall q | q in db.players ::
                                        env.key(db.players[q].name) == env.key(name) <==> q == p)
                                  && forall i | i in db.identities :: db.identities[i].player != Some(p)))
  {
    SharedName(env, db.players, name);
    var u := UniquePlayerName(env, db.players, name);
    forall p: nat
      ensures u == Ok(p) <==> p in db.players && forall q | q in db.players ::
                                env.key(db.players[q].name) == env.key(name) <==> q == p
    {
      AloneExactly(env, db.players, name, p);
    }
    if u.Ok? {
      ReadsExactly(db.identities, u.value, db.players[u.value]);
      ReadErrorsAre(db.identities, u.value, db.players[u.value]);
    }
    hide UniquePlayerName, ReadIdentity, IdentitiesOk;
  }

  lemma ReadErrorsAre(ids: map<nat, IdRow>, pid: nat, player: Player)
    ensures ReadIdentity(ids, pid, player).Err? ==> ReadIdentity(ids, pid, player).error in {NotFound, IdentityConflict}
  {
  }

  /** An identifier that no active row carries is not found. */
  lemma UuidErrors(db: Db, u: Uuid)
    requires IdentitiesOk(db.identities) && LookupUuid(db, u).Err?
    ensures LookupUuid(db, u) == Err(NotFound)
    ensures forall i | i in db.identities && db.identities[i].uuid == Some(u) && db.identities[i].state == Active ::
              db.identities[i].player.Some? && db.identities[i].player.value !in db.players
  {
    var r := ActiveRow(db.identities, u);
    if r.Some? {
      assert CheckV2(db.identities[r.value]);
      forall i | i in db.identities && db.identities[i].uuid == Some(u)
        ensures i == r.value
      {
        assert i != r.value ==> Conflict(db.identities[i], db.identities[r.value]);
      }
      LookupBindsRow(db, r.value, db.identities[r.value].player.value);
    }
  }

  /** Lookups by name and by many names: too many names are Invalid, an empty name is not found, a closed gate is
      NotReady. */
  lemma LookupErrors(env: Env, before: Db, after: Db, name: string, names: seq<string>, draw: Draw,
                     r: Result<Identity, Error>, s: Result<seq<Identity>, Error>)
    ensures P.ByNameBody(env, before, after, name, draw, r) ==>
              && (name == "" ==> r == Err(NotFound))
              && (name != "" && !GateIsOpen(before.gate) ==> r == Err(NotReady))
    ensures P.BatchBody(env, before, after, names, draw, s) ==>
              && (|names| > 10 ==> s == Err(Invalid))
              && (|names| <= 10 && !GateIsOpen(before.gate) ==> s == Err(NotReady))
  {
    hide UniquePlayerName, Provides, P.Batch, P.Designated, P.Attended;
  }
}
