/** Token and session requests, each as one transaction. */
module Auth {
  import opened Basics
  import opened Uuids
  import opened Tables
  import opened Directory
  import opened Database
  import opened Listing
  import opened Service

  datatype TokenResult = TokenResult(access: Option<Hash>, client: string, owner: nat, identity: Option<Identity>)

  function ResultOf(g: Grant): TokenResult
  {
    TokenResult(None, g.client, g.owner, g.identity)
  }

  // ---- authorization ----

  /** The player a row is bound to, read and checked against the token's owner. */
  method CheckBound(d: Database, owner: nat, iid: nat) returns (r: Result<Identity, Error>)
    requires d.Valid()
    ensures r == BoundIdentity(d.Tables(), owner, iid)
  {
    if iid !in d.identities {
      return Err(Invalid);
    }
    if d.identities[iid].player.None? {
      return Err(Backend);
    }
    var pid := d.identities[iid].player.value;
    if pid !in d.players {
      return Err(Invalid);
    }
    var read := ReadRow(d, pid, d.players[pid]);
    if read.Err? {
      return Err(InvalidIfMissing(read.error));
    }
    if read.value.owner != owner || read.value.id != iid {
      return Err(Invalid);
    }
    r := read;
  }

  /** The statements of authorization, in their order. */
  method CheckToken(d: Database, env: Env, hash: Hash, client: string, now: nat) returns (r: Result<Grant, Error>)
    requires d.Valid()
    ensures r == Authorize(env, d.Tables(), hash, client, now)
  {
    if hash !in d.tokens {
      return Err(Invalid);
    }
    var owner := d.tokens[hash].owner;
    if owner !in d.users {
      return Err(Invalid);
    }
    if !env.allowed(d.users[owner].permission, d.users[owner].verified) {
      return Err(Invalid);
    }
    if owner !in d.subjects {
      return Err(Invalid);
    }
    var token := d.tokens[hash];
    if token.generation != d.subjects[owner] || !MatchesClient(token.client, client) {
      return Err(Invalid);
    }
    var identity: Option<Identity> := None;
    if token.identity.Some? {
      var bound := CheckBound(d, owner, token.identity.value);
      if bound.Err? {
        return Err(bound.error);
      }
      identity := Some(bound.value);
    }
    if token.expires <= now {
      return Err(Invalid);
    }
    r := Ok(Grant(owner, token.generation, token.client, identity, token.expires));
  }

  ghost predicate ValidateBody(env: Env, before: Db, after: Db, hash: Hash, client: string, now: nat,
                               r: Result<TokenResult, Error>)
  {
    && after == before
    && r == if !ServiceOpen(before.gate) then Err(NotReady)
            else match Authorize(env, before, hash, client, now)
                 case Err(e) => Err(e)
                 case Ok(g) => Ok(ResultOf(g))
  }

  method Validate(d: Database, env: Env, hash: Hash, client: string, now: nat,
                  outcome: Outcome) returns (r: Result<TokenResult, Error>)
    requires Ready(d)
    modifies d
    ensures Ready(d) && d.Tables() == old(d.Tables())
    ensures exists body ::
              && ValidateBody(env, d.Tables(), d.Tables(), hash, client, now, body)
              && Ended(d.Tables(), d.Tables(), d.Tables(), body, outcome, r)
  {
    hide Fits, Authorize, Sound;
    ghost var before := d.Tables();
    var body := Err(NotReady);
    if ServiceOpen(d.gate) {
      var g := CheckToken(d, env, hash, client, now);
      body := if g.Ok? then Ok(ResultOf(g.value)) else Err(g.error);
    }
    assert ValidateBody(env, before, before, hash, client, now, body);
    r := Finish(d, d.Tables(), body, outcome);
  }

  // ---- issuing ----

  /** Candidate number `k` for a token hash. */
  type Coin = nat -> Hash

  predicate Usable(tokens: map<Hash, Token>, previous: Option<Hash>, h: Hash)
  {
    Some(h) != previous && h !in tokens
  }

  /** The first of three candidates that is neither the token being replaced nor in the table. */
  function NextHash(tokens: map<Hash, Token>, previous: Option<Hash>, coin: Coin): Option<Hash>
  {
    if Usable(tokens, previous, coin(0)) then Some(coin(0))
    else if Usable(tokens, previous, coin(1)) then Some(coin(1))
    else if Usable(tokens, previous, coin(2)) then Some(coin(2))
    else None
  }

  function IssuedRow(env: Env, owner: nat, generation: nat, identity: Option<Identity>, client: string, now: nat): Token
  {
    Token(owner, generation, if identity.Some? then Some(identity.value.id) else None, client, now, now + env.ttl, 0)
  }

  method IssueToken(d: Database, env: Env, g: Grant, previous: Option<Hash>, coin: Coin,
                    now: nat) returns (r: Result<TokenResult, Error>)
    requires env.ttl > 0 && g.generation >= 1 && g.owner in d.subjects
    requires g.identity.Some? ==> g.identity.value.id in d.identities
    modifies d`tokens
    ensures r == match NextHash(old(d.tokens), previous, coin)
                 case None => Err(Exhausted)
                 case Some(h) => Ok(TokenResult(Some(h), g.client, g.owner, g.identity))
    ensures d.tokens == match NextHash(old(d.tokens), previous, coin)
                        case None => old(d.tokens)
                        case Some(h) =>
                          old(d.tokens)[h := IssuedRow(env, g.owner, g.generation, g.identity, g.client, now)]
  {
    for k := 0 to 3
      invariant d.tokens == old(d.tokens)
      invariant forall j :: 0 <= j < k ==> !Usable(d.tokens, previous, coin(j))
    {
      var h := coin(k);
      if Some(h) == previous {
        continue;
      }
      var refused := d.InsertToken(h, IssuedRow(env, g.owner, g.generation, g.identity, g.client, now));
      if refused.None? {
        return Ok(TokenResult(Some(h), g.client, g.owner, g.identity));
      }
    }
    r := Err(Exhausted);
  }

  // ---- refresh ----

  /** The identity the new token will carry. */
  ghost function Selected(db: Db, g: Grant, selected: string): Result<Option<Identity>, Error>
  {
    if selected == "" then Ok(g.identity)
    else match Parse(selected)
      case None => Err(Invalid)
      case Some(u) =>
        if g.identity.Some? then (if g.identity.value.uuid == u then Ok(g.identity) else Err(Invalid))
        else match LookupUuid(db, u)
          case Err(e) => Err(InvalidIfMissing(e))
          case Ok(x) => if x.owner == g.owner then Ok(Some(x)) else Err(Invalid)
  }

  method FindByUuid(d: Database, u: Uuid) returns (r: Result<Identity, Error>)
    requires d.Valid()
    ensures r == LookupUuid(d.Tables(), u)
  {
    if i :| i in d.identities && d.identities[i].uuid == Some(u) && d.identities[i].state == Active {
      assert ActiveRow(d.identities, u) == Some(i) by {
        var j := ActiveRow(d.identities, u);
        assert j.Some? && Conflict(d.identities[i], d.identities[j.value]);
      }
      if d.identities[i].player.None? {
        return Err(Backend);
      }
      var pid := d.identities[i].player.value;
      if pid !in d.players {
        return Err(NotFound);
      }
      r := ReadRow(d, pid, d.players[pid]);
      return;
    }
    r := Err(NotFound);
  }

  method SelectProfile(d: Database, g: Grant, selected: string) returns (r: Result<Option<Identity>, Error>)
    requires d.Valid()
    ensures r == Selected(d.Tables(), g, selected)
  {
    hide Parse;
    if selected == "" {
      return Ok(g.identity);
    }
    var parsed := Parse(selected);
    if parsed.None? || (g.identity.Some? && g.identity.value.uuid != parsed.value) {
      return Err(Invalid);
    }
    if g.identity.Some? {
      return Ok(g.identity);
    }
    var found := FindByUuid(d, parsed.value);
    if found.Err? {
      return Err(InvalidIfMissing(found.error));
    }
    if found.value.owner != g.owner {
      return Err(Invalid);
    }
    r := Ok(Some(found.value));
  }

  ghost predicate RefreshBody(env: Env, before: Db, after: Db, hash: Hash, client: string, selected: string,
                              coin: Coin, now: nat, r: Result<TokenResult, Error>)
  {
    if !ServiceOpen(before.gate) then r == Err(NotReady)
    else match Authorize(env, before, hash, client, now)
      case Err(e) => r == Err(e)
      case Ok(g) =>
        match Selected(before, g, selected)
        case Err(e) => r == Err(e)
        case Ok(identity) =>
          match NextHash(before.tokens - {hash}, Some(hash), coin)
          case None => r == Err(Exhausted)
          case Some(h) =>
            && r == Ok(TokenResult(Some(h), g.client, g.owner, identity))
            && after == before.(tokens := (before.tokens - {hash})[h := IssuedRow(env, g.owner, g.generation,
                    identity, g.client, now)])
  }

  /** What an authorized token and a selected identity say about the tables. */
  lemma SelectionExists(env: Env, db: Db, hash: Hash, client: string, selected: string, now: nat, g: Grant)
    requires Sound(db) && Authorize(env, db, hash, client, now) == Ok(g)
    ensures hash in db.tokens && g.owner in db.subjects && 1 <= g.generation == db.subjects[g.owner]
    ensures Selected(db, g, selected).Ok? && Selected(db, g, selected).value.Some? ==>
              Selected(db, g, selected).value.value.id in db.identities
  {
    hide Parse, IdentitiesOk;
  }

  method Refresh(d: Database, env: Env, hash: Hash, client: string, selected: string, coin: Coin, now: nat,
                 outcome: Outcome)
    returns (r: Result<TokenResult, Error>)
    requires Ready(d) && env.ttl > 0
    modifies d
    ensures Ready(d) && d.schema == old(d.schema)
    ensures exists after, body :: RefreshBody(env, old(d.Tables()), after, hash, client, selected, coin, now, body)
                                  && Ended(old(d.Tables()), d.Tables(), after, body, outcome, r)
  {
    hide Fits, Authorize, Selected, NextHash, Sound, RefreshBody;
    var saved := d.Tables();
    ghost var counter := d.nextId;
    var body := RefreshTransaction(d, env, hash, client, selected, coin, now);
    ghost var after := d.Tables();
    FitsLater(saved.identities, counter, d.nextId, d.schema);
    r := Finish(d, saved, body, outcome);
    assert Ended(saved, d.Tables(), after, body, outcome, r);
  }

  method RefreshTransaction(d: Database, env: Env, hash: Hash, client: string, selected: string, coin: Coin, now: nat)
    returns (r: Result<TokenResult, Error>)
    requires Ready(d) && env.ttl > 0
    modifies d`tokens
    ensures Ready(d)
    ensures RefreshBody(env, old(d.Tables()), d.Tables(), hash, client, selected, coin, now, r)
  {
    hide Fits, Authorize, Selected, NextHash, Sound, IssuedRow, RefreshBody, Usable;
    ghost var before := d.Tables();
    if !ServiceOpen(d.gate) {
      r := Err(NotReady);
      RefreshRefused(env, before, hash, client, selected, coin, now, NotReady);
      return;
    }
    var g := CheckToken(d, env, hash, client, now);
    if g.Err? {
      r := Err(g.error);
      RefreshRefused(env, before, hash, client, selected, coin, now, g.error);
      return;
    }
    var identity := SelectProfile(d, g.value, selected);
    if identity.Err? {
      r := Err(identity.error);
      RefreshRefused(env, before, hash, client, selected, coin, now, identity.error);
      return;
    }
    SelectionExists(env, d.Tables(), hash, client, selected, now, g.value);
    d.tokens := d.tokens - {hash};
    r := IssueToken(d, env, g.value.(identity := identity.value), Some(hash), coin, now);
    RefreshIssued(env, before, d.Tables(), hash, client, selected, coin, now, g.value, identity.value, r);
  }

  lemma RefreshRefused(env: Env, db: Db, hash: Hash, client: string, selected: string, coin: Coin, now: nat, e: Error)
    requires !ServiceOpen(db.gate) ==> e == NotReady
    requires ServiceOpen(db.gate) ==>
               match Authorize(env, db, hash, client, now)
               case Err(f) => e == f
               case Ok(g) => Selected(db, g, selected) == Err(e)
    ensures RefreshBody(env, db, db, hash, client, selected, coin, now, Err(e))
  {
    hide Authorize, Selected, NextHash;
  }

  lemma RefreshIssued(env: Env, before: Db, after: Db, hash: Hash, client: string, selected: string, coin: Coin,
                      now: nat, g: Grant, identity: Option<Identity>, r: Result<TokenResult, Error>)
    requires Sound(before) && env.ttl > 0 && ServiceOpen(before.gate) && 1 <= g.generation && g.owner in before.subjects
    requires Authorize(env, before, hash, client, now) == Ok(g) && Selected(before, g, selected) == Ok(identity)
    requires g.generation <= before.subjects[g.owner] && (identity.Some? ==> identity.value.id in before.identities)
    requires after == before.(tokens := after.tokens)
    requires var h := NextHash(before.tokens - {hash}, Some(hash), coin);
             && r == (if h.None? then Err(Exhausted) else Ok(TokenResult(h, g.client, g.owner, identity)))
             && after.tokens == (if h.None? then before.tokens - {hash}
                                 else (before.tokens - {hash})[h.value := IssuedRow(env, g.owner, g.generation,
                                         identity, g.client, now)])
    ensures RefreshBody(env, before, after, hash, client, selected, coin, now, r) && Sound(after)
  {
    hide Authorize, Selected, NextHash, IdentitiesOk;
  }

  /** A refresh hands over everything: the new token authorizes at once, as the same owner with the same client
      token and the selected identity, and the old one never again. */
  lemma RefreshHandsOver(env: Env, before: Db, after: Db, hash: Hash, client: string, selected: string, coin: Coin,
                         now: nat, r: Result<TokenResult, Error>)
    requires Sound(before) && env.ttl > 0 && r.Ok?
    requires RefreshBody(env, before, after, hash, client, selected, coin, now, r)
    ensures r.value.access.Some? && r.value.access != Some(hash)
    ensures Authorize(env, after, r.value.access.value, r.value.client, now)
         == Ok(Grant(r.value.owner, before.tokens[hash].generation, before.tokens[hash].client, r.value.identity,
                     now + env.ttl))
    ensures forall c, t :: Authorize(env, after, hash, c, t) == Err(Invalid)
    ensures before.tokens[hash].identity.Some? ==>
              r.value.identity.Some? && r.value.identity.value.id == before.tokens[hash].identity.value
    ensures selected != "" ==> r.value.identity.Some? && Parse(selected) == Some(r.value.identity.value.uuid)
  {
    hide Parse, BoundIdentity, LookupUuid;
    var g := Authorize(env, before, hash, client, now).value;
    SelectionBinds(env, before, hash, client, selected, now, g);
    var h := r.value.access.value;
    assert after.tokens[h] == IssuedRow(env, g.owner, g.generation, r.value.identity, g.client, now);
    if r.value.identity.Some? {
      SameBinding(before, after, g.owner, r.value.identity.value.id);
    }
  }

  /** The selected identity is one the owner's tokens may be bound to. */
  lemma SelectionBinds(env: Env, db: Db, hash: Hash, client: string, selected: string, now: nat, g: Grant)
    requires Sound(db) && Authorize(env, db, hash, client, now) == Ok(g) && Selected(db, g, selected).Ok?
    ensures var identity := Selected(db, g, selected).value;
            && (identity.Some? ==> BoundIdentity(db, g.owner, identity.value.id) == Ok(identity.value))
            && (selected != "" ==> identity.Some? && Parse(selected) == Some(identity.value.uuid))
            && (g.identity.Some? ==> identity == g.identity)
  {
    hide Parse, IdentitiesOk, BoundIdentity, LookupUuid;
    if selected != "" && g.identity.None? {
      LookupBinds(db, Parse(selected).value);
    }
  }

  lemma LookupBinds(db: Db, u: Uuid)
    requires IdentitiesOk(db.identities) && LookupUuid(db, u).Ok?
    ensures LookupUuid(db, u).value.uuid == u
    ensures BoundIdentity(db, LookupUuid(db, u).value.owner, LookupUuid(db, u).value.id) == LookupUuid(db, u)
  {
    var i := ActiveRow(db.identities, u).value;
    var pid := db.identities[i].player.value;
    var x := LookupUuid(db, u).value;
    ReadIdentityIff(db.identities, pid, db.players[pid], x);
    assert Conflict(db.identities[i], db.identities[x.id]);
  }

  lemma SameBinding(a: Db, b: Db, owner: nat, iid: nat)
    requires a.identities == b.identities && a.players == b.players
    ensures BoundIdentity(a, owner, iid) == BoundIdentity(b, owner, iid)
  {
  }

  // ---- revocation ----

  ghost predicate InvalidateBody(before: Db, after: Db, hash: Hash, client: string, r: Result<(), Error>)
  {
    if !ServiceOpen(before.gate) then r == Err(NotReady)
    else if hash !in before.tokens then r == Ok(()) && after == before
    else if before.tokens[hash].owner !in before.subjects || !MatchesClient(before.tokens[hash].client, client)
      then r == Err(Invalid)
    else r == Ok(()) && after == before.(tokens := before.tokens - {hash})
  }

  method InvalidateTransaction(d: Database, hash: Hash, client: string) returns (r: Result<(), Error>)
    requires Ready(d)
    modifies d`tokens
    ensures Ready(d) && InvalidateBody(old(d.Tables()), d.Tables(), hash, client, r)
  {
    hide Fits;
    if !ServiceOpen(d.gate) {
      return Err(NotReady);
    }
    if hash !in d.tokens {
      return Ok(());
    }
    // a deleted or disabled account does not stop a revocation
    if d.tokens[hash].owner !in d.subjects {
      return Err(Invalid);
    }
    if !MatchesClient(d.tokens[hash].client, client) {
      return Err(Invalid);
    }
    d.tokens := d.tokens - {hash};
    r := Ok(());
  }

  method Invalidate(d: Database, hash: Hash, client: string, outcome: Outcome) returns (r: Result<(), Error>)
    requires Ready(d)
    modifies d
    ensures Ready(d) && d.schema == old(d.schema)
    ensures exists after, body ::
              && InvalidateBody(old(d.Tables()), after, hash, client, body)
              && Ended(old(d.Tables()), d.Tables(), after, body, outcome, r)
  {
    hide Fits, Sound, InvalidateBody;
    var saved := d.Tables();
    ghost var counter := d.nextId;
    var body := InvalidateTransaction(d, hash, client);
    ghost var after := d.Tables();
    FitsLater(saved.identities, counter, d.nextId, d.schema);
    r := Finish(d, saved, body, outcome);
    assert Ended(saved, d.Tables(), after, body, outcome, r);
  }

  /** Invalidation is exact: that token stops authorizing for good, every other token keeps its answer. */
  lemma InvalidateIsExact(env: Env, before: Db, after: Db, hash: Hash, client: string, other: Hash, c: string, t: nat)
    requires InvalidateBody(before, after, hash, client, Ok(()))
    ensures Authorize(env, after, hash, c, t) == Err(Invalid)
    ensures other != hash ==> Authorize(env, after, other, c, t) == Authorize(env, before, other, c, t)
  {
    if other != hash && other in before.tokens && before.tokens[other].identity.Some? {
      SameBinding(before, after, before.tokens[other].owner, before.tokens[other].identity.value);
    }
    hide BoundIdentity;
  }

  /** The account a login name and password designate right now, if the policy allows it. */
  ghost function Credentials(env: Env, db: Db, username: string, password: string): Result<nat, Error>
  {
    if username == "" || password == "" then Err(Invalid)
    else match LoginOwner(env, db, username)
      case Err(e) => Err(InvalidIfMissing(e))
      case Ok(uid) =>
        if uid !in db.users then Err(Invalid)
        else if !env.allowed(db.users[uid].permission, db.users[uid].verified)
            || !env.verify(password, db.users[uid].password) then Err(Invalid)
        else Ok(uid)
  }

  method UniqueName(d: Database, env: Env, name: string) returns (r: Result<nat, Error>)
    requires d.key == env.key
    ensures r == UniquePlayerName(env, d.players, name)
  {
    ghost var all := Named(d.key, d.players, name);
    var hits := KeysInOrder(Named(d.key, d.players, name));
    ListsSize(hits, all);
    var rows := if |hits| <= 2 then hits else hits[..2]; // LIMIT 2
    if |rows| == 0 {
      return Err(NotFound);
    }
    if |rows| != 1 {
      return Err(IdentityConflict);
    }
    assert all == {rows[0]};
    r := Ok(rows[0]);
  }

  method FindLoginOwner(d: Database, env: Env, username: string) returns (r: Result<nat, Error>)
    requires d.key == env.key
    ensures r == LoginOwner(env, d.Tables(), username)
  {
    if '@' in username {
      ghost var all := WithEmail(env, d.users, username);
      var hits := KeysInOrder(set u | u in d.users && env.key(d.users[u].email) == env.key(username));
      ListsSize(hits, all);
      if |hits| != 1 {
        return Err(Invalid);
      }
      assert all == {hits[0]};
      return Ok(hits[0]);
    }
    var pid := UniqueName(d, env, username);
    if pid.Err? {
      return Err(pid.error);
    }
    assert pid.value in Named(d.key, d.players, username);
    r := Ok(d.players[pid.value].owner);
  }

  method CheckCredentials(d: Database, env: Env, username: string, password: string) returns (r: Result<nat, Error>)
    requires d.key == env.key
    ensures r == Credentials(env, d.Tables(), username, password)
  {
    if username == "" || password == "" {
      return Err(Invalid);
    }
    var owner := FindLoginOwner(d, env, username);
    if owner.Err? {
      return Err(InvalidIfMissing(owner.error));
    }
    if owner.value !in d.users {
      return Err(Invalid);
    }
    var user := d.users[owner.value];
    if !env.allowed(user.permission, user.verified) || !env.verify(password, user.password) {
      return Err(Invalid);
    }
    r := owner;
  }

  ghost predicate SignoutBody(env: Env, before: Db, after: Db, username: string, password: string, r: Result<(), Error>)
  {
    match Credentials(env, before, username, password)
    case Err(e) => r == Err(e)
    case Ok(uid) =>
      if !ServiceOpen(before.gate) then r == Err(NotReady)
      else
        && r == Ok(())
        && var generation := if uid in before.subjects then before.subjects[uid] else 0;
           after == before.(subjects := before.subjects[uid := generation + 1])
  }

  method SignoutTransaction(d: Database, env: Env, username: string, password: string) returns (r: Result<(), Error>)
    requires Ready(d) && d.key == env.key
    modifies d`subjects
    ensures Ready(d) && SignoutBody(env, old(d.Tables()), d.Tables(), username, password, r)
  {
    hide Fits, LoginOwner;
    var uid := CheckCredentials(d, env, username, password);
    if uid.Err? {
      return Err(uid.error);
    }
    if !ServiceOpen(d.gate) {
      return Err(NotReady);
    }
    var generation := if uid.value in d.subjects then d.subjects[uid.value] else 0;
    d.subjects := d.subjects[uid.value := generation + 1];
    r := Ok(());
  }

  method Signout(d: Database, env: Env, username: string, password: string, outcome: Outcome)
    returns (r: Result<(), Error>)
    requires Ready(d) && d.key == env.key
    modifies d
    ensures Ready(d) && d.schema == old(d.schema)
    ensures exists after, body ::
              && SignoutBody(env, old(d.Tables()), after, username, password, body)
              && Ended(old(d.Tables()), d.Tables(), after, body, outcome, r)
  {
    hide Fits, LoginOwner, Credentials, Sound, SignoutBody;
    var saved := d.Tables();
    ghost var counter := d.nextId;
    var body := SignoutTransaction(d, env, username, password);
    ghost var after := d.Tables();
    FitsLater(saved.identities, counter, d.nextId, d.schema);
    r := Finish(d, saved, body, outcome);
    assert Ended(saved, d.Tables(), after, body, outcome, r);
  }

  /** Signing out revokes every token of the account and of no other account. */
  lemma SignoutRevokesAll(env: Env, before: Db, after: Db, username: string, password: string, h: Hash, c: string,
                          t: nat)
    requires Sound(before) && SignoutBody(env, before, after, username, password, Ok(())) && h in before.tokens
    ensures Credentials(env, before, username, password).Ok?
    ensures var uid := Credentials(env, before, username, password).value;
            if before.tokens[h].owner == uid then Authorize(env, after, h, c, t) == Err(Invalid)
            else Authorize(env, after, h, c, t) == Authorize(env, before, h, c, t)
  {
    if before.tokens[h].identity.Some? {
      SameBinding(before, after, before.tokens[h].owner, before.tokens[h].identity.value);
    }
    hide BoundIdentity, Credentials, IdentitiesOk;
  }
}
