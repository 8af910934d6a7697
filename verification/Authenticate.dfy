/** Logging in: profiles, the account's quota, and a new token. */
module Authenticate {
  import opened Basics
  import opened Sorting
  import opened Tables
  import opened Directory
  import opened Database
  import opened Listing
  import opened Service
  import opened AccountProfiles
  import opened Auth

  datatype LoginResult = LoginResult(token: TokenResult, profiles: seq<Identity>)

  // ---- eviction ----

  /** `ORDER BY created_at, token_hash`. */
  function OldestFirst(tokens: map<Hash, Token>): (Hash, Hash) -> bool
  {
    (a, b) => a in tokens && b in tokens && Older(tokens, a, b)
  }

  lemma OldestFirstTotal(tokens: map<Hash, Token>, live: set<Hash>)
    requires live <= tokens.Keys
    ensures TotalOn(OldestFirst(tokens), live)
  {
  }

  /** Locks the live tokens and chooses exactly the oldest that must go for one more to fit. */
  method LockEvictionCandidates(d: Database, uid: nat, generation: nat, limit: nat, now: nat)
    returns (victims: seq<Hash>)
    requires limit > 0
    ensures Live(d.tokens, uid, generation, now) <= d.tokens.Keys
    ensures IsEviction(d.tokens, Live(d.tokens, uid, generation, now), limit, Elements(victims))
  {
    ghost var live := Live(d.tokens, uid, generation, now);
    var listed := KeysInOrder(set h | h in d.tokens && d.tokens[h].owner == uid
                              && d.tokens[h].generation == generation && d.tokens[h].expires > now);
    OldestFirstTotal(d.tokens, live);
    var hashes := SortList(OldestFirst(d.tokens), listed, live);
    DistinctSize(hashes);
    if |hashes| < limit {
      victims := [];
      assert live - Elements(victims) == live;
      return;
    }
    victims := hashes[..|hashes| - limit + 1];
    PrefixIsEviction(d.tokens, live, hashes, limit);
  }

  lemma PrefixIsEviction(tokens: map<Hash, Token>, live: set<Hash>, hashes: seq<Hash>, limit: nat)
    requires live <= tokens.Keys && 0 < limit <= |hashes|
    requires Lists(hashes, live) && Ordered(OldestFirst(tokens), hashes)
    ensures IsEviction(tokens, live, limit, Elements(hashes[..|hashes| - limit + 1]))
  {
    hide Older;
    var n := |hashes| - limit + 1;
    var rest := hashes[n..];
    SplitDistinct(hashes, n);
    DistinctSize(rest);
    forall v, k | v in Elements(hashes[..n]) && k in Elements(rest)
      ensures Older(tokens, v, k)
    {
      var i :| 0 <= i < n && hashes[i] == v;
      var j :| 0 <= j < |rest| && rest[j] == k;
      assert hashes[n + j] == k && hashes[i] != hashes[n + j];
    }
  }

  // ---- the login ----

  /** The client token a login works with: the one that was given, or else one that was drawn. */
  function ClientToken(given: string, drawn: string): string
  {
    if given == "" then drawn else given
  }

  /** The identity the token is bound to: with an e-mail the only profile there is, with a player name that player's. */
  ghost predicate Chooses(env: Env, players: map<nat, Player>, uid: nat, username: string, profiles: seq<Identity>,
                          c: Result<Option<Identity>, Error>)
  {
    if '@' in username then c == Ok(if |profiles| == 1 then Some(profiles[0]) else None)
    else match UniquePlayerName(env, players, username)
      case Err(e) => c == Err(InvalidIfMissing(e))
      case Ok(pid) =>
        assert pid in Named(env.key, players, username);
        if players[pid].owner != uid then c == Err(Invalid)
        else if c.Ok? then c.value.Some? && c.value.value in profiles && c.value.value.player == pid
        else c == Err(IdentityConflict) && forall x | x in profiles :: x.player != pid
  }

  method Choose(d: Database, env: Env, uid: nat, username: string,
                profiles: seq<Identity>) returns (c: Result<Option<Identity>, Error>)
    requires d.key == env.key
    ensures Chooses(env, d.players, uid, username, profiles, c)
  {
    if '@' in username {
      return Ok(if |profiles| == 1 then Some(profiles[0]) else None);
    }
    var pid := UniqueName(d, env, username);
    if pid.Err? {
      return Err(InvalidIfMissing(pid.error));
    }
    assert pid.value in Named(d.key, d.players, username);
    if d.players[pid.value].owner != uid {
      return Err(Invalid);
    }
    for i := 0 to |profiles|
      invariant forall k :: 0 <= k < i ==> profiles[k].player != pid.value
    {
      if profiles[i].player == pid.value {
        return Ok(Some(profiles[i]));
      }
    }
    c := Err(IdentityConflict);
  }

  function FirstGeneration(subjects: map<nat, nat>, uid: nat): map<nat, nat>
  {
    if uid in subjects then subjects else subjects[uid := 1]
  }

  /** The end of a login, once the profiles and the choice are known: the refusal of the choice; or the first
      usable candidate hash, in a row that replaces the oldest live tokens, or none of three. */
  ghost predicate Issues(env: Env, before: Db, after: Db, uid: nat, client: string, limit: nat, coin: Coin, now: nat,
                         ids: map<nat, IdRow>, profiles: seq<Identity>, c: Result<Option<Identity>, Error>,
                         r: Result<LoginResult, Error>)
  {
    match c
    case Err(e) => r == Err(e)
    case Ok(identity) =>
      match NextHash(before.tokens, None, coin)
      case None => r == Err(Exhausted)
      case Some(h) =>
        var subjects := FirstGeneration(before.subjects, uid);
        && r == Ok(LoginResult(TokenResult(Some(h), client, uid, identity), profiles))
        && exists victims ::
             && IsEviction(before.tokens, Live(before.tokens, uid, subjects[uid], now), limit, victims)
             && after == before.(subjects := subjects, identities := ids,
                                 tokens := (before.tokens - victims)[h := IssuedRow(env, uid, subjects[uid], identity,
                                         client, now)])
  }

  /** What a login does and answers, given the account's players in order: the first failure, if there is one. */
  ghost predicate LoginWith(env: Env, before: Db, after: Db, uid: nat, username: string, client: string, limit: nat,
                            draw: Draw, coin: Coin, now: nat, pids: seq<nat>, r: Result<LoginResult, Error>)
    requires forall p | p in pids :: p in before.players
  {
    match Allotted(before.identities, before.players, Watermark(before), draw, pids)
    case None => r == Err(IdentityConflict)
    case Some(_) =>
      exists ids, profiles, c :: Ends(env, before, after, uid, username, client, limit, draw, coin, now, pids, ids,
                                      profiles, c, r)
  }

  ghost predicate Ends(env: Env, before: Db, after: Db, uid: nat, username: string, client: string, limit: nat,
                       draw: Draw, coin: Coin, now: nat, pids: seq<nat>, ids: map<nat, IdRow>, profiles: seq<Identity>,
                       c: Result<Option<Identity>, Error>, r: Result<LoginResult, Error>)
  {
    && Gathered(before.identities, ids, before.players, Watermark(before), draw, pids, profiles)
    && Chooses(env, before.players, uid, username, profiles, c)
    && Issues(env, before, after, uid, client, limit, coin, now, ids, profiles, c, r)
  }

  ghost predicate LoginEnds(env: Env, before: Db, after: Db, uid: nat, username: string, client: string, limit: nat,
                            draw: Draw, coin: Coin, now: nat, r: Result<LoginResult, Error>)
  {
    exists pids :: Owned(before.players, uid, pids)
      && LoginWith(env, before, after, uid, username, client, limit, draw, coin, now, pids, r)
  }

  ghost predicate AuthenticateBody(env: Env, before: Db, after: Db, username: string, password: string, client: string,
                                   limit: int, draw: Draw, coin: Coin, now: nat,
                                   r: Result<LoginResult, Error>)
  {
    if limit <= 0 then r == Err(NotReady)
    else match Credentials(env, before, username, password)
      case Err(e) => r == Err(e)
      case Ok(uid) =>
        if !ServiceOpen(before.gate) then r == Err(NotReady)
        else LoginEnds(env, before, after, uid, username, client, limit, draw, coin, now, r)
  }

  /** The new row is inserted before the old ones go, so that a candidate cannot reuse the hash of a victim. */
  method IssueAndEvict(d: Database, env: Env, g: Grant, victims: seq<Hash>, ghost live: set<Hash>, ghost limit: nat,
                       coin: Coin, now: nat)
    returns (r: Result<TokenResult, Error>)
    requires env.ttl > 0 && g.generation >= 1 && g.owner in d.subjects
    requires g.identity.Some? ==> g.identity.value.id in d.identities
    requires live <= d.tokens.Keys && IsEviction(d.tokens, live, limit, Elements(victims))
    modifies d`tokens
    ensures r == match NextHash(old(d.tokens), None, coin)
                 case None => Err(Exhausted)
                 case Some(h) => Ok(TokenResult(Some(h), g.client, g.owner, g.identity))
    ensures r.Ok? ==>
              d.tokens == (old(d.tokens) - Elements(victims))[r.value.access.value := IssuedRow(env, g.owner,
                      g.generation, g.identity, g.client, now)]
  {
    hide NextHash, IsEviction;
    ghost var tokens := d.tokens;
    r := IssueToken(d, env, g, None, coin, now);
    if r.Err? {
      return;
    }
    VictimsStay(tokens, live, limit, Elements(victims), r.value.access.value, coin);
    d.tokens := d.tokens - Elements(victims);
    EvictAfterIssue(tokens, Elements(victims), r.value.access.value,
                    IssuedRow(env, g.owner, g.generation, g.identity, g.client, now));
  }

  /** The account's profiles, and the one the token is bound to. */
  method ChooseProfile(d: Database, env: Env, uid: nat, username: string, watermark: nat, draw: Draw)
    returns (profiles: Result<seq<Identity>, Error>, c: Result<Option<Identity>, Error>, ghost pids: seq<nat>)
    requires d.Valid() && d.key == env.key && forall p | p in d.players :: p > 0
    modifies d`identities, d`nextId
    ensures d.Valid() && d.nextId >= old(d.nextId)
    ensures Owned(d.players, uid, pids)
    ensures profiles.Err? ==>
              && profiles == Err(IdentityConflict) && c == Err(IdentityConflict)
              && Allotted(old(d.identities), d.players, watermark, draw, pids).None?
    ensures profiles.Ok? ==>
              && Gathered(old(d.identities), d.identities, d.players, watermark, draw, pids, profiles.value)
              && Chooses(env, d.players, uid, username, profiles.value, c)
              && (c.Ok? && c.value.Some? ==> c.value.value.id in d.identities)
  {
    hide Fits, Gathered, Allotted, Chooses, Owned;
    ghost var before := d.Tables();
    profiles, pids := LoginProfiles(d, uid, watermark, draw);
    if profiles.Err? {
      c := Err(profiles.error);
      return;
    }
    c := Choose(d, env, uid, username, profiles.value);
    if c.Ok? {
      ChosenExists(env, d.identities, before, uid, username, watermark, draw, pids, profiles.value, c.value);
    }
  }

  /** Create the account's subject row if it is missing, lock it, and choose what must go. */
  method LockAccount(d: Database, uid: nat, limit: nat, now: nat) returns (generation: nat, victims: seq<Hash>,
                     ghost live: set<Hash>)
    requires limit > 0 && forall u | u in d.subjects :: d.subjects[u] >= 1
    modifies d`subjects
    ensures d.subjects == FirstGeneration(old(d.subjects), uid) && uid in d.subjects
    ensures generation == d.subjects[uid] >= 1
    ensures live == Live(d.tokens, uid, generation, now) && live <= d.tokens.Keys
    ensures IsEviction(d.tokens, live, limit, Elements(victims))
  {
    hide IsEviction, Live;
    d.subjects := FirstGeneration(d.subjects, uid);
    generation := d.subjects[uid];
    live := Live(d.tokens, uid, generation, now);
    victims := LockEvictionCandidates(d, uid, generation, limit, now);
  }

  /** Everything after the credentials, under the account's lock. */
  method LogIn(d: Database, env: Env, uid: nat, username: string, client: string, limit: nat, draw: Draw, coin: Coin,
               now: nat)
    returns (r: Result<LoginResult, Error>)
    requires d.Valid() && d.key == env.key && env.ttl > 0 && limit > 0 && d.gate.Some?
    requires (forall p | p in d.players :: p > 0) && forall u | u in d.subjects :: d.subjects[u] >= 1
    modifies d`subjects, d`identities, d`nextId, d`tokens
    ensures d.nextId >= old(d.nextId) && d.Valid()
    ensures LoginEnds(env, old(d.Tables()), d.Tables(), uid, username, client, limit, draw, coin, now, r)
  {
    hide Fits, Gathered, Allotted, NextHash, IsEviction, Chooses, Live, LoginEnds, IssuedRow, FirstGeneration, Owned;
    ghost var before := d.Tables();
    var generation, victims, live := LockAccount(d, uid, limit, now);
    var profiles, c, pids := ChooseProfile(d, env, uid, username, d.gate.value.watermark, draw);
    OwnedArePlayers(d.players, uid, pids);
    if profiles.Err? {
      r := Err(profiles.error);
      NobodyAllotted(env, before, d.Tables(), uid, username, client, limit, draw, coin, now, pids);
      return;
    }
    if c.Err? {
      r := Err(c.error);
    } else {
      var issued := IssueAndEvict(d, env, Grant(uid, generation, client, c.value, now), victims, live, limit, coin,
                                  now);
      r := if issued.Ok? then Ok(LoginResult(issued.value, profiles.value)) else Err(issued.error);
      if issued.Ok? {
        LoginComposed(env, before, d.Tables(), uid, client, limit, coin, now, profiles.value, c.value, r, generation,
                      live, Elements(victims));
      }
    }
    assert Issues(env, before, d.Tables(), uid, client, limit, coin, now, d.identities, profiles.value, c, r);
    LoginFound(env, before, d.Tables(), uid, username, client, limit, draw, coin, now, pids, d.identities,
               profiles.value, c, r);
  }

  lemma OwnedArePlayers(players: map<nat, Player>, uid: nat, pids: seq<nat>)
    requires Owned(players, uid, pids)
    ensures forall p | p in pids :: p in players
  {
  }

  lemma NobodyAllotted(env: Env, before: Db, after: Db, uid: nat, username: string, client: string, limit: nat,
                       draw: Draw, coin: Coin, now: nat, pids: seq<nat>)
    requires Owned(before.players, uid, pids)
    requires Allotted(before.identities, before.players, Watermark(before), draw, pids).None?
    ensures LoginEnds(env, before, after, uid, username, client, limit, draw, coin, now, Err(IdentityConflict))
  {
    hide Allotted;
    assert LoginWith(env, before, after, uid, username, client, limit, draw, coin, now, pids, Err(IdentityConflict));
  }

  lemma LoginFound(env: Env, before: Db, after: Db, uid: nat, username: string, client: string, limit: nat, draw: Draw,
                   coin: Coin, now: nat, pids: seq<nat>, ids: map<nat, IdRow>, profiles: seq<Identity>,
                   c: Result<Option<Identity>, Error>, r: Result<LoginResult, Error>)
    requires Owned(before.players, uid, pids)
    requires Ends(env, before, after, uid, username, client, limit, draw, coin, now, pids, ids, profiles, c, r)
    ensures LoginEnds(env, before, after, uid, username, client, limit, draw, coin, now, r)
  {
    assert Allotted(before.identities, before.players, Watermark(before), draw, pids).Some?;
    hide Allotted, Ends;
    assert LoginWith(env, before, after, uid, username, client, limit, draw, coin, now, pids, r);
  }

  /** The parts of a login make a login. */
  lemma LoginComposed(env: Env, before: Db, after: Db, uid: nat, client: string, limit: nat, coin: Coin, now: nat,
                      profiles: seq<Identity>, identity: Option<Identity>, r: Result<LoginResult, Error>, g: nat,
                      live: set<Hash>, victims: set<Hash>)
    requires NextHash(before.tokens, None, coin).Some?
    requires var h := NextHash(before.tokens, None, coin).value;
             && r == Ok(LoginResult(TokenResult(Some(h), client, uid, identity), profiles))
             && after.tokens == (before.tokens - victims)[h := IssuedRow(env, uid, g, identity, client, now)]
    requires uid in after.subjects && g == after.subjects[uid] && live == Live(before.tokens, uid, g, now)
    requires live <= before.tokens.Keys && IsEviction(before.tokens, live, limit, victims)
    requires after == before.(subjects := FirstGeneration(before.subjects, uid), identities := after.identities,
                              tokens := after.tokens)
    ensures Issues(env, before, after, uid, client, limit, coin, now, after.identities, profiles, Ok(identity), r)
  {
    hide NextHash, IsEviction, Live;
  }

  lemma SoundKeys(db: Db)
    requires Sound(db)
    ensures (forall p | p in db.players :: p > 0) && forall u | u in db.subjects :: db.subjects[u] >= 1
  {
    hide IdentitiesOk;
  }

  /** What a successful login has found and done. */
  ghost predicate LoginDone(env: Env, before: Db, after: Db, uid: nat, username: string, client: string, limit: nat,
                            draw: Draw, coin: Coin, now: nat, x: LoginResult, pids: seq<nat>, victims: set<Hash>)
  {
    var subjects := FirstGeneration(before.subjects, uid);
    && Owned(before.players, uid, pids)
    && Gathered(before.identities, after.identities, before.players, Watermark(before), draw, pids, x.profiles)
    && Chooses(env, before.players, uid, username, x.profiles, Ok(x.token.identity))
    && x.token.access.Some? && NextHash(before.tokens, None, coin) == x.token.access
    && x.token.client == client && x.token.owner == uid
    && IsEviction(before.tokens, Live(before.tokens, uid, subjects[uid], now), limit, victims)
    && after == before.(subjects := subjects, identities := after.identities,
                        tokens := (before.tokens - victims)[x.token.access.value := IssuedRow(env, uid,
                                subjects[uid], x.token.identity, client, now)])
  }

  lemma LoginEnded(env: Env, before: Db, after: Db, uid: nat, username: string, client: string, limit: nat, draw: Draw,
                   coin: Coin, now: nat, x: LoginResult) returns (pids: seq<nat>, victims: set<Hash>)
    requires LoginEnds(env, before, after, uid, username, client, limit, draw, coin, now, Ok(x))
    ensures LoginDone(env, before, after, uid, username, client, limit, draw, coin, now, x, pids, victims)
  {
    hide Gathered, Allotted, NextHash, IsEviction, Chooses, IssuedRow;
    pids :| Owned(before.players, uid, pids) && (forall p | p in pids :: p in before.players)
            && LoginWith(env, before, after, uid, username, client, limit, draw, coin, now, pids, Ok(x));
    var ids, profiles, c :| Ends(env, before, after, uid, username, client, limit, draw, coin, now, pids, ids,
                                 profiles, c, Ok(x));
    var subjects := FirstGeneration(before.subjects, uid);
    victims :|
      && IsEviction(before.tokens, Live(before.tokens, uid, subjects[uid], now), limit, victims)
      && after == before.(subjects := subjects, identities := ids,
                          tokens := (before.tokens - victims)[x.token.access.value := IssuedRow(env, uid,
                                  subjects[uid], x.token.identity, client, now)]);
  }

  lemma LoggedInSound(env: Env, before: Db, after: Db, uid: nat, username: string, client: string, limit: nat,
                      draw: Draw, coin: Coin, now: nat, x: LoginResult)
    requires Sound(before) && env.ttl > 0 && IdentitiesOk(after.identities)
    requires LoginEnds(env, before, after, uid, username, client, limit, draw, coin, now, Ok(x))
    ensures Sound(after)
  {
    hide IdentitiesOk, NextHash, IsEviction, Chooses, Live, LoginEnds, Gathered, Sound, FirstGeneration;
    var pids, victims := LoginEnded(env, before, after, uid, username, client, limit, draw, coin, now, x);
    ChosenExists(env, after.identities, before, uid, username, Watermark(before), draw, pids, x.profiles,
                 x.token.identity);
    GatheredGrows(before, after.identities, draw, pids, x.profiles);
    IssuedSound(env, before, after, uid, client, now, x.token.identity, victims, x.token.access.value);
  }

  lemma GatheredGrows(before: Db, ids: map<nat, IdRow>, draw: Draw, pids: seq<nat>, profiles: seq<Identity>)
    requires Gathered(before.identities, ids, before.players, Watermark(before), draw, pids, profiles)
    ensures forall i | i in before.identities :: i in ids
  {
  }

  lemma IssuedSound(env: Env, before: Db, after: Db, uid: nat, client: string, now: nat, identity: Option<Identity>,
                    victims: set<Hash>, h: Hash)
    requires Sound(before) && IdentitiesOk(after.identities)
    requires forall i | i in before.identities :: i in after.identities
    requires identity.Some? ==> identity.value.id in after.identities
    requires var subjects := FirstGeneration(before.subjects, uid);
             after == before.(subjects := subjects, identities := after.identities,
                              tokens := (before.tokens - victims)[h := IssuedRow(env, uid, subjects[uid], identity,
                                      client, now)])
    ensures Sound(after)
  {
    hide IdentitiesOk;
  }

  method AuthenticateTransaction(d: Database, env: Env, username: string, password: string, client: string, limit: int,
                                 draw: Draw, coin: Coin, now: nat)
    returns (r: Result<LoginResult, Error>)
    requires Ready(d) && d.key == env.key && env.ttl > 0
    modifies d`subjects, d`identities, d`nextId, d`tokens
    ensures d.nextId >= old(d.nextId) && d.Valid()
    ensures r.Ok? ==> Ready(d)
    ensures AuthenticateBody(env, old(d.Tables()), d.Tables(), username, password, client, limit, draw, coin, now, r)
  {
    hide IdentitiesOk, CheckV1, Credentials, LoginEnds;
    if limit <= 0 {
      return Err(NotReady);
    }
    var owner := CheckCredentials(d, env, username, password);
    if owner.Err? {
      return Err(owner.error);
    }
    if !ServiceOpen(d.gate) {
      return Err(NotReady);
    }
    SoundKeys(d.Tables());
    r := LogIn(d, env, owner.value, username, client, limit, draw, coin, now);
    if r.Ok? {
      LoggedInSound(env, old(d.Tables()), d.Tables(), owner.value, username, client, limit, draw, coin, now, r.value);
    }
  }

  lemma ChosenExists(env: Env, ids: map<nat, IdRow>, before: Db, uid: nat, username: string, watermark: nat, draw: Draw,
                     pids: seq<nat>, profiles: seq<Identity>, c: Option<Identity>)
    requires Gathered(before.identities, ids, before.players, watermark, draw, pids, profiles)
    requires Chooses(env, before.players, uid, username, profiles, Ok(c))
    ensures c.Some? ==> c.value.id in ids
  {
    hide Allotted, Gave, Served, Grown;
    ProfilesExist(ids, before.players, pids);
  }

  lemma {:induction false} ProfilesExist(ids: map<nat, IdRow>, players: map<nat, Player>, pids: seq<nat>)
    requires forall p | p in pids :: p in players
    ensures forall x | x in Profiles(ids, players, pids) ::
              x.id in ids && x.player in pids && ReadIdentity(ids, x.player, players[x.player]) == Ok(x)
  {
    if pids != [] {
      ProfilesExist(ids, players, pids[..|pids| - 1]);
    }
  }

  /** The new hash is no victim: it was in no row. */
  lemma VictimsStay(tokens: map<Hash, Token>, live: set<Hash>, limit: nat, victims: set<Hash>, h: Hash, coin: Coin)
    requires live <= tokens.Keys && IsEviction(tokens, live, limit, victims) && NextHash(tokens, None, coin) == Some(h)
    ensures h !in victims && h !in tokens && victims <= tokens.Keys
  {
  }

  lemma EvictAfterIssue(tokens: map<Hash, Token>, victims: set<Hash>, h: Hash, row: Token)
    requires h !in victims
    ensures tokens[h := row] - victims == (tokens - victims)[h := row]
  {
  }

  method Authenticate(d: Database, env: Env, username: string, password: string, given: string, drawn: string,
                      limit: int, draw: Draw, coin: Coin, now: nat, outcome: Outcome)
    returns (r: Result<LoginResult, Error>)
    requires Ready(d) && d.key == env.key && env.ttl > 0
    modifies d
    ensures Ready(d) && d.schema == old(d.schema)
    ensures exists after, body ::
              AuthenticateBody(env, old(d.Tables()), after, username, password, ClientToken(given, drawn), limit, draw,
                               coin, now, body)
              && Ended(old(d.Tables()), d.Tables(), after, body, outcome, r)
    ensures r.Ok? ==> r.value.token.client == ClientToken(given, drawn)
  {
    hide Fits, AuthenticateBody, Sound;
    var saved := d.Tables();
    ghost var counter := d.nextId;
    var client := ClientToken(given, drawn);
    var body := AuthenticateTransaction(d, env, username, password, client, limit, draw, coin, now);
    ghost var after := d.Tables();
    if body.Ok? {
      LoginNamesClient(env, saved, after, username, password, client, limit, draw, coin, now, body.value);
    }
    FitsLater(saved.identities, counter, d.nextId, d.schema);
    r := Finish(d, saved, body, outcome);
    assert Ended(saved, d.Tables(), after, body, outcome, r);
  }

  lemma LoginNamesClient(env: Env, before: Db, after: Db, username: string, password: string, client: string,
                         limit: int, draw: Draw, coin: Coin, now: nat, x: LoginResult)
    requires AuthenticateBody(env, before, after, username, password, client, limit, draw, coin, now, Ok(x))
    ensures x.token.client == client
  {
    hide AuthenticateBody, LoginEnds, Gathered, Chooses, IsEviction, Live, NextHash, Owned, IssuedRow;
    var uid := BodyEnds(env, before, after, username, password, client, limit, draw, coin, now, x);
    var pids, victims := LoginEnded(env, before, after, uid, username, client, limit, draw, coin, now, x);
  }

  // ---- what a login leaves ----

  /** After a login with limit L the account has its new token and the L-1 newest live tokens it had before, or all
      of them if there were fewer. */
  lemma LoginLeavesNewest(env: Env, before: Db, after: Db, uid: nat, username: string, client: string, limit: nat,
                          draw: Draw, coin: Coin, now: nat, x: LoginResult)
    requires limit > 0 && env.ttl > 0
    requires LoginEnds(env, before, after, uid, username, client, limit, draw, coin, now, Ok(x))
    ensures x.token.access.Some? && uid in after.subjects
    ensures var g := after.subjects[uid];
            var earlier, later := Live(before.tokens, uid, g, now), Live(after.tokens, uid, g, now);
            var kept := later - {x.token.access.value};
            && x.token.access.value in later && x.token.access.value !in before.tokens
            && kept <= earlier && |kept| == (if |earlier| < limit then |earlier| else limit - 1)
            && |later| == |kept| + 1 <= limit
            && forall gone, stays | gone in earlier - kept && stays in kept :: Older(before.tokens, gone, stays)
  {
    var pids, victims := LoginEnded(env, before, after, uid, username, client, limit, draw, coin, now, x);
    hide NextHash, Gathered, Chooses, IsEviction, Live, LoginEnds;
    var g := FirstGeneration(before.subjects, uid)[uid];
    var live := Live(before.tokens, uid, g, now);
    var h := x.token.access.value;
    UnusedHash(before.tokens, coin);
    LiveListed(before.tokens, uid, g, now);
    LiveAfterLogin(before.tokens, uid, g, now, victims, h, IssuedRow(env, uid, g, x.token.identity, client, now));
    EvictionKeeps(before.tokens, live, limit, victims, h);
  }

  /** The token a login returns works at once and until it expires, for its client, and stands for exactly the
      profile the login returned with it. */
  lemma LoginAuthorizes(env: Env, before: Db, after: Db, username: string, password: string, client: string, limit: int,
                        draw: Draw, coin: Coin, now: nat, x: LoginResult, c: string, at: nat)
    requires IdentitiesOk(after.identities)
    requires AuthenticateBody(env, before, after, username, password, client, limit, draw, coin, now, Ok(x))
    ensures x.token.access.Some? && x.token.owner in after.subjects
    ensures Authorize(env, after, x.token.access.value, c, at)
            == if at < now + env.ttl && MatchesClient(client, c)
               then Ok(Grant(x.token.owner, after.subjects[x.token.owner], client, x.token.identity, now + env.ttl))
               else Err(Invalid)
    ensures x.token.identity.Some? ==> x.token.identity.value in x.profiles
    ensures forall y | y in x.profiles ::
              y.owner == x.token.owner && y.player in after.players
              && ReadIdentity(after.identities, y.player, after.players[y.player]) == Ok(y)
  {
    hide IdentitiesOk, NextHash, IsEviction, Live, LoginEnds, Credentials, Authorize, ReadIdentity, AuthenticateBody,
      IssuedRow, FirstGeneration, Gathered, Owned, Chooses;
    var uid := BodyEnds(env, before, after, username, password, client, limit, draw, coin, now, x);
    var pids, victims := LoginEnded(env, before, after, uid, username, client, limit, draw, coin, now, x);
    LoginTables(env, before, after, uid, client, now, x.token.identity, victims, x.token.access.value);
    ProfilesRead(before, after.identities, uid, draw, pids, x.profiles);
    ChosenIsProfile(env, before.players, uid, username, x.profiles, x.token.identity);
    if x.token.identity.Some? {
      ProfileBinds(after, uid, x.token.identity.value);
    }
    TokenGrants(env, after, x.token.access.value, x.token.identity, c, at);
  }

  lemma BodyEnds(env: Env, before: Db, after: Db, username: string, password: string, client: string, limit: int,
                 draw: Draw, coin: Coin, now: nat, x: LoginResult) returns (uid: nat)
    requires AuthenticateBody(env, before, after, username, password, client, limit, draw, coin, now, Ok(x))
    ensures limit > 0 && LoginEnds(env, before, after, uid, username, client, limit, draw, coin, now, Ok(x))
    ensures uid in before.users && env.allowed(before.users[uid].permission, before.users[uid].verified)
  {
    hide LoginEnds, LoginOwner;
    uid := Credentials(env, before, username, password).value;
  }

  lemma ChosenIsProfile(env: Env, players: map<nat, Player>, uid: nat, username: string, profiles: seq<Identity>,
                        identity: Option<Identity>)
    requires Chooses(env, players, uid, username, profiles, Ok(identity))
    ensures identity.Some? ==> identity.value in profiles
  {
  }

  lemma LoginTables(env: Env, before: Db, after: Db, uid: nat, client: string, now: nat, identity: Option<Identity>,
                    victims: set<Hash>, h: Hash)
    requires var subjects := FirstGeneration(before.subjects, uid);
             after == before.(subjects := subjects, identities := after.identities,
                              tokens := (before.tokens - victims)[h := IssuedRow(env, uid, subjects[uid], identity,
                                      client, now)])
    ensures h in after.tokens && uid in after.subjects
    ensures after.tokens[h] == Token(uid, after.subjects[uid], if identity.Some? then Some(identity.value.id)
                                       else None, client,
                                     now, now + env.ttl, 0)
    ensures after.users == before.users && after.players == before.players
  {
  }

  lemma ProfilesRead(before: Db, ids: map<nat, IdRow>, uid: nat, draw: Draw, pids: seq<nat>, profiles: seq<Identity>)
    requires Gathered(before.identities, ids, before.players, Watermark(before), draw, pids, profiles)
    requires Owned(before.players, uid, pids)
    ensures forall y | y in profiles ::
              y.owner == uid && y.player in before.players
              && ReadIdentity(ids, y.player, before.players[y.player]) == Ok(y)
  {
    hide Allotted, Gave, Grown, Served, ReadIdentity;
    ProfilesExist(ids, before.players, pids);
    forall y | y in profiles
      ensures y.owner == before.players[y.player].owner
    {
      ReadsOwner(ids, y.player, before.players[y.player], y);
    }
  }

  lemma ReadsOwner(ids: map<nat, IdRow>, pid: nat, player: Player, y: Identity)
    requires ReadIdentity(ids, pid, player) == Ok(y)
    ensures y.owner == player.owner
  {
  }

  lemma ProfileBinds(db: Db, uid: nat, y: Identity)
    requires IdentitiesOk(db.identities) && y.player in db.players && y.owner == uid
    requires ReadIdentity(db.identities, y.player, db.players[y.player]) == Ok(y)
    ensures BoundIdentity(db, uid, y.id) == Ok(y)
  {
    hide IdentitiesOk;
    ReadIdentityIff(db.identities, y.player, db.players[y.player], y);
  }

  lemma TokenGrants(env: Env, db: Db, h: Hash, identity: Option<Identity>, c: string, at: nat)
    requires h in db.tokens
    requires var row := db.tokens[h];
             && row.owner in db.users && env.allowed(db.users[row.owner].permission, db.users[row.owner].verified)
             && row.owner in db.subjects && row.generation == db.subjects[row.owner]
             && row.identity == (if identity.Some? then Some(identity.value.id) else None)
             && (identity.Some? ==> BoundIdentity(db, row.owner, identity.value.id) == Ok(identity.value))
    ensures var row := db.tokens[h];
            Authorize(env, db, h, c, at)
            == if at < row.expires && MatchesClient(row.client, c)
               then Ok(Grant(row.owner, row.generation, row.client, identity, row.expires)) else Err(Invalid)
  {
    hide BoundIdentity;
  }

  lemma LiveListed(tokens: map<Hash, Token>, uid: nat, g: nat, now: nat)
    ensures Live(tokens, uid, g, now) <= tokens.Keys
  {
  }

  lemma LiveAfterLogin(tokens: map<Hash, Token>, uid: nat, g: nat, now: nat, victims: set<Hash>, h: Hash, row: Token)
    requires h !in tokens && row.owner == uid && row.generation == g && row.expires > now
    ensures Live((tokens - victims)[h := row], uid, g, now) == Live(tokens, uid, g, now) - victims + {h}
    ensures Live(tokens, uid, g, now) <= tokens.Keys
  {
  }

  lemma EvictionKeeps(tokens: map<Hash, Token>, live: set<Hash>, limit: nat, victims: set<Hash>, h: Hash)
    requires limit > 0 && live <= tokens.Keys && h !in live && IsEviction(tokens, live, limit, victims)
    ensures var kept := live - victims + {h} - {h};
            && kept <= live && |kept| == (if |live| < limit then |live| else limit - 1)
            && |live - victims + {h}| == |kept| + 1 <= limit
            && forall gone, stays | gone in live - kept && stays in kept :: Older(tokens, gone, stays)
  {
    hide Older;
    assert live - victims + {h} - {h} == live - victims;
    assert live - (live - victims) == victims;
  }

  lemma UnusedHash(tokens: map<Hash, Token>, coin: Coin)
    ensures NextHash(tokens, None, coin).Some? ==> NextHash(tokens, None, coin).value !in tokens
  {
  }
}
