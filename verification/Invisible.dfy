/** Cleanup cannot be noticed: with cleanups the service answers as it does without them. */
module Invisible {
  import opened Basics
  import opened Uuids
  import opened Tables
  import opened Directory
  import opened Service
  import opened AccountProfiles
  import opened Auth
  import Sessions
  import L = Authenticate
  import P = Profiles
  import opened Cleanup

  /** `b` is `a` without some tokens that have expired. */
  predicate LacksTokens(a: map<Hash, Token>, b: map<Hash, Token>, now: nat)
  {
    && b.Keys <= a.Keys && (forall h | h in b :: b[h] == a[h])
    && forall h | h in a && h !in b :: a[h].expires <= now
  }

  predicate LacksSessions(a: map<string, Session>, b: map<string, Session>, now: nat)
  {
    && b.Keys <= a.Keys && (forall v | v in b :: b[v] == a[v])
    && forall v | v in a && v !in b :: a[v].expires <= now
  }

  lemma LacksBoth(a: Db, b: Db, now: nat)
    ensures OnlyExpiredGone(a, b, now) <==>
              SameAccounts(a, b) && LacksTokens(a.tokens, b.tokens, now) && LacksSessions(a.sessions, b.sessions, now)
  {
  }

  /** One of the two is the other without some rows that have expired: if `full`, the second lacks rows of the first. */
  ghost predicate Twins(a: Db, b: Db, now: nat, full: bool)
  {
    if full then OnlyExpiredGone(a, b, now) else OnlyExpiredGone(b, a, now)
  }

  /** The same success, or two refusals. */
  predicate Alike<T(==)>(r: Result<T, Error>, s: Result<T, Error>)
  {
    r == s || (r.Err? && s.Err?)
  }

  /** Tables that differ in tokens and sessions only. */
  predicate SameAccounts(a: Db, b: Db)
  {
    b == a.(tokens := b.tokens, sessions := b.sessions)
  }

  // ---- what twins agree on ----

  lemma TwinsAuthorize(env: Env, a: Db, b: Db, now: nat, full: bool, hash: Hash, client: string)
    requires Twins(a, b, now, full)
    ensures SameAccounts(a, b)
    ensures Alike(Authorize(env, a, hash, client, now), Authorize(env, b, hash, client, now))
  {
    hide Authorize;
    if full {
      AuthorizeInvisible(env, a, b, now, now, hash, client);
    } else {
      AuthorizeInvisible(env, b, a, now, now, hash, client);
    }
  }

  lemma TwinsLive(a: Db, b: Db, now: nat, full: bool, uid: nat, generation: nat)
    requires Twins(a, b, now, full)
    ensures Live(a.tokens, uid, generation, now) == Live(b.tokens, uid, generation, now)
    ensures Live(a.tokens, uid, generation, now) <= a.tokens.Keys
    ensures Live(a.tokens, uid, generation, now) <= b.tokens.Keys
    ensures forall h | h in Live(a.tokens, uid, generation, now) :: a.tokens[h] == b.tokens[h]
  {
  }

  lemma SameUuid(a: Db, b: Db, u: Uuid)
    requires SameAccounts(a, b)
    ensures LookupUuid(a, u) == LookupUuid(b, u)
  {
  }

  lemma SameSelection(a: Db, b: Db, g: Grant, selected: string)
    requires SameAccounts(a, b)
    ensures Selected(a, g, selected) == Selected(b, g, selected)
  {
    if selected != "" && Parse(selected).Some? {
      SameUuid(a, b, Parse(selected).value);
    }
    hide LookupUuid, Parse;
  }

  lemma SameLoginOwner(env: Env, a: Db, b: Db, username: string, password: string)
    requires SameAccounts(a, b)
    ensures Credentials(env, a, username, password) == Credentials(env, b, username, password)
  {
    assert LoginOwner(env, a, username) == LoginOwner(env, b, username);
    hide LoginOwner;
  }

  /** No candidate is the hash of a row that only one of the two has. */
  predicate Drawn(a: map<Hash, Token>, b: map<Hash, Token>, coin: Coin)
  {
    forall k: nat | k < 3 :: coin(k) in a <==> coin(k) in b
  }

  lemma SameCandidate(a: map<Hash, Token>, b: map<Hash, Token>, gone: set<Hash>, previous: Option<Hash>, coin: Coin)
    requires Drawn(a, b, coin)
    ensures NextHash(a - gone, previous, coin) == NextHash(b - gone, previous, coin)
    ensures NextHash(a - gone, previous, coin).Some? ==>
              Usable(a - gone, previous, NextHash(a - gone, previous, coin).value)
              && (NextHash(a - gone, previous, coin).value in a <==> NextHash(a - gone, previous, coin).value in b)
  {
    assert coin(0) in a <==> coin(0) in b;
    assert coin(1) in a <==> coin(1) in b;
    assert coin(2) in a <==> coin(2) in b;
  }

  /** Replacing one token, or some, in both keeps them twins. */
  lemma TwinsReplace(a: Db, b: Db, now: nat, full: bool, subjects: map<nat, nat>, ids: map<nat, IdRow>,
                     gone: set<Hash>, h: Hash, row: Token)
    requires Twins(a, b, now, full) && (h in a.tokens ==> h in gone) && (h in b.tokens ==> h in gone)
    ensures Twins(a.(subjects := subjects, identities := ids, tokens := (a.tokens - gone)[h := row]),
                  b.(subjects := subjects, identities := ids, tokens := (b.tokens - gone)[h := row]), now, full)
  {
  }

  lemma DropLacks(a: map<Hash, Token>, b: map<Hash, Token>, now: nat, gone: set<Hash>)
    requires LacksTokens(a, b, now)
    ensures LacksTokens(a - gone, b - gone, now)
  {
  }

  lemma JoinLacks(a: map<string, Session>, b: map<string, Session>, now: nat, server: string, row: Session)
    requires LacksSessions(a, b, now)
    ensures LacksSessions(a[server := row], b[server := row], now)
  {
  }

  lemma GoneDrop(a: Db, b: Db, now: nat, gone: set<Hash>)
    requires OnlyExpiredGone(a, b, now)
    ensures OnlyExpiredGone(a.(tokens := a.tokens - gone), b.(tokens := b.tokens - gone), now)
  {
    LacksBoth(a, b, now);
    LacksBoth(a.(tokens := a.tokens - gone), b.(tokens := b.tokens - gone), now);
    hide OnlyExpiredGone, LacksTokens, LacksSessions;
    DropLacks(a.tokens, b.tokens, now, gone);
  }

  lemma GoneJoin(a: Db, b: Db, now: nat, server: string, row: Session)
    requires OnlyExpiredGone(a, b, now)
    ensures OnlyExpiredGone(a.(sessions := a.sessions[server := row]), b.(sessions := b.sessions[server := row]), now)
  {
    LacksBoth(a, b, now);
    LacksBoth(a.(sessions := a.sessions[server := row]), b.(sessions := b.sessions[server := row]), now);
    hide OnlyExpiredGone, LacksTokens, LacksSessions;
    JoinLacks(a.sessions, b.sessions, now, server, row);
  }

  lemma TwinsDrop(a: Db, b: Db, now: nat, full: bool, gone: set<Hash>)
    requires Twins(a, b, now, full)
    ensures Twins(a.(tokens := a.tokens - gone), b.(tokens := b.tokens - gone), now, full)
  {
    hide OnlyExpiredGone;
    if full {
      GoneDrop(a, b, now, gone);
    } else {
      GoneDrop(b, a, now, gone);
    }
  }

  lemma TwinsJoin(a: Db, b: Db, now: nat, full: bool, server: string, row: Session)
    requires Twins(a, b, now, full)
    ensures Twins(a.(sessions := a.sessions[server := row]), b.(sessions := b.sessions[server := row]), now, full)
  {
    hide OnlyExpiredGone;
    if full {
      GoneJoin(a, b, now, server, row);
    } else {
      GoneJoin(b, a, now, server, row);
    }
  }

  lemma TwinsAccounts(a: Db, b: Db, now: nat, full: bool, users: map<nat, User>, players: map<nat, Player>,
                      subjects: map<nat, nat>, ids: map<nat, IdRow>)
    requires Twins(a, b, now, full)
    ensures Twins(a.(users := users, players := players, subjects := subjects, identities := ids),
                  b.(users := users, players := players, subjects := subjects, identities := ids), now, full)
  {
  }

  // ---- each request on twins ----

  lemma ValidateTwin(env: Env, a: Db, b: Db, hash: Hash, client: string, now: nat, full: bool,
                     r: Result<TokenResult, Error>)
    returns (s: Result<TokenResult, Error>)
    requires Twins(a, b, now, full) && ValidateBody(env, a, a, hash, client, now, r)
    ensures ValidateBody(env, b, b, hash, client, now, s) && Alike(r, s)
  {
    TwinsAuthorize(env, a, b, now, full, hash, client);
    hide Authorize, Twins;
    s := if !ServiceOpen(b.gate) then Err(NotReady)
         else match Authorize(env, b, hash, client, now)
           case Err(e) => Err(e)
           case Ok(g) => Ok(ResultOf(g));
  }

  lemma RefreshTwin(env: Env, a: Db, a': Db, b: Db, hash: Hash, client: string, selected: string, coin: Coin,
                    now: nat, full: bool, r: Result<TokenResult, Error>) returns (b': Db, s: Result<TokenResult, Error>)
    requires Twins(a, b, now, full) && Drawn(a.tokens, b.tokens, coin)
    requires RefreshBody(env, a, a', hash, client, selected, coin, now, r)
    ensures RefreshBody(env, b, b', hash, client, selected, coin, now, s) && Alike(r, s)
    ensures r.Ok? ==> Twins(a', b', now, full)
    ensures s.Err? ==> b' == b
  {
    TwinsAuthorize(env, a, b, now, full, hash, client);
    SameCandidate(a.tokens, b.tokens, {hash}, Some(hash), coin);
    b', s := b, Err(NotReady);
    if ServiceOpen(b.gate) {
      var x := Authorize(env, b, hash, client, now);
      if x.Err? {
        s := Err(x.error);
      } else {
        SameSelection(a, b, x.value, selected);
        var identity := Selected(b, x.value, selected);
        hide Authorize, Selected, Twins, NextHash, Usable, Drawn;
        if identity.Err? {
          s := Err(identity.error);
        } else if NextHash(b.tokens - {hash}, Some(hash), coin).None? {
          s := Err(Exhausted);
        } else {
          var h := NextHash(b.tokens - {hash}, Some(hash), coin).value;
          var row := IssuedRow(env, x.value.owner, x.value.generation, identity.value, x.value.client, now);
          s := Ok(TokenResult(Some(h), x.value.client, x.value.owner, identity.value));
          b' := b.(tokens := (b.tokens - {hash})[h := row]);
          UsableIsNew(a.tokens, b.tokens, hash, h);
          TwinsReplace(a, b, now, full, a.subjects, a.identities, {hash}, h, row);
          assert a' == a.(subjects := a.subjects, identities := a.identities, tokens := (a.tokens - {hash})[h := row]);
          assert b' == b.(subjects := a.subjects, identities := a.identities, tokens := (b.tokens - {hash})[h := row]);
        }
      }
    }
  }

  lemma UsableIsNew(a: map<Hash, Token>, b: map<Hash, Token>, hash: Hash, h: Hash)
    requires Usable(a - {hash}, Some(hash), h) && (h in a <==> h in b)
    ensures h !in a && h !in b
  {
  }

  /** The only difference a caller can see: asked to invalidate an expired token with the wrong client token, the
      service refuses while the row is there and reports success once it is gone. */
  predicate Accepts(db: Db, hash: Hash, client: string)
  {
    hash in db.tokens ==> db.tokens[hash].owner in db.subjects && MatchesClient(db.tokens[hash].client, client)
  }

  lemma InvalidateTwin(a: Db, a': Db, b: Db, hash: Hash, client: string, now: nat, full: bool, r: Result<(), Error>)
    returns (b': Db, s: Result<(), Error>)
    requires Twins(a, b, now, full) && InvalidateBody(a, a', hash, client, r) && (r.Err? ==> a' == a)
    ensures InvalidateBody(b, b', hash, client, s) && Twins(a', b', now, full)
    ensures s.Err? ==> b' == b
    ensures ServiceOpen(a.gate) ==> (Alike(r, s) <==> (Accepts(a, hash, client) <==> Accepts(b, hash, client)))
    ensures !Alike(r, s) ==> (hash in a.tokens) != (hash in b.tokens) && a' == a && b' == b
  {
    TwinsShare(a, b, now, full, hash);
    TwinsDrop(a, b, now, full, {hash});
    hide Twins;
    b', s := b, Ok(());
    if !ServiceOpen(b.gate) {
      s := Err(NotReady);
    } else if !Accepts(b, hash, client) {
      s := Err(Invalid);
    } else {
      b' := b.(tokens := b.tokens - {hash});
      DroppedAnyway(b, hash);
    }
    DroppedAnyway(a, hash);
  }

  /** What both have is the same. */
  lemma TwinsShare(a: Db, b: Db, now: nat, full: bool, hash: Hash)
    requires Twins(a, b, now, full)
    ensures SameAccounts(a, b) && (hash in a.tokens && hash in b.tokens ==> a.tokens[hash] == b.tokens[hash])
  {
  }

  lemma DroppedAnyway(db: Db, hash: Hash)
    ensures hash !in db.tokens ==> db.(tokens := db.tokens - {hash}) == db
  {
    assert hash !in db.tokens ==> db.tokens - {hash} == db.tokens;
  }

  lemma SignoutTwin(env: Env, a: Db, a': Db, b: Db, username: string, password: string, now: nat, full: bool,
                    r: Result<(), Error>)
    returns (b': Db)
    requires Twins(a, b, now, full) && SignoutBody(env, a, a', username, password, r)
    ensures SignoutBody(env, b, b', username, password, r) && (r.Ok? ==> Twins(a', b', now, full))
    ensures r.Err? ==> b' == b
  {
    assert SameAccounts(a, b);
    SameLoginOwner(env, a, b, username, password);
    hide Credentials, Twins;
    b' := if r.Ok? then b.(subjects := a'.subjects) else b;
    TwinsAccounts(a, b, now, full, a.users, a.players, a'.subjects, a.identities);
    assert r.Ok? ==> a' == a.(users := a.users, players := a.players, subjects := a'.subjects,
                              identities := a.identities);
    assert r.Ok? ==> b' == b.(users := a.users, players := a.players, subjects := a'.subjects,
                              identities := a.identities);
  }

  // ---- joining ----

  lemma TwinsSession(a: Db, b: Db, now: nat, full: bool, server: string, hash: Hash, ip: seq<int>)
    requires Twins(a, b, now, full)
    ensures Sessions.SessionAfter(a, server, hash, ip, now) == Sessions.SessionAfter(b, server, hash, ip, now)
  {
  }

  lemma JoinTwin(env: Env, a: Db, a': Db, b: Db, hash: Hash, selected: string, server: string, ip: Sessions.Address,
                 now: nat, full: bool, r: Result<(), Error>) returns (b': Db, s: Result<(), Error>)
    requires Twins(a, b, now, full) && Sessions.JoinBody(env, a, a', hash, selected, server, ip, now, r)
    ensures Sessions.JoinBody(env, b, b', hash, selected, server, ip, now, s) && Alike(r, s)
    ensures r.Ok? ==> Twins(a', b', now, full)
    ensures s.Err? ==> b' == b
  {
    TwinsAuthorize(env, a, b, now, full, hash, "");
    TwinsSession(a, b, now, full, server, hash, Sessions.Unmap(ip.octets));
    var row := Sessions.SessionAfter(b, server, hash, Sessions.Unmap(ip.octets), now);
    TwinsJoin(a, b, now, full, server, row);
    hide Twins, Authorize, Sessions.SessionAfter, Parse, Sessions.IsAddress, Sessions.GoodServer;
    b' := if r.Ok? then b.(sessions := b.sessions[server := row]) else b;
    s := r;
    if r.Err? && !Sessions.JoinBody(env, b, b, hash, selected, server, ip, now, s) {
      s := Err(Authorize(env, b, hash, "", now).error);
    }
  }

  lemma HasJoinedTwin(env: Env, a: Db, b: Db, name: string, server: string, ip: Sessions.Address, now: nat, full: bool)
    requires Twins(a, b, now, full)
    ensures Alike(Sessions.Joined(env, a, name, server, ip, now), Sessions.Joined(env, b, name, server, ip, now))
  {
    hide Sessions.Joined, OnlyExpiredGone;
    if full {
      CleanupIsInvisible(env, a, b, now, now, 0, "", name, server, ip, 0, 0);
    } else {
      CleanupIsInvisible(env, b, a, now, now, 0, "", name, server, ip, 0, 0);
    }
  }

  // ---- identities ----

  lemma EnsureTwin(a: Db, a': Db, b: Db, pid: nat, draw: Draw, now: nat, full: bool, r: Result<Identity, Error>)
    returns (b': Db)
    requires Twins(a, b, now, full) && EnsureBody(a, a', pid, draw, r)
    ensures EnsureBody(b, b', pid, draw, r) && (r.Ok? ==> Twins(a', b', now, full)) && (r.Err? ==> b' == b)
  {
    TwinsShare(a, b, now, full, 0);
    TwinsAccounts(a, b, now, full, a.users, a.players, a.subjects, a'.identities);
    hide Twins, ReadIdentity, Pick;
    b' := if r.Ok? then b.(identities := a'.identities) else b;
    assert r.Ok? ==> a' == a.(users := a.users, players := a.players, subjects := a.subjects,
                              identities := a'.identities);
    assert r.Ok? ==> b' == b.(users := a.users, players := a.players, subjects := a.subjects,
                              identities := a'.identities);
  }

  lemma ByNameTwin(env: Env, a: Db, a': Db, b: Db, name: string, draw: Draw, now: nat, full: bool,
                   r: Result<Identity, Error>)
    returns (b': Db)
    requires Twins(a, b, now, full) && P.ByNameBody(env, a, a', name, draw, r)
    ensures P.ByNameBody(env, b, b', name, draw, r) && (r.Ok? ==> Twins(a', b', now, full)) && (r.Err? ==> b' == b)
  {
    TwinsShare(a, b, now, full, 0);
    TwinsAccounts(a, b, now, full, a.users, a.players, a.subjects, a'.identities);
    hide Twins, ReadIdentity, Pick, UniquePlayerName;
    b' := if r.Ok? then b.(identities := a'.identities) else b;
    assert r.Ok? ==> a' == a.(users := a.users, players := a.players, subjects := a.subjects,
                              identities := a'.identities);
    assert r.Ok? ==> b' == b.(users := a.users, players := a.players, subjects := a.subjects,
                              identities := a'.identities);
  }

  lemma SameBatch(env: Env, a: Db, b: Db, watermark: nat, names: seq<string>)
    requires SameAccounts(a, b)
    ensures P.Batch(env, a, watermark, names) == P.Batch(env, b, watermark, names)
    decreases |names|
  {
  }

  lemma ByNamesTwin(env: Env, a: Db, a': Db, b: Db, names: seq<string>, draw: Draw, now: nat, full: bool,
                    r: Result<seq<Identity>, Error>) returns (b': Db)
    requires Twins(a, b, now, full) && P.BatchBody(env, a, a', names, draw, r)
    ensures P.BatchBody(env, b, b', names, draw, r) && (r.Ok? ==> Twins(a', b', now, full)) && (r.Err? ==> b' == b)
  {
    TwinsShare(a, b, now, full, 0);
    TwinsAccounts(a, b, now, full, a.users, a.players, a.subjects, a'.identities);
    hide Twins, P.Attended, P.Designated, Grown;
    b' := if r.Ok? then b.(identities := a'.identities) else b;
    if r.Ok? {
      SameBatch(env, a', b', Watermark(a), names);
      assert a' == a.(users := a.users, players := a.players, subjects := a.subjects, identities := a'.identities);
      assert b' == b.(users := a.users, players := a.players, subjects := a.subjects, identities := a'.identities);
    }
  }

  // ---- logging in ----

  lemma TwinsEviction(a: Db, b: Db, now: nat, full: bool, uid: nat, generation: nat, limit: nat, victims: set<Hash>)
    requires Twins(a, b, now, full)
    requires Live(a.tokens, uid, generation, now) <= a.tokens.Keys
    requires IsEviction(a.tokens, Live(a.tokens, uid, generation, now), limit, victims)
    ensures Live(b.tokens, uid, generation, now) <= b.tokens.Keys
    ensures IsEviction(b.tokens, Live(b.tokens, uid, generation, now), limit, victims)
  {
    TwinsLive(a, b, now, full, uid, generation);
    hide Twins, Live;
  }

  lemma IssuesTwin(env: Env, a: Db, a': Db, b: Db, uid: nat, client: string, limit: nat, coin: Coin, now: nat,
                   full: bool, ids: map<nat, IdRow>, profiles: seq<Identity>, c: Result<Option<Identity>, Error>,
                   r: Result<L.LoginResult, Error>) returns (b': Db)
    requires Twins(a, b, now, full) && Drawn(a.tokens, b.tokens, coin)
    requires L.Issues(env, a, a', uid, client, limit, coin, now, ids, profiles, c, r)
    ensures L.Issues(env, b, b', uid, client, limit, coin, now, ids, profiles, c, r)
    ensures r.Ok? ==> Twins(a', b', now, full)
    ensures r.Err? ==> b' == b
  {
    TwinsShare(a, b, now, full, 0);
    SameCandidate(a.tokens, b.tokens, {}, None, coin);
    assert a.tokens - {} == a.tokens && b.tokens - {} == b.tokens;
    hide Twins, NextHash, IsEviction, Live, Drawn;
    b' := b;
    if c.Ok? && NextHash(a.tokens, None, coin).Some? {
      var h := NextHash(a.tokens, None, coin).value;
      var subjects := L.FirstGeneration(a.subjects, uid);
      var row := IssuedRow(env, uid, subjects[uid], c.value, client, now);
      var victims :|
        && IsEviction(a.tokens, Live(a.tokens, uid, subjects[uid], now), limit, victims)
        && a' == a.(subjects := subjects, identities := ids, tokens := (a.tokens - victims)[h := row]);
      TwinsEviction(a, b, now, full, uid, subjects[uid], limit, victims);
      b' := b.(subjects := subjects, identities := ids, tokens := (b.tokens - victims)[h := row]);
      TwinsReplace(a, b, now, full, subjects, ids, victims, h, row);
    }
  }

  lemma LoginEndsTwin(env: Env, a: Db, a': Db, b: Db, uid: nat, username: string, client: string, limit: nat,
                      draw: Draw, coin: Coin, now: nat, full: bool, r: Result<L.LoginResult, Error>) returns (b': Db)
    requires Twins(a, b, now, full) && Drawn(a.tokens, b.tokens, coin)
    requires L.LoginEnds(env, a, a', uid, username, client, limit, draw, coin, now, r)
    ensures L.LoginEnds(env, b, b', uid, username, client, limit, draw, coin, now, r)
    ensures r.Ok? ==> Twins(a', b', now, full)
    ensures r.Err? ==> b' == b
  {
    TwinsShare(a, b, now, full, 0);
    hide Twins, Drawn, Allotted, Gathered, L.Chooses, L.Issues, L.LoginEnds;
    var pids := LoginPlayers(env, a, a', uid, username, client, limit, draw, coin, now, r);
    b' := b;
    if Allotted(a.identities, a.players, Watermark(a), draw, pids).None? {
      L.NobodyAllotted(env, b, b', uid, username, client, limit, draw, coin, now, pids);
    } else {
      var ids, profiles, c :| L.Ends(env, a, a', uid, username, client, limit, draw, coin, now, pids, ids, profiles,
                                     c, r);
      b' := IssuesTwin(env, a, a', b, uid, client, limit, coin, now, full, ids, profiles, c, r);
      L.LoginFound(env, b, b', uid, username, client, limit, draw, coin, now, pids, ids, profiles, c, r);
    }
  }

  lemma LoginPlayers(env: Env, a: Db, a': Db, uid: nat, username: string, client: string, limit: nat, draw: Draw,
                     coin: Coin, now: nat, r: Result<L.LoginResult, Error>) returns (pids: seq<nat>)
    requires L.LoginEnds(env, a, a', uid, username, client, limit, draw, coin, now, r)
    ensures Owned(a.players, uid, pids) && forall p | p in pids :: p in a.players
    ensures L.LoginWith(env, a, a', uid, username, client, limit, draw, coin, now, pids, r)
  {
    hide L.LoginWith;
    pids :| Owned(a.players, uid, pids) && (forall p | p in pids :: p in a.players)
            && L.LoginWith(env, a, a', uid, username, client, limit, draw, coin, now, pids, r);
  }

  lemma AuthenticateTwin(env: Env, a: Db, a': Db, b: Db, username: string, password: string, client: string, limit: int,
                         draw: Draw, coin: Coin, now: nat, full: bool, r: Result<L.LoginResult, Error>) returns (b': Db)
    requires Twins(a, b, now, full) && Drawn(a.tokens, b.tokens, coin)
    requires L.AuthenticateBody(env, a, a', username, password, client, limit, draw, coin, now, r)
    ensures L.AuthenticateBody(env, b, b', username, password, client, limit, draw, coin, now, r)
    ensures r.Ok? ==> Twins(a', b', now, full)
    ensures r.Err? ==> b' == b
  {
    TwinsShare(a, b, now, full, 0);
    SameLoginOwner(env, a, b, username, password);
    hide Twins, Drawn, L.LoginEnds, Credentials;
    b' := b;
    var owner := Credentials(env, a, username, password);
    if limit > 0 && owner.Ok? && ServiceOpen(a.gate) {
      b' := LoginEndsTwin(env, a, a', b, owner.value, username, client, limit, draw, coin, now, full, r);
    }
  }
}
