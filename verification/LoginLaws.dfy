/** What a login leaves and answers, said of the rows: the one token it adds, those it removes, the profiles, and
    which of them the token carries. */
module LoginLaws {
  import opened Basics
  import opened Sorting
  import opened Tables
  import opened Directory
  import opened Service
  import opened AccountProfiles
  import opened Auth
  import opened Authenticate
  import LoginProgress
  import opened RequestLaws

  // ---- the token ----

  /** The row counts against the account's quota. */
  predicate Counts(row: Token, uid: nat, generation: nat, now: nat)
  {
    row.owner == uid && row.generation == generation && now < row.expires
  }

  /** A login adds one row, under a hash that was in none: the account's, of its present generation (the first, if
      it had none), for the client token, with the chosen identity, for the lifetime of a token. Everything else
      stays, except rows of new players and the tokens that make way. Those were counting, were created before
      every counting one that stays (or at the same time, with a smaller hash), and are exactly as many as the
      limit demands. */
  lemma LoginLeavesRows(env: Env, before: Db, after: Db, username: string, password: string, client: string, limit: int,
                        draw: Draw, coin: Coin, now: nat, x: LoginResult)
    requires env.ttl > 0
    requires AuthenticateBody(env, before, after, username, password, client, limit, draw, coin, now, Ok(x))
    ensures x.token.access.Some?
    ensures var h, uid := x.token.access.value, x.token.owner;
            var g := if uid in before.subjects then before.subjects[uid] else 1;
            && h in {coin(0), coin(1), coin(2)} && h !in before.tokens && h in after.tokens
            && after == before.(subjects := before.subjects[uid := g], identities := after.identities,
                                tokens := after.tokens)
            && after.tokens[h] == Token(uid, g, if x.token.identity.Some? then Some(x.token.identity.value.id)
                                          else None,
                                        client, now, now + env.ttl, 0)
            && x.token.client == client
            && (forall k | k in after.tokens && k != h :: k in before.tokens && after.tokens[k] == before.tokens[k])
            && (forall k | k in before.tokens && k !in after.tokens :: Counts(before.tokens[k], uid, g, now))
            && (forall k, m | k in before.tokens && k !in after.tokens && m in after.tokens && m != h
                              && Counts(after.tokens[m], uid, g, now) ::
                  || before.tokens[k].created < after.tokens[m].created
                  || (before.tokens[k].created == after.tokens[m].created && k < m))
            && var earlier := set k | k in before.tokens && Counts(before.tokens[k], uid, g, now);
               var later := set k | k in after.tokens && Counts(after.tokens[k], uid, g, now);
               h in later && |later| == (if |earlier| < limit then |earlier| + 1 else limit)
  {
    hide LoginEnds, Credentials, AuthenticateBody, Gathered, Chooses, IsEviction, Live, NextHash, Owned, Older;
    var uid := BodyEnds(env, before, after, username, password, client, limit, draw, coin, now, x);
    var pids, victims := LoginEnded(env, before, after, uid, username, client, limit, draw, coin, now, x);
    var g := FirstGeneration(before.subjects, uid)[uid];
    CandidateIs(before.tokens, coin);
    LoginLeavesNewest(env, before, after, uid, username, client, limit, draw, coin, now, x);
    LiveIs(before.tokens, uid, g, now);
    LiveIs(after.tokens, uid, g, now);
    EvictedAre(before.tokens, uid, g, limit, now, victims);
  }

  lemma CandidateIs(tokens: map<Hash, Token>, coin: Coin)
    ensures NextHash(tokens, None, coin).Some? ==>
              NextHash(tokens, None, coin).value in {coin(0), coin(1), coin(2)}
              && NextHash(tokens, None, coin).value !in tokens
    ensures NextHash(tokens, None, coin).Some? <==> coin(0) !in tokens || coin(1) !in tokens || coin(2) !in tokens
  {
  }

  lemma LiveIs(tokens: map<Hash, Token>, uid: nat, g: nat, now: nat)
    ensures Live(tokens, uid, g, now) == set k | k in tokens && Counts(tokens[k], uid, g, now)
  {
  }

  lemma EvictedAre(tokens: map<Hash, Token>, uid: nat, g: nat, limit: nat, now: nat, victims: set<Hash>)
    requires limit > 0 && IsEviction(tokens, Live(tokens, uid, g, now), limit, victims)
    ensures forall k | k in victims :: k in tokens && Counts(tokens[k], uid, g, now)
    ensures forall k, m | k in victims && m in tokens && m !in victims && Counts(tokens[m], uid, g, now) ::
              || tokens[k].created < tokens[m].created
              || (tokens[k].created == tokens[m].created && k < m)
  {
    var live := Live(tokens, uid, g, now);
    forall m | m in tokens && m !in victims && Counts(tokens[m], uid, g, now)
      ensures m in live - victims
    {
    }
  }

  // ---- the profiles ----

  /** The profiles a login answers are the active rows of the account's players after it, in the order of the players.
      Every player of the account that is newer than the migration has a row then. */
  lemma ProfilesInRows(env: Env, before: Db, after: Db, username: string, password: string, client: string, limit: int,
                       draw: Draw, coin: Coin, now: nat, x: LoginResult)
    requires IdentitiesOk(before.identities) && IdentitiesOk(after.identities) && before.gate.Some?
    requires AuthenticateBody(env, before, after, username, password, client, limit, draw, coin, now, Ok(x))
    ensures forall i, j :: 0 <= i < j < |x.profiles| ==> x.profiles[i].player < x.profiles[j].player
    ensures forall y :: y in x.profiles <==>
              && y.owner == x.token.owner && y.player in before.players
              && before.players[y.player] == Player(x.token.owner, y.name)
              && y.id in after.identities && after.identities[y.id].state == Active
              && after.identities[y.id].player == Some(y.player) && after.identities[y.id].uuid == Some(y.uuid)
    ensures forall p | p in before.players && before.players[p].owner == x.token.owner
                       && p > before.gate.value.watermark ::
              exists i :: i in after.identities && after.identities[i].player == Some(p)
  {
    hide LoginEnds, Credentials, AuthenticateBody, Chooses, IsEviction, Live, NextHash, IdentitiesOk, IssuedRow;
    var uid := BodyEnds(env, before, after, username, password, client, limit, draw, coin, now, x);
    var pids, victims := LoginEnded(env, before, after, uid, username, client, limit, draw, coin, now, x);
    hide Allotted, Gave, Grown, ReadIdentity, LoginDone;
    assert x.token.owner == uid && x.profiles == Profiles(after.identities, before.players, pids) by {
      DoneProfiles(env, before, after, uid, username, client, limit, draw, coin, now, x, pids, victims);
    }
    DoneProfiles(env, before, after, uid, username, client, limit, draw, coin, now, x, pids, victims);
    ProfilesAscend(after.identities, before.players, pids);
    forall y: Identity
      ensures y in x.profiles <==>
              && y.owner == uid && y.player in before.players && before.players[y.player] == Player(uid, y.name)
              && y.id in after.identities && after.identities[y.id].state == Active
              && after.identities[y.id].player == Some(y.player) && after.identities[y.id].uuid == Some(y.uuid)
    {
      ProfileExactly(after.identities, before.players, uid, pids, y);
    }
    forall p | p in before.players && before.players[p].owner == uid && p > before.gate.value.watermark
      ensures exists i :: i in after.identities && after.identities[i].player == Some(p)
    {
      ReadsExactly(after.identities, p, before.players[p]);
      assert p in pids;
    }
  }

  lemma DoneProfiles(env: Env, before: Db, after: Db, uid: nat, username: string, client: string, limit: nat,
                     draw: Draw, coin: Coin, now: nat, x: LoginResult, pids: seq<nat>, victims: set<Hash>)
    requires LoginDone(env, before, after, uid, username, client, limit, draw, coin, now, x, pids, victims)
    ensures Owned(before.players, uid, pids) && (forall p | p in pids :: p in before.players)
    ensures x.token.owner == uid && x.profiles == Profiles(after.identities, before.players, pids)
    ensures Served(after.identities, before.players, Watermark(before), pids)
  {
    hide Allotted, Gave, Grown, ReadIdentity, Chooses, IsEviction, Live, NextHash, IssuedRow;
  }

  lemma {:induction false} ProfilesAscend(ids: map<nat, IdRow>, players: map<nat, Player>, pids: seq<nat>)
    requires forall p | p in pids :: p in players
    requires forall i, j :: 0 <= i < j < |pids| ==> pids[i] < pids[j]
    ensures forall i, j :: 0 <= i < j < |Profiles(ids, players, pids)| ==>
              Profiles(ids, players, pids)[i].player < Profiles(ids, players, pids)[j].player
    ensures forall y | y in Profiles(ids, players, pids) :: y.player in pids
    decreases |pids|
  {
    if pids != [] {
      var n := |pids| - 1;
      ProfilesAscend(ids, players, pids[..n]);
      if ReadIdentity(ids, pids[n], players[pids[n]]).Ok? {
        LoginProgress.ReadGives(ids, pids[n], players[pids[n]]);
      }
      assert forall p | p in pids[..n] :: p in pids && p < pids[n];
      hide ReadIdentity;
    }
  }

  lemma ProfileExactly(ids: map<nat, IdRow>, players: map<nat, Player>, uid: nat, pids: seq<nat>, y: Identity)
    requires IdentitiesOk(ids) && Owned(players, uid, pids) && forall p | p in pids :: p in players
    ensures y in Profiles(ids, players, pids) <==>
            && y.owner == uid && y.player in players && players[y.player] == Player(uid, y.name)
            && y.id in ids && ids[y.id].state == Active && ids[y.id].player == Some(y.player)
            && ids[y.id].uuid == Some(y.uuid)
  {
    ProfilesExist(ids, players, pids);
    hide IdentitiesOk, ReadIdentity, Profiles;
    if y.player in players {
      ReadIdentityIff(ids, y.player, players[y.player], y);
      if ReadIdentity(ids, y.player, players[y.player]) == Ok(y) && y.owner == uid {
        assert y.player in pids;
        LoginProgress.ReadIsProfile(ids, players, pids, y.player);
      }
    }
  }

  /** With an e-mail address the token carries the account's only profile, or none; with a player name it carries the
      profile of the only player so named. */
  lemma ChoiceInRows(env: Env, before: Db, after: Db, username: string, password: string, client: string, limit: int,
                     draw: Draw, coin: Coin, now: nat, x: LoginResult)
    requires AuthenticateBody(env, before, after, username, password, client, limit, draw, coin, now, Ok(x))
    ensures '@' in username ==> x.token.identity == if |x.profiles| == 1 then Some(x.profiles[0]) else None
    ensures '@' !in username ==>
              && x.token.identity.Some? && x.token.identity.value in x.profiles
              && forall q | q in before.players ::
                   env.key(before.players[q].name) == env.key(username) <==> q == x.token.identity.value.player
  {
    hide LoginEnds, Credentials, AuthenticateBody, Gathered, IsEviction, Live, NextHash, Owned, IssuedRow;
    var uid := BodyEnds(env, before, after, username, password, client, limit, draw, coin, now, x);
    var pids, victims := LoginEnded(env, before, after, uid, username, client, limit, draw, coin, now, x);
    if '@' !in username {
      AloneExactly(env, before.players, username, x.token.identity.value.player);
    }
    hide UniquePlayerName;
  }

  // ---- when a login succeeds ----

  /** A login succeeds exactly with a positive limit, an open gate, a name that stands for an allowed account, that
      account's password, and if its new players, its token and its choice of a profile can be provided for. */
  lemma LogsInExactly(env: Env, before: Db, after: Db, username: string, password: string, client: string, limit: int,
                      draw: Draw, coin: Coin, now: nat, r: Result<LoginResult, Error>)
    requires IdentitiesOk(before.identities) && IdentitiesOk(after.identities)
    requires AuthenticateBody(env, before, after, username, password, client, limit, draw, coin, now, r)
    ensures r.Ok? <==>
            && limit > 0 && username != "" && password != ""
            && before.gate.Some? && before.gate.value.phase == Open && before.gate.value.version in {1, 2}
            && exists uid, pids :: StandsFor(env, before, username, uid) && uid in before.users
                 && env.allowed(before.users[uid].permission, before.users[uid].verified)
                 && env.verify(password, before.users[uid].password)
                 && LoginProgress.CanLogIn(env, before, uid, username, LoginProgress.Inputs(draw, coin, pids))
  {
    hide LoginEnds, Credentials, StandsFor, LoginProgress.CanLogIn, IdentitiesOk;
    forall uid
      ensures Credentials(env, before, username, password) == Ok(uid) <==>
              && username != "" && password != "" && StandsFor(env, before, username, uid) && uid in before.users
              && env.allowed(before.users[uid].permission, before.users[uid].verified)
              && env.verify(password, before.users[uid].password)
    {
      DesignatesExactly(env, before, username, password, uid);
    }
    if limit > 0 && Credentials(env, before, username, password).Ok? && ServiceOpen(before.gate) {
      var uid := Credentials(env, before, username, password).value;
      if r.Ok? {
        var pids := LoginProgress.LoginNeeds(env, before, after, uid, username, client, limit, draw, coin, now,
                                             r.value);
      }
      forall pids | LoginProgress.CanLogIn(env, before, uid, username, LoginProgress.Inputs(draw, coin, pids))
        ensures r.Ok?
      {
        LoginSuffices(env, before, after, uid, username, client, limit, draw, coin, now, r, pids);
      }
    }
  }

  lemma LoginSuffices(env: Env, before: Db, after: Db, uid: nat, username: string, client: string, limit: nat,
                      draw: Draw, coin: Coin, now: nat, r: Result<LoginResult, Error>, pids: seq<nat>)
    requires IdentitiesOk(before.identities)
    requires LoginEnds(env, before, after, uid, username, client, limit, draw, coin, now, r)
    requires LoginProgress.CanLogIn(env, before, uid, username, LoginProgress.Inputs(draw, coin, pids))
    ensures r.Ok?
  {
    hide Allotted, Gathered, Chooses, IdentitiesOk, NextHash, LoginProgress.Offers, Live, IsEviction, UniquePlayerName;
    var mine :| Owned(before.players, uid, mine) && (forall p | p in mine :: p in before.players)
        && LoginWith(env, before, after, uid, username, client, limit, draw, coin, now, mine, r);
    OwnedOnce(before.players, uid, pids, mine);
    var ids, profiles, c :| Ends(env, before, after, uid, username, client, limit, draw, coin, now, mine, ids,
                                 profiles, c, r);
    ChoiceSucceeds(env, before, uid, username, LoginProgress.Inputs(draw, coin, mine), ids, profiles, c);
    hide LoginProgress.CanLogIn;
  }

  lemma ChoiceSucceeds(env: Env, before: Db, uid: nat, username: string, x: LoginProgress.Inputs, ids: map<nat, IdRow>,
                       profiles: seq<Identity>, c: Result<Option<Identity>, Error>)
    requires IdentitiesOk(before.identities) && LoginProgress.CanLogIn(env, before, uid, username, x)
    requires forall p | p in x.pids :: p in before.players
    requires Gathered(before.identities, ids, before.players, Watermark(before), x.draw, x.pids, profiles)
    requires Chooses(env, before.players, uid, username, profiles, c)
    ensures c.Ok?
  {
    hide Allotted, Gave, IdentitiesOk, NextHash, UniquePlayerName, ReadIdentity, LoginProgress.Offers, Grown, Profiles;
    if '@' !in username {
      var pid := UniquePlayerName(env, before.players, username).value;
      assert Grown(before.identities, ids, Watermark(before), x.pids);
      assert Served(ids, before.players, Watermark(before), x.pids) && pid in x.pids;
      OfferedIsRead(before.identities, ids, Watermark(before), x.pids, pid, before.players[pid]);
      LoginProgress.ReadIsProfile(ids, before.players, x.pids, pid);
      LoginProgress.ReadGives(ids, pid, before.players[pid]);
      assert ReadIdentity(ids, pid, before.players[pid]).value in profiles;
    }
  }

  /** What was offered is read once new players have been served. */
  lemma OfferedIsRead(before: map<nat, IdRow>, after: map<nat, IdRow>, watermark: nat, pids: seq<nat>, pid: nat,
                      player: Player)
    requires IdentitiesOk(before) && Grown(before, after, watermark, pids)
    requires LoginProgress.Offers(before, pid, player, watermark)
    requires pid > watermark ==> ReadIdentity(after, pid, player) != Err(NotFound)
    ensures ReadIdentity(after, pid, player).Ok?
  {
    var a, b := RowOf(before, pid), RowOf(after, pid);
    if a.Some? {
      assert after[a.value].player == Some(pid);
      assert b.value in before && a.value != b.value ==> Conflict(before[a.value], before[b.value]);
    }
  }

  lemma OwnedOnce(players: map<nat, Player>, uid: nat, a: seq<nat>, b: seq<nat>)
    requires Owned(players, uid, a) && Owned(players, uid, b)
    ensures a == b
  {
    DistinctMultiset(a);
    DistinctMultiset(b);
    assert Elements(a) == Elements(b);
    var less := (p: nat, q: nat) => p < q;
    OrderedUnique(less, a, b);
  }
}
