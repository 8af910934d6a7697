/** Exactly when each request succeeds, said of its arguments and of the rows alone. */
module RequestConditions {
  import opened Basics
  import opened Uuids
  import opened Tables
  import opened Directory
  import opened Database
  import opened Service
  import opened Auth
  import L = Authenticate
  import S = Sessions
  import C = Cleanup
  import P = Profiles
  import LP = LookupProgress
  import opened RequestLaws

  /** Written out, so that no statement here rests on how the requests themselves check the gate. */
  predicate GateIsOpen(gate: Option<Gate>)
  {
    gate.Some? && gate.value.phase == Open && gate.value.version in {1, 2}
  }

  // ---- how a transaction ends ----

  /** A caller is told a result only when COMMIT was confirmed, and then the tables hold its effect. A body that fails
      leaves nothing. Of a COMMIT that was not confirmed the caller learns only that. */
  lemma EndsExactly<T>(before: Db, now: Db, after: Db, body: Result<T, Error>, outcome: Outcome, r: Result<T, Error>)
    requires Ended(before, now, after, body, outcome, r)
    ensures r.Ok? ==> body == r && outcome == Confirmed && now == after
    ensures body.Err? ==> r == body && now == before
    ensures body.Ok? && outcome != Confirmed ==> r == Err(CommitUnknown) && now in {before, after}
    ensures body.Ok? && outcome == Confirmed ==> r == body && now == after
  {
  }

  // ---- tokens ----

  /** The row of a token that authorizes. */
  ghost predicate Current(env: Env, db: Db, h: Hash, client: string, at: nat)
  {
    && h in db.tokens && var row := db.tokens[h];
    && at < row.expires && (client == "" || client == row.client)
    && row.owner in db.users && env.allowed(db.users[row.owner].permission, db.users[row.owner].verified)
    && row.owner in db.subjects && db.subjects[row.owner] == row.generation
    && (row.identity.Some? ==> Bound(db, row.owner, row.identity.value))
  }

  /** An active row of a player of this account. */
  ghost predicate Bound(db: Db, owner: nat, i: nat)
  {
    && i in db.identities && db.identities[i].state == Active && db.identities[i].uuid.Some?
    && db.identities[i].player.Some? && db.identities[i].player.value in db.players
    && db.players[db.identities[i].player.value].owner == owner
  }

  lemma CurrentExactly(env: Env, db: Db, h: Hash, client: string, at: nat)
    requires IdentitiesOk(db.identities)
    ensures Authorize(env, db, h, client, at).Ok? <==> Current(env, db, h, client, at)
  {
    if Authorize(env, db, h, client, at).Ok? {
      AuthorizesExactly(env, db, h, client, at, Authorize(env, db, h, client, at).value);
    }
    if Current(env, db, h, client, at) {
      AuthorizesExactly(env, db, h, client, at, GrantOf(db, h));
    }
    hide Authorize, IdentitiesOk;
  }

  ghost function GrantOf(db: Db, h: Hash): Grant
    requires h in db.tokens
    requires db.tokens[h].identity.Some? ==> Bound(db, db.tokens[h].owner, db.tokens[h].identity.value)
  {
    var row := db.tokens[h];
    Grant(row.owner, row.generation, row.client,
          if row.identity.None? then None
          else
            var i := row.identity.value;
            var p := db.identities[i].player.value;
            Some(Identity(i, p, db.identities[i].uuid.value, db.players[p].name, row.owner)),
          row.expires)
  }

  /** Validate succeeds exactly with an open gate for a token that is current, and changes nothing. */
  lemma ValidatesExactly(env: Env, before: Db, after: Db, h: Hash, client: string, now: nat,
                         r: Result<TokenResult, Error>)
    requires IdentitiesOk(before.identities) && ValidateBody(env, before, after, h, client, now, r)
    ensures r.Ok? <==> GateIsOpen(before.gate) && Current(env, before, h, client, now)
    ensures after == before
    ensures r.Ok? ==> r.value.access == None && r.value.client == before.tokens[h].client
                      && r.value.owner == before.tokens[h].owner
  {
    CurrentExactly(env, before, h, client, now);
    if r.Ok? {
      AuthorizesExactly(env, before, h, client, now, Authorize(env, before, h, client, now).value);
    }
    hide Authorize, IdentitiesOk;
  }

  /** The selection a refresh may make: none, the identity the token has, or, for a token without one, an active row of
      the same account. */
  ghost predicate Selectable(db: Db, h: Hash, selected: string)
    requires h in db.tokens
  {
    var row := db.tokens[h];
    || selected == ""
    || exists i :: Bound(db, row.owner, i) && (row.identity.Some? ==> row.identity.value == i)
                   && (Lower(selected) == Format(db.identities[i].uuid.value)
                       || Lower(selected) == Dashed(db.identities[i].uuid.value))
  }

  /** Refresh succeeds exactly with an open gate, for a token that is current, a selection that is allowed, and one of
      three candidates that is new. */
  lemma RefreshesExactly(env: Env, before: Db, after: Db, h: Hash, client: string, selected: string, coin: Coin,
                         now: nat, r: Result<TokenResult, Error>)
    requires IdentitiesOk(before.identities)
    requires RefreshBody(env, before, after, h, client, selected, coin, now, r)
    ensures r.Ok? <==>
            && GateIsOpen(before.gate) && Current(env, before, h, client, now) && Selectable(before, h, selected)
            && (coin(0) !in before.tokens || coin(1) !in before.tokens || coin(2) !in before.tokens)
  {
    CurrentExactly(env, before, h, client, now);
    if Authorize(env, before, h, client, now).Ok? {
      var g := Authorize(env, before, h, client, now).value;
      AuthorizesExactly(env, before, h, client, now, g);
      SelectsExactly(before, h, g, selected);
    }
    hide Authorize, IdentitiesOk, Selected, Current, Selectable;
  }

  lemma SelectsExactly(db: Db, h: Hash, g: Grant, selected: string)
    requires IdentitiesOk(db.identities) && h in db.tokens && g.owner == db.tokens[h].owner
    requires match db.tokens[h].identity
             case None => g.identity == None
             case Some(i) => Bound(db, g.owner, i) && g.identity == GrantOf(db, h).identity
    ensures Selected(db, g, selected).Ok? <==> Selectable(db, h, selected)
  {
    hide Parse, Lower, Format, Dashed;
    forall u
      ensures Parse(selected) == Some(u) <==> Lower(selected) == Format(u) || Lower(selected) == Dashed(u)
    {
      ParseMeans(selected, u);
    }
    if Parse(selected).Some? && g.identity.None? {
      FindsForOwner(db, Parse(selected).value, g.owner);
      hide LookupUuid, IdentitiesOk;
    }
  }

  lemma FindsForOwner(db: Db, u: Uuid, owner: nat)
    requires IdentitiesOk(db.identities)
    ensures LookupUuid(db, u).Ok? && LookupUuid(db, u).value.owner == owner <==>
            exists i :: Bound(db, owner, i) && db.identities[i].uuid == Some(u)
  {
    if LookupUuid(db, u).Ok? {
      FindsUuidExactly(db, u, LookupUuid(db, u).value);
    }
    if i :| Bound(db, owner, i) && db.identities[i].uuid == Some(u) {
      var p := db.identities[i].player.value;
      FindsUuidExactly(db, u, Identity(i, p, u, db.players[p].name, owner));
    }
    hide LookupUuid, IdentitiesOk;
  }

  /** Signout succeeds exactly with an open gate, for a name that stands for an allowed account and that account's
      password. */
  lemma SignsOutExactly(env: Env, before: Db, after: Db, username: string, password: string, r: Result<(), Error>)
    requires SignoutBody(env, before, after, username, password, r)
    ensures r == Ok(()) <==>
            && GateIsOpen(before.gate) && username != "" && password != ""
            && exists uid :: StandsFor(env, before, username, uid) && uid in before.users
                             && env.allowed(before.users[uid].permission, before.users[uid].verified)
                             && env.verify(password, before.users[uid].password)
  {
    hide Credentials, StandsFor;
    forall uid
      ensures Credentials(env, before, username, password) == Ok(uid) <==>
              && username != "" && password != "" && StandsFor(env, before, username, uid) && uid in before.users
              && env.allowed(before.users[uid].permission, before.users[uid].verified)
              && env.verify(password, before.users[uid].password)
    {
      DesignatesExactly(env, before, username, password, uid);
    }
  }

  /** A login or a sign-out with a password that is not the account's answers Invalid, whatever becomes of its
      COMMIT, and leaves every table as it was. */
  lemma WrongPasswordLeavesTables(env: Env, before: Db, after: Db, now: Db, username: string, password: string,
                                  uid: nat, client: string, limit: int, draw: Draw, coin: Coin, at: nat,
                                  outcome: Outcome, login: Result<L.LoginResult, Error>,
                                  told: Result<L.LoginResult, Error>, signout: Result<(), Error>,
                                  said: Result<(), Error>)
    requires StandsFor(env, before, username, uid) && uid in before.users && limit > 0
    requires !env.verify(password, before.users[uid].password)
    ensures L.AuthenticateBody(env, before, after, username, password, client, limit, draw, coin, at, login) ==>
              (Ended(before, now, after, login, outcome, told) ==> told == Err(Invalid) && now == before)
    ensures SignoutBody(env, before, after, username, password, signout) ==>
              (Ended(before, now, after, signout, outcome, said) ==> said == Err(Invalid) && now == before)
  {
    WrongPasswordIsRefused(env, before, after, username, password, uid, client, limit, draw, coin, at, login, signout);
    hide StandsFor, L.AuthenticateBody, SignoutBody;
  }

  // ---- sessions ----

  /** An address without its zone, an IPv4-mapped one as its IPv4 address. */
  function Octets(ip: S.Address): seq<int>
  {
    if |ip.octets| == 16 && ip.octets[..12] == [0, 0, 0, 0, 0, 0, 0, 0, 0, 0, 255, 255] then ip.octets[12..]
    else ip.octets
  }

  /** Join succeeds exactly with an open gate, for a good server id and address, a current token that needs no client
      token and is bound to the profile, and a server id that nobody else holds. */
  lemma JoinsExactly(env: Env, before: Db, after: Db, h: Hash, selected: string, server: string, ip: S.Address,
                     now: nat, r: Result<(), Error>)
    requires IdentitiesOk(before.identities) && S.JoinBody(env, before, after, h, selected, server, ip, now, r)
    ensures r == Ok(()) <==>
            && GateIsOpen(before.gate) && 1 <= |server| <= 255
            && ip.zone == "" && |ip.octets| in {4, 16} && (forall o | o in ip.octets :: 0 <= o < 256)
            && Current(env, before, h, "", now) && before.tokens[h].identity.Some?
            && (var u := before.identities[before.tokens[h].identity.value].uuid.value;
                Lower(selected) == Format(u) || Lower(selected) == Dashed(u))
            && (server in before.sessions && now < before.sessions[server].expires ==>
                  before.sessions[server].hash == h && before.sessions[server].ip == Octets(ip))
  {
    CurrentExactly(env, before, h, "", now);
    assert forall i :: 0 <= i < |ip.octets| ==> ip.octets[i] in ip.octets;
    assert S.IsAddress(ip) <==> |ip.octets| in {4, 16} && forall o | o in ip.octets :: 0 <= o < 256;
    if Authorize(env, before, h, "", now).Ok? {
      var g := Authorize(env, before, h, "", now).value;
      AuthorizesExactly(env, before, h, "", now, g);
      if g.identity.Some? {
        ParseMeans(selected, g.identity.value.uuid);
      }
    }
    hide Authorize, IdentitiesOk, Parse, Lower, Format, Dashed, S.IsAddress;
  }

  // ---- lookups ----

  /** A lookup by identifier finds exactly what the text names, with an open gate. */
  lemma LooksUpExactly(db: Db, raw: string, x: Identity)
    requires IdentitiesOk(db.identities)
    ensures P.ByUuid(db, raw) == Ok(x) <==>
            && GateIsOpen(db.gate) && (Lower(raw) == Format(x.uuid) || Lower(raw) == Dashed(x.uuid))
            && x.id in db.identities && db.identities[x.id].state == Active
            && db.identities[x.id].uuid == Some(x.uuid) && db.identities[x.id].player == Some(x.player)
            && x.player in db.players && db.players[x.player] == Player(x.owner, x.name)
  {
    ParseMeans(raw, x.uuid);
    if Parse(raw).Some? {
      FindsUuidExactly(db, Parse(raw).value, x);
    }
    hide Parse, Lower, Format, Dashed, LookupUuid, IdentitiesOk;
  }

  /** A lookup by name succeeds exactly with an open gate, for a name that one player bears, which has an active row, or
      is newer than the migration, has no row, and finds one of its three candidates in no row. */
  lemma NamesExactly(env: Env, before: Db, after: Db, name: string, draw: Draw, r: Result<Identity, Error>)
    requires IdentitiesOk(before.identities) && P.ByNameBody(env, before, after, name, draw, r)
    ensures r.Ok? <==>
            && name != "" && GateIsOpen(before.gate)
            && exists pid :: pid in before.players
                 && (forall q | q in before.players ::
                       env.key(before.players[q].name) == env.key(name) <==> q == pid)
                 && Obtainable(before, pid, draw)
    ensures r.Ok? ==> r.value.player in before.players && Obtainable(before, r.value.player, draw)
                      && env.key(before.players[r.value.player].name) == env.key(name)
  {
    forall pid: nat
      ensures UniquePlayerName(env, before.players, name) == Ok(pid) <==>
              pid in before.players && forall q | q in before.players ::
                env.key(before.players[q].name) == env.key(name) <==> q == pid
    {
      AloneExactly(env, before.players, name, pid);
    }
    hide UniquePlayerName, IdentitiesOk;
    if name != "" && ServiceOpen(before.gate) && UniquePlayerName(env, before.players, name).Ok? {
      var pid := UniquePlayerName(env, before.players, name).value;
      ProvidesExactly(before, pid, draw);
      hide LP.Providable, Obtainable, ReadIdentity, Pick;
      ProvidedIff(before.identities, after.identities, pid, before.players[pid], Watermark(before), draw, r);
    }
    hide Provides, Obtainable;
  }

  /** The player has an active row, or can be given one. */
  ghost predicate Obtainable(db: Db, pid: nat, draw: Draw)
  {
    || (exists i :: i in db.identities && db.identities[i].player == Some(pid) && db.identities[i].state == Active
                    && db.identities[i].uuid.Some?)
    || (&& db.gate.Some? && pid > db.gate.value.watermark
        && (forall i | i in db.identities :: db.identities[i].player != Some(pid))
        && exists k :: k in {0, 1, 2} && forall i | i in db.identities :: db.identities[i].uuid != Some(draw(pid, k)))
  }

  lemma ProvidesExactly(db: Db, pid: nat, draw: Draw)
    requires IdentitiesOk(db.identities) && pid in db.players && db.gate.Some?
    ensures LP.Providable(db.identities, pid, db.players[pid], Watermark(db), draw) <==> Obtainable(db, pid, draw)
  {
    ReadsExactly(db.identities, pid, db.players[pid]);
    SomeIsFree(db.identities, draw, pid);
    hide ReadIdentity, IdentitiesOk, Pick;
  }

  lemma ProvidedIff(before: map<nat, IdRow>, after: map<nat, IdRow>, pid: nat, player: Player, watermark: nat,
                    draw: Draw, r: Result<Identity, Error>)
    requires Provides(before, after, player, pid, watermark, draw, r)
    ensures r.Ok? <==> LP.Providable(before, pid, player, watermark, draw)
    ensures r.Ok? ==> r.value.player == pid
  {
    hide Pick;
  }

  /** A lookup of many names succeeds exactly with an open gate and at most ten names; each name is answered or passed
      over. */
  lemma BatchesExactly(env: Env, before: Db, after: Db, names: seq<string>, draw: Draw,
                       r: Result<seq<Identity>, Error>)
    requires P.BatchBody(env, before, after, names, draw, r)
    ensures r.Ok? <==> |names| <= 10 && GateIsOpen(before.gate)
    ensures r.Ok? ==> after == before.(identities := after.identities)
  {
    hide P.Batch, P.Designated, P.Attended;
  }

  /** What a name is found as. */
  ghost predicate FoundAs(env: Env, db: Db, watermark: nat, name: string, pid: nat)
  {
    LookupName(env, db, watermark, name).Ok? && LookupName(env, db, watermark, name).value.player == pid
  }

  /** Each answer of a batch comes before another exactly as the first name that finds it comes before every name that
      finds the other. */
  ghost predicate InOrder(env: Env, db: Db, watermark: nat, names: seq<string>, b: seq<Identity>, i: nat, j: nat)
    requires i < j < |b|
  {
    exists k :: 0 <= k < |names| && FoundAs(env, db, watermark, names[k], b[i].player)
                && forall n :: 0 <= n <= k ==> !FoundAs(env, db, watermark, names[n], b[j].player)
  }

  lemma {:induction false} AnswersAreInOrder(env: Env, db: Db, watermark: nat, names: seq<string>)
    ensures var b := P.Batch(env, db, watermark, names);
            forall i, j :: 0 <= i < j < |b| ==> InOrder(env, db, watermark, names, b, i, j)
    decreases |names|
  {
    hide LookupName;
    var b := P.Batch(env, db, watermark, names);
    if names != [] {
      var last := |names| - 1;
      var earlier := P.Batch(env, db, watermark, names[..last]);
      AnswersAreInOrder(env, db, watermark, names[..last]);
      P.BatchMeans(env, db, watermark, names, last);
      forall i, j | 0 <= i < j < |b|
        ensures InOrder(env, db, watermark, names, b, i, j)
      {
        if j < |earlier| {
          assert b[i] == earlier[i] && b[j] == earlier[j];
          KeptInOrder(env, db, watermark, names, earlier, b, i, j);
        } else {
          LastInOrder(env, db, watermark, names, last, earlier, b, i, j);
        }
      }
    }
  }

  lemma KeptInOrder(env: Env, db: Db, watermark: nat, names: seq<string>, earlier: seq<Identity>, b: seq<Identity>,
                    i: nat, j: nat)
    requires names != [] && i < j < |earlier| && j < |b| && b[i] == earlier[i] && b[j] == earlier[j]
    requires InOrder(env, db, watermark, names[..|names| - 1], earlier, i, j)
    ensures InOrder(env, db, watermark, names, b, i, j)
  {
    hide FoundAs;
    var front := names[..|names| - 1];
    var k :| 0 <= k < |front| && FoundAs(env, db, watermark, front[k], b[i].player)
        && forall n :: 0 <= n <= k ==> !FoundAs(env, db, watermark, front[n], b[j].player);
    assert forall n :: 0 <= n <= k ==> front[n] == names[n];
  }

  lemma LastInOrder(env: Env, db: Db, watermark: nat, names: seq<string>, last: nat, earlier: seq<Identity>,
                    b: seq<Identity>, i: nat, j: nat)
    requires |names| == last + 1 && i < j < |b| && j == |earlier| && b == P.Batch(env, db, watermark, names)
    requires earlier == P.Batch(env, db, watermark, names[..last])
    requires P.Answers(env, db, watermark, names, last, earlier)
    ensures InOrder(env, db, watermark, names, b, i, j)
  {
    hide LookupName;
    var r := LookupName(env, db, watermark, names[last]);
    assert b == earlier + [r.value] && !exists y :: y in earlier && y.player == r.value.player;
    assert b[i] == earlier[i] && b[i] in earlier;
    assert P.Given(env, db, watermark, names, last, b[i]);
    var k :| 0 <= k < last && LookupName(env, db, watermark, names[k]) == Ok(b[i]);
    assert FoundAs(env, db, watermark, names[k], b[i].player);
    forall n | 0 <= n <= k
      ensures !FoundAs(env, db, watermark, names[n], b[j].player)
    {
      assert P.Heeded(LookupName(env, db, watermark, names[n]), earlier);
    }
  }

  // ---- cleanup ----

  /** Cleanup succeeds exactly with an open gate and a batch of 1 to 10000. */
  lemma CleansExactly(before: Db, after: Db, batch: int, now: nat, r: Result<C.Removed, Error>)
    requires C.CleanupBody(before, after, batch, now, r)
    ensures r.Ok? <==> 1 <= batch <= 10_000 && GateIsOpen(before.gate)
  {
    hide C.TokensDue, C.SessionsDue;
  }
}
