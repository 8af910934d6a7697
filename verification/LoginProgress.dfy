/** A login that runs alone, statement by statement, succeeds under exactly the conditions under which the transaction
    of module Authenticate does, and leaves the same tables. */
module LoginProgress {
  import opened Basics
  import opened Uuids
  import opened Tables
  import opened Directory
  import S = Service
  import Auth
  import opened AccountProfiles
  import L = Authenticate
  import opened Machine
  import opened MachineProgress

  // ---- the choices a login needs exist ----

  lemma {:induction false} Highest(keys: set<nat>) returns (top: nat)
    requires keys != {}
    ensures top in keys && forall k | k in keys :: k <= top
    decreases keys
  {
    var k :| k in keys;
    if keys == {k} {
      top := k;
    } else {
      assert keys == keys - {k} + {k};
      top := Highest(keys - {k});
      top := if top < k then k else top;
    }
  }

  lemma {:induction false} OldestExists(tokens: map<Hash, Token>, live: set<Hash>) returns (oldest: Hash)
    requires live != {} && live <= tokens.Keys
    ensures oldest in live && forall h | h in live && h != oldest :: Older(tokens, oldest, h)
    decreases live
  {
    var h :| h in live;
    if live == {h} {
      oldest := h;
    } else {
      assert live == live - {h} + {h};
      oldest := OldestExists(tokens, live - {h});
      oldest := if Older(tokens, h, oldest) then h else oldest;
    }
  }

  /** There is always a set of victims; EvictionUnique says there is only one. */
  lemma {:induction false} EvictionExists(tokens: map<Hash, Token>, live: set<Hash>, limit: nat)
    returns (victims: set<Hash>)
    requires live <= tokens.Keys && limit > 0
    ensures IsEviction(tokens, live, limit, victims)
    decreases live
  {
    if |live| < limit {
      victims := {};
      assert live - {} == live;
    } else {
      var oldest := OldestExists(tokens, live);
      var rest := EvictionExists(tokens, live - {oldest}, limit);
      victims := rest + {oldest};
      assert live - victims == live - {oldest} - rest;
    }
  }

  // ---- when a login can succeed ----

  /** What is drawn at random, and the account's players in order. */
  datatype Inputs = Inputs(draw: S.Draw, coin: Auth.Coin, pids: seq<nat>)

  /** A player that has an identity, or gets one at login. */
  ghost predicate Offers(ids: map<nat, IdRow>, pid: nat, player: Player, watermark: nat)
  {
    ReadIdentity(ids, pid, player).Ok? || (ReadIdentity(ids, pid, player) == Err(NotFound) && pid > watermark)
  }

  /** Every new player of the account finds one of its three candidates free, so does the token, and a player that is
      named has a profile. */
  ghost predicate CanLogIn(env: Env, db: Db, uid: nat, username: string, x: Inputs)
  {
    && Owned(db.players, uid, x.pids) && (forall p | p in x.pids :: p in db.players)
    && Allotted(db.identities, db.players, S.Watermark(db), x.draw, x.pids).Some?
    && Auth.NextHash(db.tokens, None, x.coin).Some?
    && ('@' !in username ==>
          && UniquePlayerName(env, db.players, username).Ok?
          && var pid := UniquePlayerName(env, db.players, username).value;
          && pid in x.pids && Offers(db.identities, pid, db.players[pid], S.Watermark(db)))
  }

  /** A transaction that succeeds met these conditions. */
  lemma LoginNeeds(env: Env, before: Db, after: Db, uid: nat, username: string, client: string, limit: nat,
                   draw: S.Draw, coin: Auth.Coin, now: nat, r: L.LoginResult) returns (pids: seq<nat>)
    requires L.LoginEnds(env, before, after, uid, username, client, limit, draw, coin, now, Ok(r))
    requires IdentitiesOk(before.identities) && IdentitiesOk(after.identities)
    ensures CanLogIn(env, before, uid, username, Inputs(draw, coin, pids))
  {
    hide IdentitiesOk, Allotted, Gave, IsEviction, Live, Auth.NextHash, Auth.IssuedRow, L.LoginEnds, Grown, Served,
      ReadIdentity, UniquePlayerName;
    ghost var victims;
    pids, victims := L.LoginEnded(env, before, after, uid, username, client, limit, draw, coin, now, r);
    if '@' !in username {
      var pid := UniquePlayerName(env, before.players, username).value;
      L.ProfilesExist(after.identities, before.players, pids);
      OfferedBefore(before.identities, after.identities, S.Watermark(before), pids, pid, before.players[pid]);
    }
  }

  lemma OfferedBefore(before: map<nat, IdRow>, after: map<nat, IdRow>, watermark: nat, pids: seq<nat>, pid: nat,
                      player: Player)
    requires IdentitiesOk(before) && IdentitiesOk(after) && Grown(before, after, watermark, pids)
    requires ReadIdentity(after, pid, player).Ok?
    ensures Offers(before, pid, player, watermark)
  {
    var a, b := RowOf(before, pid), RowOf(after, pid);
    if a.Some? {
      assert after[a.value].player == Some(pid);
      assert a.value != b.value ==> Conflict(after[a.value], after[b.value]);
    }
  }

  // ---- on the way ----

  /** The token row without its number. */
  function Row(cfg: Config, s: State, v: LoginVars): Token
  {
    Auth.IssuedRow(cfg.env, v.cred.uid, v.gen, v.chosen, v.client, s.now)
  }

  /** What is known of the profile loop: the players before `todo` have been dealt with as the transaction would. */
  ghost predicate Gathering(cfg: Config, db: Db, x: Inputs, txn: Txn)
    requires txn.prog.Login?
  {
    var v, ids := txn.prog.login, ViewIds(db, txn.writes);
    && |v.todo| <= |x.pids| && v.todo == x.pids[|x.pids| - |v.todo|..] && IdentitiesOk(ids)
    && Gathered(db.identities, ids, db.players, cfg.watermark, x.draw, x.pids[..|x.pids| - |v.todo|], v.profiles)
  }

  /** The player at the front is being given an identity; the candidates tried were taken. */
  ghost predicate Drawing(cfg: Config, db: Db, x: Inputs, txn: Txn)
    requires txn.prog.Login?
  {
    var v, ids := txn.prog.login, ViewIds(db, txn.writes);
    && v.todo != [] && v.tries < 3 && v.todo[0] in db.players && v.todo[0] > cfg.watermark
    && ReadIdentity(ids, v.todo[0], db.players[v.todo[0]]) == Err(NotFound)
    && forall k :: 0 <= k < v.tries ==> !S.Free(ids, x.draw(v.todo[0], k))
  }

  /** What is pending besides identities. */
  ghost predicate Pending(cfg: Config, s: State, x: Inputs, txn: Txn, victims: set<Hash>)
    requires txn.prog.Login? && Auth.NextHash(s.db.tokens, None, x.coin).Some?
  {
    var v, w := txn.prog.login, txn.writes;
    && w.users == map[] && w.players == map[] && w.sessions == map[]
    && s.db.subjects + w.subjects
       == (if v.pc < 3 then s.db.subjects else L.FirstGeneration(s.db.subjects, v.cred.uid))
    && w.issue == (if v.pc < 10 then None else
                   Some(Issue(Auth.NextHash(s.db.tokens, None, x.coin).value, Row(cfg, s, v), None)))
    && w.kills == (if v.pc < 11 then {} else victims)
  }

  /** What is known on the way, without interference. */
  ghost predicate Underway(cfg: Config, s: State, v0: LoginVars, x: Inputs, victims: set<Hash>, txn: Txn)
  {
    && txn.at == s.now && txn.prog.Login? && (forall p | p in x.pids :: p in s.db.players)
    && Auth.NextHash(s.db.tokens, None, x.coin).Some?
    && Pending(cfg, s, x, txn, victims)
    && var v := txn.prog.login;
    && v.cred == v0.cred && v.client == v0.client && v.limit == v0.limit && v.pc <= 11
    && (v.pc < 6 ==> v.profiles == [] && txn.writes.identities == map[])
    && (v.pc >= 4 ==> v.gen == L.FirstGeneration(s.db.subjects, v.cred.uid)[v.cred.uid])
    && (v.pc >= 5 ==> v.victims == victims)
    && (v.pc >= 6 ==> Gathering(cfg, s.db, x, txn))
    && (v.pc == 7 ==> Drawing(cfg, s.db, x, txn))
    && (v.pc >= 8 ==> v.todo == [])
    && (v.pc >= 9 ==> L.Chooses(cfg.env, s.db.players, v.cred.uid, v.cred.username, v.profiles, Ok(v.chosen)))
    && (v.pc == 9 ==> v.tries < 3 && forall k :: 0 <= k < v.tries ==> x.coin(k) in s.db.tokens)
  }

  /** The choices of the next statement: the candidate whose turn it is, and an unused row id. */
  ghost predicate Fitting(cfg: Config, s: State, x: Inputs, victims: set<Hash>, txn: Txn, ch: Choice)
    requires txn.prog.Login?
  {
    var v := txn.prog.login;
    && ch.at == s.now && ch.hashes == victims && ch.pids == x.pids && ch.id !in ViewIds(s.db, txn.writes)
    && (v.todo != [] ==> ch.uuid == x.draw(v.todo[0], v.tries)) && ch.hash == x.coin(v.tries)
  }

  /** The victims are what the transaction would evict. */
  ghost predicate Evicts(s: State, v: LoginVars, victims: set<Hash>)
  {
    var uid := v.cred.uid;
    var live := Live(s.db.tokens, uid, L.FirstGeneration(s.db.subjects, uid)[uid], s.now);
    live <= s.db.tokens.Keys && IsEviction(s.db.tokens, live, v.limit, victims)
  }

  // ---- the statements ----

  /** The statements that only lock and count. */
  lemma LoginStarts(cfg: Config, s: State, v0: LoginVars, x: Inputs, victims: set<Hash>, txn: Txn, ch: Choice)
    requires Underway(cfg, s, v0, x, victims, txn) && txn.prog.login.pc < 5 && Fitting(cfg, s, x, victims, txn, ch)
    requires AccountHolds(cfg.env, s.db, v0.cred) && LoginOwner(cfg.env, s.db, v0.cred.username) == Ok(v0.cred.uid)
    requires Evicts(s, v0, victims)
    ensures Advance(cfg, s.db, s.now, txn, ch).Some?
    ensures var next := Advance(cfg, s.db, s.now, txn, ch).value.(at := s.now);
            Underway(cfg, s, v0, x, victims, next) && next.prog.login.pc == txn.prog.login.pc + 1
  {
    hide LoginOwner, IsEviction, Gathering, Drawing, L.Chooses, Auth.NextHash, AccountHolds;
  }

  lemma LoginLists(cfg: Config, s: State, v0: LoginVars, x: Inputs, victims: set<Hash>, txn: Txn, ch: Choice)
    requires Underway(cfg, s, v0, x, victims, txn) && txn.prog.login.pc == 5 && Fitting(cfg, s, x, victims, txn, ch)
    requires Owned(s.db.players, v0.cred.uid, x.pids) && IdentitiesOk(s.db.identities)
    ensures Advance(cfg, s.db, s.now, txn, ch).Some?
    ensures var next := Advance(cfg, s.db, s.now, txn, ch).value.(at := s.now);
            && Underway(cfg, s, v0, x, victims, next) && next.prog.login.pc == 6 && next.prog.login.todo == x.pids
  {
    hide Drawing, L.Chooses, Auth.NextHash, IdentitiesOk, Gathered;
    assert ViewIds(s.db, txn.writes) == s.db.identities;
    NothingGathered(s.db.identities, s.db.players, cfg.watermark, x.draw, x.pids[..0]);
  }

  /** One player further, as the transaction's turn says. */
  lemma GathersOne(cfg: Config, db: Db, x: Inputs, txn: Txn, next: Txn, r: Option<Identity>)
    requires txn.prog.Login? && Gathering(cfg, db, x, txn) && txn.prog.login.todo != []
    requires IdentitiesOk(db.identities) && IdentitiesOk(ViewIds(db, next.writes)) && next.prog.Login?
    requires forall p | p in x.pids :: p in db.players
    requires forall i, j :: 0 <= i < j < |x.pids| ==> x.pids[i] < x.pids[j]
    requires var v, v' := txn.prog.login, next.prog.login;
             && v'.todo == v.todo[1..]
             && v'.profiles == (if r.Some? then v.profiles + [r.value] else v.profiles)
             && Turn(ViewIds(db, txn.writes), ViewIds(db, next.writes), db.players[v.todo[0]], v.todo[0], cfg.watermark,
                     x.draw, Ok(r))
    ensures Gathering(cfg, db, x, next)
  {
    hide IdentitiesOk, Turn, Gathered, ViewIds;
    var n := |x.pids| - |txn.prog.login.todo|;
    assert x.pids[..n + 1] == x.pids[..n] + [x.pids[n]] && x.pids[n] !in x.pids[..n];
    GatheredOneMore(db.identities, ViewIds(db, txn.writes), ViewIds(db, next.writes), db.players, cfg.watermark,
                    x.draw, x.pids[..n], txn.prog.login.profiles, x.pids[n], Ok(r));
  }

  /** Reading one player. */
  lemma ReadsOne(cfg: Config, s: State, x: Inputs, txn: Txn, ch: Choice)
    requires txn.prog.Login? && txn.prog.login.pc == 6 && txn.prog.login.todo != [] && Gathering(cfg, s.db, x, txn)
    requires IdentitiesOk(s.db.identities) && (forall p | p in x.pids :: p in s.db.players)
    requires forall i, j :: 0 <= i < j < |x.pids| ==> x.pids[i] < x.pids[j]
    ensures Advance(cfg, s.db, s.now, txn, ch).Some?
    ensures var v, next := txn.prog.login, Advance(cfg, s.db, s.now, txn, ch).value;
            && next.prog.Login? && Gathering(cfg, s.db, x, next)
            && (if next.prog.login.pc == 7 then
                  next == txn.(prog := Login(v.(pc := 7, tries := 0))) && Drawing(cfg, s.db, x, next)
                else next == txn.(prog := Login(v.(todo := v.todo[1..], profiles := next.prog.login.profiles))))
  {
    hide IdentitiesOk, Gathered, ViewIds;
    var v := txn.prog.login;
    var pid: nat := v.todo[0];
    assert pid == x.pids[|x.pids| - |v.todo|];
    var read := ReadIdentity(ViewIds(s.db, txn.writes), pid, s.db.players[pid]);
    ReadErrors(ViewIds(s.db, txn.writes), pid, s.db.players[pid]);
    hide ReadIdentity;
    if read != Err(NotFound) || pid <= cfg.watermark {
      var next := Advance(cfg, s.db, s.now, txn, ch).value;
      hide Advance, Gathering;
      GathersOne(cfg, s.db, x, txn, next, if read.Ok? then Some(read.value) else None);
    }
  }

  lemma LoginGathers(cfg: Config, s: State, v0: LoginVars, x: Inputs, victims: set<Hash>, txn: Txn, ch: Choice)
    requires Underway(cfg, s, v0, x, victims, txn) && txn.prog.login.pc == 6
    requires IdentitiesOk(s.db.identities) && Owned(s.db.players, v0.cred.uid, x.pids)
    ensures Advance(cfg, s.db, s.now, txn, ch).Some?
    ensures var v, next := txn.prog.login, Advance(cfg, s.db, s.now, txn, ch).value.(at := s.now);
            && Underway(cfg, s, v0, x, victims, next)
            && (if v.todo == [] then next.prog.login.pc == 8
                else if next.prog.login.pc == 7 then next.prog.login.todo == v.todo
                else next.prog.login.pc == 6 && next.prog.login.todo == v.todo[1..])
  {
    hide L.Chooses, Auth.NextHash, IdentitiesOk, Gathered, ReadIdentity;
    if txn.prog.login.todo != [] {
      ReadsOne(cfg, s, x, txn, ch);
      hide Advance;
    }
  }

  /** Some candidate of the player at the front is free: otherwise the whole list would have none. */
  lemma OneIsFree(cfg: Config, db: Db, x: Inputs, txn: Txn)
    requires txn.prog.Login? && Gathering(cfg, db, x, txn) && Drawing(cfg, db, x, txn)
    requires IdentitiesOk(db.identities) && (forall p | p in x.pids :: p in db.players)
    requires forall i, j :: 0 <= i < j < |x.pids| ==> x.pids[i] < x.pids[j]
    requires Allotted(db.identities, db.players, cfg.watermark, x.draw, x.pids).Some?
    ensures S.Pick(ViewIds(db, txn.writes), x.draw, txn.prog.login.todo[0]).Some?
  {
    hide IdentitiesOk, Gathered, ViewIds, ReadIdentity, Allotted, S.Pick, S.Free;
    var ids, pid := ViewIds(db, txn.writes), txn.prog.login.todo[0];
    var n := |x.pids| - |txn.prog.login.todo|;
    assert pid == x.pids[n] && x.pids[..n + 1] == x.pids[..n] + [pid] && pid !in x.pids[..n];
    if S.Pick(ids, x.draw, pid).None? {
      GatheredOneMore(db.identities, ids, ids, db.players, cfg.watermark, x.draw, x.pids[..n], txn.prog.login.profiles,
                      pid, Err(IdentityConflict));
      AllottedNone(db.identities, db.players, cfg.watermark, x.draw, x.pids, n + 1);
    }
  }

  /** One turn of the allocation loop, with a candidate that some row carries. */
  lemma Collides(db: Db, txn: Txn, pid: nat, ch: Choice)
    requires pid in db.players && !S.Free(ViewIds(db, txn.writes), ch.uuid)
    requires ReadIdentity(ViewIds(db, txn.writes), pid, db.players[pid]) == Err(NotFound)
    ensures Allocate(db, txn, pid, ch) == Collided
  {
    hide ReadIdentity, ViewIds;
  }

  /** And with one that is free. */
  lemma Allocates(db: Db, txn: Txn, pid: nat, ch: Choice)
    requires pid in db.players && pid > 0 && S.Free(ViewIds(db, txn.writes), ch.uuid)
    requires ReadIdentity(ViewIds(db, txn.writes), pid, db.players[pid]) == Err(NotFound)
    requires ch.id !in ViewIds(db, txn.writes) && IdentitiesOk(ViewIds(db, txn.writes))
    ensures var ids, r := ViewIds(db, txn.writes), Allocate(db, txn, pid, ch);
            && r.Allocated? && r.made == Identity(ch.id, pid, ch.uuid, db.players[pid].name, db.players[pid].owner)
            && r.txn.prog == txn.prog && r.txn.at == txn.at
            && r.txn.writes == txn.writes.(identities := r.txn.writes.identities)
            && ViewIds(db, r.txn.writes) == ids[ch.id := NewRow(pid, ch.uuid)]
            && IdentitiesOk(ViewIds(db, r.txn.writes))
  {
    var ids := ViewIds(db, txn.writes);
    S.UnboundHasNoRow(ids, pid, db.players[pid]);
    hide ReadIdentity, IdentitiesOk;
    NewRowFits(ids, ch.id, pid, ch.uuid);
    assert db.identities + txn.writes.identities[ch.id := NewRow(pid, ch.uuid)] == ids[ch.id := NewRow(pid, ch.uuid)];
  }

  /** The next candidate is taken, or it is the one the transaction would pick. */
  lemma NextCandidate(ids: map<nat, IdRow>, draw: S.Draw, pid: nat, tries: nat)
    requires tries < 3 && S.Pick(ids, draw, pid).Some?
    requires forall k :: 0 <= k < tries ==> !S.Free(ids, draw(pid, k))
    ensures if S.Free(ids, draw(pid, tries)) then S.Pick(ids, draw, pid) == Some(draw(pid, tries))
            else tries + 1 < 3 && forall k :: 0 <= k < tries + 1 ==> !S.Free(ids, draw(pid, k))
  {
    hide S.Free;
    assert (tries > 0 ==> !S.Free(ids, draw(pid, 0))) && (tries > 1 ==> !S.Free(ids, draw(pid, 1)));
  }

  lemma LoginAllocates(cfg: Config, s: State, x: Inputs, txn: Txn, ch: Choice)
    requires txn.prog.Login? && txn.prog.login.pc == 7 && Gathering(cfg, s.db, x, txn) && Drawing(cfg, s.db, x, txn)
    requires IdentitiesOk(s.db.identities) && (forall p | p in x.pids :: p in s.db.players)
    requires forall i, j :: 0 <= i < j < |x.pids| ==> x.pids[i] < x.pids[j]
    requires S.Pick(ViewIds(s.db, txn.writes), x.draw, txn.prog.login.todo[0]).Some?
    requires ch.id !in ViewIds(s.db, txn.writes) && ch.uuid == x.draw(txn.prog.login.todo[0], txn.prog.login.tries)
    ensures Advance(cfg, s.db, s.now, txn, ch).Some?
    ensures var v, next := txn.prog.login, Advance(cfg, s.db, s.now, txn, ch).value;
            && next.prog.Login? && Gathering(cfg, s.db, x, next) && next.at == txn.at
            && next.writes == txn.writes.(identities := next.writes.identities)
            && (if next.prog.login.pc == 7 then
                  next.prog == Login(v.(tries := v.tries + 1)) && Drawing(cfg, s.db, x, next)
                else next.prog == Login(v.(pc := 6, todo := v.todo[1..], profiles := next.prog.login.profiles)))
  {
    hide IdentitiesOk, Gathered, ViewIds, ReadIdentity, Allocate, S.Free, S.Pick;
    var v, ids := txn.prog.login, ViewIds(s.db, txn.writes);
    NextCandidate(ids, x.draw, v.todo[0], v.tries);
    if !S.Free(ids, ch.uuid) {
      Collides(s.db, txn, v.todo[0], ch);
    } else {
      Allocates(s.db, txn, v.todo[0], ch);
      var next := Advance(cfg, s.db, s.now, txn, ch).value;
      var made := Allocate(s.db, txn, v.todo[0], ch).made;
      hide Advance, Gathering;
      GathersOne(cfg, s.db, x, txn, next, Some(made));
    }
  }

  lemma LoginProvides(cfg: Config, s: State, v0: LoginVars, x: Inputs, victims: set<Hash>, txn: Txn, ch: Choice)
    requires Underway(cfg, s, v0, x, victims, txn) && txn.prog.login.pc == 7 && Fitting(cfg, s, x, victims, txn, ch)
    requires IdentitiesOk(s.db.identities) && Owned(s.db.players, v0.cred.uid, x.pids)
    requires Allotted(s.db.identities, s.db.players, cfg.watermark, x.draw, x.pids).Some?
    ensures Advance(cfg, s.db, s.now, txn, ch).Some?
    ensures var v, next := txn.prog.login, Advance(cfg, s.db, s.now, txn, ch).value.(at := s.now);
            && Underway(cfg, s, v0, x, victims, next)
            && (if next.prog.login.pc == 7 then
                  next.prog.login.todo == v.todo && v.tries < 3 && next.prog.login.tries == v.tries + 1
                else next.prog.login.pc == 6 && next.prog.login.todo == v.todo[1..])
  {
    hide L.Chooses, Auth.NextHash, IdentitiesOk, Gathered, ReadIdentity, Allotted, S.Pick, Advance;
    OneIsFree(cfg, s.db, x, txn);
    LoginAllocates(cfg, s, x, txn, ch);
  }

  /** Choosing the profile. */
  lemma LoginPicks(cfg: Config, s: State, v0: LoginVars, x: Inputs, victims: set<Hash>, txn: Txn, ch: Choice)
    requires Underway(cfg, s, v0, x, victims, txn) && txn.prog.login.pc == 8
    requires IdentitiesOk(s.db.identities) && CanLogIn(cfg.env, s.db, v0.cred.uid, v0.cred.username, x)
    requires S.Watermark(s.db) == cfg.watermark
    requires LoginOwner(cfg.env, s.db, v0.cred.username) == Ok(v0.cred.uid)
    ensures Advance(cfg, s.db, s.now, txn, ch).Some?
    ensures var next := Advance(cfg, s.db, s.now, txn, ch).value.(at := s.now);
            Underway(cfg, s, v0, x, victims, next) && next.prog.login.pc == 9
  {
    hide IdentitiesOk, Gathered, Allotted, ReadIdentity, Auth.NextHash, Owned, LoginOwner, Offers;
    var v := txn.prog.login;
    if '@' !in v0.cred.username {
      assert x.pids[..|x.pids|] == x.pids;
      NamedHasProfile(cfg, s.db, v0.cred.uid, v0.cred.username, x, ViewIds(s.db, txn.writes), v.profiles);
    }
    hide CanLogIn, UniquePlayerName;
  }

  lemma NamedHasProfile(cfg: Config, db: Db, uid: nat, username: string, x: Inputs, ids: map<nat, IdRow>,
                        profiles: seq<Identity>)
    requires CanLogIn(cfg.env, db, uid, username, x) && '@' !in username && S.Watermark(db) == cfg.watermark
    requires IdentitiesOk(db.identities) && IdentitiesOk(ids)
    requires Gathered(db.identities, ids, db.players, cfg.watermark, x.draw, x.pids, profiles)
    ensures UniquePlayerName(cfg.env, db.players, username).Ok?
    ensures var pid := UniquePlayerName(cfg.env, db.players, username).value;
            && pid in db.players && db.players[pid].owner == uid
            && exists k :: 0 <= k < |profiles| && profiles[k].player == pid
  {
    hide IdentitiesOk, Allotted, Gave, ReadIdentity, UniquePlayerName, Auth.NextHash, Grown, Offers;
    var pid := UniquePlayerName(cfg.env, db.players, username).value;
    assert Grown(db.identities, ids, cfg.watermark, x.pids) && Served(ids, db.players, cfg.watermark, x.pids);
    OfferedReads(db.identities, ids, cfg.watermark, x.pids, pid, db.players[pid]);
    ReadIsProfile(ids, db.players, x.pids, pid);
    var y := ReadIdentity(ids, pid, db.players[pid]).value;
    ReadGives(ids, pid, db.players[pid]);
    var k :| 0 <= k < |profiles| && profiles[k] == y;
  }

  /** What was offered is there once new players have been served. */
  lemma OfferedReads(before: map<nat, IdRow>, after: map<nat, IdRow>, watermark: nat, pids: seq<nat>, pid: nat,
                     player: Player)
    requires IdentitiesOk(before) && IdentitiesOk(after) && Grown(before, after, watermark, pids)
    requires Offers(before, pid, player, watermark)
    requires pid > watermark ==> ReadIdentity(after, pid, player) != Err(NotFound)
    ensures ReadIdentity(after, pid, player).Ok?
  {
    var a, b := RowOf(before, pid), RowOf(after, pid);
    if a.Some? {
      assert after[a.value].player == Some(pid);
      assert a.value != b.value ==> Conflict(after[a.value], after[b.value]);
    }
  }

  lemma {:induction false} ReadIsProfile(ids: map<nat, IdRow>, players: map<nat, Player>, pids: seq<nat>, pid: nat)
    requires (forall p | p in pids :: p in players) && pid in pids && ReadIdentity(ids, pid, players[pid]).Ok?
    ensures ReadIdentity(ids, pid, players[pid]).value in Profiles(ids, players, pids)
    decreases |pids|
  {
    if pids[|pids| - 1] != pid {
      ReadIsProfile(ids, players, pids[..|pids| - 1], pid);
    }
  }

  lemma ReadGives(ids: map<nat, IdRow>, pid: nat, player: Player)
    requires ReadIdentity(ids, pid, player).Ok?
    ensures ReadIdentity(ids, pid, player).value.player == pid
  {
  }

  /** Trying a candidate token: it is taken, or it is the one the transaction would issue. */
  lemma NextToken(tokens: map<Hash, Token>, coin: Auth.Coin, tries: nat)
    requires tries < 3 && Auth.NextHash(tokens, None, coin).Some? && forall k :: 0 <= k < tries ==> coin(k) in tokens
    ensures if coin(tries) in tokens then tries + 1 < 3 && forall k :: 0 <= k < tries + 1 ==> coin(k) in tokens
            else Auth.NextHash(tokens, None, coin) == Some(coin(tries))
  {
    assert (tries > 0 ==> coin(0) in tokens) && (tries > 1 ==> coin(1) in tokens);
  }

  /** Inserting the token. */
  lemma LoginIssues(cfg: Config, s: State, v0: LoginVars, x: Inputs, victims: set<Hash>, txn: Txn, ch: Choice)
    requires Underway(cfg, s, v0, x, victims, txn) && txn.prog.login.pc == 9 && Fitting(cfg, s, x, victims, txn, ch)
    ensures Advance(cfg, s.db, s.now, txn, ch).Some?
    ensures var v, next := txn.prog.login, Advance(cfg, s.db, s.now, txn, ch).value.(at := s.now);
            && Underway(cfg, s, v0, x, victims, next)
            && (next.prog.login.pc == 10
                || (next.prog.login.pc == 9 && next.prog.login.todo == v.todo
                    && v.tries < 3 && next.prog.login.tries == v.tries + 1))
  {
    hide L.Chooses, Gathered, IdentitiesOk, Auth.NextHash, Drawing;
    NextToken(s.db.tokens, x.coin, txn.prog.login.tries);
  }

  /** Deleting the victims. */
  lemma LoginEvicts(cfg: Config, s: State, v0: LoginVars, x: Inputs, victims: set<Hash>, txn: Txn, ch: Choice)
    requires Underway(cfg, s, v0, x, victims, txn) && txn.prog.login.pc == 10 && Evicts(s, v0, victims)
    ensures Advance(cfg, s.db, s.now, txn, ch).Some?
    ensures var next := Advance(cfg, s.db, s.now, txn, ch).value.(at := s.now);
            Underway(cfg, s, v0, x, victims, next) && next.prog.login.pc == 11
  {
    hide L.Chooses, Gathered, IdentitiesOk, Auth.NextHash, Drawing;
    VictimsAreTokens(s, v0, victims);
    hide Evicts;
  }

  lemma VictimsAreTokens(s: State, v: LoginVars, victims: set<Hash>)
    requires Evicts(s, v, victims)
    ensures victims <= s.db.tokens.Keys
  {
  }

  // ---- the whole login ----

  /** How far a login is: the profile loop goes back from allocating to reading. */
  function Rank(v: LoginVars): (nat, nat, nat, nat)
  {
    (if v.pc == 7 then 5 else if v.pc > 11 then 0 else 11 - v.pc, |v.todo|, if v.pc == 6 then 1 else 0,
     if v.tries > 3 then 0 else 3 - v.tries)
  }

  predicate Nearer(v: LoginVars, v': LoginVars)
  {
    var a, b := Rank(v), Rank(v');
    b.0 < a.0 || (b.0 == a.0 && (b.1 < a.1 || (b.1 == a.1 && (b.2 < a.2 || (b.2 == a.2 && b.3 < a.3)))))
  }

  /** The moves a login makes. */
  predicate Moves(v: LoginVars, v': LoginVars)
  {
    || (v.pc < v'.pc <= 11 && v.pc != 6 && v.pc != 7) || (v.pc == 6 && v'.pc == 8)
    || (v.pc == 6 && v'.pc == 7 && v'.todo == v.todo)
    || (v.pc in {6, 7} && v'.pc == 6 && |v'.todo| < |v.todo|)
    || (v.pc in {7, 9} && v'.pc == v.pc && v'.todo == v.todo && v.tries < 3 && v'.tries == v.tries + 1)
  }

  lemma MovesNearer(v: LoginVars, v': LoginVars)
    requires Moves(v, v')
    ensures Nearer(v, v')
  {
  }

  lemma LoginOnce(cfg: Config, s: State, v0: LoginVars, x: Inputs, victims: set<Hash>, txn: Txn, ch: Choice)
    requires Underway(cfg, s, v0, x, victims, txn) && txn.prog.login.pc < 11 && Fitting(cfg, s, x, victims, txn, ch)
    requires AccountHolds(cfg.env, s.db, v0.cred) && LoginOwner(cfg.env, s.db, v0.cred.username) == Ok(v0.cred.uid)
    requires CanLogIn(cfg.env, s.db, v0.cred.uid, v0.cred.username, x) && Evicts(s, v0, victims)
    requires IdentitiesOk(s.db.identities) && S.Watermark(s.db) == cfg.watermark
    ensures Advance(cfg, s.db, s.now, txn, ch).Some?
    ensures var next := Advance(cfg, s.db, s.now, txn, ch).value.(at := s.now);
            Underway(cfg, s, v0, x, victims, next) && Nearer(txn.prog.login, next.prog.login)
  {
    hide Nearer;
    var pc := txn.prog.login.pc;
    Conditions(cfg.env, s.db, v0.cred.uid, v0.cred.username, x);
    hide Advance, Fitting, CanLogIn, Evicts, LoginOwner, AccountHolds, IdentitiesOk, Owned, Allotted, Pending,
      Gathering, Drawing, L.Chooses, Auth.NextHash;
    if pc < 5 {
      LoginStarts(cfg, s, v0, x, victims, txn, ch);
    } else if pc == 5 {
      LoginLists(cfg, s, v0, x, victims, txn, ch);
    } else if pc == 6 {
      LoginGathers(cfg, s, v0, x, victims, txn, ch);
    } else if pc == 7 {
      LoginProvides(cfg, s, v0, x, victims, txn, ch);
    } else if pc == 8 {
      LoginPicks(cfg, s, v0, x, victims, txn, ch);
    } else if pc == 9 {
      LoginIssues(cfg, s, v0, x, victims, txn, ch);
    } else {
      LoginEvicts(cfg, s, v0, x, victims, txn, ch);
    }
    MovesNearer(txn.prog.login, Advance(cfg, s.db, s.now, txn, ch).value.prog.login);
  }

  lemma Conditions(env: Env, db: Db, uid: nat, username: string, x: Inputs)
    requires CanLogIn(env, db, uid, username, x)
    ensures Owned(db.players, uid, x.pids) && (forall p | p in x.pids :: p in db.players)
    ensures Allotted(db.identities, db.players, S.Watermark(db), x.draw, x.pids).Some?
    ensures Auth.NextHash(db.tokens, None, x.coin).Some?
  {
    hide Owned, Allotted, Auth.NextHash;
  }

  lemma VictimsExist(s: State, v: LoginVars) returns (victims: set<Hash>)
    requires v.limit > 0
    ensures Evicts(s, v, victims)
  {
    hide IsEviction;
    var uid := v.cred.uid;
    victims := EvictionExists(s.db.tokens, Live(s.db.tokens, uid, L.FirstGeneration(s.db.subjects, uid)[uid], s.now),
                              v.limit);
  }

  lemma ChoiceExists(cfg: Config, s: State, x: Inputs, victims: set<Hash>, txn: Txn) returns (ch: Choice)
    requires txn.prog.Login?
    ensures Fitting(cfg, s, x, victims, txn, ch) && ch.at == s.now
  {
    var v, ids := txn.prog.login, ViewIds(s.db, txn.writes);
    var id: nat := 0;
    if ids.Keys != {} {
      id := Highest(ids.Keys);
      id := id + 1;
    }
    ch := Choice(s.now, x.coin(v.tries), if v.todo != [] then x.draw(v.todo[0], v.tries) else NIL, id, victims, x.pids,
                 {});
  }

  /** The tables but for the number of the new token row. */
  function Unnumbered(db: Db, h: Hash): Db
  {
    if h in db.tokens then db.(tokens := db.tokens[h := db.tokens[h].(serial := 0)]) else db
  }

  /** Correct credentials of an allowed account log in whenever the transaction could, by statements that run alone:
      new players get the first of their candidates that is free, the oldest tokens make way for one new row, and the
      tables are such as the transaction leaves. */
  lemma LoginSucceeds(cfg: Config, s: State, t: Tid, v: LoginVars, x: Inputs)
    returns (s': State, r: L.LoginResult)
    requires s.txns == map[] && ServiceOpen(s.db.gate) && Starts(cfg, s.db, Login(v))
    requires AccountHolds(cfg.env, s.db, v.cred) && LoginOwner(cfg.env, s.db, v.cred.username) == Ok(v.cred.uid)
    requires IdentitiesOk(s.db.identities) && S.Watermark(s.db) == cfg.watermark
    requires CanLogIn(cfg.env, s.db, v.cred.uid, v.cred.username, x)
    ensures Leads(cfg, s, s') && s'.txns == map[] && s'.now == s.now && r.token.access.Some?
    ensures r.token.access.value in s'.db.tokens && s'.db.tokens[r.token.access.value].serial == |s.log|
    ensures L.LoginEnds(cfg.env, s.db, Unnumbered(s'.db, r.token.access.value), v.cred.uid, v.cred.username, v.client,
                        v.limit, x.draw, x.coin, s.now, Ok(r))
    ensures IdentitiesOk(s'.db.identities)
  {
    hide Leads, LoginOwner, IdentitiesOk, AccountHolds, CanLogIn, Evicts, Underway, L.LoginEnds, Unnumbered;
    Conditions(cfg.env, s.db, v.cred.uid, v.cred.username, x);
    var victims := VictimsExist(s, v);
    var txn := LoginRuns(cfg, s, t, v, x, victims);
    CommitsAlone(cfg, s, t, txn);
    s' := Committed(s, txn.writes);
    r := LoginCommitted(cfg, s, v, x, victims, txn);
  }

  /** The statements one after the other. */
  lemma LoginRuns(cfg: Config, s: State, t: Tid, v: LoginVars, x: Inputs, victims: set<Hash>) returns (txn: Txn)
    requires s.txns == map[] && ServiceOpen(s.db.gate) && Starts(cfg, s.db, Login(v)) && Evicts(s, v, victims)
    requires AccountHolds(cfg.env, s.db, v.cred) && LoginOwner(cfg.env, s.db, v.cred.username) == Ok(v.cred.uid)
    requires IdentitiesOk(s.db.identities) && S.Watermark(s.db) == cfg.watermark
    requires CanLogIn(cfg.env, s.db, v.cred.uid, v.cred.username, x)
    ensures Leads(cfg, s, At(s, t, txn)) && txn.prog.Login? && Ready(txn.prog)
    ensures Underway(cfg, s, v, x, victims, txn)
  {
    hide LoginOwner, IdentitiesOk, AccountHolds, Evicts, Starts;
    txn := LoginBegins(cfg, s, t, v, x, victims);
    assert txn.prog.login.pc < 11;
    hide Underway, CanLogIn, Leads, Advance, At, Fitting;
    while txn.prog.login.pc < 11
      invariant Leads(cfg, s, At(s, t, txn)) && Underway(cfg, s, v, x, victims, txn)
      invariant txn.prog.Login? && txn.prog.login.pc <= 11 && txn.at == s.now
      decreases Rank(txn.prog.login).0, Rank(txn.prog.login).1, Rank(txn.prog.login).2, Rank(txn.prog.login).3
    {
      txn := LoginGoesOn(cfg, s, t, v, x, victims, txn);
    }
  }

  lemma LoginGoesOn(cfg: Config, s: State, t: Tid, v: LoginVars, x: Inputs, victims: set<Hash>, txn: Txn)
    returns (next: Txn)
    requires Leads(cfg, s, At(s, t, txn)) && Underway(cfg, s, v, x, victims, txn) && txn.prog.login.pc < 11
    requires AccountHolds(cfg.env, s.db, v.cred) && LoginOwner(cfg.env, s.db, v.cred.username) == Ok(v.cred.uid)
    requires IdentitiesOk(s.db.identities) && S.Watermark(s.db) == cfg.watermark && Evicts(s, v, victims)
    requires CanLogIn(cfg.env, s.db, v.cred.uid, v.cred.username, x)
    ensures Leads(cfg, s, At(s, t, next)) && Underway(cfg, s, v, x, victims, next)
    ensures next.prog.Login? && next.prog.login.pc <= 11 && next.at == s.now && Nearer(txn.prog.login, next.prog.login)
  {
    hide LoginOwner, IdentitiesOk, AccountHolds, Evicts, CanLogIn, Leads, Advance, Fitting, Pending, Gathering, Drawing,
      L.Chooses, Auth.NextHash, Nearer;
    var ch := ChoiceExists(cfg, s, x, victims, txn);
    LoginOnce(cfg, s, v, x, victims, txn, ch);
    assert txn.(at := s.now) == txn;
    StepAlone(cfg, s, t, txn, ch);
    next := Advance(cfg, s.db, s.now, txn, ch).value.(at := s.now);
    assert At(s, t, next) == At(s, t, Advance(cfg, s.db, s.now, txn, ch).value);
  }

  lemma LoginBegins(cfg: Config, s: State, t: Tid, v: LoginVars, x: Inputs, victims: set<Hash>) returns (txn: Txn)
    requires s.txns == map[] && ServiceOpen(s.db.gate) && Starts(cfg, s.db, Login(v))
    requires CanLogIn(cfg.env, s.db, v.cred.uid, v.cred.username, x)
    ensures Leads(cfg, s, At(s, t, txn)) && Underway(cfg, s, v, x, victims, txn) && txn.prog.login.pc == 0
  {
    hide Leads, Gathering, Drawing, L.Chooses, Auth.NextHash, Allotted, Owned, UniquePlayerName, Offers;
    txn := Txn(Login(v), {}, {}, s.now, NO_WRITES);
    BeginsAlone(cfg, s, t, Login(v));
    assert s.db.subjects + map[] == s.db.subjects;
  }

  /** The result the caller is given. */
  function Answer(txn: Txn, h: Hash): L.LoginResult
    requires txn.prog.Login?
  {
    var v := txn.prog.login;
    L.LoginResult(Auth.TokenResult(Some(h), v.client, v.cred.uid, v.chosen), v.profiles)
  }

  lemma LoginCommitted(cfg: Config, s: State, v: LoginVars, x: Inputs, victims: set<Hash>, txn: Txn)
    returns (r: L.LoginResult)
    requires Underway(cfg, s, v, x, victims, txn) && txn.prog.login.pc == 11 && Evicts(s, v, victims)
    requires Owned(s.db.players, v.cred.uid, x.pids) && S.Watermark(s.db) == cfg.watermark
    ensures var s' := Committed(s, txn.writes);
            && r.token.access.Some? && r.token.access.value in s'.db.tokens
            && s'.db.tokens[r.token.access.value].serial == |s.log| && IdentitiesOk(s'.db.identities)
            && L.LoginEnds(cfg.env, s.db, Unnumbered(s'.db, r.token.access.value), v.cred.uid, v.cred.username,
                           v.client, v.limit, x.draw, x.coin, s.now, Ok(r))
  {
    hide IdentitiesOk, Gathered, Owned, L.Chooses, Auth.NextHash, IsEviction, Live, L.LoginEnds, L.Issues;
    var h := Auth.NextHash(s.db.tokens, None, x.coin).value;
    var v1 := txn.prog.login;
    r := Answer(txn, h);
    assert x.pids[..|x.pids|] == x.pids;
    OnlyLogin(s.db, txn.writes, |s.log|);
    var after := Unnumbered(Committed(s, txn.writes).db, h);
    TokenStored(s.db.tokens, victims, h, Row(cfg, s, v1), |s.log|);
    IssuesIt(cfg, s, v, x, victims, txn, after);
    L.LoginFound(cfg.env, s.db, after, v.cred.uid, v.cred.username, v.client, v.limit, x.draw, x.coin, s.now, x.pids,
                 after.identities, v1.profiles, Ok(v1.chosen), Ok(r));
  }

  lemma TokenStored(tokens: map<Hash, Token>, victims: set<Hash>, h: Hash, row: Token, serial: nat)
    requires row.serial == 0
    ensures var stored := (tokens - victims)[h := row.(serial := serial)];
            stored[h := stored[h].(serial := 0)] == (tokens - victims)[h := row]
  {
  }

  lemma IssuesIt(cfg: Config, s: State, v: LoginVars, x: Inputs, victims: set<Hash>, txn: Txn, after: Db)
    requires Underway(cfg, s, v, x, victims, txn) && txn.prog.login.pc == 11 && Evicts(s, v, victims)
    requires var h := Auth.NextHash(s.db.tokens, None, x.coin).value;
             after == s.db.(subjects := L.FirstGeneration(s.db.subjects, v.cred.uid), identities := after.identities,
                            tokens := (s.db.tokens - victims)[h := Row(cfg, s, txn.prog.login)])
    ensures L.Issues(cfg.env, s.db, after, v.cred.uid, v.client, v.limit, x.coin, s.now, after.identities,
                     txn.prog.login.profiles, Ok(txn.prog.login.chosen),
                     Ok(Answer(txn, Auth.NextHash(s.db.tokens, None, x.coin).value)))
  {
    hide IdentitiesOk, Gathering, L.Chooses, Auth.NextHash, IsEviction, Live;
  }

  lemma OnlyLogin(db: Db, w: Writes, serial: nat)
    requires w.users == map[] && w.players == map[] && w.sessions == map[]
    ensures Apply(db, w, serial)
            == db.(subjects := db.subjects + w.subjects, identities := ViewIds(db, w),
                   tokens := CommitTokens(db.tokens, w, serial))
  {
    assert Merge(db.users, map[]) == db.users && Merge(db.players, map[]) == db.players;
    assert Merge(db.sessions, map[]) == db.sessions;
  }
}
