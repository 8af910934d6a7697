/** The identities of an account's players at login, and which identifiers its new players get. */
module AccountProfiles {
  import opened Basics
  import opened Uuids
  import opened Tables
  import opened Directory
  import opened Database
  import opened Listing
  import opened Service

  // ---- profiles ----

  /** The identities the rows give these players, in their order; players without a usable one are left out. */
  ghost function Profiles(ids: map<nat, IdRow>, players: map<nat, Player>, pids: seq<nat>): seq<Identity>
    requires forall p | p in pids :: p in players
  {
    if pids == [] then []
    else
      var last := pids[|pids| - 1];
      var earlier := Profiles(ids, players, pids[..|pids| - 1]);
      match ReadIdentity(ids, last, players[last])
      case Ok(x) => earlier + [x]
      case Err(_) => earlier
  }

  /** Rows are only added, one for each of some players that had none, all of them newer than the migration. */
  ghost predicate Grown(before: map<nat, IdRow>, after: map<nat, IdRow>, watermark: nat, pids: seq<nat>)
  {
    && (forall i | i in before :: i in after && after[i] == before[i])
    && forall i | i in after && i !in before ::
         && after[i].player.Some? && after[i].uuid.Some?
         && after[i] == NewRow(after[i].player.value, after[i].uuid.value)
         && after[i].player.value > watermark && after[i].player.value in pids
         && forall j | j in before :: before[j].player != after[i].player
  }

  /** Another player's new row does not change what is read of this one. */
  lemma ReadStable(ids: map<nat, IdRow>, id: nat, row: IdRow, pid: nat, player: Player)
    requires IdentitiesOk(ids) && IdentitiesOk(ids[id := row]) && id !in ids && row.player != Some(pid)
    ensures ReadIdentity(ids[id := row], pid, player) == ReadIdentity(ids, pid, player)
  {
    var next := ids[id := row];
    var a, b := RowOf(ids, pid), RowOf(next, pid);
    if a.Some? {
      assert next[a.value].player == Some(pid);
      assert b.Some? && Conflict(next[a.value], next[b.value]);
    } else {
      assert forall i | i in next :: next[i].player != Some(pid);
    }
  }

  lemma {:induction false} ProfilesStable(ids: map<nat, IdRow>, id: nat, row: IdRow, players: map<nat, Player>,
                                          pids: seq<nat>)
    requires IdentitiesOk(ids) && IdentitiesOk(ids[id := row]) && id !in ids && row.player.Some?
    requires row.player.value !in pids
    requires forall p | p in pids :: p in players
    ensures Profiles(ids[id := row], players, pids) == Profiles(ids, players, pids)
  {
    if pids != [] {
      var last := pids[|pids| - 1];
      ReadStable(ids, id, row, last, players[last]);
      ProfilesStable(ids, id, row, players, pids[..|pids| - 1]);
    }
  }

  /** Every new player among these has an identity, or a row that withholds one. */
  ghost predicate Served(ids: map<nat, IdRow>, players: map<nat, Player>, watermark: nat, pids: seq<nat>)
  {
    forall p | p in pids && p in players && p > watermark :: ReadIdentity(ids, p, players[p]) != Err(NotFound)
  }

  /** What holds of the rows and the profiles after some of the players. */
  ghost predicate Profiled(before: map<nat, IdRow>, now: map<nat, IdRow>, players: map<nat, Player>, watermark: nat,
                           done: seq<nat>, profiles: seq<Identity>)
  {
    && (forall p | p in done :: p in players)
    && profiles == Profiles(now, players, done) && Grown(before, now, watermark, done)
    && Served(now, players, watermark, done)
  }

  /** One turn of the profile loop: the player's identity, nothing if it has none to offer, or an allocation failure. */
  ghost predicate Turn(before: map<nat, IdRow>, after: map<nat, IdRow>, player: Player, pid: nat, watermark: nat,
                       draw: Draw, r: Result<Option<Identity>, Error>)
  {
    match r
    case Ok(Some(x)) => Provides(before, after, player, pid, watermark, draw, Ok(x))
    case Ok(None) =>
      && after == before
      && (ReadIdentity(before, pid, player) == Err(IdentityConflict)
          || (ReadIdentity(before, pid, player) == Err(NotFound) && pid <= watermark))
    case Err(e) =>
      && after == before && e == IdentityConflict
      && ReadIdentity(before, pid, player) == Err(NotFound) && pid > watermark && Pick(before, draw, pid).None?
  }

  method ProfileTurn(d: Database, pid: nat, watermark: nat, draw: Draw) returns (r: Result<Option<Identity>, Error>)
    requires d.Valid() && pid in d.players && pid > 0
    modifies d`identities, d`nextId
    ensures d.Valid() && d.nextId >= old(d.nextId)
    ensures Turn(old(d.identities), d.identities, d.players[pid], pid, watermark, draw, r)
  {
    hide Fits, Pick;
    var read := ReadRow(d, pid, d.players[pid]);
    ReadErrors(d.identities, pid, d.players[pid]);
    if read == Err(IdentityConflict) || (read == Err(NotFound) && pid <= watermark) {
      return Ok(None);
    }
    if read == Err(NotFound) {
      read := Provide(d, pid, d.players[pid], watermark, draw);
    }
    r := if read.Ok? then Ok(Some(read.value)) else Err(read.error);
  }

  lemma ReadErrors(ids: map<nat, IdRow>, pid: nat, player: Player)
    ensures ReadIdentity(ids, pid, player).Err? ==> ReadIdentity(ids, pid, player).error in {NotFound, IdentityConflict}
  {
  }

  lemma ProfiledOneMore(before: map<nat, IdRow>, now: map<nat, IdRow>, next: map<nat, IdRow>, players: map<nat, Player>,
                        watermark: nat,
                        done: seq<nat>, profiles: seq<Identity>, pid: nat, draw: Draw, x: Option<Identity>)
    requires IdentitiesOk(now) && IdentitiesOk(next) && pid in players && pid !in done
    requires Profiled(before, now, players, watermark, done, profiles)
    requires Turn(now, next, players[pid], pid, watermark, draw, Ok(x))
    ensures Profiled(before, next, players, watermark, done + [pid], if x.Some? then profiles + [x.value] else profiles)
  {
    hide IdentitiesOk, ReadIdentity, Pick;
    var more := done + [pid];
    assert more[..|more| - 1] == done;
    if x.Some? {
      ProvidedIsRead(now, next, players[pid], pid, watermark, draw, Ok(x.value));
    }
    if next != now {
      var id, row := x.value.id, NewRow(pid, x.value.uuid);
      assert next == now[id := row];
      ProfilesStable(now, id, row, players, done);
      forall p | p in done
        ensures ReadIdentity(next, p, players[p]) == ReadIdentity(now, p, players[p])
      {
        ReadStable(now, id, row, p, players[p]);
      }
      UnboundHasNoRow(now, pid, players[pid]);
    }
  }

  // ---- which identifiers the new players get ----

  ghost function TakenUuids(ids: map<nat, IdRow>): set<Uuid>
  {
    set i | i in ids && ids[i].uuid.Some? :: ids[i].uuid.value
  }

  function FirstFree(taken: set<Uuid>, draw: Draw, pid: nat): Option<Uuid>
  {
    if draw(pid, 0) !in taken then Some(draw(pid, 0))
    else if draw(pid, 1) !in taken then Some(draw(pid, 1))
    else if draw(pid, 2) !in taken then Some(draw(pid, 2))
    else None
  }

  /** The identifiers the new players among these get: each the first of its three candidates that neither a row
      nor an earlier player of the list has. `None` if some player finds none free. */
  ghost function Allotted(ids: map<nat, IdRow>, players: map<nat, Player>, watermark: nat, draw: Draw,
                          pids: seq<nat>): Option<map<nat, Uuid>>
    requires forall p | p in pids :: p in players
  {
    if pids == [] then Some(map[])
    else
      var last := pids[|pids| - 1];
      match Allotted(ids, players, watermark, draw, pids[..|pids| - 1])
      case None => None
      case Some(m) =>
        if last <= watermark || ReadIdentity(ids, last, players[last]) != Err(NotFound) then Some(m)
        else match FirstFree(TakenUuids(ids) + m.Values, draw, last)
          case None => None
          case Some(u) => Some(m[last := u])
  }

  /** Once a player finds no identifier, the list has none. */
  lemma {:induction false} AllottedNone(ids: map<nat, IdRow>, players: map<nat, Player>, watermark: nat, draw: Draw,
                                        pids: seq<nat>, n: nat)
    requires n <= |pids| && (forall p | p in pids :: p in players)
    requires Allotted(ids, players, watermark, draw, pids[..n]).None?
    ensures Allotted(ids, players, watermark, draw, pids).None?
    decreases |pids|
  {
    if n == |pids| {
      assert pids[..n] == pids;
    } else {
      assert pids[..|pids| - 1][..n] == pids[..n];
      AllottedNone(ids, players, watermark, draw, pids[..|pids| - 1], n);
    }
  }

  /** The rows added are exactly these players' rows with these identifiers. */
  ghost predicate Gave(before: map<nat, IdRow>, now: map<nat, IdRow>, m: map<nat, Uuid>)
  {
    && TakenUuids(now) == TakenUuids(before) + m.Values
    && (forall i | i in now && i !in before ::
          now[i].player.Some? && now[i].player.value in m && now[i].uuid == Some(m[now[i].player.value]))
    && (forall p | p in m :: exists i :: i in now && i !in before && now[i].player == Some(p))
  }

  /** The profiles, the rows and the identifiers after some of the players. */
  ghost predicate Gathered(before: map<nat, IdRow>, now: map<nat, IdRow>, players: map<nat, Player>, watermark: nat,
                           draw: Draw, done: seq<nat>, profiles: seq<Identity>)
  {
    && Profiled(before, now, players, watermark, done, profiles)
    && Allotted(before, players, watermark, draw, done).Some?
    && Gave(before, now, Allotted(before, players, watermark, draw, done).value)
  }

  lemma FreeIsNotTaken(ids: map<nat, IdRow>, u: Uuid)
    ensures Free(ids, u) <==> u !in TakenUuids(ids)
  {
  }

  lemma PickIsFirstFree(ids: map<nat, IdRow>, draw: Draw, pid: nat)
    ensures Pick(ids, draw, pid) == FirstFree(TakenUuids(ids), draw, pid)
  {
    FreeIsNotTaken(ids, draw(pid, 0));
    FreeIsNotTaken(ids, draw(pid, 1));
    FreeIsNotTaken(ids, draw(pid, 2));
  }

  /** The rows of other players do not change what is read of this one. */
  lemma ReadGrown(before: map<nat, IdRow>, now: map<nat, IdRow>, watermark: nat, done: seq<nat>, pid: nat,
                  player: Player)
    requires IdentitiesOk(before) && IdentitiesOk(now) && Grown(before, now, watermark, done) && pid !in done
    ensures ReadIdentity(now, pid, player) == ReadIdentity(before, pid, player)
  {
    var a, b := RowOf(before, pid), RowOf(now, pid);
    if a.Some? {
      assert now[a.value].player == Some(pid);
      assert b.Some? && Conflict(now[a.value], now[b.value]);
    } else {
      assert forall i | i in now :: now[i].player != Some(pid);
    }
  }

  lemma OneMoreTaken(ids: map<nat, IdRow>, id: nat, pid: nat, u: Uuid)
    requires id !in ids
    ensures TakenUuids(ids[id := NewRow(pid, u)]) == TakenUuids(ids) + {u}
  {
    var next := ids[id := NewRow(pid, u)];
    assert next[id].uuid == Some(u) && forall i | i in ids :: next[i] == ids[i];
  }

  lemma OneMoreValue(m: map<nat, Uuid>, pid: nat, u: Uuid)
    requires pid !in m
    ensures m[pid := u].Values == m.Values + {u}
  {
    var next := m[pid := u];
    assert next[pid] == u && forall p | p in m :: next[p] == m[p];
  }

  lemma GaveOneMore(before: map<nat, IdRow>, now: map<nat, IdRow>, m: map<nat, Uuid>, id: nat, pid: nat, u: Uuid)
    requires Gave(before, now, m) && id !in now && pid !in m && forall i | i in before :: i in now
    ensures Gave(before, now[id := NewRow(pid, u)], m[pid := u])
  {
    OneMoreTaken(now, id, pid, u);
    OneMoreValue(m, pid, u);
    hide TakenUuids;
    var next := now[id := NewRow(pid, u)];
    forall p | p in m[pid := u]
      ensures exists i :: i in next && i !in before && next[i].player == Some(p)
    {
      if p == pid {
        assert next[id].player == Some(pid);
      } else {
        var i :| i in now && i !in before && now[i].player == Some(p);
        assert next[i].player == Some(p);
      }
    }
  }

  lemma NothingGathered(ids: map<nat, IdRow>, players: map<nat, Player>, watermark: nat, draw: Draw, done: seq<nat>)
    requires done == []
    ensures Gathered(ids, ids, players, watermark, draw, done, [])
  {
  }

  /** The definition, one player further. */
  lemma AllottedOneMore(ids: map<nat, IdRow>, players: map<nat, Player>, watermark: nat, draw: Draw, done: seq<nat>,
                        pid: nat)
    requires (forall p | p in done :: p in players) && pid in players
    requires Allotted(ids, players, watermark, draw, done).Some?
    ensures forall p | p in done + [pid] :: p in players
    ensures var m := Allotted(ids, players, watermark, draw, done).value;
            Allotted(ids, players, watermark, draw, done + [pid])
            == if pid <= watermark || ReadIdentity(ids, pid, players[pid]) != Err(NotFound) then Some(m)
               else match FirstFree(TakenUuids(ids) + m.Values, draw, pid)
                 case None => None
                 case Some(u) => Some(m[pid := u])
  {
    hide ReadIdentity, FirstFree, TakenUuids;
    var more := done + [pid];
    assert more[..|more| - 1] == done;
  }

  /** What a turn does to the rows and to the identifiers. */
  lemma TurnAllots(before: map<nat, IdRow>, now: map<nat, IdRow>, next: map<nat, IdRow>, players: map<nat, Player>,
                   watermark: nat, draw: Draw, done: seq<nat>, pid: nat, x: Result<Option<Identity>, Error>)
    requires (forall p | p in done :: p in players) && pid in players && pid !in done
    requires Allotted(before, players, watermark, draw, done).Some? && (forall i | i in before :: i in now)
    requires Gave(before, now, Allotted(before, players, watermark, draw, done).value)
    requires ReadIdentity(now, pid, players[pid]) == ReadIdentity(before, pid, players[pid])
    requires Turn(now, next, players[pid], pid, watermark, draw, x)
    ensures forall p | p in done + [pid] :: p in players
    ensures x.Ok? ==>
              && Allotted(before, players, watermark, draw, done + [pid]).Some?
              && Gave(before, next, Allotted(before, players, watermark, draw, done + [pid]).value)
    ensures x.Err? ==> Allotted(before, players, watermark, draw, done + [pid]).None?
  {
    AllottedOneMore(before, players, watermark, draw, done, pid);
    AllottedAreDone(before, players, watermark, draw, done);
    PickIsFirstFree(now, draw, pid);
    var m := Allotted(before, players, watermark, draw, done).value;
    assert TakenUuids(now) == TakenUuids(before) + m.Values;
    hide Gave, ReadIdentity, Pick, FirstFree, TakenUuids, Allotted;
    if x.Ok? && ReadIdentity(now, pid, players[pid]) == Err(NotFound) && pid > watermark {
      GaveOneMore(before, now, m, x.value.value.id, pid, x.value.value.uuid);
    }
  }

  /** One turn of the loop, on everything it keeps. */
  lemma GatheredOneMore(before: map<nat, IdRow>, now: map<nat, IdRow>, next: map<nat, IdRow>, players: map<nat, Player>,
                        watermark: nat, draw: Draw, done: seq<nat>, profiles: seq<Identity>, pid: nat,
                        x: Result<Option<Identity>, Error>)
    requires IdentitiesOk(before) && IdentitiesOk(now) && IdentitiesOk(next) && pid in players && pid !in done
    requires Gathered(before, now, players, watermark, draw, done, profiles)
    requires Turn(now, next, players[pid], pid, watermark, draw, x)
    ensures forall p | p in done + [pid] :: p in players
    ensures x.Ok? ==>
              Gathered(before, next, players, watermark, draw, done + [pid],
                       if x.value.Some? then profiles + [x.value.value] else profiles)
    ensures x.Err? ==> Allotted(before, players, watermark, draw, done + [pid]).None?
  {
    assert (forall p | p in done :: p in players) && (forall i | i in before :: i in now);
    assert Grown(before, now, watermark, done);
    hide IdentitiesOk, ReadIdentity, Turn, Profiled, Allotted, Gave, Grown;
    ReadGrown(before, now, watermark, done, pid, players[pid]);
    TurnAllots(before, now, next, players, watermark, draw, done, pid, x);
    if x.Ok? {
      ProfiledOneMore(before, now, next, players, watermark, done, profiles, pid, draw, x.value);
    }
  }

  lemma {:induction false} AllottedAreDone(ids: map<nat, IdRow>, players: map<nat, Player>, watermark: nat, draw: Draw,
                                           pids: seq<nat>)
    requires forall p | p in pids :: p in players
    ensures Allotted(ids, players, watermark, draw, pids).Some? ==>
              forall p | p in Allotted(ids, players, watermark, draw, pids).value :: p in pids
  {
    if pids != [] {
      AllottedAreDone(ids, players, watermark, draw, pids[..|pids| - 1]);
    }
  }

  ghost predicate Owned(players: map<nat, Player>, uid: nat, pids: seq<nat>)
  {
    && (forall p :: p in pids <==> p in players && players[p].owner == uid)
    && forall i, j :: 0 <= i < j < |pids| ==> pids[i] < pids[j]
  }

  method LoginProfiles(d: Database, uid: nat, watermark: nat, draw: Draw) returns (r: Result<seq<Identity>, Error>,
                       ghost pids: seq<nat>)
    requires d.Valid() && forall p | p in d.players :: p > 0
    modifies d`identities, d`nextId
    ensures d.Valid() && d.nextId >= old(d.nextId)
    ensures Owned(d.players, uid, pids)
    ensures r.Ok? ==> Gathered(old(d.identities), d.identities, d.players, watermark, draw, pids, r.value)
    ensures r.Err? ==> r == Err(IdentityConflict) && Allotted(old(d.identities), d.players, watermark, draw, pids).None?
  {
    hide IdentitiesOk, CheckV1, Gathered, Allotted, ReadIdentity, Provides;
    var todo := KeysInOrder(set p | p in d.players && d.players[p].owner == uid);
    pids := todo;
    forall p
      ensures p in todo <==> p in d.players && d.players[p].owner == uid
    {
      assert p in todo <==> p in Elements(todo);
    }
    var profiles: seq<Identity> := [];
    NothingGathered(d.identities, d.players, watermark, draw, todo[..0]);
    for i := 0 to |todo|
      invariant d.Valid() && d.nextId >= old(d.nextId)
      invariant Gathered(old(d.identities), d.identities, d.players, watermark, draw, todo[..i], profiles)
    {
      var pid := todo[i];
      assert todo[..i + 1] == todo[..i] + [pid] && pid in todo && pid !in todo[..i];
      ghost var now := d.identities;
      var x := ProfileTurn(d, pid, watermark, draw);
      GatheredOneMore(old(d.identities), now, d.identities, d.players, watermark, draw, todo[..i], profiles, pid, x);
      if x.Err? {
        AllottedNone(old(d.identities), d.players, watermark, draw, todo, i + 1);
        return Err(x.error), todo;
      }
      if x.value.Some? {
        profiles := profiles + [x.value.value];
      }
    }
    assert todo[..|todo|] == todo;
    r := Ok(profiles);
  }
}
