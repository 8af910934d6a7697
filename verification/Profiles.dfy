/** Public lookups: by identifier, by name, and by up to ten names at once. */
module Profiles {
  import opened Basics
  import opened Sorting
  import opened Uuids
  import opened Tables
  import opened Directory
  import opened Database
  import opened Listing
  import opened Service
  import Auth
  import opened AccountProfiles

  // ---- one identifier, one name ----

  ghost function ByUuid(db: Db, raw: string): Result<Identity, Error>
  {
    match Parse(raw)
    case None => Err(NotFound)
    case Some(u) => if ServiceOpen(db.gate) then LookupUuid(db, u) else Err(NotReady)
  }

  method ResolveIdentityByUUID(d: Database, raw: string, outcome: Outcome) returns (r: Result<Identity, Error>)
    requires Ready(d)
    modifies d
    ensures Ready(d) && d.Tables() == old(d.Tables())
    ensures Ended(d.Tables(), d.Tables(), d.Tables(), ByUuid(d.Tables(), raw), outcome, r)
  {
    hide Fits, LookupUuid, Parse, Sound;
    var parsed := Parse(raw);
    if parsed.None? {
      return Err(NotFound);
    }
    if !ServiceOpen(d.gate) {
      return Err(NotReady);
    }
    var body := Auth.FindByUuid(d, parsed.value);
    r := Finish(d, d.Tables(), body, outcome);
  }

  ghost predicate ByNameBody(env: Env, before: Db, after: Db, name: string, draw: Draw, r: Result<Identity, Error>)
  {
    if name == "" then r == Err(NotFound) && after == before
    else if !ServiceOpen(before.gate) then r == Err(NotReady) && after == before
    else match UniquePlayerName(env, before.players, name)
      case Err(e) => r == Err(e) && after == before
      case Ok(pid) =>
        assert pid in Named(env.key, before.players, name);
        && Provides(before.identities, after.identities, before.players[pid], pid, Watermark(before), draw, r)
        && after == before.(identities := after.identities)
  }

  method ByNameTransaction(d: Database, env: Env, name: string, draw: Draw) returns (r: Result<Identity, Error>)
    requires Ready(d) && d.key == env.key
    modifies d`identities, d`nextId
    ensures Ready(d) && d.nextId >= old(d.nextId)
    ensures ByNameBody(env, old(d.Tables()), d.Tables(), name, draw, r)
  {
    hide IdentitiesOk, CheckV1, Provides;
    if name == "" {
      return Err(NotFound);
    }
    if !ServiceOpen(d.gate) {
      return Err(NotReady);
    }
    var pid := Auth.UniqueName(d, env, name);
    if pid.Err? {
      return Err(pid.error);
    }
    assert pid.value in Named(d.key, d.players, name);
    var player := d.players[pid.value];
    // the name again, now that the player is locked
    var current := Auth.UniqueName(d, env, name);
    if current != pid {
      assert false; // nobody renames a player while the request runs alone
    }
    ghost var before := d.identities;
    r := Provide(d, pid.value, player, d.gate.value.watermark, draw);
    RowsGrow(before, d.identities, player, pid.value, d.gate.value.watermark, draw, r);
  }

  method ResolveIdentityByName(d: Database, env: Env, name: string, draw: Draw,
                               outcome: Outcome) returns (r: Result<Identity, Error>)
    requires Ready(d) && d.key == env.key
    modifies d
    ensures Ready(d) && d.schema == old(d.schema)
    ensures exists after, body ::
              && ByNameBody(env, old(d.Tables()), after, name, draw, body)
              && Ended(old(d.Tables()), d.Tables(), after, body, outcome, r)
  {
    hide Fits, ByNameBody, Sound;
    var saved := d.Tables();
    ghost var counter := d.nextId;
    var body := ByNameTransaction(d, env, name, draw);
    ghost var after := d.Tables();
    FitsLater(saved.identities, counter, d.nextId, d.schema);
    r := Finish(d, saved, body, outcome);
    assert Ended(saved, d.Tables(), after, body, outcome, r);
  }

  /** A lookup that may allocate succeeds exactly when a plain lookup does afterwards, with the same answer; when
      it fails it has changed nothing. */
  lemma AllocationIsLookup(env: Env, before: Db, after: Db, name: string, draw: Draw, r: Result<Identity, Error>)
    requires Sound(after) && name != "" && ServiceOpen(before.gate) && ByNameBody(env, before, after, name, draw, r)
    ensures if r.Ok? then LookupName(env, after, Watermark(before), name) == r
            else after == before && LookupName(env, after, Watermark(before), name).Err?
  {
    hide IdentitiesOk, ReadIdentity, Pick;
    match UniquePlayerName(env, before.players, name)
    case Err(e) =>
    case Ok(pid) =>
      assert pid in Named(env.key, before.players, name);
      ProvidedIsRead(before.identities, after.identities, before.players[pid], pid, Watermark(before), draw, r);
  }

  // ---- many names ----

  /** The single lookup of every name in turn, each player once. */
  ghost function Batch(env: Env, db: Db, watermark: nat, names: seq<string>): seq<Identity>
  {
    if names == [] then []
    else
      var earlier := Batch(env, db, watermark, names[..|names| - 1]);
      match LookupName(env, db, watermark, names[|names| - 1])
      case Err(_) => earlier
      case Ok(x) => if exists y :: y in earlier && y.player == x.player then earlier else earlier + [x]
  }

  datatype Candidate = Candidate(name: string, pid: nat, owner: nat)

  predicate ByPid(a: Candidate, b: Candidate) { a.pid < b.pid }

  ghost predicate IsCandidate(env: Env, players: map<nat, Player>, names: seq<string>, c: Candidate)
  {
    c.pid in players && c.name in names && UniquePlayerName(env, players, c.name) == Ok(c.pid)
        && c.owner == players[c.pid].owner
  }

  /** One candidate for each player that some name designates alone. */
  ghost predicate Candidates(env: Env, players: map<nat, Player>, names: seq<string>, candidates: seq<Candidate>)
  {
    && (forall i :: 0 <= i < |candidates| ==> IsCandidate(env, players, names, candidates[i]))
    && (forall i, j :: 0 <= i < j < |candidates| ==> candidates[i].pid != candidates[j].pid)
    && forall k :: 0 <= k < |names| ==> UniquePlayerName(env, players, names[k]).Ok? ==>
         exists i :: 0 <= i < |candidates| && candidates[i].pid == UniquePlayerName(env, players, names[k]).value
  }

  method FindCandidates(d: Database, env: Env, names: seq<string>) returns (candidates: seq<Candidate>)
    requires d.key == env.key
    ensures Candidates(env, d.players, names, candidates)
  {
    hide UniquePlayerName;
    candidates := [];
    var seen: set<nat> := {};
    for n := 0 to |names|
      invariant Candidates(env, d.players, names[..n], candidates)
      invariant forall p :: p in seen <==> exists i :: 0 <= i < |candidates| && candidates[i].pid == p
    {
      assert names[..n + 1] == names[..n] + [names[n]];
      var pid := Auth.UniqueName(d, env, names[n]);
      if pid.Err? || pid.value in seen {
        continue;
      }
      KnownPlayer(env, d.players, names[n]);
      ghost var earlier := candidates;
      seen := seen + {pid.value};
      candidates := candidates + [Candidate(names[n], pid.value, d.players[pid.value].owner)];
      assert candidates[|earlier|].pid == pid.value;
      assert forall i :: 0 <= i < |earlier| ==> candidates[i] == earlier[i];
    }
    assert names[..|names|] == names;
  }

  lemma KnownPlayer(env: Env, players: map<nat, Player>, name: string)
    ensures UniquePlayerName(env, players, name).Ok? ==> UniquePlayerName(env, players, name).value in players
  {
    if UniquePlayerName(env, players, name).Ok? {
      assert UniquePlayerName(env, players, name).value in Named(env.key, players, name);
    }
  }

  method SortCandidates(candidates: seq<Candidate>, ghost env: Env, ghost players: map<nat, Player>,
                        ghost names: seq<string>) returns (sorted: seq<Candidate>)
    requires Candidates(env, players, names, candidates)
    ensures Candidates(env, players, names, sorted)
    ensures forall i, j :: 0 <= i < j < |sorted| ==> sorted[i].pid < sorted[j].pid
  {
    hide UniquePlayerName, IsCandidate;
    ghost var all := Elements(candidates);
    assert Lists(candidates, all);
    forall a, b | a in all && b in all
      ensures a == b || a.pid < b.pid || b.pid < a.pid
    {
      var i :| 0 <= i < |candidates| && candidates[i] == a;
      var j :| 0 <= j < |candidates| && candidates[j] == b;
    }
    assert TotalOn(ByPid, all);
    sorted := SortList(ByPid, candidates, all);
    forall i | 0 <= i < |sorted|
      ensures IsCandidate(env, players, names, sorted[i])
    {
      assert sorted[i] in Elements(sorted);
      var k :| 0 <= k < |candidates| && candidates[k] == sorted[i];
    }
    forall k | 0 <= k < |names| && UniquePlayerName(env, players, names[k]).Ok?
      ensures exists i :: 0 <= i < |sorted| && sorted[i].pid == UniquePlayerName(env, players, names[k]).value
    {
      var i :| 0 <= i < |candidates| && candidates[i].pid == UniquePlayerName(env, players, names[k]).value;
      assert candidates[i] in Elements(sorted);
    }
  }

  function Pids(candidates: seq<Candidate>): (r: seq<nat>)
    ensures |r| == |candidates| && forall i :: 0 <= i < |candidates| ==> r[i] == candidates[i].pid
  {
    seq(|candidates|, i requires 0 <= i < |candidates| => candidates[i].pid)
  }

  /** A new player is left without a row only if all its candidates are taken. */
  ghost predicate Attended(ids: map<nat, IdRow>, players: map<nat, Player>, watermark: nat, draw: Draw, pid: nat)
  {
    pid in players && (pid > watermark && ReadIdentity(ids, pid, players[pid]) == Err(NotFound) ==>
            Pick(ids, draw, pid).None?)
  }

  /** The identities resolved so far are exactly what the rows now give the players done. */
  ghost predicate ResolvedSo(before: map<nat, IdRow>, now: map<nat, IdRow>, players: map<nat, Player>, watermark: nat,
                             draw: Draw, done: seq<nat>, resolved: map<nat, Identity>)
  {
    && (forall p | p in done :: p in players) && Grown(before, now, watermark, done)
    && (forall p | p in resolved :: p in done)
    && (forall p | p in done :: Attended(now, players, watermark, draw, p))
    && forall p | p in done :: if p in resolved then ReadIdentity(now, p, players[p]) == Ok(resolved[p])
      else ReadIdentity(now, p, players[p]).Err?
  }

  lemma ResolvedOneMore(before: map<nat, IdRow>, now: map<nat, IdRow>, next: map<nat, IdRow>, players: map<nat, Player>,
                        watermark: nat,
                        done: seq<nat>, resolved: map<nat, Identity>, pid: nat, draw: Draw, r: Result<Identity, Error>)
    requires IdentitiesOk(now) && IdentitiesOk(next) && pid in players && pid !in done
    requires ResolvedSo(before, now, players, watermark, draw, done, resolved)
    requires Provides(now, next, players[pid], pid, watermark, draw, r)
    ensures ResolvedSo(before, next, players, watermark, draw, done + [pid], if r.Ok? then resolved[pid := r.value]
                         else resolved)
  {
    hide IdentitiesOk, ReadIdentity, Pick, Grown;
    ProvidedIsRead(now, next, players[pid], pid, watermark, draw, r);
    if next != now {
      var id, row := r.value.id, NewRow(pid, r.value.uuid);
      assert next == now[id := row];
      DoneKept(now, id, row, players, done, draw);
      UnboundHasNoRow(now, pid, players[pid]);
      OneMoreGrown(before, now, watermark, done, id, pid, r.value.uuid);
    } else {
      AsGrown(before, now, watermark, done, pid);
    }
  }

  lemma AsGrown(before: map<nat, IdRow>, now: map<nat, IdRow>, watermark: nat, done: seq<nat>, pid: nat)
    requires Grown(before, now, watermark, done)
    ensures Grown(before, now, watermark, done + [pid])
  {
  }

  lemma OneMoreGrown(before: map<nat, IdRow>, now: map<nat, IdRow>, watermark: nat, done: seq<nat>, id: nat, pid: nat,
                     u: Uuid)
    requires Grown(before, now, watermark, done) && id !in now && pid > watermark
    requires forall i | i in now :: now[i].player != Some(pid)
    ensures Grown(before, now[id := NewRow(pid, u)], watermark, done + [pid])
  {
  }

  /** A new row changes no answer about the players dealt with before. */
  lemma DoneKept(now: map<nat, IdRow>, id: nat, row: IdRow, players: map<nat, Player>, done: seq<nat>, draw: Draw)
    requires IdentitiesOk(now) && IdentitiesOk(now[id := row]) && forall p | p in done :: p in players
    requires id !in now && row.player.Some? && row.player.value !in done
    ensures forall p | p in done ::
              && ReadIdentity(now[id := row], p, players[p]) == ReadIdentity(now, p, players[p])
              && (Pick(now, draw, p).None? ==> Pick(now[id := row], draw, p).None?)
  {
    hide IdentitiesOk, ReadIdentity, Pick;
    forall p | p in done
      ensures ReadIdentity(now[id := row], p, players[p]) == ReadIdentity(now, p, players[p])
      ensures Pick(now, draw, p).None? ==> Pick(now[id := row], draw, p).None?
    {
      ReadStable(now, id, row, p, players[p]);
      if Pick(now, draw, p).None? {
        TakenStays(now, id, row, draw, p);
      }
    }
  }

  lemma TakenStays(ids: map<nat, IdRow>, id: nat, row: IdRow, draw: Draw, pid: nat)
    requires id !in ids && Pick(ids, draw, pid).None?
    ensures Pick(ids[id := row], draw, pid).None?
  {
    forall u | !Free(ids, u)
      ensures !Free(ids[id := row], u)
    {
      var i :| i in ids && ids[i].uuid == Some(u);
      assert ids[id := row][i].uuid == Some(u);
    }
  }

  /** Lock each candidate's player, lowest id first, look at its name again, and give it its identity. */
  method ResolveCandidates(d: Database, env: Env, watermark: nat, draw: Draw, names: seq<string>,
                           candidates: seq<Candidate>)
    returns (resolved: map<nat, Identity>, locks: seq<nat>)
    requires d.Valid() && d.key == env.key && (forall p | p in d.players :: p > 0)
    requires Candidates(env, d.players, names, candidates)
    requires forall i, j :: 0 <= i < j < |candidates| ==> candidates[i].pid < candidates[j].pid
    modifies d`identities, d`nextId
    ensures d.Valid() && d.nextId >= old(d.nextId)
    ensures locks == Pids(candidates)
    ensures ResolvedSo(old(d.identities), d.identities, d.players, watermark, draw, Pids(candidates), resolved)
  {
    hide IdentitiesOk, CheckV1, ResolvedSo, UniquePlayerName, Provides, ReadIdentity;
    resolved, locks := map[], [];
    NothingResolved(d.identities, d.players, watermark, draw, Pids(candidates[..0]));
    for i := 0 to |candidates|
      invariant d.Valid() && d.nextId >= old(d.nextId)
      invariant locks == Pids(candidates[..i])
      invariant ResolvedSo(old(d.identities), d.identities, d.players, watermark, draw, Pids(candidates[..i]), resolved)
    {
      var c := candidates[i];
      assert IsCandidate(env, d.players, names, c);
      assert Pids(candidates[..i + 1]) == Pids(candidates[..i]) + [c.pid];
      assert c.pid !in Pids(candidates[..i]);
      locks := locks + [c.pid];
      var player := d.players[c.pid];
      var current := Auth.UniqueName(d, env, c.name);
      if current != Ok(c.pid) || c.owner != player.owner {
        assert false; // the player table is frozen while the request runs alone
      }
      ghost var now := d.identities;
      var r := Provide(d, c.pid, player, watermark, draw);
      ResolvedOneMore(old(d.identities), now, d.identities, d.players, watermark, Pids(candidates[..i]), resolved,
                      c.pid, draw, r);
      if r.Ok? {
        resolved := resolved[c.pid := r.value];
      }
    }
    assert candidates[..|candidates|] == candidates;
  }

  lemma NothingResolved(ids: map<nat, IdRow>, players: map<nat, Player>, watermark: nat, draw: Draw, done: seq<nat>)
    requires done == []
    ensures ResolvedSo(ids, ids, players, watermark, draw, done, map[])
  {
  }

  /** The single lookup of a name agrees with the resolved players. */
  lemma LookupAgrees(env: Env, before: map<nat, IdRow>, db: Db, watermark: nat, draw: Draw, names: seq<string>,
                     candidates: seq<Candidate>,
                     resolved: map<nat, Identity>, k: nat)
    requires IdentitiesOk(db.identities) && Candidates(env, db.players, names, candidates) && k < |names|
    requires ResolvedSo(before, db.identities, db.players, watermark, draw, Pids(candidates), resolved)
    ensures match UniquePlayerName(env, db.players, names[k])
            case Err(_) => LookupName(env, db, watermark, names[k]).Err?
            case Ok(p) =>
              if p in resolved then LookupName(env, db, watermark, names[k]) == Ok(resolved[p])
                                    && resolved[p].player == p
              else LookupName(env, db, watermark, names[k]).Err?
  {
    hide IdentitiesOk, ReadIdentity, IsCandidate;
    var u := UniquePlayerName(env, db.players, names[k]);
    if u.Ok? {
      assert u.value in Named(env.key, db.players, names[k]);
      var i :| 0 <= i < |candidates| && candidates[i].pid == u.value;
      assert Pids(candidates)[i] == u.value;
      if u.value in resolved {
        ReadIdentityIff(db.identities, u.value, db.players[u.value], resolved[u.value]);
      }
    }
  }

  /** The last pass: answers in the order of the request, each player once. */
  method Answer(d: Database, env: Env, watermark: nat, names: seq<string>, resolved: map<nat, Identity>,
                ghost draw: Draw, ghost before: map<nat, IdRow>, ghost candidates: seq<Candidate>)
                  returns (identities: seq<Identity>)
    requires d.Valid() && d.key == env.key && Candidates(env, d.players, names, candidates)
    requires ResolvedSo(before, d.identities, d.players, watermark, draw, Pids(candidates), resolved)
    ensures identities == Batch(env, d.Tables(), watermark, names)
  {
    hide IdentitiesOk, CheckV1, UniquePlayerName, LookupName, Candidates, ResolvedSo;
    identities := [];
    var left := resolved;
    for i := 0 to |names|
      invariant identities == Batch(env, d.Tables(), watermark, names[..i])
      invariant forall p :: p in left <==> p in resolved && !exists y :: y in identities && y.player == p
      invariant forall p | p in left :: left[p] == resolved[p]
    {
      assert names[..i + 1][..i] == names[..i] && names[..i + 1][i] == names[i];
      LookupAgrees(env, before, d.Tables(), watermark, draw, names, candidates, resolved, i);
      var pid := Auth.UniqueName(d, env, names[i]);
      if pid.Err? || pid.value !in left {
        continue;
      }
      ghost var earlier := identities;
      identities := identities + [left[pid.value]];
      left := left - {pid.value};
      assert forall y :: y in identities <==> y in earlier || y == resolved[pid.value];
    }
    assert names[..|names|] == names;
  }

  /** Some name designates this player and no other. */
  ghost predicate Designated(env: Env, players: map<nat, Player>, names: seq<string>, pid: nat)
  {
    exists k :: 0 <= k < |names| && UniquePlayerName(env, players, names[k]) == Ok(pid)
  }

  /** The batch lookup: at most ten names; what it returns is what single lookups of the names would return on the
      tables it leaves. */
  ghost predicate BatchBody(env: Env, before: Db, after: Db, names: seq<string>, draw: Draw,
                            r: Result<seq<Identity>, Error>)
  {
    if |names| > 10 then r == Err(Invalid)
    else if !ServiceOpen(before.gate) then r == Err(NotReady)
    else
      && r == Ok(Batch(env, after, Watermark(before), names))
      && after == before.(identities := after.identities)
      && exists pids ::
           && Grown(before.identities, after.identities, Watermark(before), pids)
           && (forall p :: p in pids <==> Designated(env, before.players, names, p))
           && forall p | p in pids :: Attended(after.identities, before.players, Watermark(before), draw, p)
  }

  lemma CandidatesNamed(env: Env, players: map<nat, Player>, names: seq<string>, candidates: seq<Candidate>)
    requires Candidates(env, players, names, candidates)
    ensures forall p :: p in Pids(candidates) <==> Designated(env, players, names, p)
  {
    hide UniquePlayerName;
    forall p | p in Pids(candidates)
      ensures Designated(env, players, names, p)
    {
      var i :| 0 <= i < |candidates| && Pids(candidates)[i] == p;
      assert IsCandidate(env, players, names, candidates[i]);
      var k :| 0 <= k < |names| && names[k] == candidates[i].name;
    }
    forall k | 0 <= k < |names| && UniquePlayerName(env, players, names[k]).Ok?
      ensures UniquePlayerName(env, players, names[k]).value in Pids(candidates)
    {
      var i :| 0 <= i < |candidates| && candidates[i].pid == UniquePlayerName(env, players, names[k]).value;
      assert Pids(candidates)[i] == UniquePlayerName(env, players, names[k]).value;
    }
  }

  lemma ResolvedGrew(before: map<nat, IdRow>, now: map<nat, IdRow>, players: map<nat, Player>, watermark: nat,
                     draw: Draw, done: seq<nat>, resolved: map<nat, Identity>)
    requires ResolvedSo(before, now, players, watermark, draw, done, resolved)
    ensures Grown(before, now, watermark, done) && forall p | p in done :: Attended(now, players, watermark, draw, p)
  {
  }

  method BatchTransaction(d: Database, env: Env, names: seq<string>, draw: Draw)
    returns (r: Result<seq<Identity>, Error>,
                          locks: seq<nat>)
    requires Ready(d) && d.key == env.key
    modifies d`identities, d`nextId
    ensures Ready(d) && d.nextId >= old(d.nextId)
    ensures BatchBody(env, old(d.Tables()), d.Tables(), names, draw, r)
    ensures forall i, j :: 0 <= i < j < |locks| ==> locks[i] < locks[j]
  {
    hide IdentitiesOk, CheckV1, UniquePlayerName, Candidates, ResolvedSo, Batch, BatchBody, Sound;
    locks := [];
    ghost var tables := d.Tables();
    PlayersPositive(tables);
    if |names| > 10 {
      BatchRefused(env, tables, names, draw, Err(Invalid));
      return Err(Invalid), [];
    }
    if !ServiceOpen(d.gate) {
      BatchRefused(env, tables, names, draw, Err(NotReady));
      return Err(NotReady), [];
    }
    ghost var before := d.identities;
    var watermark := d.gate.value.watermark;
    var found := FindCandidates(d, env, names);
    var candidates := SortCandidates(found, env, d.players, names);
    var resolved, order := ResolveCandidates(d, env, watermark, draw, names, candidates);
    locks := order;
    var identities := Answer(d, env, watermark, names, resolved, draw, before, candidates);
    r := Ok(identities);
    BatchDone(env, tables, d.Tables(), names, draw, candidates, resolved, r);
  }

  lemma GrownSound(before: Db, after: Db, pids: seq<nat>)
    requires Sound(before) && IdentitiesOk(after.identities) && after == before.(identities := after.identities)
    requires Grown(before.identities, after.identities, Watermark(before), pids)
    ensures Sound(after)
  {
    hide IdentitiesOk;
  }

  lemma BatchRefused(env: Env, db: Db, names: seq<string>, draw: Draw, r: Result<seq<Identity>, Error>)
    requires |names| > 10 || !ServiceOpen(db.gate)
    requires r == (if |names| > 10 then Err(Invalid) else Err(NotReady))
    ensures BatchBody(env, db, db, names, draw, r)
  {
  }

  lemma BatchDone(env: Env, before: Db, after: Db, names: seq<string>, draw: Draw, candidates: seq<Candidate>,
                  resolved: map<nat, Identity>,
                  r: Result<seq<Identity>, Error>)
    requires Sound(before) && IdentitiesOk(after.identities) && after == before.(identities := after.identities)
    requires |names| <= 10 && ServiceOpen(before.gate) && Candidates(env, before.players, names, candidates)
    requires ResolvedSo(before.identities, after.identities, before.players, Watermark(before), draw,
                        Pids(candidates), resolved)
    requires r == Ok(Batch(env, after, Watermark(before), names))
    ensures BatchBody(env, before, after, names, draw, r) && Sound(after)
  {
    hide IdentitiesOk, Candidates, ResolvedSo, Batch, Designated, Attended, Grown, Sound;
    GrownSound(before, after, Pids(candidates)) by {
      ResolvedGrew(before.identities, after.identities, before.players, Watermark(before), draw, Pids(candidates),
                   resolved);
    }
    ResolvedGrew(before.identities, after.identities, before.players, Watermark(before), draw, Pids(candidates),
                 resolved);
    CandidatesNamed(env, before.players, names, candidates);
  }

  /** The players are locked in strictly increasing order of their ids, whatever the order of the names. */
  method ResolveIdentitiesByNames(d: Database, env: Env, names: seq<string>, draw: Draw, outcome: Outcome)
    returns (r: Result<seq<Identity>, Error>, locks: seq<nat>)
    requires Ready(d) && d.key == env.key
    modifies d
    ensures Ready(d) && d.schema == old(d.schema)
    ensures forall i, j :: 0 <= i < j < |locks| ==> locks[i] < locks[j]
    ensures exists after, body ::
              && BatchBody(env, old(d.Tables()), after, names, draw, body)
              && Ended(old(d.Tables()), d.Tables(), after, body, outcome, r)
  {
    hide Fits, BatchBody, Sound;
    var saved := d.Tables();
    ghost var counter := d.nextId;
    var body, order := BatchTransaction(d, env, names, draw);
    ghost var after := d.Tables();
    FitsLater(saved.identities, counter, d.nextId, d.schema);
    r := Finish(d, saved, body, outcome);
    locks := order;
    assert Ended(saved, d.Tables(), after, body, outcome, r);
  }

  /** `b` answers the first `n` names: nobody twice, nothing no name gives, and everybody some name gives. */
  ghost predicate Answers(env: Env, db: Db, watermark: nat, names: seq<string>, n: nat, b: seq<Identity>)
    requires n <= |names|
  {
    && (forall i, j :: 0 <= i < j < |b| ==> b[i].player != b[j].player)
    && (forall x | x in b :: Given(env, db, watermark, names, n, x))
    && forall k :: 0 <= k < n ==> Heeded(LookupName(env, db, watermark, names[k]), b)
  }

  ghost predicate Given(env: Env, db: Db, watermark: nat, names: seq<string>, n: nat, x: Identity)
    requires n <= |names|
  {
    exists k :: 0 <= k < n && LookupName(env, db, watermark, names[k]) == Ok(x)
  }

  predicate Heeded(r: Result<Identity, Error>, b: seq<Identity>)
  {
    r.Ok? ==> exists x :: x in b && x.player == r.value.player
  }

  lemma AnswersOneMore(env: Env, db: Db, watermark: nat, names: seq<string>, n: nat, b: seq<Identity>,
                       more: seq<Identity>)
    requires n < |names| && Answers(env, db, watermark, names, n, b)
    requires var r := LookupName(env, db, watermark, names[n]);
             more == if r.Err? || exists y :: y in b && y.player == r.value.player then b else b + [r.value]
    ensures Answers(env, db, watermark, names, n + 1, more)
  {
    hide LookupName;
    forall x | x in more
      ensures Given(env, db, watermark, names, n + 1, x)
    {
      if x in b {
        assert Given(env, db, watermark, names, n, x);
        var k :| 0 <= k < n && LookupName(env, db, watermark, names[k]) == Ok(x);
      } else {
        assert LookupName(env, db, watermark, names[n]) == Ok(x);
      }
    }
    var r := LookupName(env, db, watermark, names[n]);
    assert r.Ok? && more == b + [r.value] ==> r.value in more;
    forall k | 0 <= k < n
      ensures Heeded(LookupName(env, db, watermark, names[k]), more)
    {
      assert Heeded(LookupName(env, db, watermark, names[k]), b);
      assert forall x :: x in b ==> x in more;
    }
  }

  /** What a batch holds: nobody twice, and exactly the players that a single lookup of one of the names would find. */
  lemma {:induction false} BatchMeans(env: Env, db: Db, watermark: nat, names: seq<string>, n: nat)
    requires n <= |names|
    ensures Answers(env, db, watermark, names, n, Batch(env, db, watermark, names[..n]))
  {
    hide LookupName, Answers;
    if n == 0 {
      NothingAnswered(env, db, watermark, names);
    } else {
      BatchMeans(env, db, watermark, names, n - 1);
      assert names[..n][..n - 1] == names[..n - 1] && names[..n][n - 1] == names[n - 1];
      AnswersOneMore(env, db, watermark, names, n - 1, Batch(env, db, watermark, names[..n - 1]),
                     Batch(env, db, watermark, names[..n]));
    }
  }

  lemma NothingAnswered(env: Env, db: Db, watermark: nat, names: seq<string>)
    ensures Answers(env, db, watermark, names, 0, [])
  {
  }
}
