/** Requests as transactions: reading identities, and allocating one for a player newer than the migration.

    Each request runs at one instant here; how its statements interleave with those of others is the subject of module
    Machine. */
module Service {
  import opened Basics
  import opened Uuids
  import opened Tables
  import opened Directory
  import opened Database

  /** The constraints the service relies on: those on identities, the positive keys, the token table's foreign keys,
      and that no token is ahead of its account. */
  ghost predicate Sound(db: Db)
  {
    && IdentitiesOk(db.identities)
    && (forall p | p in db.players :: p > 0)
    && (forall u | u in db.subjects :: db.subjects[u] >= 1)
    && (forall h | h in db.tokens :: db.tokens[h].owner in db.subjects
                                     && db.tokens[h].generation <= db.subjects[db.tokens[h].owner])
    && (forall h | h in db.tokens && db.tokens[h].identity.Some? :: db.tokens[h].identity.value in db.identities)
  }

  ghost predicate Ready(d: Database)
    reads d
  {
    d.Valid() && Sound(d.Tables())
  }

  /** How a transaction ends. A body that fails is rolled back. One that succeeds publishes its result only when
      COMMIT is confirmed; otherwise the tables hold its effect or nothing, and the caller learns only that. */
  predicate Ended<T(==)>(before: Db, now: Db, after: Db, body: Result<T, Error>, outcome: Outcome, r: Result<T, Error>)
  {
    if body.Err? then r == body && now == before
    else
      && r == (if outcome.Confirmed? then body else Err(CommitUnknown))
      && now == (if outcome.Lost? then before else after)
  }

  /** The watermark a request reads with the gate. */
  function Watermark(db: Db): nat
  {
    if db.gate.Some? then db.gate.value.watermark else 0
  }

  // ---- reading ----

  method ReadRow(d: Database, pid: nat, player: Player) returns (r: Result<Identity, Error>)
    requires d.Valid()
    ensures r == ReadIdentity(d.identities, pid, player)
  {
    if i :| i in d.identities && d.identities[i].player == Some(pid) {
      assert RowOf(d.identities, pid) == Some(i) by {
        var j := RowOf(d.identities, pid);
        assert j.Some? && (j.value != i ==> Conflict(d.identities[i], d.identities[j.value]));
      }
      var row := d.identities[i];
      if row.state != Active || row.uuid.None? {
        return Err(IdentityConflict);
      }
      return Ok(Identity(i, pid, row.uuid.value, player.name, player.owner));
    }
    assert RowOf(d.identities, pid).None?;
    r := Err(NotFound);
  }

  // ---- allocation ----

  /** Candidate number `k` for a player; random in the service, arbitrary here. */
  type Draw = (nat, nat) -> Uuid

  predicate Free(ids: map<nat, IdRow>, u: Uuid)
  {
    forall i | i in ids :: ids[i].uuid != Some(u)
  }

  /** The first of three candidates that no row carries. */
  function Pick(ids: map<nat, IdRow>, draw: Draw, pid: nat): Option<Uuid>
  {
    if Free(ids, draw(pid, 0)) then Some(draw(pid, 0))
    else if Free(ids, draw(pid, 1)) then Some(draw(pid, 1))
    else if Free(ids, draw(pid, 2)) then Some(draw(pid, 2))
    else None
  }

  /** Give a player its identity: the one it has, or a new one if it is newer than the migration and a candidate is
      free. A player the migration covered never gets one this way. */
  ghost predicate Provides(before: map<nat, IdRow>, after: map<nat, IdRow>, player: Player, pid: nat, watermark: nat,
                           draw: Draw, r: Result<Identity, Error>)
  {
    match ReadIdentity(before, pid, player)
    case Ok(x) => r == Ok(x) && after == before
    case Err(NotFound) =>
      if pid <= watermark || Pick(before, draw, pid).None? then r == Err(IdentityConflict) && after == before
      else
        var u := Pick(before, draw, pid).value;
        && r.Ok? && r.value == Identity(r.value.id, pid, u, player.name, player.owner)
        && r.value.id !in before && after == before[r.value.id := NewRow(pid, u)]
    case Err(e) => r == Err(e) && after == before
  }

  method Provide(d: Database, pid: nat, player: Player, watermark: nat, draw: Draw) returns (r: Result<Identity, Error>)
    requires d.Valid() && pid > 0
    modifies d`identities, d`nextId
    ensures d.Valid() && d.nextId >= old(d.nextId)
    ensures Provides(old(d.identities), d.identities, player, pid, watermark, draw, r)
  {
    hide IdentitiesOk;
    r := ReadRow(d, pid, player);
    if r != Err(NotFound) {
      return;
    }
    if pid <= watermark {
      return Err(IdentityConflict);
    }
    UnboundHasNoRow(d.identities, pid, player);
    for k := 0 to 3
      invariant d.Valid() && d.nextId >= old(d.nextId) && d.identities == old(d.identities)
      invariant forall j :: 0 <= j < k ==> !Free(d.identities, draw(pid, j))
    {
      ghost var before := d.identities;
      var inserted := d.InsertIdentity(NewRow(pid, draw(pid, k)));
      OnlyUuidConflicts(before, pid, draw(pid, k));
      if inserted.Ok? {
        return Ok(Identity(inserted.value, pid, draw(pid, k), player.name, player.owner));
      }
      var existing := ReadRow(d, pid, player);
      if existing != Err(NotFound) {
        assert false; // nobody else can have inserted this player's row
      }
    }
    r := Err(IdentityConflict);
  }

  lemma UnboundHasNoRow(ids: map<nat, IdRow>, pid: nat, player: Player)
    requires ReadIdentity(ids, pid, player) == Err(NotFound)
    ensures forall i | i in ids :: ids[i].player != Some(pid)
  {
  }

  /** For a player without a row, only the identifier can be a duplicate. */
  lemma OnlyUuidConflicts(ids: map<nat, IdRow>, pid: nat, u: Uuid)
    requires forall i | i in ids :: ids[i].player != Some(pid)
    ensures (forall i | i in ids :: !Conflict(NewRow(pid, u), ids[i])) <==> Free(ids, u)
  {
  }

  /** A provided identity is what the resulting rows say of the player. */
  lemma ProvidedIsRead(before: map<nat, IdRow>, after: map<nat, IdRow>, player: Player, pid: nat, watermark: nat,
                       draw: Draw, r: Result<Identity, Error>)
    requires IdentitiesOk(after) && Provides(before, after, player, pid, watermark, draw, r)
    ensures r.Ok? ==> ReadIdentity(after, pid, player) == r
    ensures r.Err? ==> ReadIdentity(after, pid, player).Err? && after == before
  {
    if r.Ok? {
      ReadIdentityIff(after, pid, player, r.value);
    }
  }

  /** EnsureIdentity as a transaction. */
  ghost predicate EnsureBody(before: Db, after: Db, pid: nat, draw: Draw, r: Result<Identity, Error>)
  {
    if pid == 0 then r == Err(NotFound)
    else if !ServiceOpen(before.gate) then r == Err(NotReady)
    else if pid !in before.players then r == Err(NotFound)
    else
      && Provides(before.identities, after.identities, before.players[pid], pid, Watermark(before), draw, r)
      && after == before.(identities := after.identities)
  }

  method EnsureIdentity(d: Database, pid: nat, draw: Draw, outcome: Outcome) returns (r: Result<Identity, Error>)
    requires Ready(d)
    modifies d
    ensures Ready(d) && d.schema == old(d.schema)
    ensures exists after, body ::
              && EnsureBody(old(d.Tables()), after, pid, draw, body)
              && Ended(old(d.Tables()), d.Tables(), after, body, outcome, r)
  {
    hide Fits, Sound, Provides, IdentitiesOk;
    PlayersPositive(d.Tables());
    ghost var before := d.Tables();
    if pid == 0 {
      r := Err(NotFound);
      assert EnsureBody(before, before, pid, draw, r) && Ended(before, d.Tables(), before, r, outcome, r);
      return;
    }
    if !ServiceOpen(d.gate) {
      r := Err(NotReady);
      assert EnsureBody(before, before, pid, draw, r) && Ended(before, d.Tables(), before, r, outcome, r);
      return;
    }
    if pid !in d.players {
      r := Err(NotFound);
      assert EnsureBody(before, before, pid, draw, r) && Ended(before, d.Tables(), before, r, outcome, r);
      return;
    }
    var saved := d.Tables();
    ghost var counter := d.nextId;
    var body := Provide(d, pid, d.players[pid], d.gate.value.watermark, draw);
    ghost var after := d.Tables();
    assert EnsureBody(before, after, pid, draw, body);
    FitsIsOk(after.identities, d.nextId, d.schema);
    ProvidedSound(before, after, pid, draw, body);
    FitsLater(saved.identities, counter, d.nextId, d.schema);
    r := Finish(d, saved, body, outcome);
    assert Ended(before, d.Tables(), after, body, outcome, r);
  }

  lemma RowsGrow(before: map<nat, IdRow>, after: map<nat, IdRow>, player: Player, pid: nat, watermark: nat, draw: Draw,
                 r: Result<Identity, Error>)
    requires Provides(before, after, player, pid, watermark, draw, r)
    ensures forall i | i in before :: i in after && after[i] == before[i]
  {
  }

  lemma PlayersPositive(db: Db)
    requires Sound(db)
    ensures forall p | p in db.players :: p > 0
  {
    hide IdentitiesOk;
  }

  lemma ProvidedSound(before: Db, after: Db, pid: nat, draw: Draw, r: Result<Identity, Error>)
    requires Sound(before) && pid in before.players && IdentitiesOk(after.identities)
    requires after == before.(identities := after.identities)
    requires Provides(before.identities, after.identities, before.players[pid], pid, Watermark(before), draw, r)
    ensures Sound(after)
  {
    RowsGrow(before.identities, after.identities, before.players[pid], pid, Watermark(before), draw, r);
    hide IdentitiesOk, Provides;
  }

  /** The end of every transaction: roll back on an error, otherwise COMMIT. */
  method Finish<T(==)>(d: Database, saved: Db, body: Result<T, Error>, outcome: Outcome) returns (r: Result<T, Error>)
    requires Fits(saved.identities, d.nextId, d.schema) && Sound(saved) && (body.Ok? ==> Ready(d))
    modifies d
    ensures Ready(d)
    ensures Ended(saved, d.Tables(), old(d.Tables()), body, outcome, r)
    ensures d.nextId == old(d.nextId) && d.schema == old(d.schema)
  {
    hide Fits, Sound;
    if body.Err? {
      d.Restore(saved);
      return body;
    }
    var ok := d.Commit(saved, outcome);
    r := if ok then body else Err(CommitUnknown);
  }
}
