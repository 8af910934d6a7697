/** What becomes of a player of the database when its installation is migrated, from the rows of the two source
    tables to the answers of the lookups. */
module MigrationOutcomes {
  import opened Basics
  import opened Uuids
  import opened Tables
  import opened Directory
  import opened MigrationPlan
  import opened MigrationMeaning
  import opened MigrationRules
  import opened MigrationApply
  import opened MigrationLookup

  // ---- premises on the tables ----

  /** No other player has an equivalent name, and every mapping of an equivalent name has exactly the player's. */
  ghost predicate KeyAlone(key: string -> string, db: Db, pid: nat)
  {
    && pid in db.players
    && (forall q | q in db.players :: key(db.players[q].name) == key(db.players[pid].name) ==> q == pid)
    && (forall n | n in db.mappings && key(db.mappings[n].name) == key(db.players[pid].name) ::
          db.mappings[n].name == db.players[pid].name)
  }

  /** The player is alone in its name; the mapping is the only one of the name, has it in the same spelling, and is the
      only one whose text is read as the identifier. */
  ghost predicate Keeps(key: string -> string, db: Db, pid: nat, m: nat, u: Uuid)
  {
    && pid in db.players && m in db.mappings && db.mappings[m].name == db.players[pid].name
    && (forall q | q in db.players :: key(db.players[q].name) == key(db.players[pid].name) <==> q == pid)
    && (forall n | n in db.mappings :: key(db.mappings[n].name) == key(db.players[pid].name) <==> n == m)
    && (forall n | n in db.mappings :: ParseLegacy(db.mappings[n].uuid) == Some(u) <==> n == m)
  }

  /** The player is alone in its name and no mapping has an equivalent one. */
  ghost predicate Unmapped(key: string -> string, db: Db, pid: nat)
  {
    && pid in db.players
    && (forall q | q in db.players :: key(db.players[q].name) == key(db.players[pid].name) <==> q == pid)
    && (forall n | n in db.mappings :: key(db.mappings[n].name) != key(db.players[pid].name))
  }

  /** Such a player, whose generated identifier is in no mapping and is generated for no other such player. */
  ghost predicate Draws(h: Hashes, key: string -> string, db: Db, pid: nat, u: Uuid)
  {
    && Unmapped(key, db, pid) && OfflineUuid(h, db.players[pid].name) == u
    && (forall n | n in db.mappings :: ParseLegacy(db.mappings[n].uuid) != Some(u))
    && forall q | q in db.players && Unmapped(key, db, q) && OfflineUuid(h, db.players[q].name) == u :: q == pid
  }

  // ---- the premises on the rows of the source ----

  lemma RowsAreThere(key: string -> string, db: Db)
    ensures forall p | p in db.players :: PlayerRow(key, p, db.players[p]) in SourcePlayers(key, db.players)
    ensures forall m | m in db.mappings :: MappingRow(key, m, db.mappings[m]) in SourceMappings(key, db.mappings)
  {
  }

  lemma AloneInTables(key: string -> string, db: Db, pid: nat)
    requires pid in db.players
    ensures AloneInName(SourcePlayers(key, db.players), SourceMappings(key, db.mappings), Self(key, db, pid)) <==>
            KeyAlone(key, db, pid)
  {
    RowsAreThere(key, db);
    var players, mappings := SourcePlayers(key, db.players), SourceMappings(key, db.mappings);
    var p := Self(key, db, pid);
    if AloneInName(players, mappings, p) {
      forall q | q in db.players && key(db.players[q].name) == key(db.players[pid].name)
        ensures q == pid
      {
        assert PlayerRow(key, q, db.players[q]) in players;
      }
      forall n | n in db.mappings && key(db.mappings[n].name) == key(db.players[pid].name)
        ensures db.mappings[n].name == db.players[pid].name
      {
        assert MappingRow(key, n, db.mappings[n]) in mappings;
      }
    }
  }

  lemma MappedInTables(key: string -> string, db: Db, pid: nat, m: nat, u: Uuid)
    requires pid in db.players && m in db.mappings
    ensures var mappings, row := SourceMappings(key, db.mappings), MappingRow(key, m, db.mappings[m]);
            && (OnlyMapping(mappings, Self(key, db, pid), row) <==>
                  forall n | n in db.mappings :: db.mappings[n].name == db.players[pid].name <==> n == m)
            && (OnlyTextOf(mappings, row, u) <==>
                  forall n | n in db.mappings :: ParseLegacy(db.mappings[n].uuid) == Some(u) <==> n == m)
  {
    RowsAreThere(key, db);
    hide ParseLegacy;
    var mappings, row := SourceMappings(key, db.mappings), MappingRow(key, m, db.mappings[m]);
    if OnlyMapping(mappings, Self(key, db, pid), row) {
      forall n | n in db.mappings
        ensures db.mappings[n].name == db.players[pid].name <==> n == m
      {
        assert MappingRow(key, n, db.mappings[n]) in mappings;
      }
    }
    if OnlyTextOf(mappings, row, u) {
      forall n | n in db.mappings
        ensures ParseLegacy(db.mappings[n].uuid) == Some(u) <==> n == m
      {
        assert MappingRow(key, n, db.mappings[n]) in mappings;
      }
    }
  }

  lemma KeepsInTables(key: string -> string, db: Db, pid: nat, u: Uuid)
    requires pid in db.players
    ensures var players, mappings := SourcePlayers(key, db.players), SourceMappings(key, db.mappings);
            var p := Self(key, db, pid);
            (exists m :: Keeps(key, db, pid, m, u)) <==>
            exists row :: AloneInName(players, mappings, p) && OnlyMapping(mappings, p, row)
                          && OnlyTextOf(mappings, row, u)
  {
    hide ParseLegacy, AloneInName;
    var players, mappings := SourcePlayers(key, db.players), SourceMappings(key, db.mappings);
    var p := Self(key, db, pid);
    AloneInTables(key, db, pid);
    if m :| Keeps(key, db, pid, m, u) {
      MappedInTables(key, db, pid, m, u);
      assert OnlyMapping(mappings, p, MappingRow(key, m, db.mappings[m]));
    }
    if row :| AloneInName(players, mappings, p) && OnlyMapping(mappings, p, row) && OnlyTextOf(mappings, row, u) {
      var m: nat := row.id;
      assert m in db.mappings && row == MappingRow(key, m, db.mappings[m]);
      MappedInTables(key, db, pid, m, u);
      assert Keeps(key, db, pid, m, u);
    }
  }

  lemma UnmappedInTables(key: string -> string, db: Db, pid: nat)
    requires pid in db.players
    ensures var players, mappings := SourcePlayers(key, db.players), SourceMappings(key, db.mappings);
            var p := Self(key, db, pid);
            AloneInName(players, mappings, p) && NotMapped(mappings, p) <==> Unmapped(key, db, pid)
  {
    AloneInTables(key, db, pid);
    RowsAreThere(key, db);
    var mappings := SourceMappings(key, db.mappings);
    if NotMapped(mappings, Self(key, db, pid)) {
      forall n | n in db.mappings
        ensures db.mappings[n].name != db.players[pid].name
      {
        assert MappingRow(key, n, db.mappings[n]) in mappings;
      }
    }
    hide AloneInName;
  }

  lemma DrawsInTables(h: Hashes, key: string -> string, db: Db, pid: nat, u: Uuid)
    requires pid in db.players
    ensures var players, mappings := SourcePlayers(key, db.players), SourceMappings(key, db.mappings);
            var p := Self(key, db, pid);
            Draws(h, key, db, pid, u) <==>
            AloneInName(players, mappings, p) && NotMapped(mappings, p)
            && OnlyGeneratedFor(h, players, mappings, p, u)
  {
    hide ParseLegacy, AloneInName, NotMapped, OfflineUuid, Unmapped;
    var players, mappings := SourcePlayers(key, db.players), SourceMappings(key, db.mappings);
    RowsAreThere(key, db);
    forall q | q in db.players
      ensures AloneInName(players, mappings, Self(key, db, q)) && NotMapped(mappings, Self(key, db, q)) <==>
              Unmapped(key, db, q)
    {
      UnmappedInTables(key, db, q);
    }
    if OnlyGeneratedFor(h, players, mappings, Self(key, db, pid), u) {
      forall q | q in db.players && Unmapped(key, db, q) && OfflineUuid(h, db.players[q].name) == u
        ensures q == pid
      {
        assert Self(key, db, q) in players;
      }
      forall n | n in db.mappings
        ensures ParseLegacy(db.mappings[n].uuid) != Some(u)
      {
        assert MappingRow(key, n, db.mappings[n]) in mappings;
      }
    }
  }

  /** What the plan gives a player, from the two tables: the identifier of its one mapping, or the one generated for its
      name, and nothing otherwise. */
  lemma PlannedExactly(h: Hashes, key: string -> string, db: Db, pid: nat, u: Uuid)
    requires pid in db.players
    ensures Planned(h, key, db, pid) == Some(u) <==>
            (exists m :: Keeps(key, db, pid, m, u)) || Draws(h, key, db, pid, u)
  {
    hide Keeps, Draws, PlannedUuid, AloneInName, NotMapped, OnlyMapping, OnlyTextOf, OnlyGeneratedFor;
    KeepsInTables(key, db, pid, u);
    DrawsInTables(h, key, db, pid, u);
    RowsAreThere(key, db);
    PlannedInRows(h, SourcePlayers(key, db.players), SourceMappings(key, db.mappings), Self(key, db, pid), u);
  }

  lemma PlannedInRows(h: Hashes, players: set<SourcePlayer>, mappings: set<SourceMapping>, p: SourcePlayer, u: Uuid)
    requires p in players
    ensures PlannedUuid(h, players, mappings, p) == Some(u) <==>
            || (exists m :: AloneInName(players, mappings, p) && OnlyMapping(mappings, p, m)
                            && OnlyTextOf(mappings, m, u))
            || (AloneInName(players, mappings, p) && NotMapped(mappings, p)
                && OnlyGeneratedFor(h, players, mappings, p, u))
  {
    ReasonExactly(players, mappings, p);
    MappedCases(mappings, p);
    hide PlayerReason, ParseLegacy, AloneInName, OfflineUuid, MappingsNamed, Generators;
    if AloneInName(players, mappings, p) && NotMapped(mappings, p) {
      GeneratorsExactly(h, players, mappings, p, OfflineUuid(h, p.name));
    }
    if m :| OnlyMapping(mappings, p, m) {
      OnlyMappingIsMapping(mappings, p, m);
    }
  }
}
