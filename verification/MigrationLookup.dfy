/** The end of the migration: once a reviewed plan is activated, runtime lookups answer what the plan decided. */
module MigrationLookup {
  import opened Basics
  import opened Uuids
  import opened Tables
  import opened Directory
  import opened Database
  import opened Listing
  import opened MigrationPlan
  import opened MigrationMeaning
  import opened MigrationValidate
  import opened MigrationApply

  /** No other plan shares this one's digest. */
  ghost predicate OnlyPlanWithDigest(h: Hashes, plan: Plan)
  {
    forall other :: h.plan(other) == h.plan(plan) ==> other == plan
  }

  /** The identities are the plan of the present source tables. */
  ghost predicate Migrated(h: Hashes, key: string -> string, db: Db, plan: Plan)
  {
    && IdentitiesOk(db.identities) && TableIs(db.identities, plan.actions)
    && (forall a :: a in plan.actions <==>
            a in PlanActions(h, SourcePlayers(key, db.players), SourceMappings(key, db.mappings)))
    && Greatest(SourcePlayers(key, db.players), plan.watermark)
  }

  lemma ReviewedIsMigrated(h: Hashes, catalog: Catalog, key: string -> string, db: Db, maxRows: nat, plan: Plan)
    requires Reviewed(h, catalog, key, db, maxRows, plan) && OnlyPlanWithDigest(h, plan)
    requires IdentitiesOk(db.identities) && TableIs(db.identities, plan.actions)
    ensures Migrated(h, key, db, plan)
  {
    hide IdentitiesOk, TableIs, PlanActions, Accepted, Greatest, Lists, SourcePlayers, SourceMappings, Canonical,
      SummaryOf;
    var s, expected :| IsSnapshotOf(catalog, key, db, s) && Accepted(s)
                       && IsPlanOf(h, s, plan.migration, plan.createdAt, expected)
                       && expected.source == plan.source && h.plan(expected) == h.plan(plan);
    assert expected == plan;
    ListedElements(s.players, SourcePlayers(key, db.players));
    ListedElements(s.mappings, SourceMappings(key, db.mappings));
    var actions := PlanActions(h, SourcePlayers(key, db.players), SourceMappings(key, db.mappings));
    assert forall a :: a in plan.actions <==> a in multiset(plan.actions);
    assert forall a :: a in actions <==> a in multiset(actions);
  }

  lemma ListedElements<T(!new)>(rows: seq<T>, members: set<T>)
    requires Lists(rows, members)
    ensures Elements(rows) == members
  {
  }

  // ---- rows and actions ----

  lemma ActionHasRow(ids: map<nat, IdRow>, actions: seq<Action>, a: Action) returns (i: nat)
    requires TableIs(ids, actions) && a in actions
    ensures i in ids && ActionOf(ids[i]) == a.(reason := "")
  {
    hide ActionOf;
    var bare := a.(reason := "");
    var k :| 0 <= k < |actions| && actions[k] == a;
    assert Unreasoned(actions)[k] == bare;
    assert |KeysWith(ids, ActionOf, bare)| > 0 by {
      assert bare in multiset(Unreasoned(actions));
    }
    i :| i in KeysWith(ids, ActionOf, bare);
  }

  lemma RowHasAction(ids: map<nat, IdRow>, actions: seq<Action>, i: nat) returns (a: Action)
    requires TableIs(ids, actions) && i in ids
    ensures a in actions && ActionOf(ids[i]) == a.(reason := "")
  {
    hide ActionOf;
    var bare := ActionOf(ids[i]);
    assert i in KeysWith(ids, ActionOf, bare);
    assert |KeysWith(ids, ActionOf, bare)| == multiset(Unreasoned(actions))[bare];
    assert bare in Unreasoned(actions) by {
      assert bare in multiset(Unreasoned(actions));
    }
    var k :| 0 <= k < |actions| && Unreasoned(actions)[k] == bare;
    a := actions[k];
  }

  lemma RowOfUuid(row: IdRow, u: Uuid)
    requires ActionOf(row).uuid == Format(u)
    ensures row.uuid == Some(u)
  {
    assert |Format(u)| == 32;
    if row.uuid.Some? {
      FormatInjective(row.uuid.value, u);
    }
  }

  /** The source row of a player of the database. */
  ghost function Self(key: string -> string, db: Db, pid: nat): SourcePlayer
    requires pid in db.players
  {
    PlayerRow(key, pid, db.players[pid])
  }

  /** What the plan gives a player of the database. */
  ghost function Planned(h: Hashes, key: string -> string, db: Db, pid: nat): Option<Uuid>
    requires pid in db.players
  {
    PlannedUuid(h, SourcePlayers(key, db.players), SourceMappings(key, db.mappings), Self(key, db, pid))
  }

  /** Every player of the source has exactly the row its action describes. */
  lemma PlayerHasRow(h: Hashes, key: string -> string, db: Db, plan: Plan, pid: nat) returns (i: nat)
    requires Migrated(h, key, db, plan) && pid in db.players
    ensures i in db.identities && db.identities[i].player == Some(pid)
    ensures var u := Planned(h, key, db, pid);
            if u.Some? then db.identities[i].state == Active && db.identities[i].uuid == u
              else db.identities[i].state == Blocked
  {
    hide IdentitiesOk, TableIs, PlayerAction, ReservedAction, PlannedUuid, Greatest;
    var players, mappings := SourcePlayers(key, db.players), SourceMappings(key, db.mappings);
    var self := Self(key, db, pid);
    assert self in players;
    var a := PlayerAction(h, players, mappings, self);
    assert a in PlanActions(h, players, mappings);
    PlayerActionIs(h, players, mappings, self);
    i := ActionHasRow(db.identities, plan.actions, a);
    var u := PlannedUuid(h, players, mappings, self);
    if u.Some? {
      RowOfUuid(db.identities[i], u.value);
    }
  }

  /** A player the plan made active is the only one the collation gives its name. */
  lemma PlannedIsNamedAlone(h: Hashes, env: Env, db: Db, pid: nat)
    requires pid in db.players && Planned(h, env.key, db, pid).Some?
    ensures Named(env.key, db.players, db.players[pid].name) == {pid}
  {
    hide PlannedUuid;
    var players, mappings := SourcePlayers(env.key, db.players), SourceMappings(env.key, db.mappings);
    var self := Self(env.key, db, pid);
    PlannedFrom(h, players, mappings, self, Planned(h, env.key, db, pid).value);
    var names := NamesOfKey(players, mappings, self.key);
    assert self.name in names;
    SingletonIs(names, self.name);
    forall q | q in Named(env.key, db.players, db.players[pid].name)
      ensures q == pid
    {
      var other := Self(env.key, db, q);
      assert other in players && other.name in names;
      assert other in PlayersNamed(players, self.name);
    }
  }

  // ---- the theorems ----

  /** Looking up any name: nobody has it, or exactly one player has it and the plan made that player active, in which
      case its planned identity comes back, or the name needs review. */
  lemma NameMeansPlan(h: Hashes, env: Env, db: Db, plan: Plan, name: string)
    requires Migrated(h, env.key, db, plan)
    ensures Named(env.key, db.players, name) == {} ==> LookupName(env, db, plan.watermark, name) == Err(NotFound)
    ensures forall pid | pid in Named(env.key, db.players, name) ::
              match Planned(h, env.key, db, pid)
              case None => LookupName(env, db, plan.watermark, name) == Err(IdentityConflict)
              case Some(u) => exists id :: LookupName(env, db, plan.watermark, name)
                                           == Ok(Identity(id, pid, u, db.players[pid].name, db.players[pid].owner))
  {
    hide Planned, Migrated, IdentitiesOk;
    forall pid | pid in Named(env.key, db.players, name)
      ensures match Planned(h, env.key, db, pid)
              case None => LookupName(env, db, plan.watermark, name) == Err(IdentityConflict)
              case Some(u) => exists id :: LookupName(env, db, plan.watermark, name)
                                           == Ok(Identity(id, pid, u, db.players[pid].name, db.players[pid].owner))
    {
      NameOfPlayer(h, env, db, plan, name, pid);
    }
  }

  lemma NameOfPlayer(h: Hashes, env: Env, db: Db, plan: Plan, name: string, pid: nat)
    requires Migrated(h, env.key, db, plan) && pid in Named(env.key, db.players, name)
    ensures match Planned(h, env.key, db, pid)
            case None => LookupName(env, db, plan.watermark, name) == Err(IdentityConflict)
            case Some(u) => exists id :: LookupName(env, db, plan.watermark, name)
                                         == Ok(Identity(id, pid, u, db.players[pid].name, db.players[pid].owner))
  {
    var i := PlayerHasRow(h, env.key, db, plan, pid);
    MigratedOk(h, env.key, db, plan);
    hide Planned, Migrated, IdentitiesOk, ReadIdentity, RowOf;
    var u := Planned(h, env.key, db, pid);
    assert Named(env.key, db.players, name) == Named(env.key, db.players, db.players[pid].name);
    if u.Some? {
      PlannedIsNamedAlone(h, env, db, pid);
      var x := Identity(i, pid, u.value, db.players[pid].name, db.players[pid].owner);
      ReadIdentityIff(db.identities, pid, db.players[pid], x);
    } else if Named(env.key, db.players, name) == {pid} {
      BlockedConflicts(db.identities, pid, db.players[pid], i);
    } else {
      assert forall p :: Named(env.key, db.players, name) != {p} || pid == p;
    }
  }

  lemma MigratedOk(h: Hashes, key: string -> string, db: Db, plan: Plan)
    requires Migrated(h, key, db, plan)
    ensures IdentitiesOk(db.identities)
  {
  }

  lemma BlockedConflicts(ids: map<nat, IdRow>, pid: nat, player: Player, i: nat)
    requires IdentitiesOk(ids) && i in ids && ids[i].player == Some(pid) && ids[i].state == Blocked
    ensures ReadIdentity(ids, pid, player) == Err(IdentityConflict)
  {
    var r := RowOf(ids, pid);
    assert r.Some? && (r.value != i ==> Conflict(ids[r.value], ids[i]));
  }

  /** Looking up any identifier: it is found exactly when the plan gave it to a player, and then as that player. Every
      reserved legacy identifier is therefore NotFound. */
  lemma UuidMeansPlan(h: Hashes, env: Env, db: Db, plan: Plan, u: Uuid)
    requires Migrated(h, env.key, db, plan)
    ensures forall pid | pid in db.players && Planned(h, env.key, db, pid) == Some(u) ::
              exists id :: LookupUuid(db, u) == Ok(Identity(id, pid, u, db.players[pid].name, db.players[pid].owner))
    ensures (forall pid | pid in db.players :: Planned(h, env.key, db, pid) != Some(u)) ==>
              LookupUuid(db, u) == Err(NotFound)
  {
    hide Planned, Migrated, IdentitiesOk;
    MigratedOk(h, env.key, db, plan);
    forall pid | pid in db.players && Planned(h, env.key, db, pid) == Some(u)
      ensures exists id :: LookupUuid(db, u) == Ok(Identity(id, pid, u, db.players[pid].name, db.players[pid].owner))
    {
      var i := PlayerHasRow(h, env.key, db, plan, pid);
      FoundAs(db, u, pid, i);
    }
    if ActiveRow(db.identities, u).Some? {
      var pid := ActiveRowPlanned(h, env, db, plan, u);
    }
  }

  lemma FoundAs(db: Db, u: Uuid, pid: nat, i: nat)
    requires IdentitiesOk(db.identities) && pid in db.players
    requires i in db.identities && db.identities[i].player == Some(pid) && db.identities[i].uuid == Some(u)
    requires db.identities[i].state == Active
    ensures LookupUuid(db, u) == Ok(Identity(i, pid, u, db.players[pid].name, db.players[pid].owner))
  {
    var r := ActiveRow(db.identities, u);
    assert r.Some? && (r.value != i ==> Conflict(db.identities[r.value], db.identities[i]));
    ReadIdentityIff(db.identities, pid, db.players[pid],
                    Identity(i, pid, u, db.players[pid].name, db.players[pid].owner));
  }

  lemma ActiveRowPlanned(h: Hashes, env: Env, db: Db, plan: Plan, u: Uuid) returns (pid: nat)
    requires Migrated(h, env.key, db, plan) && ActiveRow(db.identities, u).Some?
    ensures pid in db.players && Planned(h, env.key, db, pid) == Some(u)
  {
    hide IdentitiesOk, TableIs, PlayerAction, ReservedAction, PlannedUuid, Greatest, PlanActions;
    var i := ActiveRow(db.identities, u).value;
    var players, mappings := SourcePlayers(env.key, db.players), SourceMappings(env.key, db.mappings);
    var a := RowHasAction(db.identities, plan.actions, i);
    var p, v := ActionSource(h, players, mappings, a);
    assert a.state == "active" && a.uuid == Format(u);
    FormatInjective(u, v.value);
    pid := p.value.id;
  }

  /** The whole path: at the moment a gate may open under a plan, and nothing else has the plan's digest, the
      tables mean the plan; opening the gate changes none of them. */
  lemma ActivationMeansPlan(h: Hashes, catalog: Catalog, key: string -> string, schema: Schema, db: Db, maxRows: nat,
                            plan: Plan)
    requires Activatable(h, catalog, key, schema, db, maxRows, plan) && OnlyPlanWithDigest(h, plan)
    requires IdentitiesOk(db.identities)
    ensures Migrated(h, key, db.(gate := Some(db.gate.value.(phase := Open))), plan)
    ensures db.gate.value.watermark == plan.watermark
  {
    hide IdentitiesOk, TableIs, Reviewed, ValidPlan;
    ReviewedIsMigrated(h, catalog, key, db, maxRows, plan);
  }

  /** Rows may be added later; those there are stay. Then every name, and every identifier the plan put in a row,
      still means the same: every player the plan knew has a row already. */
  lemma MeaningLasts(h: Hashes, env: Env, before: Db, after: Db, plan: Plan, name: string, u: Uuid)
    requires Migrated(h, env.key, before, plan) && IdentitiesOk(after.identities) && after.players == before.players
    requires forall i | i in before.identities :: i in after.identities && after.identities[i] == before.identities[i]
    ensures LookupName(env, after, plan.watermark, name) == LookupName(env, before, plan.watermark, name)
    ensures (exists i :: i in before.identities && before.identities[i].uuid == Some(u)) ==>
              LookupUuid(after, u) == LookupUuid(before, u)
  {
    hide Migrated, IdentitiesOk, ReadIdentity, UniquePlayerName, LookupUuid;
    MigratedOk(h, env.key, before, plan);
    var bearer := UniquePlayerName(env, before.players, name);
    if bearer.Ok? {
      assert bearer.value in Named(env.key, before.players, name);
      var i := PlayerHasRow(h, env.key, before, plan, bearer.value);
      SameRowRead(before.identities, after.identities, bearer.value, before.players[bearer.value], i);
    }
    if i :| i in before.identities && before.identities[i].uuid == Some(u) {
      SameRowFound(before, after, u, i);
    }
  }

  /** The row that binds a player decides what is read of the player. */
  lemma SameRowRead(before: map<nat, IdRow>, after: map<nat, IdRow>, pid: nat, player: Player, i: nat)
    requires IdentitiesOk(before) && IdentitiesOk(after)
    requires i in before && i in after && before[i] == after[i] && before[i].player == Some(pid)
    ensures ReadIdentity(after, pid, player) == ReadIdentity(before, pid, player)
  {
    var a, b := RowOf(before, pid), RowOf(after, pid);
    assert a.Some? && Conflict(before[a.value], before[i]);
    assert b.Some? && Conflict(after[b.value], after[i]);
  }

  lemma SameActive(before: map<nat, IdRow>, after: map<nat, IdRow>, u: Uuid, i: nat)
    requires IdentitiesOk(before) && IdentitiesOk(after)
    requires i in before && i in after && before[i] == after[i] && before[i].uuid == Some(u)
    ensures ActiveRow(after, u) == ActiveRow(before, u)
    ensures ActiveRow(before, u).Some? ==> ActiveRow(before, u) == Some(i)
  {
    var a, b := ActiveRow(before, u), ActiveRow(after, u);
    if a.Some? {
      assert Conflict(before[a.value], before[i]);
    }
    if b.Some? {
      assert Conflict(after[b.value], after[i]);
    }
  }

  /** The row that carries an identifier decides what the identifier means. */
  lemma SameRowFound(before: Db, after: Db, u: Uuid, i: nat)
    requires IdentitiesOk(before.identities) && IdentitiesOk(after.identities) && after.players == before.players
    requires i in before.identities && i in after.identities && before.identities[i] == after.identities[i]
    requires before.identities[i].uuid == Some(u)
    ensures LookupUuid(after, u) == LookupUuid(before, u)
  {
    hide IdentitiesOk, ReadIdentity;
    SameActive(before.identities, after.identities, u, i);
    var p := before.identities[i].player;
    if p.Some? && p.value in before.players {
      SameRowRead(before.identities, after.identities, p.value, before.players[p.value], i);
    }
  }
}
