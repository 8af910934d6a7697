/** A player with a legacy identifier is migrated: in any installation that is opened, and in one where nothing is left
    open. */
module Migrating {
  import opened Basics
  import opened Sorting
  import opened Uuids
  import opened Tables
  import opened Directory
  import Database
  import opened Listing
  import opened MigrationPlan
  import opened MigrationMeaning
  import opened MigrationRules
  import opened MigrationApply
  import opened MigrationLookup
  import opened MigrationOutcomes
  import RequestLaws
  import M = Machine
  import opened Lifecycle
  import opened LifecycleTheorems
  import opened Opening

  // ---- any installation ----

  /** Once the gate has been opened under a reviewed plan, and as long as no player is edited and no resolution applied,
      whatever else runs: a player that keeps a mapping's identifier, or draws a generated one, is found under every
      equivalent name and under the identifier, and as the same identity. */
  lemma MigratedIsFound(site: Site, w: World, plan: Plan, maxRows: nat, steps: seq<WorldStep>, w': World, pid: nat,
                        u: Uuid, name: string) returns (id: nat)
    requires Arrives(site, w) && Enabled(site, w, Operate(OpenGate(plan, maxRows))) && OnlyPlanWithDigest(site.h, plan)
    requires Execute(site, Next(site, w, Operate(OpenGate(plan, maxRows))), steps) == Some(w') && NoResolution(steps)
    requires w'.m.db.players == w.m.db.players
    requires (exists m :: Keeps(w.cfg.env.key, w.m.db, pid, m, u)) || Draws(site.h, w.cfg.env.key, w.m.db, pid, u)
    requires pid in w.m.db.players && w.cfg.env.key(name) == w.cfg.env.key(w.m.db.players[pid].name)
    ensures var x := Identity(id, pid, u, w.m.db.players[pid].name, w.m.db.players[pid].owner);
            && LookupName(w.cfg.env, w'.m.db, plan.watermark, name) == Ok(x)
            && LookupUuid(w'.m.db, u) == Ok(x)
  {
    hide Arrives, WorldOk, Enabled, Execute, Planned, LookupName, LookupUuid, Keeps, Draws, IdentitiesOk, Next;
    MigrationPreservesMeaning(site, w, plan, maxRows, steps, w', name, u);
    PlannedExactly(site.h, w.cfg.env.key, w.m.db, pid, u);
    assert pid in Named(w.cfg.env.key, w'.m.db.players, name);
    id :| LookupName(w.cfg.env, w'.m.db, plan.watermark, name)
        == Ok(Identity(id, pid, u, w'.m.db.players[pid].name, w'.m.db.players[pid].owner));
    var x := Identity(id, pid, u, w'.m.db.players[pid].name, w'.m.db.players[pid].owner);
    ArrivesOk(site, w);
    WorldStepOk(site, w, Operate(OpenGate(plan, maxRows)));
    WorldRunOk(site, Next(site, w, Operate(OpenGate(plan, maxRows))), steps, w');
    RowsOk(w');
    RequestLaws.FindsNameExactly(w.cfg.env, w'.m.db, plan.watermark, name, x);
    RequestLaws.FindsUuidExactly(w'.m.db, u, x);
  }

  /** Any other player of the source needs review, under every equivalent name. */
  lemma UnmigratedNeedsReview(site: Site, w: World, plan: Plan, maxRows: nat, steps: seq<WorldStep>, w': World,
                              pid: nat, name: string)
    requires Arrives(site, w) && Enabled(site, w, Operate(OpenGate(plan, maxRows))) && OnlyPlanWithDigest(site.h, plan)
    requires Execute(site, Next(site, w, Operate(OpenGate(plan, maxRows))), steps) == Some(w') && NoResolution(steps)
    requires w'.m.db.players == w.m.db.players
    requires forall m, u :: !Keeps(w.cfg.env.key, w.m.db, pid, m, u)
    requires forall u :: !Draws(site.h, w.cfg.env.key, w.m.db, pid, u)
    requires pid in w.m.db.players && w.cfg.env.key(name) == w.cfg.env.key(w.m.db.players[pid].name)
    ensures LookupName(w.cfg.env, w'.m.db, plan.watermark, name) == Err(IdentityConflict)
  {
    hide Arrives, WorldOk, Enabled, Execute, Planned, LookupName, LookupUuid, Keeps, Draws, IdentitiesOk, Next;
    MigrationPreservesMeaning(site, w, plan, maxRows, steps, w', name, NIL);
    assert pid in Named(w.cfg.env.key, w'.m.db.players, name);
    var planned := Planned(site.h, w.cfg.env.key, w.m.db, pid);
    if planned.Some? {
      PlannedExactly(site.h, w.cfg.env.key, w.m.db, pid, planned.value);
    }
  }

  // ---- an installation in which nothing is left open ----

  /** One account's player and one legacy mapping of its name. */
  function One(name: string, text: string): Db
  {
    Db(map[], map[1 := Player(1, name)], map[1 := Mapping(name, text)], map[], map[], map[], map[], None)
  }

  function OneSnapshot(key: string -> string, name: string, text: string): Snapshot
  {
    Snapshot("game", "utf8", "utf8", "NO PAD", 1, [SourcePlayer(1, 1, name, key(name))],
             [SourceMapping(1, name, key(name), text)])
  }

  function OneAction(u: Uuid): Action
  {
    Action("active", Some(1), Format(u), Some(1), "unique_exact_mapping")
  }

  function OnePlan(u: Uuid): Plan
  {
    Plan(1, MIGRATION, 1, 0, 1, Summary(1, 1, 1, 0, 0, 0), [OneAction(u)])
  }

  function OneSite(u: Uuid): Site
  {
    EmptySite().(h := Hashes(name => NIL, s => 0, plan => if plan == OnePlan(u) then 1 else 0))
  }

  function OneWorld(env: Env, quota: nat, name: string, text: string): World
  {
    EmptyWorld(env, quota).(m := M.State(One(name, text), 0, [], map[], {}, 0))
  }

  lemma OneSource(env: Env, name: string, text: string, u: Uuid)
    ensures IsSnapshotOf(OneSite(u).catalog, env.key, One(name, text), OneSnapshot(env.key, name, text))
    ensures Readable(OneSite(u).catalog, One(name, text), 1)
  {
    hide OnePlan;
    var db, s := One(name, text), OneSnapshot(env.key, name, text);
    assert PlayerRow(env.key, 1, db.players[1]) == s.players[0];
    assert MappingRow(env.key, 1, db.mappings[1]) == s.mappings[0];
    assert SourcePlayers(env.key, db.players) == Elements(s.players);
    assert SourceMappings(env.key, db.mappings) == Elements(s.mappings);
    assert |db.mappings.Keys| == |{1}| == 1 && |db.players.Keys| == |{1}| == 1;
  }

  lemma OneActions(h: Hashes, p: SourcePlayer, m: SourceMapping, u: Uuid)
    requires p.id == 1 && m.id == 1 && p.name == m.name && p.key == m.key && ParseLegacy(m.uuid) == Some(u)
    ensures PlanActions(h, {p}, {m}) == {OneAction(u)} && Unparsed({m}) == {}
  {
    hide Format, ParseLegacy, PlayerAction, PlayerReason, PlannedUuid;
    assert AloneInName({p}, {m}, p) && OnlyMapping({m}, p, m) && OnlyTextOf({m}, m, u);
    MappedExactly(h, {p}, {m}, p, m, u);
    PlayerActionIs(h, {p}, {m}, p);
    var planned := PlannedUuid(h, {p}, {m}, p);
    assert planned == Some(u) by {
      if planned.Some? && planned.value != u {
        FormatInjective(planned.value, u);
      }
    }
    assert PlayerActions(h, {p}, {m}) == {OneAction(u)};
    assert LegacyUuids({m}) == {u} && ActiveUuids(h, {p}, {m}) == {u};
    assert ReservedActions(h, {p}, {m}) == {};
  }

  lemma OneIsPlanned(key: string -> string, name: string, text: string, u: Uuid)
    requires ParseLegacy(text) == Some(u)
    ensures IsPlanOf(OneSite(u).h, OneSnapshot(key, name, text), MIGRATION, 1, OnePlan(u))
  {
    hide Format, ParseLegacy, PlanActions, Ordered;
    var h, s, plan := OneSite(u).h, OneSnapshot(key, name, text), OnePlan(u);
    var p, m := s.players[0], s.mappings[0];
    assert Elements(s.players) == {p} && Elements(s.mappings) == {m};
    OneActions(h, p, m, u);
    assert Canonical(s, s);
    var a := OneAction(u);
    assert multiset([a]) == multiset({a}) && Ordered(ActionLess, [a]) by {
      OneIsOrdered(a);
    }
    assert InState({a}, "active") == {a} && InState({a}, "blocked") == {} && InState({a}, "reserved") == {};
    assert Greatest({p}, 1);
  }

  lemma OneIsOrdered(a: Action)
    ensures Ordered(ActionLess, [a])
  {
  }

  lemma OneIsAccepted(key: string -> string, name: string, text: string, u: Uuid)
    requires name != "" && key(name) != "" && text != ""
    ensures Accepted(OneSnapshot(key, name, text)) && OnlyPlanWithDigest(OneSite(u).h, OnePlan(u))
  {
    hide OnePlan;
  }

  lemma OneIsFresh(env: Env, quota: nat, name: string, text: string, u: Uuid)
    requires env.ttl > 0 && quota > 0
    ensures Initial(OneWorld(env, quota, name, text)) && OneWorld(env, quota, name, text).m.db == One(name, text)
    ensures OneWorld(env, quota, name, text).cfg.env == env
    ensures OnePlan(u).migration == MIGRATION != NIL && OnePlan(u).createdAt == 1 && OnePlan(u).watermark == 1
  {
    hide Format;
  }

  lemma OneKeeps(key: string -> string, name: string, text: string, u: Uuid)
    requires ParseLegacy(text) == Some(u)
    ensures Keeps(key, One(name, text), 1, 1, u)
  {
    hide ParseLegacy;
  }

  /** Nothing is left open: whatever the policy, whatever the name, and whatever the text of a legacy identifier, in
      either form and either case, there is an installation, started empty but for one player and that mapping, in which
      the gate opens and the player is found under its name and its identifier. */
  lemma MappedPlayerIsMigrated(env: Env, quota: nat, name: string, text: string, u: Uuid)
    returns (site: Site, staged: World, open: World, plan: Plan, id: nat)
    requires env.ttl > 0 && quota > 0 && name != "" && env.key(name) != ""
    requires (Lower(text) == Format(u) || Lower(text) == Dashed(u)) && 128 <= u[8] < 192
    ensures Arrives(site, staged) && Leaves(site, staged, Operate(OpenGate(plan, 1)), open)
    ensures OnlyPlanWithDigest(site.h, plan) && Action("active", Some(1), Format(u), Some(1), "unique_exact_mapping")
                                                in plan.actions
    ensures open.m.db.players == map[1 := Player(1, name)] && open.m.db.mappings == map[1 := Mapping(name, text)]
    ensures LookupName(env, open.m.db, 1, name) == Ok(Identity(id, 1, u, name, 1))
    ensures LookupUuid(open.m.db, u) == Ok(Identity(id, 1, u, name, 1))
  {
    assert text != "";
    ParseLegacyMeans(text, u);
    hide IsSnapshotOf, Readable, Accepted, IsPlanOf, OnlyPlanWithDigest, Execute, Enabled, Next, RowsOf, OneSnapshot,
      Format, Dashed, Lower, ParseLegacy, Keeps, LookupName, LookupUuid;
    site, plan := OneSite(u), OnePlan(u);
    var w := OneWorld(env, quota, name, text);
    OneIsFresh(env, quota, name, text, u);
    OneSource(env, name, text, u);
    OneIsAccepted(env.key, name, text, u);
    OneIsPlanned(env.key, name, text, u);
    FreshInstallationOpens(site, w, 1, OneSnapshot(env.key, name, text), plan);
    staged, open := Filled(w, plan, Staged), Filled(w, plan, Open);
    ArrivesAtStaged(site, w, Operate(Stage(plan, 1, RowsOf(plan.actions))), staged);
    OneKeeps(env.key, name, text, u);
    OneStays(env.key, w, staged, u);
    assert Execute(site, open, []) == Some(open) by {
      ExecutesNothing(site, open);
    }
    id := MigratedIsFound(site, staged, plan, 1, [], open, 1, u, name);
  }

  lemma ExecutesNothing(site: Site, w: World)
    ensures Execute(site, w, []) == Some(w)
  {
  }

  lemma ArrivesAtStaged(site: Site, w: World, step: WorldStep, w': World)
    requires Initial(w) && Leaves(site, w, step, w')
    ensures Arrives(site, w')
  {
    hide Initial, Enabled, Next;
    assert Execute(site, w', [step][1..]) == Some(w');
    assert Execute(site, w, [step]) == Some(w');
  }

  lemma OneStays(key: string -> string, w: World, w': World, u: Uuid)
    requires Keeps(key, w.m.db, 1, 1, u)
    requires w'.m.db.players == w.m.db.players && w'.m.db.mappings == w.m.db.mappings
    ensures Keeps(key, w'.m.db, 1, 1, u)
  {
    hide ParseLegacy;
  }
}
