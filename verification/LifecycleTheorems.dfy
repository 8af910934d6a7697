/** What holds over the whole life of an installation, across migration, service, resolution and schema changes. */
module LifecycleTheorems {
  import opened Basics
  import opened Uuids
  import opened Tables
  import opened Directory
  import Database
  import opened MigrationPlan
  import opened MigrationMeaning
  import MigrationValidate
  import opened MigrationApply
  import opened MigrationLookup
  import opened ResolutionPlan
  import Res = ResolutionApply
  import Means = ResolutionMeaning
  import M = Machine
  import opened MachineInvariant
  import opened Lifecycle

  ghost predicate Arrives(site: Site, w: World)
  {
    exists w0, steps :: Initial(w0) && Execute(site, w0, steps) == Some(w)
  }

  lemma ArrivesOk(site: Site, w: World)
    requires Arrives(site, w)
    ensures WorldOk(w)
  {
    var w0, steps :| Initial(w0) && Execute(site, w0, steps) == Some(w);
    InitialOk(w0);
    WorldRunOk(site, w0, steps, w);
    hide WorldOk;
  }

  // ---- schema ----

  /** Version 2 means the whole second schema is installed and no schema command is under way; a resolved row or a link
      means version 2. */
  lemma SecondVersionIsWhole(site: Site, w: World)
    requires Arrives(site, w)
    ensures VersionIs(w.m.db, 2) ==> Database.ResolutionInstalled(w.schema) && w.running.None?
    ensures !NoLinks(w.m.db.identities) ==> VersionIs(w.m.db, 2)
  {
    hide Arrives;
    ArrivesOk(site, w);
    hide Inv;
  }

  /** No step drops the link column, or either hook, while a resolved row exists, wherever a command was interrupted. */
  lemma LinkColumnOutlivesLinks(site: Site, w: World, step: WorldStep)
    requires Arrives(site, w) && Enabled(site, w, step) && !NoLinks(w.m.db.identities)
    ensures Next(site, w, step).schema == w.schema && Database.ResolutionInstalled(w.schema)
  {
    hide Arrives, Inv, Bare, Permitted, M.Enabled, M.Next, Idle;
    ArrivesOk(site, w);
  }

  // ---- rows ----

  predicate SameKeys(a: IdRow, b: IdRow)
  {
    a.uuid == b.uuid && a.legacy == b.legacy
  }

  /** No row disappears, and the identifier and the legacy mapping a row carries never change. */
  ghost predicate RowsStay(ids: map<nat, IdRow>, ids': map<nat, IdRow>)
  {
    forall i | i in ids :: i in ids' && SameKeys(ids[i], ids'[i])
  }

  /** A resolution moves players and states between rows; it never moves an identifier or a mapping. */
  lemma ResolutionMovesPlayersOnly(site: Site, w: World, tx: Transaction)
    requires WorldOk(w) && Enabled(site, w, Operate(tx)) && (tx.Resolve? || tx.Unresolve?)
    ensures tx.ids.Keys == w.m.db.identities.Keys && RowsStay(w.m.db.identities, tx.ids)
  {
    hide WorldOk, IdentitiesOk, ValidResolution, AllUnreferenced;
    var db := w.m.db;
    forall i | i in db.identities
      ensures SameKeys(db.identities[i], tx.ids[i])
    {
      if Res.Touches(tx.r.decisions, i) {
        var k :| 0 <= k < |tx.r.decisions| && (tx.r.decisions[k].blocked == i || tx.r.decisions[k].reserved == i);
        TouchedKeeps(site, w.cfg.env.key, db, tx, k);
      }
    }
  }

  lemma TouchedKeeps(site: Site, key: string -> string, db: Db, tx: Transaction, k: nat)
    requires tx.Resolve? || tx.Unresolve?
    requires k < |tx.r.decisions|
    requires tx.Resolve? ==> AllPending(key, db, tx.r.decisions) && Res.Resolves(db.identities, tx.ids, tx.r.decisions)
    requires tx.Unresolve? ==> Res.Unresolves(db.identities, tx.ids, tx.r.decisions)
    ensures var d := tx.r.decisions[k];
            && d.blocked in db.identities && d.reserved in db.identities && tx.ids.Keys == db.identities.Keys
            && SameKeys(db.identities[d.blocked], tx.ids[d.blocked])
            && SameKeys(db.identities[d.reserved], tx.ids[d.reserved])
  {
    hide MappingsAgree, Format;
    var d := tx.r.decisions[k];
    if tx.Resolve? {
      assert Pending(key, db, d) && Res.Carried(db.identities, tx.ids, d);
    } else {
      assert Res.Returned(db.identities, tx.ids, d);
    }
  }

  /** The other transactions leave every row there is. */
  lemma TransactionKeepsRows(site: Site, w: World, tx: Transaction)
    requires WorldOk(w) && Permitted(site, w, tx) && !tx.Resolve? && !tx.Unresolve?
    ensures forall i | i in w.m.db.identities ::
              i in Effect(site, w, tx).m.db.identities && Effect(site, w, tx).m.db.identities[i] == w.m.db.identities[i]
  {
    hide Inv, IdentitiesOk, Reviewed, TableIs, ValidResolution, AllSettled, MigrationValidate.ValidPlan;
  }

  /** One step of whatever kind: every row keeps its identifier and mapping, and only a resolution or its rollback
      changes anything else in a row. */
  lemma StepKeepsRows(site: Site, w: World, step: WorldStep)
    requires WorldOk(w) && Enabled(site, w, step)
    ensures RowsStay(w.m.db.identities, Next(site, w, step).m.db.identities)
    ensures !(step.Operate? && (step.tx.Resolve? || step.tx.Unresolve?)) ==>
              forall i | i in w.m.db.identities :: Next(site, w, step).m.db.identities[i] == w.m.db.identities[i]
  {
    RuntimeCan(w);
    hide WorldOk, Inv, M.Enabled, M.Next, Effect, Permitted, StartEnabled, StatementEnabled;
    match step
    case Runtime(s) => RuntimeFrame(w.cfg, w.m, s);
    case Operate(tx) =>
      if tx.Resolve? || tx.Unresolve? {
        ResolutionMovesPlayersOnly(site, w, tx);
        RowsLeft(site, w, tx);
      } else {
        TransactionKeepsRows(site, w, tx);
      }
    case _ =>
  }

  lemma RuntimeCan(w: World)
    requires WorldOk(w)
    ensures Inv(w.cfg, w.m)
  {
    hide Inv;
  }

  lemma RowsLeft(site: Site, w: World, tx: Transaction)
    requires Permitted(site, w, tx) && (tx.Resolve? || tx.Unresolve?)
    ensures Effect(site, w, tx).m.db.identities == tx.ids
  {
    hide Permitted;
  }

  /** Over any run. */
  lemma {:induction false} RunKeepsRows(site: Site, w: World, steps: seq<WorldStep>, w': World)
    requires WorldOk(w) && Execute(site, w, steps) == Some(w')
    ensures RowsStay(w.m.db.identities, w'.m.db.identities)
    decreases |steps|
  {
    hide WorldOk, Enabled, Next;
    if steps != [] {
      WorldStepOk(site, w, steps[0]);
      StepKeepsRows(site, w, steps[0]);
      RunKeepsRows(site, Next(site, w, steps[0]), steps[1..], w');
    }
  }

  // ---- legacy identifiers ----

  /** An identifier is in this row and in no other. */
  ghost predicate OnlyIn(ids: map<nat, IdRow>, u: Uuid, i: nat)
  {
    i in ids && ids[i].uuid == Some(u) && forall j | j in ids && ids[j].uuid == Some(u) :: j == i
  }

  lemma ActionUuidHasRow(ids: map<nat, IdRow>, actions: seq<Action>, a: Action, u: Uuid) returns (i: nat)
    requires TableIs(ids, actions) && a in actions && a.uuid == Format(u) && IdentitiesOk(ids)
    ensures OnlyIn(ids, u, i)
  {
    hide TableIs, Format;
    i := ActionHasRow(ids, actions, a);
    RowOfUuid(ids[i], u);
    forall j | j in ids && ids[j].uuid == Some(u)
      ensures j == i
    {
      assert Conflict(ids[j], ids[i]);
    }
  }

  /** No legacy identifier is ever lost or duplicated. When a reviewed plan is first staged, each identifier the legacy
      table spells correctly is in exactly one identity row; and whatever happens afterwards, it stays in that row, and
      in no other. */
  lemma LegacyUuidsSurvive(site: Site, w: World, plan: Plan, maxRows: nat, ids: map<nat, IdRow>, steps: seq<WorldStep>,
                           w': World, u: Uuid)
    requires Arrives(site, w) && w.m.db.gate.None? && Enabled(site, w, Operate(Stage(plan, maxRows, ids)))
    requires OnlyPlanWithDigest(site.h, plan)
    requires Execute(site, Next(site, w, Operate(Stage(plan, maxRows, ids))), steps) == Some(w')
    requires u in LegacyUuids(SourceMappings(w.cfg.env.key, w.m.db.mappings))
    ensures exists i :: OnlyIn(ids, u, i) && OnlyIn(w'.m.db.identities, u, i)
  {
    hide Arrives, WorldOk, Enabled, Next, StageEnabled, IdentitiesOk, MigrationValidate.ValidPlan, Inserted;
    ArrivesOk(site, w);
    var w1 := Next(site, w, Operate(Stage(plan, maxRows, ids)));
    WorldStepOk(site, w, Operate(Stage(plan, maxRows, ids)));
    StagesUnder(site, w, plan, maxRows, ids);
    StagedRowsOk(plan, ids);
    var i := StagedUuidHasRow(site, w, plan, maxRows, ids, u);
    RunKeepsRows(site, w1, steps, w');
    WorldRunOk(site, w1, steps, w');
    RowsOk(w');
    StaysOnlyIn(ids, w'.m.db.identities, u, i);
  }

  lemma StagesUnder(site: Site, w: World, plan: Plan, maxRows: nat, ids: map<nat, IdRow>)
    requires Enabled(site, w, Operate(Stage(plan, maxRows, ids))) && w.m.db.gate.None?
    ensures StageEnabled(site, w, plan, maxRows, ids) && MigrationValidate.ValidPlan(plan)
    ensures Inserted(ids, plan.actions) && Next(site, w, Operate(Stage(plan, maxRows, ids))).m.db.identities == ids
  {
    hide MigrationValidate.ValidPlan, Inserted, Reviewed, Restaged, M.Enabled, M.Next;
  }

  lemma StaysOnlyIn(ids: map<nat, IdRow>, ids': map<nat, IdRow>, u: Uuid, i: nat)
    requires OnlyIn(ids, u, i) && RowsStay(ids, ids') && IdentitiesOk(ids')
    ensures OnlyIn(ids', u, i)
  {
    forall j | j in ids' && ids'[j].uuid == Some(u)
      ensures j == i
    {
      assert Conflict(ids'[j], ids'[i]);
    }
  }

  lemma StagedUuidHasRow(site: Site, w: World, plan: Plan, maxRows: nat, ids: map<nat, IdRow>, u: Uuid) returns (i: nat)
    requires w.m.db.gate.None? && StageEnabled(site, w, plan, maxRows, ids) && OnlyPlanWithDigest(site.h, plan)
    requires IdentitiesOk(ids)
    requires u in LegacyUuids(SourceMappings(w.cfg.env.key, w.m.db.mappings))
    ensures OnlyIn(ids, u, i)
  {
    hide IdentitiesOk, Reviewed, TableIs, MigrationValidate.ValidPlan, PlanActions, Format;
    var key := w.cfg.env.key;
    var db := w.m.db.(identities := ids);
    ReviewIgnoresIds(site, w, plan, maxRows, ids);
    ReviewedIsMigrated(site.h, site.catalog, key, db, maxRows, plan);
    i := LegacyHasRow(site.h, key, db, plan, u);
  }

  lemma ReviewIgnoresIds(site: Site, w: World, plan: Plan, maxRows: nat, ids: map<nat, IdRow>)
    requires Reviewed(site.h, site.catalog, w.cfg.env.key, w.m.db, maxRows, plan)
    ensures Reviewed(site.h, site.catalog, w.cfg.env.key, w.m.db.(identities := ids), maxRows, plan)
  {
    hide IsPlanOf, Accepted;
    var s, expected :| IsSnapshotOf(site.catalog, w.cfg.env.key, w.m.db, s) && Accepted(s)
                       && IsPlanOf(site.h, s, plan.migration, plan.createdAt, expected)
                       && expected.source == plan.source && site.h.plan(expected) == site.h.plan(plan);
    assert IsSnapshotOf(site.catalog, w.cfg.env.key, w.m.db.(identities := ids), s);
  }

  // ---- rollback ----

  /** After Apply, any run of the system, and a Rollback of the same plan, every planned row is exactly what it was
      before Apply, and every other row is what it was before Rollback. */
  lemma RollbackRestores(site: Site, w: World, r: Resolution, applied: map<nat, IdRow>, steps: seq<WorldStep>,
                         w': World, returned: map<nat, IdRow>)
    requires Arrives(site, w) && Enabled(site, w, Operate(Resolve(r, applied)))
    requires Execute(site, Next(site, w, Operate(Resolve(r, applied))), steps) == Some(w')
    requires Enabled(site, w', Operate(Unresolve(r, returned)))
    ensures returned.Keys == w'.m.db.identities.Keys
    ensures forall i | i in returned ::
              if Res.Touches(r.decisions, i) then i in w.m.db.identities && returned[i] == w.m.db.identities[i]
              else returned[i] == w'.m.db.identities[i]
  {
    hide Arrives, WorldOk, Execute, Permitted, Effect;
    ArrivesOk(site, w);
    var w1 := Next(site, w, Operate(Resolve(r, applied)));
    WorldStepOk(site, w, Operate(Resolve(r, applied)));
    RowsLeft(site, w, Resolve(r, applied));
    RunKeepsRows(site, w1, steps, w');
    PlanRestored(site, w, r, applied, w', returned);
  }

  lemma PlanRestored(site: Site, w: World, r: Resolution, applied: map<nat, IdRow>, w': World,
                     returned: map<nat, IdRow>)
    requires Permitted(site, w, Resolve(r, applied)) && Permitted(site, w', Unresolve(r, returned))
    requires RowsStay(applied, w'.m.db.identities)
    ensures returned.Keys == w'.m.db.identities.Keys
    ensures forall i | i in returned ::
              if Res.Touches(r.decisions, i) then i in w.m.db.identities && returned[i] == w.m.db.identities[i]
              else returned[i] == w'.m.db.identities[i]
  {
    hide IdentitiesOk, ValidResolution, AllUnreferenced, AllPending, AllSettled, Res.Returned, Res.Carried;
    forall i | i in returned && Res.Touches(r.decisions, i)
      ensures i in w.m.db.identities && returned[i] == w.m.db.identities[i]
    {
      var k :| 0 <= k < |r.decisions| && (r.decisions[k].blocked == i || r.decisions[k].reserved == i);
      DecisionRestored(w.cfg.env.key, w.m.db, applied, w'.m.db.identities, returned, r.decisions, k);
    }
  }

  lemma DecisionRestored(key: string -> string, db: Db, applied: map<nat, IdRow>, later: map<nat, IdRow>,
                         returned: map<nat, IdRow>, decisions: seq<Decision>, k: nat)
    requires k < |decisions| && AllPending(key, db, decisions) && Res.Resolves(db.identities, applied, decisions)
    requires RowsStay(applied, later) && AllSettled(later, decisions) && Res.Unresolves(later, returned, decisions)
    ensures var d := decisions[k];
            && d.blocked in db.identities && d.reserved in db.identities && returned.Keys == later.Keys
            && d.blocked in later && d.reserved in later
            && returned[d.blocked] == db.identities[d.blocked] && returned[d.reserved] == db.identities[d.reserved]
  {
    hide MappingsAgree, Format;
    var d := decisions[k];
    assert Pending(key, db, d) && Res.Carried(db.identities, applied, d);
    assert Settled(later, d) && Res.Returned(later, returned, d);
  }

  // ---- lookups ----

  /** Opening the gate under a migration plan, in whatever state the installation is: from that moment names and
      identifiers mean what the plan says. */
  lemma OpeningMeansPlan(site: Site, w: World, plan: Plan, maxRows: nat)
    requires Arrives(site, w) && Enabled(site, w, Operate(OpenGate(plan, maxRows))) && OnlyPlanWithDigest(site.h, plan)
    ensures var w' := Next(site, w, Operate(OpenGate(plan, maxRows)));
            && ServiceOpen(w'.m.db.gate) && w'.cfg.watermark == plan.watermark
            && Migrated(site.h, w'.cfg.env.key, w'.m.db, plan)
  {
    hide Arrives, WorldOk, Enabled, Next, IdentitiesOk, Activatable, Migrated;
    ArrivesOk(site, w);
    RowsOk(w);
    OpensUnder(site, w, plan, maxRows);
    ActivationMeansPlan(site.h, site.catalog, w.cfg.env.key, w.schema, w.m.db, maxRows, plan);
  }

  lemma OpensUnder(site: Site, w: World, plan: Plan, maxRows: nat)
    requires WorldOk(w) && Enabled(site, w, Operate(OpenGate(plan, maxRows)))
    ensures Activatable(site.h, site.catalog, w.cfg.env.key, w.schema, w.m.db, maxRows, plan)
    ensures w.m.db.gate.Some? && w.m.db.gate.value.watermark == w.cfg.watermark
    ensures w.m.db.gate.value.version == 1 || w.m.db.gate.value.version == 2
    ensures Next(site, w, Operate(OpenGate(plan, maxRows)))
            == w.(m := WithGate(w.m, w.m.db.gate.value.(phase := Open)))
  {
    assert w.m.db.gate.Some? by {
      hide Inv, Reviewed, TableIs, MigrationValidate.ValidPlan;
    }
    hide Inv, Bare, Activatable, M.Enabled, M.Next;
  }

  predicate NoResolution(steps: seq<WorldStep>)
  {
    forall k :: 0 <= k < |steps| ==> !(steps[k].Operate? && (steps[k].tx.Resolve? || steps[k].tx.Unresolve?))
  }

  lemma {:induction false} QuietRunKeepsRows(site: Site, w: World, steps: seq<WorldStep>, w': World)
    requires WorldOk(w) && Execute(site, w, steps) == Some(w') && NoResolution(steps)
    ensures forall i | i in w.m.db.identities ::
              i in w'.m.db.identities && w'.m.db.identities[i] == w.m.db.identities[i]
    decreases |steps|
  {
    hide WorldOk, Enabled, Next;
    if steps != [] {
      WorldStepOk(site, w, steps[0]);
      StepKeepsRows(site, w, steps[0]);
      QuietRunKeepsRows(site, Next(site, w, steps[0]), steps[1..], w');
    }
  }

  /** A legacy identifier the plan gave to nobody. */
  ghost predicate Unassigned(h: Hashes, key: string -> string, source: Db, u: Uuid)
  {
    && u in LegacyUuids(SourceMappings(key, source.mappings))
    && forall pid | pid in source.players :: Planned(h, key, source, pid) != Some(u)
  }

  /** The migration preserves meaning, end to end. Once the gate has been opened under a reviewed plan, and as long
      as no player is edited and no resolution applied, whatever else runs: a name nobody has is NotFound; a name
      whose player the plan made active gives exactly the planned identity; any other name needs review. An
      identifier the plan gave to a player is found as that player; every other legacy identifier is NotFound. */
  lemma MigrationPreservesMeaning(site: Site, w: World, plan: Plan, maxRows: nat, steps: seq<WorldStep>, w': World,
                                  name: string, u: Uuid)
    requires Arrives(site, w) && Enabled(site, w, Operate(OpenGate(plan, maxRows))) && OnlyPlanWithDigest(site.h, plan)
    requires Execute(site, Next(site, w, Operate(OpenGate(plan, maxRows))), steps) == Some(w') && NoResolution(steps)
    requires w'.m.db.players == w.m.db.players
    ensures var env, db := w.cfg.env, w'.m.db;
            && (Named(env.key, db.players, name) == {} ==> LookupName(env, db, plan.watermark, name) == Err(NotFound))
            && (forall pid | pid in Named(env.key, db.players, name) ::
                  match Planned(site.h, env.key, w.m.db, pid)
                  case None => LookupName(env, db, plan.watermark, name) == Err(IdentityConflict)
                  case Some(v) => exists id :: LookupName(env, db, plan.watermark, name)
                                               == Ok(Identity(id, pid, v, db.players[pid].name, db.players[pid].owner)))
            && (forall pid | pid in db.players && Planned(site.h, env.key, w.m.db, pid) == Some(u) ::
                  exists id :: LookupUuid(db, u)
                               == Ok(Identity(id, pid, u, db.players[pid].name, db.players[pid].owner)))
            && (Unassigned(site.h, env.key, w.m.db, u) ==> LookupUuid(db, u) == Err(NotFound))
  {
    hide Arrives, WorldOk, Enabled, Execute, Migrated, Planned, LookupName, LookupUuid, Permitted, Effect;
    var w1 := Next(site, w, Operate(OpenGate(plan, maxRows)));
    OpeningMeansPlan(site, w, plan, maxRows);
    OpeningKeepsTables(site, w, plan, maxRows);
    ArrivesOk(site, w);
    WorldStepOk(site, w, Operate(OpenGate(plan, maxRows)));
    QuietRunKeepsRows(site, w1, steps, w');
    WorldRunOk(site, w1, steps, w');
    RowsOk(w');
    hide IdentitiesOk;
    MeaningOf(site.h, w.cfg.env, w.m.db, w1.m.db, w'.m.db, plan, name, u);
  }

  lemma OpeningKeepsTables(site: Site, w: World, plan: Plan, maxRows: nat)
    requires Enabled(site, w, Operate(OpenGate(plan, maxRows)))
    ensures var w' := Next(site, w, Operate(OpenGate(plan, maxRows)));
            w'.m.db == w.m.db.(gate := w'.m.db.gate) && w'.cfg == w.cfg
  {
    hide Activatable;
  }

  lemma MeaningOf(h: Hashes, env: Env, source: Db, atOpening: Db, db: Db, plan: Plan, name: string, u: Uuid)
    requires Migrated(h, env.key, atOpening, plan) && atOpening == source.(gate := atOpening.gate)
    requires db.players == source.players && IdentitiesOk(db.identities)
    requires forall i | i in atOpening.identities :: i in db.identities && db.identities[i] == atOpening.identities[i]
    ensures Named(env.key, db.players, name) == {} ==> LookupName(env, db, plan.watermark, name) == Err(NotFound)
    ensures forall pid | pid in Named(env.key, db.players, name) ::
              match Planned(h, env.key, source, pid)
              case None => LookupName(env, db, plan.watermark, name) == Err(IdentityConflict)
              case Some(v) => exists id :: LookupName(env, db, plan.watermark, name)
                                           == Ok(Identity(id, pid, v, db.players[pid].name, db.players[pid].owner))
    ensures forall pid | pid in db.players && Planned(h, env.key, source, pid) == Some(u) ::
              exists id :: LookupUuid(db, u) == Ok(Identity(id, pid, u, db.players[pid].name, db.players[pid].owner))
    ensures Unassigned(h, env.key, source, u) ==> LookupUuid(db, u) == Err(NotFound)
  {
    hide Migrated, LookupName, LookupUuid, IdentitiesOk, PlannedUuid;
    assert forall pid | pid in source.players :: Planned(h, env.key, source, pid)
                                                 == Planned(h, env.key, atOpening, pid);
    NameMeansPlan(h, env, atOpening, plan, name);
    UuidMeansPlan(h, env, atOpening, plan, u);
    MeaningLasts(h, env, atOpening, db, plan, name, u);
    forall pid | pid in source.players && Planned(h, env.key, source, pid) == Some(u)
      ensures exists i :: i in atOpening.identities && atOpening.identities[i].uuid == Some(u)
    {
      var i := PlayerHasRow(h, env.key, atOpening, plan, pid);
    }
    if Unassigned(h, env.key, source, u) {
      var i := LegacyHasRow(h, env.key, atOpening, plan, u);
    }
  }

  lemma LegacyHasRow(h: Hashes, key: string -> string, db: Db, plan: Plan, u: Uuid) returns (i: nat)
    requires Migrated(h, key, db, plan) && u in LegacyUuids(SourceMappings(key, db.mappings))
    ensures OnlyIn(db.identities, u, i)
  {
    hide IdentitiesOk, TableIs, PlanActions, Format;
    EveryLegacyUuidOnce(h, SourcePlayers(key, db.players), SourceMappings(key, db.mappings), u);
    var a :| a in PlanActions(h, SourcePlayers(key, db.players), SourceMappings(key, db.mappings))
        && a.uuid == Format(u);
    i := ActionUuidHasRow(db.identities, plan.actions, a, u);
  }

  // ---- lookups after a resolution ----

  lemma {:induction false} RunKeepsEnv(site: Site, w: World, steps: seq<WorldStep>, w': World)
    requires Execute(site, w, steps) == Some(w')
    ensures w'.cfg.env == w.cfg.env
    decreases |steps|
  {
    hide Enabled, Next;
    if steps != [] {
      StepKeepsEnv(site, w, steps[0]);
      RunKeepsEnv(site, Next(site, w, steps[0]), steps[1..], w');
    }
  }

  lemma StepKeepsEnv(site: Site, w: World, step: WorldStep)
    requires Enabled(site, w, step)
    ensures Next(site, w, step).cfg.env == w.cfg.env
  {
    hide Permitted;
  }

  /** Every player the plan knew, and every legacy identifier, still has its row when a quiet run ends. */
  lemma RowsAfterOpening(site: Site, w: World, plan: Plan, maxRows: nat, steps: seq<WorldStep>, w': World, u: Uuid)
    requires Arrives(site, w) && Enabled(site, w, Operate(OpenGate(plan, maxRows))) && OnlyPlanWithDigest(site.h, plan)
    requires Execute(site, Next(site, w, Operate(OpenGate(plan, maxRows))), steps) == Some(w') && NoResolution(steps)
    ensures forall pid | pid in w.m.db.players ::
              exists i :: i in w'.m.db.identities && w'.m.db.identities[i].player == Some(pid)
    ensures u in LegacyUuids(SourceMappings(w.cfg.env.key, w.m.db.mappings)) ==>
              exists i :: i in w'.m.db.identities && w'.m.db.identities[i].uuid == Some(u)
    ensures forall pid | pid in w.m.db.players && Planned(site.h, w.cfg.env.key, w.m.db, pid) == Some(u) ::
              exists i :: i in w'.m.db.identities && w'.m.db.identities[i].uuid == Some(u)
  {
    hide Arrives, WorldOk, Enabled, Execute, Migrated, Planned, Permitted, Effect;
    var w1 := Next(site, w, Operate(OpenGate(plan, maxRows)));
    OpeningMeansPlan(site, w, plan, maxRows);
    OpeningKeepsTables(site, w, plan, maxRows);
    ArrivesOk(site, w);
    WorldStepOk(site, w, Operate(OpenGate(plan, maxRows)));
    QuietRunKeepsRows(site, w1, steps, w');
    var key, source, live := w.cfg.env.key, w.m.db, w1.m.db;
    SamePlanned(site.h, key, source, live);
    forall pid | pid in source.players
      ensures exists i :: i in w'.m.db.identities && w'.m.db.identities[i].player == Some(pid)
      ensures Planned(site.h, key, source, pid) == Some(u) ==>
                exists i :: i in w'.m.db.identities && w'.m.db.identities[i].uuid == Some(u)
    {
      var i := PlayerHasRow(site.h, key, live, plan, pid);
    }
    if u in LegacyUuids(SourceMappings(key, source.mappings)) {
      var i := LegacyHasRow(site.h, key, live, plan, u);
    }
  }

  lemma SamePlanned(h: Hashes, key: string -> string, a: Db, b: Db)
    requires a.players == b.players && a.mappings == b.mappings
    ensures forall pid | pid in a.players :: Planned(h, key, a, pid) == Planned(h, key, b, pid)
  {
  }

  lemma ResolveStarts(site: Site, w: World, r: Resolution, ids: map<nat, IdRow>)
    requires Enabled(site, w, Operate(Resolve(r, ids)))
    ensures Next(site, w, Operate(Resolve(r, ids))).m.db.identities == ids
    ensures AllPending(w.cfg.env.key, w.m.db, r.decisions) && Res.Resolves(w.m.db.identities, ids, r.decisions)
  {
  }

  /** What the rows of a resolution are later, in any quiet run. */
  lemma ResolutionOutlives(site: Site, w: World, r: Resolution, ids: map<nat, IdRow>, steps: seq<WorldStep>, w': World)
    requires WorldOk(w) && Enabled(site, w, Operate(Resolve(r, ids))) && w'.m.db.players == w.m.db.players
    requires Execute(site, Next(site, w, Operate(Resolve(r, ids))), steps) == Some(w') && NoResolution(steps)
    ensures Means.Outlives(w.cfg.env, w.m.db, ids, r.decisions, w'.m.db)
  {
    ResolveStarts(site, w, r, ids);
    var w1 := Next(site, w, Operate(Resolve(r, ids)));
    hide WorldOk, Execute, Permitted, Effect, Enabled, Next, IdentitiesOk, AllPending, Res.Resolves, NoResolution;
    WorldStepOk(site, w, Operate(Resolve(r, ids)));
    QuietRunKeepsRows(site, w1, steps, w');
    WorldRunOk(site, w1, steps, w');
    RowsOk(w);
    RowsOk(w');
  }

  /** All bearers of a name, or none, have been decided on: a decided player is alone under its name. */
  lemma DecidedIsAlone(key: string -> string, db: Db, decisions: seq<Decision>, name: string, pid: nat, other: nat)
    requires AllPending(key, db, decisions) && Means.Decided(decisions, other)
    requires pid in Named(key, db.players, name) && other in Named(key, db.players, name)
    ensures pid == other
  {
    hide MappingsAgree, Format;
    var k :| 0 <= k < |decisions| && decisions[k].player == other;
    assert Pending(key, db, decisions[k]);
    assert pid in Named(key, db.players, db.players[other].name);
  }

  /** An approved identifier was nobody's until the resolution. */
  lemma ApprovedWasNobodys(env: Env, db: Db, decisions: seq<Decision>, u: Uuid)
    requires IdentitiesOk(db.identities) && AllPending(env.key, db, decisions) && Means.Approves(decisions, u)
    ensures LookupUuid(db, u) == Err(NotFound)
  {
    hide Pending, IdentitiesOk, LookupUuid, ParseCanonical;
    var k :| 0 <= k < |decisions| && ParseCanonical(decisions[k].uuid) == Some(u);
    Means.PendingMeans(env, db, 0, decisions[k], decisions[k].name);
  }

  /** What the plan and the decisions together say of a name. */
  ghost predicate NameMeans(h: Hashes, env: Env, source: Db, decisions: seq<Decision>, watermark: nat, db: Db,
                            name: string)
  {
    && (Named(env.key, db.players, name) == {} ==> LookupName(env, db, watermark, name) == Err(NotFound))
    && (forall k | 0 <= k < |decisions| && env.key(decisions[k].name) == env.key(name) ::
          && decisions[k].player in db.players && ParseCanonical(decisions[k].uuid).Some?
          && LookupName(env, db, watermark, name) == Ok(Means.Given(db, decisions[k])))
    && (forall pid | pid in Named(env.key, db.players, name) && pid in source.players
        && !Means.Decided(decisions, pid) ::
          match Planned(h, env.key, source, pid)
          case None => LookupName(env, db, watermark, name) == Err(IdentityConflict)
          case Some(v) => exists id :: LookupName(env, db, watermark, name)
                                       == Ok(Identity(id, pid, v, db.players[pid].name, db.players[pid].owner)))
  }

  /** And of an identifier. */
  ghost predicate UuidMeans(h: Hashes, env: Env, source: Db, decisions: seq<Decision>, db: Db, u: Uuid)
  {
    && (forall k | 0 <= k < |decisions| && ParseCanonical(decisions[k].uuid) == Some(u) ::
          decisions[k].player in db.players && LookupUuid(db, u) == Ok(Means.Given(db, decisions[k])))
    && (forall pid | pid in db.players && pid in source.players && Planned(h, env.key, source, pid) == Some(u) ::
          exists id :: LookupUuid(db, u) == Ok(Identity(id, pid, u, db.players[pid].name, db.players[pid].owner)))
    && (Unassigned(h, env.key, source, u) && !Means.Approves(decisions, u) ==> LookupUuid(db, u) == Err(NotFound))
  }

  /** The resolution completes the migration and disturbs nothing else. The gate is opened under a reviewed plan;
      anything runs; a reviewed resolution is applied; anything runs, until the rollback. From the resolution on,
      each decided player's name, in every equivalent spelling, and the approved identifier find each other, where
      before the name needed review and the identifier was nobody's; every other name and every other identifier
      the migration covered still means what the plan decided. */
  lemma ResolutionCompletesMigration(site: Site, w: World, plan: Plan, maxRows: nat, steps: seq<WorldStep>, w1: World,
                                     r: Resolution, ids: map<nat, IdRow>, more: seq<WorldStep>,
                                     w2: World, name: string, u: Uuid)
    requires Arrives(site, w) && Enabled(site, w, Operate(OpenGate(plan, maxRows))) && OnlyPlanWithDigest(site.h, plan)
    requires Execute(site, Next(site, w, Operate(OpenGate(plan, maxRows))), steps) == Some(w1) && NoResolution(steps)
    requires Enabled(site, w1, Operate(Resolve(r, ids)))
    requires Execute(site, Next(site, w1, Operate(Resolve(r, ids))), more) == Some(w2) && NoResolution(more)
    requires w1.m.db.players == w.m.db.players && w2.m.db.players == w.m.db.players
    ensures NameMeans(site.h, w.cfg.env, w.m.db, [], plan.watermark, w1.m.db, name)
    ensures UuidMeans(site.h, w.cfg.env, w.m.db, [], w1.m.db, u)
    ensures NameMeans(site.h, w.cfg.env, w.m.db, r.decisions, plan.watermark, w2.m.db, name)
    ensures UuidMeans(site.h, w.cfg.env, w.m.db, r.decisions, w2.m.db, u)
  {
    hide Arrives, WorldOk, Enabled, Execute, Migrated, Planned, LookupName, LookupUuid, Permitted, Effect, IdentitiesOk,
      NoResolution, Unassigned, Means.Outlives, NameMeans, UuidMeans, Next, ParseCanonical;
    var opening := Next(site, w, Operate(OpenGate(plan, maxRows)));
    MigrationPreservesMeaning(site, w, plan, maxRows, steps, w1, name, u);
    RowsAfterOpening(site, w, plan, maxRows, steps, w1, u);
    ArrivesOk(site, w);
    WorldStepOk(site, w, Operate(OpenGate(plan, maxRows)));
    WorldRunOk(site, opening, steps, w1);
    StepKeepsEnv(site, w, Operate(OpenGate(plan, maxRows)));
    RunKeepsEnv(site, opening, steps, w1);
    ResolutionOutlives(site, w1, r, ids, more, w2);
    NameWithPlan(site.h, w.cfg.env, w.m.db, plan.watermark, w1.m.db, name);
    UuidWithPlan(site.h, w.cfg.env, w.m.db, w1.m.db, u);
    NameWithDecisions(site.h, w.cfg.env, w.m.db, w1.m.db, ids, r.decisions, plan.watermark, w2.m.db, name);
    UuidWithDecisions(site.h, w.cfg.env, w.m.db, w1.m.db, ids, r.decisions, w2.m.db, u);
  }

  /** Without decisions the two say what MigrationPreservesMeaning concludes. */
  lemma NameWithPlan(h: Hashes, env: Env, source: Db, watermark: nat, db: Db, name: string)
    requires Named(env.key, db.players, name) == {} ==> LookupName(env, db, watermark, name) == Err(NotFound)
    requires db.players == source.players
    requires forall pid | pid in Named(env.key, db.players, name) ::
               match Planned(h, env.key, source, pid)
               case None => LookupName(env, db, watermark, name) == Err(IdentityConflict)
               case Some(v) => exists id :: LookupName(env, db, watermark, name)
                                            == Ok(Identity(id, pid, v, db.players[pid].name, db.players[pid].owner))
    ensures NameMeans(h, env, source, [], watermark, db, name)
  {
    hide LookupName, Planned;
  }

  lemma UuidWithPlan(h: Hashes, env: Env, source: Db, db: Db, u: Uuid)
    requires db.players == source.players
    requires forall pid | pid in db.players && Planned(h, env.key, source, pid) == Some(u) ::
               exists id :: LookupUuid(db, u) == Ok(Identity(id, pid, u, db.players[pid].name, db.players[pid].owner))
    requires Unassigned(h, env.key, source, u) ==> LookupUuid(db, u) == Err(NotFound)
    ensures UuidMeans(h, env, source, [], db, u)
  {
    hide LookupUuid, Planned, Unassigned;
  }

  lemma NameWithDecisions(h: Hashes, env: Env, source: Db, before: Db, ids: map<nat, IdRow>, decisions: seq<Decision>,
                          watermark: nat, db: Db, name: string)
    requires before.players == source.players && Means.Outlives(env, before, ids, decisions, db)
    requires forall pid | pid in source.players ::
              exists i :: i in before.identities && before.identities[i].player == Some(pid)
    requires NameMeans(h, env, source, [], watermark, before, name)
    ensures NameMeans(h, env, source, decisions, watermark, db, name)
  {
    hide LookupName, Planned, IdentitiesOk, ParseCanonical, Res.Resolves;
    assert AllPending(env.key, before, decisions) && db.players == before.players;
    forall k | 0 <= k < |decisions| && env.key(decisions[k].name) == env.key(name)
      ensures decisions[k].player in db.players && ParseCanonical(decisions[k].uuid).Some?
      ensures LookupName(env, db, watermark, name) == Ok(Means.Given(db, decisions[k]))
    {
      Means.DecisionMeans(env, before, ids, decisions, db, watermark, k, name);
    }
    hide AllPending, Means.Outlives;
    if forall pid | pid in Named(env.key, before.players, name) :: !Means.Decided(decisions, pid) {
      Means.OtherNameKept(env, before, ids, decisions, db, watermark, name);
    } else {
      var other :| other in Named(env.key, before.players, name) && Means.Decided(decisions, other);
      forall pid | pid in Named(env.key, before.players, name)
        ensures pid == other
      {
        DecidedIsAlone(env.key, before, decisions, name, pid, other);
      }
    }
  }

  lemma UuidWithDecisions(h: Hashes, env: Env, source: Db, before: Db, ids: map<nat, IdRow>, decisions: seq<Decision>,
                          db: Db, u: Uuid)
    requires before.players == source.players && Means.Outlives(env, before, ids, decisions, db)
    requires u in LegacyUuids(SourceMappings(env.key, source.mappings)) ==>
               exists i :: i in before.identities && before.identities[i].uuid == Some(u)
    requires forall pid | pid in source.players && Planned(h, env.key, source, pid) == Some(u) ::
               exists i :: i in before.identities && before.identities[i].uuid == Some(u)
    requires UuidMeans(h, env, source, [], before, u)
    ensures UuidMeans(h, env, source, decisions, db, u)
  {
    hide LookupUuid, Planned, IdentitiesOk, Res.Resolves, ParseCanonical;
    assert AllPending(env.key, before, decisions) && IdentitiesOk(before.identities) && db.players == before.players;
    hide AllPending, Means.Outlives;
    if Means.Approves(decisions, u) {
      ApprovedWasNobodys(env, before, decisions, u);
      forall k | 0 <= k < |decisions| && ParseCanonical(decisions[k].uuid) == Some(u)
        ensures decisions[k].player in db.players && LookupUuid(db, u) == Ok(Means.Given(db, decisions[k]))
      {
        Means.DecisionMeans(env, before, ids, decisions, db, 0, k, decisions[k].name);
      }
    } else if i :| i in before.identities && before.identities[i].uuid == Some(u) {
      Means.OtherUuidKept(env, before, ids, decisions, db, u, i);
    }
  }
}
