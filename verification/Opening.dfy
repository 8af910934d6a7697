/** A fresh installation can be migrated, opened and used: the premises of the other theorems are met by real runs. */
module Opening {
  import opened Basics
  import opened Uuids
  import opened Tables
  import opened Directory
  import Database
  import opened Listing
  import opened MigrationPlan
  import opened MigrationValidate
  import opened MigrationApply
  import MigrationLookup
  import M = Machine
  import opened Lifecycle
  import MachineTheorems

  // ---- the rows of a plan ----

  /** One row for each action, numbered from 1. */
  function RowsOf(actions: seq<Action>): map<nat, IdRow>
  {
    if actions == [] then map[]
    else RowsOf(actions[..|actions| - 1])[|actions| := RowFor(actions[|actions| - 1])]
  }

  lemma {:induction false} RowsInserted(actions: seq<Action>)
    requires forall a | a in actions :: WellFormed(a)
    ensures Inserted(RowsOf(actions), actions)
    ensures forall i | i in RowsOf(actions) :: i <= |actions|
  {
    hide WellFormed, RowFor, ActionOf, Holds;
    if actions == [] {
      HoldsNothing(ActionOf);
      assert Unreasoned(actions) == [];
    } else {
      var n := |actions| - 1;
      var before, a := RowsOf(actions[..n]), actions[n];
      RowsInserted(actions[..n]);
      RowFits(a);
      HoldsOneMore(before, ActionOf, Unreasoned(actions[..n]), n + 1, RowFor(a));
      assert Unreasoned(actions) == Unreasoned(actions[..n]) + [a.(reason := "")];
      assert actions[..n + 1] == actions;
      InsertedOneMore(before, actions, n, n + 1);
    }
  }

  /** A plan made from the present source rows passes the review. */
  lemma BuiltIsReviewed(h: Hashes, catalog: Database.Catalog, key: string -> string, db: Db, maxRows: nat,
                        s: Snapshot, plan: Plan)
    requires Readable(catalog, db, maxRows) && IsSnapshotOf(catalog, key, db, s) && Accepted(s)
    requires plan.migration != NIL && IsPlanOf(h, s, plan.migration, plan.createdAt, plan)
    ensures Reviewed(h, catalog, key, db, maxRows, plan)
  {
    hide IsPlanOf, Accepted, IsSnapshotOf;
  }

  /** An empty installation that has been filled with the rows of a plan. */
  function Filled(w: World, plan: Plan, phase: Phase): World
  {
    w.(cfg := w.cfg.(watermark := plan.watermark),
       m := WithGate(WithIds(w.m, RowsOf(plan.actions)), Gate(1, phase, plan.watermark, plan.migration)))
  }

  /** The step can be taken and leads there. */
  ghost predicate Leaves(site: Site, w: World, step: WorldStep, w': World)
  {
    Enabled(site, w, step) && Next(site, w, step) == w'
  }

  /** Whatever accounts, players and mappings there are, if the source can be read at all then the plan Build makes
      of it can be staged and its gate opened; the rows are the plan's and the other tables are as they were. */
  lemma FreshInstallationOpens(site: Site, w: World, maxRows: nat, s: Snapshot, plan: Plan)
    requires Initial(w) && Readable(site.catalog, w.m.db, maxRows)
    requires IsSnapshotOf(site.catalog, w.cfg.env.key, w.m.db, s) && Accepted(s)
    requires plan.migration != NIL && plan.createdAt != 0 && IsPlanOf(site.h, s, plan.migration, plan.createdAt, plan)
    ensures Execute(site, w, [Operate(Stage(plan, maxRows, RowsOf(plan.actions))), Operate(OpenGate(plan, maxRows))])
            == Some(Filled(w, plan, Open))
    ensures ServiceOpen(Filled(w, plan, Open).m.db.gate) && Inserted(RowsOf(plan.actions), plan.actions)
    ensures ValidPlan(plan)
    ensures Leaves(site, w, Operate(Stage(plan, maxRows, RowsOf(plan.actions))), Filled(w, plan, Staged))
    ensures Leaves(site, Filled(w, plan, Staged), Operate(OpenGate(plan, maxRows)), Filled(w, plan, Open))
  {
    hide IsSnapshotOf, Accepted, IsPlanOf, ValidPlan, Reviewed, TableIs, Inserted;
    BuiltPlanIsValid(site.h, s, plan);
    BuiltIsReviewed(site.h, site.catalog, w.cfg.env.key, w.m.db, maxRows, s, plan);
    ActionsWellFormed(plan);
    RowsInserted(plan.actions);
    StagesFresh(site, w, maxRows, plan);
    var w1 := Filled(w, plan, Staged);
    var atStaged := w1.m.db;
    assert IsSnapshotOf(site.catalog, w.cfg.env.key, atStaged, s) by {
      SameSource(site.catalog, w.cfg.env.key, w.m.db, atStaged, s);
    }
    BuiltIsReviewed(site.h, site.catalog, w.cfg.env.key, atStaged, maxRows, s, plan);
    OpensStaged(site, w, maxRows, plan);
    var stage, open := Operate(Stage(plan, maxRows, RowsOf(plan.actions))), Operate(OpenGate(plan, maxRows));
    hide Enabled, Next;
    assert [stage, open][1..] == [open];
    assert Execute(site, w1, [open]) == Execute(site, Next(site, w1, open), []);
  }

  lemma ActionsWellFormed(plan: Plan)
    requires ValidPlan(plan)
    ensures forall a | a in plan.actions :: WellFormed(a)
  {
    hide WellFormed;
  }

  lemma SameSource(catalog: Database.Catalog, key: string -> string, a: Db, b: Db, s: Snapshot)
    requires IsSnapshotOf(catalog, key, a, s) && a.players == b.players && a.mappings == b.mappings
    ensures IsSnapshotOf(catalog, key, b, s)
  {
  }

  lemma StagesFresh(site: Site, w: World, maxRows: nat, plan: Plan)
    requires Initial(w) && ValidPlan(plan) && Reviewed(site.h, site.catalog, w.cfg.env.key, w.m.db, maxRows, plan)
    requires Inserted(RowsOf(plan.actions), plan.actions)
    ensures var step := Operate(Stage(plan, maxRows, RowsOf(plan.actions)));
            Enabled(site, w, step) && Next(site, w, step) == Filled(w, plan, Staged)
  {
    hide ValidPlan, Reviewed, Inserted, RowsOf;
  }

  lemma OpensStaged(site: Site, w: World, maxRows: nat, plan: Plan)
    requires Initial(w) && ValidPlan(plan) && Inserted(RowsOf(plan.actions), plan.actions)
    requires Reviewed(site.h, site.catalog, w.cfg.env.key, Filled(w, plan, Staged).m.db, maxRows, plan)
    ensures var step := Operate(OpenGate(plan, maxRows));
            Enabled(site, Filled(w, plan, Staged), step)
                && Next(site, Filled(w, plan, Staged), step) == Filled(w, plan, Open)
  {
    hide ValidPlan, Reviewed, Inserted, RowsOf, M.Enabled, M.Next, Activatable;
    StagedIsActivatable(site, w, Filled(w, plan, Staged).m.db, maxRows, plan);
  }

  lemma StagedIsActivatable(site: Site, w: World, db: Db, maxRows: nat, plan: Plan)
    requires w.schema.userHooks && ValidPlan(plan) && Inserted(db.identities, plan.actions)
    requires db.gate == Some(Gate(1, Staged, plan.watermark, plan.migration))
    requires Reviewed(site.h, site.catalog, w.cfg.env.key, db, maxRows, plan)
    ensures Activatable(site.h, site.catalog, w.cfg.env.key, w.schema, db, maxRows, plan)
  {
    VersionIsOne(plan);
    InsertedIsTable(db.identities, plan.actions);
    hide ValidPlan, Reviewed, Inserted, TableIs;
  }

  // ---- an installation in which nothing is left open ----

  const MIGRATION: Uuid := [1, 0, 0, 0, 0, 0, 0, 0, 0, 0, 0, 0, 0, 0, 0, 0]

  const NO_ROWS: Snapshot := Snapshot("game", "utf8", "utf8", "NO PAD", 1, [], [])

  const EMPTY_PLAN: Plan := Plan(1, MIGRATION, 1, 0, 0, Summary(0, 0, 0, 0, 0, 0), [])

  function EmptySite(): Site
  {
    Site(Hashes(name => NIL, s => 0, plan => if plan == EMPTY_PLAN then 1 else 0), decisions => 0,
         Database.Catalog("game", "utf8", "utf8", "NO PAD", 1))
  }

  function EmptyWorld(env: Env, quota: nat): World
  {
    World(M.Config(env, 0, quota),
          M.State(Db(map[], map[], map[], map[], map[], map[], map[], None), 0, [], map[], {},
                  0), Database.Schema(true, false, false, false), None)
  }

  lemma EmptyPlanIsPlan()
    ensures IsPlanOf(EmptySite().h, NO_ROWS, MIGRATION, 1, EMPTY_PLAN) && Accepted(NO_ROWS)
  {
    var h := EmptySite().h;
    assert Canonical(NO_ROWS, NO_ROWS);
    assert PlanActions(h, {}, {}) == {};
    assert Elements(NO_ROWS.players) == {} && Elements(NO_ROWS.mappings) == {};
    assert Unparsed({}) == {};
  }

  /** Under any account policy an installation without accounts can be opened, and no other plan has its plan's
      digest. */
  lemma EmptyInstallationOpens(env: Env, quota: nat)
    requires env.ttl > 0 && quota > 0
    ensures var w, w' := EmptyWorld(env, quota), Filled(EmptyWorld(env, quota), EMPTY_PLAN, Open);
            && Initial(w) && ServiceOpen(w'.m.db.gate) && MigrationLookup.OnlyPlanWithDigest(EmptySite().h, EMPTY_PLAN)
            && MachineTheorems.Reachable(w'.cfg, w'.m)
            && w'.m.txns == map[] && w'.m.db == w.m.db.(gate := Some(Gate(1, Open, 0, MIGRATION)))
  {
    hide IsPlanOf, Accepted, Execute, IsSnapshotOf, Readable, EmptySite, EmptyWorld, Filled, Initial,
      MigrationLookup.OnlyPlanWithDigest, Leaves, ValidPlan, Inserted;
    var site, w := EmptySite(), EmptyWorld(env, quota);
    EmptyPlanIsPlan();
    EmptyIsInitial(env, quota);
    EmptySource(env.key, w.m.db);
    FreshInstallationOpens(site, w, 0, NO_ROWS, EMPTY_PLAN);
    OnlyEmptyPlan();
  }

  lemma OnlyEmptyPlan()
    ensures MigrationLookup.OnlyPlanWithDigest(EmptySite().h, EMPTY_PLAN)
  {
  }

  lemma EmptyIsInitial(env: Env, quota: nat)
    requires env.ttl > 0 && quota > 0
    ensures var w, w' := EmptyWorld(env, quota), Filled(EmptyWorld(env, quota), EMPTY_PLAN, Open);
            && Initial(w) && w.cfg.env == env && w.m.db.players == map[] && w.m.db.mappings == map[]
            && w'.m.txns == map[] && w'.m.db == w.m.db.(gate := Some(Gate(1, Open, 0, MIGRATION)))
  {
    assert RowsOf(EMPTY_PLAN.actions) == map[];
  }

  lemma EmptySource(key: string -> string, db: Db)
    requires db.players == map[] && db.mappings == map[]
    ensures Readable(EmptySite().catalog, db, 0) && IsSnapshotOf(EmptySite().catalog, key, db, NO_ROWS)
  {
  }
}
