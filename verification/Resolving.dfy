/** A blocked player can be resolved: the premises of the theorems on resolutions and rollbacks are met by real runs. */
module Resolving {
  import opened Basics
  import opened Sorting
  import opened Uuids
  import opened Tables
  import opened Directory
  import Database
  import opened Listing
  import opened MigrationPlan
  import opened MigrationValidate
  import opened MigrationApply
  import MigrationLookup
  import opened ResolutionPlan
  import Res = ResolutionApply
  import M = Machine
  import opened Lifecycle
  import LifecycleTheorems
  import opened Opening

  // ---- from an open gate to the second version ----

  const FULL: Database.Schema := Database.Schema(true, true, true, true)

  /** The same installation closed again, with the second schema installed and in force. */
  function Prepared(w: World): World
    requires w.m.db.gate.Some?
  {
    w.(schema := FULL, m := WithGate(w.m, w.m.db.gate.value.(version := 2, phase := Staged)))
  }

  /** Installing the second schema, statement by statement. */
  const INSTALL: seq<WorldStep> := [Start(Upgrade), Statement, Statement, Statement, Statement]

  /** The operator closes the gate, installs the second schema and turns it on. */
  function Route(plan: Plan): seq<WorldStep>
  {
    [Operate(CloseGate(plan))] + INSTALL + [Operate(SecondVersionOn)]
  }

  function Gated(w: World, gate: Gate): World
  {
    w.(m := WithGate(w.m, gate))
  }

  function Installing(w: World, links: bool, insertHook: bool, updateHook: bool, completed: nat): World
  {
    w.(schema := Database.Schema(true, links, insertHook, updateHook), running := Some(Running(Upgrade, completed)))
  }

  lemma Closes(site: Site, w: World, plan: Plan)
    requires ValidPlan(plan) && Idle(w) && w.running.None?
    requires w.m.db.gate == Some(Gate(1, Open, plan.watermark, plan.migration))
    ensures Leaves(site, w, Operate(CloseGate(plan)), Gated(w, Gate(1, Staged, plan.watermark, plan.migration)))
  {
    VersionIsOne(plan);
    hide ValidPlan, M.Enabled, M.Next;
  }

  lemma Installs(site: Site, w: World)
    requires w.running.None? && VersionIs(w.m.db, 1) && w.schema == Database.Schema(true, false, false, false)
    ensures Leaves(site, w, Start(Upgrade), Installing(w, false, false, false, 0))
    ensures Leaves(site, Installing(w, false, false, false, 0), Statement, Installing(w, true, false, false, 1))
    ensures Leaves(site, Installing(w, true, false, false, 1), Statement, Installing(w, true, true, false, 2))
    ensures Leaves(site, Installing(w, true, true, false, 2), Statement, Installing(w, true, true, true, 3))
    ensures Leaves(site, Installing(w, true, true, true, 3), Statement, w.(schema := FULL))
  {
    hide Permitted, Effect, M.Enabled, M.Next;
  }

  lemma TurnsOn(site: Site, w: World)
    requires Idle(w) && w.running.None? && VersionIs(w.m.db, 1) && w.schema == FULL
    ensures Leaves(site, w, Operate(SecondVersionOn), Gated(w, w.m.db.gate.value.(version := 2)))
  {
    hide M.Enabled, M.Next;
  }

  lemma RunsFive(site: Site, steps: seq<WorldStep>, w0: World, w1: World, w2: World, w3: World, w4: World, w5: World)
    requires |steps| == 5 && Leaves(site, w0, steps[0], w1) && Leaves(site, w1, steps[1], w2)
    requires Leaves(site, w2, steps[2], w3) && Leaves(site, w3, steps[3], w4) && Leaves(site, w4, steps[4], w5)
    ensures Execute(site, w0, steps) == Some(w5)
  {
    hide Enabled, Next;
    assert Execute(site, w5, steps[1..][1..][1..][1..][1..]) == Some(w5);
    assert Execute(site, w4, steps[1..][1..][1..][1..]) == Some(w5);
    assert Execute(site, w3, steps[1..][1..][1..]) == Some(w5);
    assert Execute(site, w2, steps[1..][1..]) == Some(w5);
  }

  lemma RunsOne(site: Site, w: World, step: WorldStep, w': World)
    requires Leaves(site, w, step, w')
    ensures Execute(site, w, [step]) == Some(w')
  {
    hide Enabled, Next;
    assert Execute(site, w', [step][1..]) == Some(w');
  }

  lemma InstallsAll(site: Site, w: World)
    requires w.running.None? && VersionIs(w.m.db, 1) && w.schema == Database.Schema(true, false, false, false)
    ensures Execute(site, w, INSTALL) == Some(w.(schema := FULL))
  {
    Installs(site, w);
    hide Leaves;
    RunsFive(site, INSTALL, w, Installing(w, false, false, false, 0), Installing(w, true, false, false, 1),
             Installing(w, true, true, false, 2), Installing(w, true, true, true, 3), w.(schema := FULL));
  }

  lemma RouteIsQuiet(plan: Plan)
    ensures LifecycleTheorems.NoResolution(Route(plan))
  {
  }

  lemma Prepares(site: Site, w: World, plan: Plan)
    requires ValidPlan(plan) && Idle(w) && w.running.None? && w.schema == Database.Schema(true, false, false, false)
    requires w.m.db.gate == Some(Gate(1, Open, plan.watermark, plan.migration))
    ensures Execute(site, w, Route(plan)) == Some(Prepared(w)) && LifecycleTheorems.NoResolution(Route(plan))
  {
    var w1 := Gated(w, Gate(1, Staged, plan.watermark, plan.migration));
    var close, on := Operate(CloseGate(plan)), Operate(SecondVersionOn);
    Closes(site, w, plan);
    TurnsOn(site, w1.(schema := FULL));
    InstallsAll(site, w1);
    RouteIsQuiet(plan);
    hide Leaves, ValidPlan, Execute, Idle, LifecycleTheorems.NoResolution;
    RunsOne(site, w, close, w1);
    RunsOne(site, w1.(schema := FULL), on, Prepared(w));
    ExecuteThen(site, w, [close], w1, INSTALL, w1.(schema := FULL));
    ExecuteThen(site, w, [close] + INSTALL, w1.(schema := FULL), [on], Prepared(w));
  }

  // ---- the rows of a resolution ----

  /** A row once every decision has been carried out. */
  ghost function ResolvedRow(row: IdRow, i: nat, decisions: seq<Decision>): IdRow
  {
    if k :| 0 <= k < |decisions| && decisions[k].blocked == i then Res.LinkTo(decisions[k].reserved)
    else if k :| 0 <= k < |decisions| && decisions[k].reserved == i then
      row.(state := Active, player := Some(decisions[k].player))
    else row
  }

  ghost function ResolvedRows(ids: map<nat, IdRow>, decisions: seq<Decision>): map<nat, IdRow>
  {
    map i | i in ids :: ResolvedRow(ids[i], i, decisions)
  }

  /** The rows can always be what a resolution of pending decisions leaves, and what its rollback leaves is what was
      there. */
  lemma ResolvedRowsFit(ids: map<nat, IdRow>, decisions: seq<Decision>)
    requires Res.RowsApart(decisions) && forall k :: 0 <= k < |decisions| ==> Res.ShapedBefore(ids, decisions[k])
    ensures Res.Resolves(ids, ResolvedRows(ids, decisions), decisions)
    ensures Res.Unresolves(ResolvedRows(ids, decisions), ids, decisions)
  {
    var after := ResolvedRows(ids, decisions);
    forall k | 0 <= k < |decisions|
      ensures Res.Carried(ids, after, decisions[k]) && Res.Returned(after, ids, decisions[k])
    {
      RowCarried(ids, decisions, k);
    }
  }

  lemma RowCarried(ids: map<nat, IdRow>, decisions: seq<Decision>, k: nat)
    requires Res.RowsApart(decisions) && k < |decisions| && Res.ShapedBefore(ids, decisions[k])
    ensures Res.Carried(ids, ResolvedRows(ids, decisions), decisions[k])
    ensures Res.Returned(ResolvedRows(ids, decisions), ids, decisions[k])
  {
    var d := decisions[k];
    forall j | 0 <= j < |decisions| && {decisions[j].blocked, decisions[j].reserved} * {d.blocked, d.reserved} != {}
      ensures j == k
    {
    }
    assert forall j :: 0 <= j < |decisions| && decisions[j].blocked == d.blocked ==> j == k;
    assert forall j :: 0 <= j < |decisions| && decisions[j].reserved == d.reserved ==> j == k;
    assert forall j :: 0 <= j < |decisions| && decisions[j].blocked == d.reserved ==> j == k;
  }

  // ---- in any fresh installation ----

  /** The checks of the resolution pass. */
  lemma MayResolve(digest: seq<Decision> -> Digest, key: string -> string, db: Db, r: Resolution)
    requires db.tokens == map[] && Res.SecondVersion(db, true)
    requires ValidResolution(digest, r) && AllPending(key, db, r.decisions)
    ensures Res.CanApply(digest, key, db, r)
    ensures Res.Resolves(db.identities, ResolvedRows(db.identities, r.decisions), r.decisions)
    ensures Res.Unresolves(ResolvedRows(db.identities, r.decisions), db.identities, r.decisions)
  {
    hide Pending, GoodDecision;
    Res.PendingShapes(key, db, r.decisions);
    Res.PendingRowsApart(db.identities, r.decisions);
    hide Res.RowsApart, GoodDecisions, AllPending, Res.Resolves, Res.Unresolves, Res.ShapedBefore, ResolvedRows;
    ResolvedRowsFit(db.identities, r.decisions);
  }

  /** The installation after the resolution. */
  ghost function Settles(w: World, r: Resolution): World
  {
    w.(m := WithIds(w.m, ResolvedRows(w.m.db.identities, r.decisions)))
  }

  /** And then those of the rollback. */
  lemma MayReturn(digest: seq<Decision> -> Digest, key: string -> string, db: Db, after: Db, r: Resolution)
    requires db.tokens == map[] && Res.SecondVersion(db, true) && ValidResolution(digest, r)
    requires AllPending(key, db, r.decisions) && Res.Resolves(db.identities, after.identities, r.decisions)
    requires after == db.(identities := after.identities)
    ensures Res.CanRollback(digest, key, after, r)
  {
    hide ValidResolution, Res.Resolves, AllPending, AllSettled, Res.Returnable;
    SettlesAll(key, db, after, r.decisions);
  }

  lemma ReadyToResolve(site: Site, w: World, r: Resolution)
    requires w.running.None? && Idle(w) && w.m.db.tokens == map[] && Res.SecondVersion(w.m.db, true)
    requires ValidResolution(site.digest, r) && AllPending(w.cfg.env.key, w.m.db, r.decisions)
    ensures Leaves(site, w, Operate(Resolve(r, ResolvedRows(w.m.db.identities, r.decisions))), Settles(w, r))
  {
    hide ValidResolution, AllPending, M.Enabled, M.Next, ResolvedRows, Res.Resolves, Res.Unresolves, Res.CanApply;
    MayResolve(site.digest, w.cfg.env.key, w.m.db, r);
  }

  lemma ReadyToReturn(site: Site, w: World, r: Resolution)
    requires w.running.None? && Idle(w) && w.m.db.tokens == map[] && Res.SecondVersion(w.m.db, true)
    requires ValidResolution(site.digest, r) && AllPending(w.cfg.env.key, w.m.db, r.decisions)
    ensures Enabled(site, Settles(w, r), Operate(Unresolve(r, w.m.db.identities)))
  {
    hide ValidResolution, AllPending, M.Enabled, M.Next, ResolvedRows, Res.Resolves, Res.Unresolves, Res.CanApply,
      Res.CanRollback;
    MayResolve(site.digest, w.cfg.env.key, w.m.db, r);
    MayReturn(site.digest, w.cfg.env.key, w.m.db, Settles(w, r).m.db, r);
  }

  lemma SettlesAll(key: string -> string, db: Db, after: Db, decisions: seq<Decision>)
    requires AllPending(key, db, decisions) && Res.Resolves(db.identities, after.identities, decisions)
    requires after.players == db.players && after.mappings == db.mappings
    ensures AllSettled(after.identities, decisions)
    ensures forall k :: 0 <= k < |decisions| ==> Res.Returnable(key, after, decisions[k])
  {
    hide Format, MappingsAgree, Named;
    forall k | 0 <= k < |decisions|
      ensures Settled(after.identities, decisions[k]) && Res.Returnable(key, after, decisions[k])
    {
      assert Pending(key, db, decisions[k]) && Res.Carried(db.identities, after.identities, decisions[k]);
      SameAgreement(key, db.mappings, decisions[k].name, decisions[k].mappings, db.identities[decisions[k].reserved],
                    after.identities[decisions[k].reserved]);
    }
  }

  lemma SameAgreement(key: string -> string, mappings: map<nat, Mapping>, name: string, approved: seq<nat>, a: IdRow,
                      b: IdRow)
    requires MappingsAgree(key, mappings, name, approved, a) && b.uuid == a.uuid && b.legacy == a.legacy
    ensures MappingsAgree(key, mappings, name, approved, b)
  {
  }

  /** In a fresh installation, every valid resolution whose decisions are pending on the rows of the plan can be
      reached and applied, and taken back again. The gate is opened first, so the theorems on the meaning of
      resolutions are about such runs too. */
  lemma FreshInstallationResolves(site: Site, w: World, maxRows: nat, s: Snapshot, plan: Plan, r: Resolution)
    requires Initial(w) && Readable(site.catalog, w.m.db, maxRows)
    requires IsSnapshotOf(site.catalog, w.cfg.env.key, w.m.db, s) && Accepted(s)
    requires plan.migration != NIL && plan.createdAt != 0 && IsPlanOf(site.h, s, plan.migration, plan.createdAt, plan)
    requires ValidResolution(site.digest, r)
    requires AllPending(w.cfg.env.key, Filled(w, plan, Open).m.db, r.decisions)
    ensures var staged, open, ready := Filled(w, plan, Staged), Filled(w, plan, Open), Prepared(Filled(w, plan, Open));
            && LifecycleTheorems.Arrives(site, staged) && LifecycleTheorems.Arrives(site, ready)
            && Leaves(site, staged, Operate(OpenGate(plan, maxRows)), open)
            && Execute(site, open, Route(plan)) == Some(ready) && LifecycleTheorems.NoResolution(Route(plan))
            && Leaves(site, ready, Operate(Resolve(r, ResolvedRows(ready.m.db.identities, r.decisions))),
                      Settles(ready, r))
            && Enabled(site, Settles(ready, r), Operate(Unresolve(r, ready.m.db.identities)))
  {
    hide Readable, IsSnapshotOf, Accepted, IsPlanOf, ValidResolution, ValidPlan, Enabled, Next, RowsOf, ResolvedRows,
      Settles, AllPending, Initial, Execute;
    var staged, open := Filled(w, plan, Staged), Filled(w, plan, Open);
    var stage, opening := Operate(Stage(plan, maxRows, RowsOf(plan.actions))), Operate(OpenGate(plan, maxRows));
    var ready := Prepared(open);
    FreshInstallationOpens(site, w, maxRows, s, plan);
    FreshIsIdle(w, plan);
    Prepares(site, open, plan);
    RunsOne(site, w, stage, staged);
    RunsOne(site, staged, opening, open);
    ExecuteThen(site, w, [stage], staged, [opening], open);
    ExecuteThen(site, w, [stage] + [opening], open, Route(plan), ready);
    Arrived(site, w, [stage], staged);
    Arrived(site, w, [stage] + [opening] + Route(plan), ready);
    PendingStill(w.cfg.env.key, open.m.db, ready.m.db, r.decisions);
    ReadyToResolve(site, ready, r);
    ReadyToReturn(site, ready, r);
  }

  lemma Arrived(site: Site, w: World, steps: seq<WorldStep>, w': World)
    requires Initial(w) && Execute(site, w, steps) == Some(w')
    ensures LifecycleTheorems.Arrives(site, w')
  {
    hide Initial, Execute;
  }

  lemma FreshIsIdle(w: World, plan: Plan)
    requires Initial(w)
    ensures var open := Filled(w, plan, Open);
            && Idle(open) && open.running.None? && open.schema == Database.Schema(true, false, false, false)
            && open.m.db.gate == Some(Gate(1, Open, plan.watermark, plan.migration)) && open.m.db.tokens == map[]
            && open.cfg.env == w.cfg.env
  {
    hide RowsOf;
  }

  /** The gate does not matter to a pending decision. */
  lemma PendingStill(key: string -> string, a: Db, b: Db, decisions: seq<Decision>)
    requires AllPending(key, a, decisions) && b == a.(gate := b.gate)
    ensures AllPending(key, b, decisions)
  {
    hide MappingsAgree, Format, Named;
    forall k | 0 <= k < |decisions|
      ensures Pending(key, b, decisions[k])
    {
      assert Pending(key, a, decisions[k]);
    }
  }

  // ---- an installation with one conflict ----

  const DOUBLE: Uuid := [1, 2, 3, 4, 5, 6, 7, 8, 0x80, 9, 10, 11, 12, 13, 14, 15]

  /** One player, and two legacy mappings of its name to the same identifier. */
  function Clash(): Db
  {
    Db(map[], map[1 := Player(1, "Alex")],
       map[1 := Mapping("Alex", Format(DOUBLE)), 2 := Mapping("Alex", Format(DOUBLE))],
       map[], map[], map[], map[], None)
  }

  function ClashSnapshot(): Snapshot
  {
    Snapshot("game", "utf8", "utf8", "NO PAD", 1, [SourcePlayer(1, 1, "Alex", "Alex")],
             [SourceMapping(1, "Alex", "Alex", Format(DOUBLE)), SourceMapping(2, "Alex", "Alex", Format(DOUBLE))])
  }

  /** The player is blocked, the identifier reserved. */
  function ClashPlan(): Plan
  {
    Plan(1, MIGRATION, 1, 0, 1, Summary(1, 2, 0, 1, 1, 0),
         [Action("blocked", Some(1), "", None, "duplicate_legacy_name"),
          Action("reserved", None, Format(DOUBLE), Some(1), "conflicting_legacy_uuid")])
  }

  /** The operator approves the identifier for the player. */
  function ClashResolution(): Resolution
  {
    Resolution(1, 1, 0, [Decision(1, "Alex", 1, 2, Format(DOUBLE), [1, 2])])
  }

  function ClashSite(): Site
  {
    EmptySite().(h := Hashes(name => NIL, s => 0, plan => if plan == ClashPlan() then 1 else 0))
  }

  /** A collation that tells all spellings apart. */
  function Same(name: string): string
  {
    name
  }

  function ClashWorld(): World
  {
    EmptyWorld(Env(Same, (permission, verified) => true, (given, stored) => given == stored, 1), 1)
      .(m := M.State(Clash(), 0, [], map[], {}, 0))
  }

  lemma DoubleIsLegacy()
    ensures ParseLegacy(Format(DOUBLE)) == Some(DOUBLE) && ParseCanonical(Format(DOUBLE)) == Some(DOUBLE)
    ensures Format(DOUBLE) != ""
  {
    assert |Format(DOUBLE)| == 32;
    hide Format, Parse;
    ParseFormat(DOUBLE);
    CanonicalIsFormat(Format(DOUBLE), DOUBLE);
    assert Rfc4122Variant(DOUBLE);
  }

  lemma ClashSource()
    ensures IsSnapshotOf(ClashSite().catalog, Same, Clash(), ClashSnapshot())
    ensures Readable(ClashSite().catalog, Clash(), 2)
  {
    hide Format;
    var db, s := Clash(), ClashSnapshot();
    assert PlayerRow(Same, 1, db.players[1]) == s.players[0];
    assert MappingRow(Same, 1, db.mappings[1]) == s.mappings[0] && MappingRow(Same, 2, db.mappings[2]) == s.mappings[1];
    assert SourcePlayers(Same, db.players) == Elements(s.players);
    assert SourceMappings(Same, db.mappings) == Elements(s.mappings);
    assert |db.mappings.Keys| == |{1, 2}| == 2 && |db.players.Keys| == |{1}| == 1;
  }

  /** The classification of the conflict. */
  lemma ClashActions(h: Hashes)
    ensures var players, mappings := Elements(ClashSnapshot().players), Elements(ClashSnapshot().mappings);
            && PlanActions(h, players, mappings) == {ClashPlan().actions[0], ClashPlan().actions[1]}
            && Unparsed(mappings) == {}
  {
    hide Format, ParseLegacy, PlayerReason, ReservedAction;
    DoubleIsLegacy();
    var players, mappings := Elements(ClashSnapshot().players), Elements(ClashSnapshot().mappings);
    var p, m, n := ClashSnapshot().players[0], ClashSnapshot().mappings[0], ClashSnapshot().mappings[1];
    assert players == {p} && mappings == {m, n} && m != n;
    ClashBlocks(p, m, n);
    ClashReserves({p}, m, n);
    assert PlayerActions(h, players, mappings) == {ClashPlan().actions[0]};
    assert LegacyUuids(mappings) == {DOUBLE} && ActiveUuids(h, players, mappings) == {};
    assert ReservedActions(h, players, mappings) == {ClashPlan().actions[1]};
  }

  lemma ClashBlocks(p: SourcePlayer, m: SourceMapping, n: SourceMapping)
    requires m != n && p.name == m.name == n.name && p.key == m.key == n.key
    ensures PlayerReason({p}, {m, n}, p) == "duplicate_legacy_name"
  {
    hide ParseLegacy;
    assert PlayersNamed({p}, p.name) == {p} && MappingsNamed({m, n}, p.name) == {m, n};
    assert NamesOfKey({p}, {m, n}, p.key) == {p.name};
  }

  lemma ClashReserves(players: set<SourcePlayer>, m: SourceMapping, n: SourceMapping)
    requires m != n && m.id == 1 && n.id == 2 && ParseLegacy(m.uuid) == ParseLegacy(n.uuid) == Some(DOUBLE)
    ensures ReservedAction(players, {m, n}, DOUBLE) == ClashPlan().actions[1]
  {
    hide ParseLegacy, Format;
    assert MappingsOf({m, n}, DOUBLE) == {m, n};
  }

  lemma ClashIsAccepted()
    ensures Accepted(ClashSnapshot()) && MigrationLookup.OnlyPlanWithDigest(ClashSite().h, ClashPlan())
  {
    hide Format, ClashPlan;
    assert Format(DOUBLE) != "" by {
      DoubleIsLegacy();
    }
  }

  lemma ClashIsPlanned()
    ensures IsPlanOf(ClashSite().h, ClashSnapshot(), MIGRATION, 1, ClashPlan())
  {
    hide Format, PlanActions, SummaryOf, Ordered;
    var h, s, plan := ClashSite().h, ClashSnapshot(), ClashPlan();
    ClashActions(h);
    ClashSummary(h);
    assert Canonical(s, s);
    var a, b := plan.actions[0], plan.actions[1];
    assert plan.actions == [a, b] && multiset([a, b]) == multiset({a, b});
    assert Ordered(ActionLess, [a, b]) by {
      ClashOrder(a, b);
    }
  }

  lemma ClashOrder(a: Action, b: Action)
    requires a.state == "blocked" && b.state == "reserved"
    ensures Ordered(ActionLess, [a, b])
  {
  }

  lemma ClashSummary(h: Hashes)
    ensures SummaryOf(h, Elements(ClashSnapshot().players), Elements(ClashSnapshot().mappings)) == ClashPlan().summary
  {
    hide Format, PlanActions;
    ClashActions(h);
    var s, a, b := ClashSnapshot(), ClashPlan().actions[0], ClashPlan().actions[1];
    assert InState({a, b}, "active") == {} && InState({a, b}, "blocked") == {a} && InState({a, b}, "reserved") == {b};
    DistinctSize(s.players);
    DistinctSize(s.mappings);
  }

  lemma ClashIsPending()
    ensures AllPending(Same, Filled(ClashWorld(), ClashPlan(), Open).m.db, ClashResolution().decisions)
    ensures ValidResolution(ClashSite().digest, ClashResolution())
  {
    hide Format, ParseLegacy, ParseCanonical;
    DoubleIsLegacy();
    ClashRows();
    var db, d := Filled(ClashWorld(), ClashPlan(), Open).m.db, ClashResolution().decisions[0];
    assert Named(Same, db.players, "Alex") == {1};
    assert MappingsCalled(Same, db.mappings, "Alex") == {1, 2} == Elements(d.mappings);
    assert Pending(Same, db, d);
  }

  lemma ClashRows()
    ensures RowsOf(ClashPlan().actions) == map[1 := IdRow(Some(1), None, Blocked, None, None),
                                               2 := IdRow(None, Some(DOUBLE), Reserved, Some(1), None)]
  {
    hide Format, ParseLegacy;
    DoubleIsLegacy();
    EmptyIsNoUuid();
    var a, b := ClashPlan().actions[0], ClashPlan().actions[1];
    assert [a, b][..1] == [a] && [a][..0] == [];
    assert RowsOf([a]) == map[1 := RowFor(a)];
    assert RowsOf([a, b]) == map[1 := RowFor(a), 2 := RowFor(b)];
  }

  lemma ClashWorldIsFresh()
    ensures Initial(ClashWorld()) && ClashWorld().cfg.env.key == Same && ClashWorld().m.db == Clash()
    ensures ClashResolution().decisions != []
    ensures ClashPlan().migration == MIGRATION != NIL && ClashPlan().createdAt == 1
  {
    hide Format;
  }

  /** Nothing is left open: there is an installation, started empty but for one player and two legacy mappings, in
      which all the premises of the theorems on resolutions and rollbacks are met. */
  lemma ConflictIsResolved() returns (site: Site, staged: World, open: World, ready: World, plan: Plan, r: Resolution,
                                      ids: map<nat, IdRow>)
    ensures LifecycleTheorems.Arrives(site, staged) && MigrationLookup.OnlyPlanWithDigest(site.h, plan)
    ensures Leaves(site, staged, Operate(OpenGate(plan, 2)), open)
    ensures Execute(site, open, Route(plan)) == Some(ready) && LifecycleTheorems.NoResolution(Route(plan))
    ensures LifecycleTheorems.Arrives(site, ready) && Enabled(site, ready, Operate(Resolve(r, ids)))
    ensures r.decisions != [] && ready.m.db.players == staged.m.db.players
    ensures Enabled(site, Next(site, ready, Operate(Resolve(r, ids))), Operate(Unresolve(r, ready.m.db.identities)))
  {
    hide IsSnapshotOf, Readable, Accepted, IsPlanOf, ValidResolution, AllPending, MigrationLookup.OnlyPlanWithDigest,
      Execute, Enabled, Next, ResolvedRows, RowsOf, ClashPlan, ClashResolution, ClashSnapshot, Format;
    site, plan, r := ClashSite(), ClashPlan(), ClashResolution();
    var w := ClashWorld();
    ClashWorldIsFresh();
    staged, open, ready := Filled(w, plan, Staged), Filled(w, plan, Open), Prepared(Filled(w, plan, Open));
    ids := ResolvedRows(ready.m.db.identities, r.decisions);
    ClashSource();
    ClashIsAccepted();
    ClashIsPlanned();
    ClashIsPending();
    FreshInstallationResolves(site, w, 2, ClashSnapshot(), plan, r);
  }
}
