/** What the identity table always satisfies, and what each transaction of the operator asks and leaves, said of
    the rows, the state row and the installed objects. */
module InstallationLaws {
  import opened Basics
  import opened Uuids
  import opened Tables
  import Database
  import opened MigrationPlan
  import MV = MigrationValidate
  import MA = MigrationApply
  import ML = MigrationLookup
  import RP = ResolutionPlan
  import Res = ResolutionApply
  import M = Machine
  import MachineInvariant
  import opened Lifecycle
  import opened LifecycleTheorems

  // ---- the identity table ----

  /** Whatever has happened, no two rows share a player, an identifier or a legacy mapping, each row has what its state
      asks for, and a link leads to another row that is there. */
  lemma RowsObeySchema(site: Site, w: World, i: nat, j: nat)
    requires Arrives(site, w) && i in w.m.db.identities && j in w.m.db.identities
    ensures var a, b := w.m.db.identities[i], w.m.db.identities[j];
            i != j ==> && (a.player.None? || a.player != b.player) && (a.uuid.None? || a.uuid != b.uuid)
                       && (a.legacy.None? || a.legacy != b.legacy)
    ensures var a := w.m.db.identities[i];
            && a.player != Some(0) && a.legacy != Some(0)
            && (a.state in {Active, Retired} ==> a.player.Some? && a.uuid.Some? && a.target.None?)
            && (a.state == Reserved ==> a.player.None? && a.uuid.Some? && a.target.None?)
            && (a.state == Blocked ==> a.player.Some? && a.uuid.None? && a.target.None?)
            && (a.state == Resolved ==> a.player.None? && a.uuid.None? && a.legacy.None? && a.target.Some?)
            && (a.target.Some? ==> a.target.value in w.m.db.identities && a.target.value != i)
  {
    hide Arrives;
    ArrivesOk(site, w);
    hide WorldOk, IdentitiesOk;
    RowsOk(w);
    RowsFit(w.m.db.identities, i, j);
  }

  lemma RowsFit(ids: map<nat, IdRow>, i: nat, j: nat)
    requires IdentitiesOk(ids) && i in ids && j in ids
    ensures var a, b := ids[i], ids[j];
            i != j ==> && (a.player.None? || a.player != b.player) && (a.uuid.None? || a.uuid != b.uuid)
                       && (a.legacy.None? || a.legacy != b.legacy)
    ensures var a := ids[i];
            && a.player != Some(0) && a.legacy != Some(0)
            && (a.state in {Active, Retired} ==> a.player.Some? && a.uuid.Some? && a.target.None?)
            && (a.state == Reserved ==> a.player.None? && a.uuid.Some? && a.target.None?)
            && (a.state == Blocked ==> a.player.Some? && a.uuid.None? && a.target.None?)
            && (a.state == Resolved ==> a.player.None? && a.uuid.None? && a.legacy.None? && a.target.Some?)
            && (a.target.Some? ==> a.target.value in ids && a.target.value != i)
  {
    assert CheckV2(ids[i]) && (i != j ==> !Conflict(ids[i], ids[j]));
  }

  // ---- the state row ----

  /** Nothing the operator commits runs beside an open request. */
  lemma OperatesAlone(site: Site, w: World, tx: Transaction, t: M.Tid)
    requires Enabled(site, w, Operate(tx)) && t in w.m.txns
    ensures w.m.txns[t].prog.Editing?
  {
    hide Permitted;
  }

  predicate AllObjects(s: Database.Schema)
  {
    s.userHooks && s.links && s.insertHook && s.updateHook
  }

  /** Staging finds no state row, no identities, no tokens and no sessions, and leaves the first version, closed, under
      the plan's watermark and name; or it finds exactly that, and changes nothing. */
  lemma StagesExactly(site: Site, w: World, plan: Plan, maxRows: nat, ids: map<nat, IdRow>)
    requires Enabled(site, w, Operate(Stage(plan, maxRows, ids)))
    ensures var w' := Next(site, w, Operate(Stage(plan, maxRows, ids)));
            if w.m.db.gate.None? then
              && w.m.db.identities == map[] && w.m.db.tokens == map[] && w.m.db.sessions == map[]
              && w'.m.db == w.m.db.(identities := ids, gate := Some(Gate(1, Staged, plan.watermark, plan.migration)))
              && w'.cfg.watermark == plan.watermark
            else
              && w.m.db.gate == Some(Gate(1, Staged, plan.watermark, plan.migration)) && w' == w
  {
    hide MA.Reviewed, MA.TableIs, MA.Inserted, MV.SoundActions, MV.GreatestPlayer;
  }

  /** The gate opens under a plan only if it is closed, names the plan, and the triggers on accounts are there (and
      under the second version the objects of the resolution); it is only the phase that changes. */
  lemma OpensExactly(site: Site, w: World, plan: Plan, maxRows: nat)
    requires Enabled(site, w, Operate(OpenGate(plan, maxRows)))
    ensures w.m.db.gate.Some? && var g := w.m.db.gate.value;
            && g.phase == Staged && g.version in {1, 2} && g.watermark == plan.watermark
            && g.migration == plan.migration
            && w.schema.userHooks && (g.version == 2 ==> AllObjects(w.schema))
            && Next(site, w, Operate(OpenGate(plan, maxRows)))
               == w.(m := w.m.(db := w.m.db.(gate := Some(g.(phase := Open)))))
  {
    hide MA.Reviewed, MA.TableIs, MV.SoundActions, MV.GreatestPlayer;
  }

  /** It closes under a plan only if it is open and names the plan. */
  lemma ClosesExactly(site: Site, w: World, plan: Plan)
    requires Enabled(site, w, Operate(CloseGate(plan)))
    ensures w.m.db.gate.Some? && var g := w.m.db.gate.value;
            && g.phase == Open && g.version in {1, 2} && g.watermark == plan.watermark && g.migration == plan.migration
            && Next(site, w, Operate(CloseGate(plan)))
               == w.(m := w.m.(db := w.m.db.(gate := Some(g.(phase := Staged)))))
  {
    hide MV.SoundActions, MV.GreatestPlayer;
  }

  /** Under a resolution it opens only with the second version, closed, all objects there, and every decision's link and
      binding in place; and it closes only with the second version, open. */
  lemma ResolvedGateExactly(site: Site, w: World, tx: Transaction)
    requires Enabled(site, w, Operate(tx)) && (tx.OpenResolved? || tx.CloseResolved?)
    ensures w.m.db.gate.Some? && var g := w.m.db.gate.value;
            && g.version == 2
            && (tx.OpenResolved? ==>
                  && g.phase == Staged && AllObjects(w.schema)
                  && forall k | 0 <= k < |tx.r.decisions| ::
                       var d := tx.r.decisions[k];
                       && d.blocked in w.m.db.identities && d.reserved in w.m.db.identities
                       && w.m.db.identities[d.blocked].target == Some(d.reserved)
                       && w.m.db.identities[d.reserved].state == Active
                       && w.m.db.identities[d.reserved].player == Some(d.player))
            && (tx.CloseResolved? ==> g.phase == Open)
            && Next(site, w, Operate(tx))
               == w.(m := w.m.(db := w.m.db.(gate := Some(g.(phase := if tx.OpenResolved? then Open else Staged)))))
  {
    hide RP.GoodDecisions, Format;
    if tx.OpenResolved? {
      assert RP.AllSettled(w.m.db.identities, tx.r.decisions);
      hide Res.CanOpen;
    }
  }

  /** The second version is turned on only over all objects, and off only while no row is resolved or linked. */
  lemma VersionsExactly(site: Site, w: World, tx: Transaction)
    requires Enabled(site, w, Operate(tx)) && (tx.SecondVersionOn? || tx.SecondVersionOff?)
    ensures w.m.db.gate.Some? && var g := w.m.db.gate.value;
            && w.schema.links && w.schema.insertHook && w.schema.updateHook
            && (if tx.SecondVersionOn? then g.version == 1
                else && g.version == 2
                     && forall i | i in w.m.db.identities ::
                          w.m.db.identities[i].state != Resolved && w.m.db.identities[i].target.None?)
            && Next(site, w, Operate(tx))
               == w.(m := w.m.(db := w.m.db.(gate := Some(g.(version := if tx.SecondVersionOn? then 2 else 1)))))
  {
  }

  // ---- plans and rows ----

  /** The row is the action's, but for the link, which is not compared. */
  predicate Reads(row: IdRow, a: Action)
  {
    && row.player == a.player && row.legacy == a.legacy
    && (if row.uuid.Some? then a.uuid == Format(row.uuid.value) else a.uuid == "")
    && a.state == (match row.state
                   case Active => "active" case Retired => "retired" case Reserved => "reserved"
                   case Blocked => "blocked" case Resolved => "resolved")
  }

  /** The rows that are staged, and the rows over which the gate opens, are the actions of the plan: each action has a
      row, each row has an action. */
  lemma PlanIsInRows(site: Site, w: World, tx: Transaction, a: Action, i: nat)
    requires Enabled(site, w, Operate(tx)) && (tx.Stage? || tx.OpenGate?)
    ensures var ids := Next(site, w, Operate(tx)).m.db.identities;
            && (a in tx.plan.actions ==> exists j :: j in ids && Reads(ids[j], a))
            && (i in ids ==> exists b :: b in tx.plan.actions && Reads(ids[i], b))
  {
    var ids := Next(site, w, Operate(tx)).m.db.identities;
    assert MA.TableIs(ids, tx.plan.actions) by {
      RowsAreThePlans(site, w, tx);
    }
    hide MA.TableIs, Next, Enabled, Reads, MA.ActionOf;
    if a in tx.plan.actions {
      var j := ML.ActionHasRow(ids, tx.plan.actions, a);
      RowReads(ids[j], a);
    }
    if i in ids {
      var b := ML.RowHasAction(ids, tx.plan.actions, i);
      RowReads(ids[i], b);
    }
  }

  lemma RowReads(row: IdRow, a: Action)
    requires MA.ActionOf(row) == a.(reason := "")
    ensures Reads(row, a)
  {
  }

  lemma RowsAreThePlans(site: Site, w: World, tx: Transaction)
    requires Enabled(site, w, Operate(tx)) && (tx.Stage? || tx.OpenGate?)
    ensures MA.TableIs(Next(site, w, Operate(tx)).m.db.identities, tx.plan.actions)
  {
    hide MA.TableIs, MV.ValidPlan, MA.Reviewed;
  }

  /** A plan that is staged, or under which the gate opens or closes, is well formed: each action has what its
      state asks for, no player, identifier or mapping is in two of them, the watermark is the greatest player, and
      the counts add up. */
  lemma PlansAreSound(site: Site, w: World, tx: Transaction, i: nat, j: nat)
    requires Enabled(site, w, Operate(tx)) && (tx.Stage? || tx.OpenGate? || tx.CloseGate?)
    ensures tx.plan.version == 1 && tx.plan.createdAt != 0
    ensures tx.plan.summary.players == tx.plan.summary.active + tx.plan.summary.blocked
    ensures |tx.plan.actions| == tx.plan.summary.active + tx.plan.summary.blocked + tx.plan.summary.reserved
    ensures i < |tx.plan.actions| ==>
              var a := tx.plan.actions[i];
              && a.reason != "" && a.player != Some(0) && a.legacy != Some(0)
              && (a.player.Some? ==> a.player.value <= tx.plan.watermark)
              && (a.uuid != "" ==> exists u :: Format(u) == a.uuid && 128 <= u[8] < 192)
              && (|| (a.state == "active" && a.player.Some? && a.uuid != ""
                      && ((a.legacy.Some? && a.reason == "unique_exact_mapping")
                          || (a.legacy.None? && a.reason == "generated_offline_v3")))
                  || (a.state == "blocked" && a.player.Some? && a.legacy.None? && a.uuid == "")
                  || (a.state == "reserved" && a.player.None? && a.legacy.Some? && a.uuid != ""))
    ensures i < j < |tx.plan.actions| ==>
              var a, b := tx.plan.actions[i], tx.plan.actions[j];
              && (a.player.None? || a.player != b.player) && (a.legacy.None? || a.legacy != b.legacy)
              && (a.uuid == "" || a.uuid != b.uuid)
    ensures tx.plan.watermark == 0 || exists a :: a in tx.plan.actions && a.player == Some(tx.plan.watermark)
  {
    assert MV.ValidPlan(tx.plan) by {
      PlanWasChecked(site, w, tx);
    }
    hide Enabled, ParseLegacy, Format;
    if i < |tx.plan.actions| {
      var a := tx.plan.actions[i];
      assert MV.WellFormed(a);
      if a.uuid != "" {
        var u := ParseLegacy(a.uuid).value;
        assert a.uuid == Format(u);
        ParseLegacyMeans(a.uuid, u);
      }
      if i < j < |tx.plan.actions| {
        assert MV.Disjoint(a, tx.plan.actions[j]);
      }
    }
  }

  lemma PlanWasChecked(site: Site, w: World, tx: Transaction)
    requires Enabled(site, w, Operate(tx)) && (tx.Stage? || tx.OpenGate? || tx.CloseGate?)
    ensures MV.ValidPlan(tx.plan)
  {
    hide MA.TableIs, MV.ValidPlan, MA.Reviewed, MA.Inserted;
  }

  /** The source rows are well formed when a plan is staged or the gate opens under it: ids, owners, names, weights and
      texts are there, the two name columns share a collation of a known kind, and there are not too many rows. */
  lemma SourceIsSound(site: Site, w: World, tx: Transaction, p: nat, m: nat)
    requires Enabled(site, w, Operate(tx)) && (tx.Stage? || tx.OpenGate?)
    ensures tx.plan.migration != NIL && |w.m.db.players| <= tx.maxRows && |w.m.db.mappings| <= tx.maxRows
    ensures var c := site.catalog;
            && c.schema != "" && c.playersCollation != "" && c.playersCollation == c.mappingsCollation
            && c.pad in {"PAD SPACE", "NO PAD"} && 0 < c.size <= 1024
    ensures p in w.m.db.players ==>
              var x := w.m.db.players[p]; p != 0 && x.owner != 0 && x.name != "" && w.cfg.env.key(x.name) != ""
    ensures m in w.m.db.mappings ==>
              var x := w.m.db.mappings[m]; m != 0 && x.name != "" && x.uuid != "" && w.cfg.env.key(x.name) != ""
  {
    PlanWasReviewed(site, w, tx);
    ReviewedSource(site, w.cfg.env.key, w.m.db, tx.maxRows, tx.plan, p, m);
    hide Enabled, MA.Reviewed;
  }

  lemma PlanWasReviewed(site: Site, w: World, tx: Transaction)
    requires Enabled(site, w, Operate(tx)) && (tx.Stage? || tx.OpenGate?)
    ensures MA.Reviewed(site.h, site.catalog, w.cfg.env.key, w.m.db, tx.maxRows, tx.plan)
  {
    hide MA.TableIs, MV.ValidPlan, MA.Reviewed, MA.Inserted;
  }

  lemma ReviewedSource(site: Site, key: string -> string, db: Db, maxRows: nat, plan: Plan, p: nat, m: nat)
    requires MA.Reviewed(site.h, site.catalog, key, db, maxRows, plan)
    ensures plan.migration != NIL && |db.players| <= maxRows && |db.mappings| <= maxRows
    ensures var c := site.catalog;
            && c.schema != "" && c.playersCollation != "" && c.playersCollation == c.mappingsCollation
            && c.pad in {"PAD SPACE", "NO PAD"} && 0 < c.size <= 1024
    ensures p in db.players ==>
              var x := db.players[p]; p != 0 && x.owner != 0 && x.name != "" && key(x.name) != ""
    ensures m in db.mappings ==>
              var x := db.mappings[m]; m != 0 && x.name != "" && x.uuid != "" && key(x.name) != ""
  {
    hide IsPlanOf;
    var s, expected :| MA.IsSnapshotOf(site.catalog, key, db, s) && Accepted(s)
                       && IsPlanOf(site.h, s, plan.migration, plan.createdAt, expected)
                       && expected.source == plan.source && site.h.plan(expected) == site.h.plan(plan);
    if p in db.players {
      assert MA.PlayerRow(key, p, db.players[p]) in Elements(s.players);
    }
    if m in db.mappings {
      assert MA.MappingRow(key, m, db.mappings[m]) in Elements(s.mappings);
    }
  }

  /** And a resolution: each decision names rows, a player and mappings, and writes an identifier; no player, row,
      mapping or identifier is in two decisions in the same role. */
  lemma DecisionsAreSound(site: Site, w: World, tx: Transaction, i: nat, j: nat)
    requires Enabled(site, w, Operate(tx))
    requires tx.Resolve? || tx.Unresolve? || tx.OpenResolved? || tx.CloseResolved?
    ensures tx.r.version == 1 && tx.r.createdAt != 0 && 1 <= |tx.r.decisions| <= 1000
    ensures site.digest(tx.r.decisions) == tx.r.source
    ensures i < |tx.r.decisions| ==>
              var d := tx.r.decisions[i];
              && d.player != 0 && d.blocked != 0 && d.reserved != 0 && d.blocked != d.reserved && d.name != ""
              && d.mappings != [] && 0 !in d.mappings && (exists u :: Format(u) == d.uuid)
              && forall x, y :: 0 <= x < y < |d.mappings| ==> d.mappings[x] != d.mappings[y]
    ensures i < j < |tx.r.decisions| ==>
              var a, b := tx.r.decisions[i], tx.r.decisions[j];
              && a.player != b.player && a.blocked != b.blocked && a.reserved != b.reserved && a.uuid != b.uuid
              && forall m | m in a.mappings :: m !in b.mappings
  {
    ResolutionWasChecked(site, w, tx);
    hide Enabled, Format, RP.GoodDecision, RP.Separate;
    assert RP.GoodDecisions(tx.r.decisions);
    if i < |tx.r.decisions| {
      DecisionIs(tx.r.decisions[i]);
    }
    if i < j < |tx.r.decisions| {
      DecisionsApart(tx.r.decisions[i], tx.r.decisions[j]);
    }
  }

  lemma DecisionIs(d: RP.Decision)
    requires RP.GoodDecision(d)
    ensures d.player != 0 && d.blocked != 0 && d.reserved != 0 && d.blocked != d.reserved && d.name != ""
    ensures d.mappings != [] && 0 !in d.mappings && (exists u :: Format(u) == d.uuid)
    ensures forall x, y :: 0 <= x < y < |d.mappings| ==> d.mappings[x] != d.mappings[y]
  {
    hide Format, ParseCanonical;
    CanonicalIsFormat(d.uuid, ParseCanonical(d.uuid).value);
  }

  lemma DecisionsApart(a: RP.Decision, b: RP.Decision)
    requires RP.Separate(RP.Approved(a), RP.Approved(b))
    ensures a.player != b.player && a.blocked != b.blocked && a.reserved != b.reserved
    ensures forall m | m in a.mappings :: m !in b.mappings
  {
    forall m | m in a.mappings
      ensures m !in b.mappings
    {
      assert m in Elements(a.mappings);
    }
  }

  lemma ResolutionWasChecked(site: Site, w: World, tx: Transaction)
    requires Enabled(site, w, Operate(tx))
    requires tx.Resolve? || tx.Unresolve? || tx.OpenResolved? || tx.CloseResolved?
    ensures RP.ValidResolution(site.digest, tx.r)
  {
    hide RP.ValidResolution, RP.AllPending, RP.AllSettled, RP.AllUnreferenced, Res.Resolves, Res.Unresolves,
      Res.Returnable;
  }

  // ---- schema commands ----

  /** A command starts under the first version: the installation without the link column, the removal with all objects
      there and no row resolved or linked. No table changes when it starts, at any statement, or when it fails. */
  lemma CommandsExactly(site: Site, w: World, step: WorldStep)
    requires Enabled(site, w, step) && (step.Start? || step.Statement? || step.Fail?)
    ensures Next(site, w, step).m == w.m && Next(site, w, step).cfg == w.cfg
    ensures step.Start? ==> w.running.None? && Next(site, w, step).schema == w.schema
    ensures step.Start? ==> w.m.db.gate.Some? && w.m.db.gate.value.version == 1
    ensures step == Start(Upgrade) ==> !w.schema.links
    ensures step == Start(Downgrade) ==>
              && w.schema.links && w.schema.insertHook && w.schema.updateHook
              && forall i | i in w.m.db.identities ::
                   w.m.db.identities[i].state != Resolved && w.m.db.identities[i].target.None?
    ensures step.Fail? ==> Next(site, w, step) == w.(running := None)
  {
  }
}
