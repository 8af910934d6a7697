/** The whole life of the installation as one transition system: the concurrent service of module Machine, the migration
    and resolution transactions of the operator, and the schema commands, whose DDL statements commit one by one and may
    fail anywhere. Operator commands run one at a time; the service and the account system run in between.

    An operator transaction locks the state row FOR UPDATE, which every open request holds FOR SHARE, so it commits only
    when no request is open. */
module Lifecycle {
  import opened Basics
  import opened Tables
  import opened Directory
  import Database
  import opened MigrationPlan
  import MigrationValidate
  import opened MigrationApply
  import opened ResolutionPlan
  import Res = ResolutionApply
  import M = Machine
  import opened MachineInvariant
  import opened MachineStable
  import opened MachineRuns

  /** What never changes: the hash functions and the catalog's answer about the source columns. */
  datatype Site = Site(h: Hashes, digest: seq<Decision> -> Digest, catalog: Database.Catalog)

  /** The two commands made of DDL statements. */
  datatype Command = Upgrade | Downgrade

  datatype Running = Running(command: Command, completed: nat)

  datatype World = World(cfg: M.Config, m: M.State, schema: Database.Schema, running: Option<Running>)

  /** One committed transaction of the operator; `ids` are the identity rows it leaves. */
  datatype Transaction =
    | Stage(plan: Plan, maxRows: nat, ids: map<nat, IdRow>)
    | OpenGate(plan: Plan, maxRows: nat)
    | CloseGate(plan: Plan)
    | Resolve(r: Resolution, ids: map<nat, IdRow>)
    | Unresolve(r: Resolution, ids: map<nat, IdRow>)
    | OpenResolved(r: Resolution)
    | CloseResolved(r: Resolution)
    | SecondVersionOn
    | SecondVersionOff

  datatype WorldStep =
    | Runtime(step: M.Step)
    | Operate(tx: Transaction)
    | Start(command: Command)
    | Statement
    | Fail

  /** No request is open: only the account system may be in the middle of something. */
  predicate Idle(w: World)
  {
    forall t | t in w.m.txns :: w.m.txns[t].prog.Editing?
  }

  predicate VersionIs(db: Db, version: int)
  {
    db.gate.Some? && db.gate.value.version == version
  }

  predicate NoLinks(ids: map<nat, IdRow>)
  {
    forall i | i in ids :: ids[i].state != Resolved && ids[i].target.None?
  }

  ghost predicate StageEnabled(site: Site, w: World, plan: Plan, maxRows: nat, ids: map<nat, IdRow>)
  {
    && Applicable(site.h, site.catalog, w.cfg.env.key, w.m.db, maxRows, plan)
    && (if w.m.db.gate.None? then Inserted(ids, plan.actions) else ids == w.m.db.identities)
  }

  /** The next statement of a running command can succeed. */
  ghost predicate StatementEnabled(w: World)
  {
    w.running.Some? &&
    match (w.running.value.command, w.running.value.completed)
    case (Upgrade, 0) => !w.schema.links
    case (Upgrade, 1) => !w.schema.insertHook
    case (Upgrade, 2) => !w.schema.updateHook
    case (Upgrade, _) => Database.ResolutionInstalled(w.schema)
    case (Downgrade, 0) => w.schema.updateHook
    case (Downgrade, 1) => w.schema.insertHook
    case (Downgrade, 2) => w.schema.links && forall i | i in w.m.db.identities :: CheckV1(w.m.db.identities[i])
    case (Downgrade, _) => !w.schema.links
  }

  function AfterStatement(schema: Database.Schema, r: Running): (Database.Schema, Option<Running>)
  {
    var next := Some(r.(completed := r.completed + 1));
    match (r.command, r.completed)
    case (Upgrade, 0) => (schema.(links := true), next)
    case (Upgrade, 1) => (schema.(insertHook := true), next)
    case (Upgrade, 2) => (schema.(updateHook := true), next)
    case (Downgrade, 0) => (schema.(updateHook := false), next)
    case (Downgrade, 1) => (schema.(insertHook := false), next)
    case (Downgrade, 2) => (schema.(links := false), next)
    case _ => (schema, None)
  }

  ghost predicate StartEnabled(w: World, command: Command)
  {
    VersionIs(w.m.db, 1) &&
    match command
    case Upgrade => !w.schema.links
    case Downgrade => Database.ResolutionInstalled(w.schema) && NoLinks(w.m.db.identities)
  }

  /** The checks each transaction makes, and what it may leave. */
  ghost predicate Permitted(site: Site, w: World, tx: Transaction)
  {
    var db := w.m.db;
    match tx
    case Stage(plan, maxRows, ids) => StageEnabled(site, w, plan, maxRows, ids)
    case OpenGate(plan, maxRows) => Activatable(site.h, site.catalog, w.cfg.env.key, w.schema, db, maxRows, plan)
    case CloseGate(plan) => MigrationValidate.ValidPlan(plan) && ReadState(db.gate, plan, true) == InPhase(Open)
    case Resolve(r, ids) =>
      Res.CanApply(site.digest, w.cfg.env.key, db, r) && Res.Resolves(db.identities, ids, r.decisions)
    case Unresolve(r, ids) =>
      Res.CanRollback(site.digest, w.cfg.env.key, db, r) && Res.Unresolves(db.identities, ids, r.decisions)
    case OpenResolved(r) => Res.CanOpen(site.digest, w.schema, db, r)
    case CloseResolved(r) =>
      ValidResolution(site.digest, r) && Res.SecondVersion(db, false) && db.gate.value.phase == Open
    case SecondVersionOn => Database.ResolutionInstalled(w.schema) && VersionIs(db, 1)
    case SecondVersionOff => Database.ResolutionInstalled(w.schema) && VersionIs(db, 2) && NoLinks(db.identities)
  }

  ghost predicate Enabled(site: Site, w: World, step: WorldStep)
  {
    match step
    case Runtime(s) => M.Enabled(w.cfg, w.m, s)
    case Operate(tx) => w.running.None? && Idle(w) && Permitted(site, w, tx)
    case Start(command) => w.running.None? && StartEnabled(w, command)
    case Statement => StatementEnabled(w)
    case Fail => w.running.Some?
  }

  function WithIds(m: M.State, ids: map<nat, IdRow>): M.State
  {
    m.(db := m.db.(identities := ids), rebound := |m.log|)
  }

  function WithGate(m: M.State, gate: Gate): M.State
  {
    m.(db := m.db.(gate := Some(gate)))
  }

  ghost function Effect(site: Site, w: World, tx: Transaction): World
    requires Permitted(site, w, tx)
  {
    var gate := w.m.db.gate;
    match tx
    case Stage(plan, _, ids) =>
      if gate.Some? then w
      else w.(cfg := w.cfg.(watermark := plan.watermark),
              m := WithGate(WithIds(w.m, ids), Gate(1, Staged, plan.watermark, plan.migration)))
    case OpenGate(_, _) => w.(m := WithGate(w.m, gate.value.(phase := Open)))
    case CloseGate(_) => w.(m := WithGate(w.m, gate.value.(phase := Staged)))
    case Resolve(_, ids) => w.(m := WithIds(w.m, ids))
    case Unresolve(_, ids) => w.(m := WithIds(w.m, ids))
    case OpenResolved(_) => w.(m := WithGate(w.m, gate.value.(phase := Open)))
    case CloseResolved(_) => w.(m := WithGate(w.m, gate.value.(phase := Staged)))
    case SecondVersionOn => w.(m := WithGate(w.m, gate.value.(version := 2)))
    case SecondVersionOff => w.(m := WithGate(w.m, gate.value.(version := 1)))
  }

  ghost function Next(site: Site, w: World, step: WorldStep): World
    requires Enabled(site, w, step)
  {
    match step
    case Runtime(s) => w.(m := M.Next(w.cfg, w.m, s))
    case Operate(tx) => Effect(site, w, tx)
    case Start(command) => w.(running := Some(Running(command, 0)))
    case Statement =>
      var (schema, running) := AfterStatement(w.schema, w.running.value);
      w.(schema := schema, running := running)
    case Fail => w.(running := None)
  }

  /** The base schema has just been installed: five empty tables, except for revocation anchors the triggers may already
      have written, and the two triggers on users. */
  ghost predicate Initial(w: World)
  {
    && w.m.log == [] && w.m.txns == map[] && w.m.replies == {} && w.m.rebound == 0
    && Bare(w.m.db) && (forall u | u in w.m.db.subjects :: w.m.db.subjects[u] >= 1)
    && w.cfg.env.ttl > 0 && w.cfg.quota > 0
    && w.schema == Database.Schema(true, false, false, false) && w.running.None?
  }

  /** The world after a sequence of steps, if each was enabled in its turn. */
  ghost function Execute(site: Site, w: World, steps: seq<WorldStep>): Option<World>
    decreases |steps|
  {
    if steps == [] then Some(w)
    else if Enabled(site, w, steps[0]) then Execute(site, Next(site, w, steps[0]), steps[1..])
    else None
  }

  lemma {:induction false} ExecuteAppend(site: Site, w: World, steps: seq<WorldStep>, mid: World, step: WorldStep)
    requires Execute(site, w, steps) == Some(mid) && Enabled(site, mid, step)
    ensures Execute(site, w, steps + [step]) == Some(Next(site, mid, step))
    decreases |steps|
  {
    hide Enabled, Next;
    if steps == [] {
      assert Execute(site, Next(site, mid, step), []) == Some(Next(site, mid, step));
      assert ([] + [step])[1..] == [];
    } else {
      assert (steps + [step])[1..] == steps[1..] + [step];
      ExecuteAppend(site, Next(site, w, steps[0]), steps[1..], mid, step);
    }
  }

  lemma {:induction false} ExecuteThen(site: Site, w: World, before: seq<WorldStep>, mid: World, after: seq<WorldStep>,
                                       w': World)
    requires Execute(site, w, before) == Some(mid) && Execute(site, mid, after) == Some(w')
    ensures Execute(site, w, before + after) == Some(w')
    decreases |after|
  {
    hide Enabled, Next;
    if after == [] {
      assert before + [] == before;
    } else {
      ExecuteAppend(site, w, before, mid, after[0]);
      ExecuteThen(site, w, before + [after[0]], Next(site, mid, after[0]), after[1..], w');
      assert before + [after[0]] + after[1..] == before + after;
    }
  }

  // ---- the invariant ----

  ghost predicate WorldOk(w: World)
  {
    var db := w.m.db;
    && Inv(w.cfg, w.m) && w.schema.userHooks
    && (db.gate.None? ==> Bare(db))
    && (db.gate.Some? ==> db.gate.value.watermark == w.cfg.watermark && (VersionIs(db, 1) || VersionIs(db, 2)))
    && (VersionIs(db, 2) ==> Database.ResolutionInstalled(w.schema) && w.running.None?)
    && (VersionIs(db, 2) || NoLinks(db.identities))
    && (Idle(w) || ServiceOpen(db.gate))
    && (w.running.Some? ==> VersionIs(db, 1))
  }

  lemma InitialOk(w: World)
    requires Initial(w)
    ensures WorldOk(w)
  {
    hide Inv;
    InitialInv(w.cfg, w.m);
  }

  lemma InitialInv(cfg: M.Config, s: M.State)
    requires s.log == [] && s.txns == map[] && s.replies == {} && s.rebound == 0 && cfg.env.ttl > 0 && cfg.quota > 0
    requires s.db.tokens == map[] && s.db.sessions == map[] && s.db.identities == map[]
    requires forall u | u in s.db.subjects :: s.db.subjects[u] >= 1
    ensures Inv(cfg, s)
  {
    hide TxnOk;
    forall u: nat
      ensures |Live(s.db.tokens, u, M.Base(s.db.subjects, u), s.now)| <= cfg.quota
    {
      assert Live(s.db.tokens, u, M.Base(s.db.subjects, u), s.now) == {};
    }
  }

  // ---- runtime steps ----

  /** What one step of the service or of the account system leaves alone: the gate, and every identity row there is. */
  lemma RuntimeFrame(cfg: M.Config, s: M.State, step: M.Step)
    requires Inv(cfg, s) && M.Enabled(cfg, s, step)
    ensures var s' := M.Next(cfg, s, step);
            && s'.db.gate == s.db.gate
            && (forall i | i in s.db.identities :: i in s'.db.identities && s'.db.identities[i] == s.db.identities[i])
            && (forall i | i in s'.db.identities && i !in s.db.identities ::
                  var r := s'.db.identities[i];
                  && r.player.Some? && r.player.value > cfg.watermark && r.uuid.Some?
                  && r == NewRow(r.player.value, r.uuid.value))
  {
    hide DbOk, M.Advance, M.EditStep, M.Starts, Knows, LockedPart, SubjectsPart, IssuePart, SessionsPart, EventsPart,
      ProvidedOk;
    if step.Commit? {
      assert IdsPart(cfg, s.db, s.txns[step.t]);
    }
  }

  /** Requests begin only while the gate is open, and a transaction never changes its kind. */
  lemma RuntimeKinds(cfg: M.Config, s: M.State, step: M.Step)
    requires M.Enabled(cfg, s, step)
    ensures var s' := M.Next(cfg, s, step);
            forall t | t in s'.txns && !s'.txns[t].prog.Editing? :: ServiceOpen(s.db.gate)
                    || (t in s.txns && !s.txns[t].prog.Editing?)
  {
  }

  /** Without a gate there are no requests, so nothing but accounts and players can change. */
  lemma RuntimeBare(cfg: M.Config, s: M.State, step: M.Step)
    requires Inv(cfg, s) && M.Enabled(cfg, s, step) && Bare(s.db) && forall t | t in s.txns :: s.txns[t].prog.Editing?
    ensures Bare(M.Next(cfg, s, step).db)
  {
    hide DbOk, M.Advance, M.EditStep, M.Starts, WritesOk, ProvidedOk;
    if step.Commit? {
      assert EditKnows(s.db, s.txns[step.t]);
    }
  }

  lemma RuntimeOk(site: Site, w: World, step: M.Step)
    requires WorldOk(w) && M.Enabled(w.cfg, w.m, step)
    ensures WorldOk(Next(site, w, Runtime(step)))
  {
    hide Inv, M.Enabled, M.Next, Bare;
    StepOk(w.cfg, w.m, step);
    RuntimeFrame(w.cfg, w.m, step);
    RuntimeKinds(w.cfg, w.m, step);
    if w.m.db.gate.None? {
      RuntimeBare(w.cfg, w.m, step);
    }
  }

  // ---- operator transactions ----

  /** The account system's transactions do not notice new identity rows. */
  lemma EditsIgnoreIds(cfg: M.Config, db: Db, now: nat, txn: M.Txn, ids: map<nat, IdRow>, watermark: nat)
    requires TxnOk(cfg, db, now, txn) && txn.prog.Editing? && IdentitiesOk(ids)
    ensures TxnOk(cfg.(watermark := watermark), db.(identities := ids), now, txn)
  {
    assert EditKnows(db, txn);
    assert ids + map[] == ids;
    assert txn.writes.issue.None?;
  }

  lemma TablesIgnoreIds(cfg: M.Config, db: Db, now: nat, log: seq<M.Event>, ids: map<nat, IdRow>, watermark: nat)
    requires DbOk(cfg, db, now, log) && IdentitiesOk(ids) && db.identities.Keys <= ids.Keys
    ensures DbOk(cfg.(watermark := watermark), db.(identities := ids), now, log)
  {
  }

  /** New rows while no request is open keep the service's invariant; identities published before count no more. */
  lemma RebindOk(cfg: M.Config, s: M.State, ids: map<nat, IdRow>, watermark: nat)
    requires Inv(cfg, s) && IdentitiesOk(ids) && s.db.identities.Keys <= ids.Keys
    requires forall t | t in s.txns :: s.txns[t].prog.Editing?
    ensures Inv(cfg.(watermark := watermark), WithIds(s, ids))
  {
    hide TxnOk, DbOk, IdentitiesOk;
    forall t | t in s.txns
      ensures TxnOk(cfg.(watermark := watermark), s.db.(identities := ids), s.now, s.txns[t])
    {
      EditsIgnoreIds(cfg, s.db, s.now, s.txns[t], ids, watermark);
    }
    TablesIgnoreIds(cfg, s.db, s.now, s.log, ids, watermark);
  }

  lemma TxnIgnoresGate(cfg: M.Config, db: Db, gate: Gate, now: nat, txn: M.Txn)
    requires IdentitiesOk(db.identities) && TxnOk(cfg, db, now, txn)
    ensures TxnOk(cfg, db.(gate := Some(gate)), now, txn)
  {
    hide TxnOk;
    TxnStable(cfg, db, db.(gate := Some(gate)), now, now, txn);
  }

  lemma TablesIgnoreGate(cfg: M.Config, db: Db, gate: Gate, now: nat, log: seq<M.Event>)
    requires DbOk(cfg, db, now, log)
    ensures DbOk(cfg, db.(gate := Some(gate)), now, log) && IdentitiesOk(db.identities)
  {
  }

  lemma GateIgnored(cfg: M.Config, s: M.State, gate: Gate)
    requires Inv(cfg, s)
    ensures Inv(cfg, WithGate(s, gate))
  {
    hide TxnOk, DbOk, IdentitiesOk;
    TablesIgnoreGate(cfg, s.db, gate, s.now, s.log);
    forall t | t in s.txns
      ensures TxnOk(cfg, s.db.(gate := Some(gate)), s.now, s.txns[t])
    {
      TxnIgnoresGate(cfg, s.db, gate, s.now, s.txns[t]);
    }
  }

  lemma StageOk(site: Site, w: World, plan: Plan, maxRows: nat, ids: map<nat, IdRow>)
    requires WorldOk(w) && Enabled(site, w, Operate(Stage(plan, maxRows, ids)))
    ensures WorldOk(Next(site, w, Operate(Stage(plan, maxRows, ids))))
  {
    hide Inv, IdentitiesOk, Reviewed, TableIs, MigrationValidate.ValidPlan;
    if w.m.db.gate.None? {
      StagedRowsOk(plan, ids);
      RebindOk(w.cfg, w.m, ids, plan.watermark);
      GateIgnored(w.cfg.(watermark := plan.watermark), WithIds(w.m, ids),
                  Gate(1, Staged, plan.watermark, plan.migration));
      assert NoLinks(ids);
    }
  }

  /** The rows a resolution or a rollback leaves satisfy every constraint, so neither can be refused. */
  lemma RowsTxFits(site: Site, w: World, tx: Transaction)
    requires IdentitiesOk(w.m.db.identities) && Permitted(site, w, tx) && (tx.Resolve? || tx.Unresolve?)
    ensures IdentitiesOk(tx.ids) && tx.ids.Keys == w.m.db.identities.Keys
  {
    hide IdentitiesOk, AllPending, AllSettled, AllUnreferenced, GoodDecisions, Res.RowsApart;
    var before, decisions := w.m.db.identities, tx.r.decisions;
    if tx.Resolve? {
      Res.PendingShapes(w.cfg.env.key, w.m.db, decisions);
      Res.PendingRowsApart(before, decisions);
      Res.ResolvedOk(before, tx.ids, decisions);
    } else {
      Res.SettledRowsApart(before, decisions);
      Res.ReturnedOk(before, tx.ids, decisions);
    }
  }

  lemma RowsOk(w: World)
    requires WorldOk(w)
    ensures IdentitiesOk(w.m.db.identities)
  {
    hide IdentitiesOk;
  }

  lemma RowsTxOk(site: Site, w: World, tx: Transaction)
    requires WorldOk(w) && Enabled(site, w, Operate(tx)) && (tx.Resolve? || tx.Unresolve?)
    ensures WorldOk(Next(site, w, Operate(tx)))
  {
    hide Inv, IdentitiesOk, ValidResolution, AllPending, AllSettled, AllUnreferenced, Res.Resolves, Res.Unresolves;
    RowsOk(w);
    RowsTxFits(site, w, tx);
    RebindOk(w.cfg, w.m, tx.ids, w.cfg.watermark);
  }

  lemma GateOk(w: World, gate: Gate)
    requires WorldOk(w) && Idle(w) && w.m.db.gate.Some? && w.running.None?
    requires gate.watermark == w.m.db.gate.value.watermark && (gate.version == 1 || gate.version == 2)
    requires gate.version == 2 ==> Database.ResolutionInstalled(w.schema)
    requires gate.version == 1 ==> NoLinks(w.m.db.identities)
    ensures WorldOk(w.(m := WithGate(w.m, gate)))
  {
    hide Inv;
    GateIgnored(w.cfg, w.m, gate);
  }

  lemma GateTxOk(site: Site, w: World, tx: Transaction)
    requires WorldOk(w) && Enabled(site, w, Operate(tx)) && !tx.Stage? && !tx.Resolve? && !tx.Unresolve?
    ensures WorldOk(Next(site, w, Operate(tx)))
  {
    hide Inv, Reviewed, TableIs, MigrationValidate.ValidPlan, ValidResolution, AllSettled, Bare;
    GateOk(w, Effect(site, w, tx).m.db.gate.value);
  }

  lemma SchemaStepOk(site: Site, w: World, step: WorldStep)
    requires WorldOk(w) && Enabled(site, w, step) && (step.Start? || step.Statement? || step.Fail?)
    ensures WorldOk(Next(site, w, step))
  {
    hide Inv, Bare;
  }

  lemma WorldStepOk(site: Site, w: World, step: WorldStep)
    requires WorldOk(w) && Enabled(site, w, step)
    ensures WorldOk(Next(site, w, step))
  {
    hide WorldOk;
    match step
    case Runtime(s) => RuntimeOk(site, w, s);
    case Operate(tx) =>
      if tx.Stage? {
        StageOk(site, w, tx.plan, tx.maxRows, tx.ids);
      } else if tx.Resolve? || tx.Unresolve? {
        RowsTxOk(site, w, tx);
      } else {
        GateTxOk(site, w, tx);
      }
    case _ => SchemaStepOk(site, w, step);
  }

  lemma {:induction false} WorldRunOk(site: Site, w: World, steps: seq<WorldStep>, w': World)
    requires WorldOk(w) && Execute(site, w, steps) == Some(w')
    ensures WorldOk(w')
    decreases |steps|
  {
    hide WorldOk, Enabled, Next;
    if steps != [] {
      WorldStepOk(site, w, steps[0]);
      WorldRunOk(site, Next(site, w, steps[0]), steps[1..], w');
    }
  }
}
