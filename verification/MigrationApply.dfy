/** Carrying a reviewed plan into the tables, and the gate of the runtime. */
module MigrationApply {
  import opened Basics
  import opened Sorting
  import opened Uuids
  import opened Tables
  import opened Database
  import opened Listing
  import opened MigrationPlan
  import opened MigrationMeaning
  import opened MigrationBuild
  import opened MigrationValidate

  // ---- the source rows ----

  function PlayerRow(key: string -> string, pid: nat, p: Player): SourcePlayer
  {
    SourcePlayer(pid, p.owner, p.name, key(p.name))
  }

  function MappingRow(key: string -> string, id: nat, m: Mapping): SourceMapping
  {
    SourceMapping(id, m.name, key(m.name), m.uuid)
  }

  ghost function SourcePlayers(key: string -> string, players: map<nat, Player>): set<SourcePlayer>
  {
    set p | p in players :: PlayerRow(key, p, players[p])
  }

  ghost function SourceMappings(key: string -> string, mappings: map<nat, Mapping>): set<SourceMapping>
  {
    set m | m in mappings :: MappingRow(key, m, mappings[m])
  }

  function WithCatalog(c: Catalog, players: seq<SourcePlayer>, mappings: seq<SourceMapping>): Snapshot
  {
    Snapshot(c.schema, c.playersCollation, c.mappingsCollation, c.pad, c.size, players, mappings)
  }

  /** `s` lists exactly the rows of the two source tables. */
  ghost predicate IsSnapshotOf(catalog: Catalog, key: string -> string, db: Db, s: Snapshot)
  {
    && s == WithCatalog(catalog, s.players, s.mappings)
    && Lists(s.players, SourcePlayers(key, db.players)) && Lists(s.mappings, SourceMappings(key, db.mappings))
  }

  predicate Readable(c: Catalog, db: Db, maxRows: nat)
  {
    && c.playersCollation != "" && c.playersCollation == c.mappingsCollation
    && (c.pad == "PAD SPACE" || c.pad == "NO PAD") && 0 < c.size <= 1024
    && |db.players| <= maxRows && |db.mappings| <= maxRows
  }

  method ReadSnapshot(d: Database, maxRows: nat) returns (r: Option<Snapshot>)
    ensures r.Some? <==> Readable(d.catalog, d.Tables(), maxRows)
    ensures r.Some? ==> IsSnapshotOf(d.catalog, d.key, d.Tables(), r.value)
  {
    if !Readable(d.catalog, d.Tables(), maxRows) {
      return None;
    }
    var pids := KeysInOrder(d.players.Keys);
    var players: seq<SourcePlayer> := [];
    for i := 0 to |pids|
      invariant |players| == i
      invariant forall k ::
                0 <= k < i ==> pids[k] in d.players && players[k] == PlayerRow(d.key, pids[k], d.players[pids[k]])
    {
      assert pids[i] in Elements(pids);
      players := players + [PlayerRow(d.key, pids[i], d.players[pids[i]])];
    }
    PlayersListed(d.key, d.players, pids, players);
    var ids := KeysInOrder(d.mappings.Keys);
    var mappings: seq<SourceMapping> := [];
    for i := 0 to |ids|
      invariant |mappings| == i
      invariant forall k ::
                0 <= k < i ==> ids[k] in d.mappings && mappings[k] == MappingRow(d.key, ids[k], d.mappings[ids[k]])
    {
      assert ids[i] in Elements(ids);
      mappings := mappings + [MappingRow(d.key, ids[i], d.mappings[ids[i]])];
    }
    MappingsListed(d.key, d.mappings, ids, mappings);
    r := Some(WithCatalog(d.catalog, players, mappings));
  }

  lemma PlayersListed(key: string -> string, players: map<nat, Player>, pids: seq<nat>, rows: seq<SourcePlayer>)
    requires Lists(pids, players.Keys) && |rows| == |pids|
    requires forall k :: 0 <= k < |pids| ==> pids[k] in players && rows[k] == PlayerRow(key, pids[k], players[pids[k]])
    ensures Lists(rows, SourcePlayers(key, players))
  {
    forall p | p in players
      ensures PlayerRow(key, p, players[p]) in rows
    {
      assert p in Elements(pids);
      var k :| 0 <= k < |pids| && pids[k] == p;
      assert rows[k] in rows;
    }
  }

  lemma MappingsListed(key: string -> string, mappings: map<nat, Mapping>, ids: seq<nat>, rows: seq<SourceMapping>)
    requires Lists(ids, mappings.Keys) && |rows| == |ids|
    requires forall k :: 0 <= k < |ids| ==> ids[k] in mappings && rows[k] == MappingRow(key, ids[k], mappings[ids[k]])
    ensures Lists(rows, SourceMappings(key, mappings))
  {
    forall m | m in mappings
      ensures MappingRow(key, m, mappings[m]) in rows
    {
      assert m in Elements(ids);
      var k :| 0 <= k < |ids| && ids[k] == m;
      assert rows[k] in rows;
    }
  }

  /** The plan is the one Build makes of the present source rows, as far as digests can tell. */
  ghost predicate Reviewed(h: Hashes, catalog: Catalog, key: string -> string, db: Db, maxRows: nat, plan: Plan)
  {
    && Readable(catalog, db, maxRows) && plan.migration != NIL
    && exists s, expected ::
         && IsSnapshotOf(catalog, key, db, s) && Accepted(s)
         && IsPlanOf(h, s, plan.migration, plan.createdAt, expected)
         && expected.source == plan.source && h.plan(expected) == h.plan(plan)
  }

  lemma SnapshotsAgree(catalog: Catalog, key: string -> string, db: Db, s: Snapshot, t: Snapshot)
    requires IsSnapshotOf(catalog, key, db, s) && IsSnapshotOf(catalog, key, db, t)
    ensures SameContent(s, t)
  {
    hide Lists, SourcePlayers, SourceMappings;
    ListsSame(s.players, t.players, SourcePlayers(key, db.players));
    ListsSame(s.mappings, t.mappings, SourceMappings(key, db.mappings));
  }

  lemma SnapshotIdsDistinct(catalog: Catalog, key: string -> string, db: Db, s: Snapshot)
    requires IsSnapshotOf(catalog, key, db, s)
    ensures DistinctIds(s)
  {
    forall i, j | 0 <= i < j < |s.players|
      ensures s.players[i].id != s.players[j].id
    {
      assert s.players[i] in Elements(s.players) && s.players[j] in Elements(s.players);
    }
    forall i, j | 0 <= i < j < |s.mappings|
      ensures s.mappings[i].id != s.mappings[j].id
    {
      assert s.mappings[i] in Elements(s.mappings) && s.mappings[j] in Elements(s.mappings);
    }
  }

  lemma AcceptedSame(s: Snapshot, t: Snapshot)
    requires SameContent(s, t) && Accepted(s) && DistinctIds(t)
    ensures Accepted(t)
  {
    forall i | 0 <= i < |t.players|
      ensures GoodPlayer(t.players[i])
    {
      assert t.players[i] in multiset(s.players);
    }
    forall i | 0 <= i < |t.mappings|
      ensures GoodMapping(t.mappings[i])
    {
      assert t.mappings[i] in multiset(s.mappings);
    }
  }

  method RequireSnapshot(d: Database, h: Hashes, plan: Plan, maxRows: nat) returns (ok: bool)
    ensures ok <==> Reviewed(h, d.catalog, d.key, d.Tables(), maxRows, plan)
  {
    hide IsSnapshotOf, IsPlanOf, Accepted, SameContent, Canonical, DistinctIds, Readable;
    var read := ReadSnapshot(d, maxRows);
    if read.None? {
      return false;
    }
    var s := read.value;
    SnapshotIdsDistinct(d.catalog, d.key, d.Tables(), s);
    var built := Build(h, s, plan.migration, plan.createdAt);
    forall t, expected | IsSnapshotOf(d.catalog, d.key, d.Tables(), t) && Accepted(t)
        && IsPlanOf(h, t, plan.migration, plan.createdAt, expected)
      ensures Accepted(s)
      ensures built.Some? ==> expected == built.value
    {
      SnapshotsAgree(d.catalog, d.key, d.Tables(), t, s);
      AcceptedSame(t, s);
      AcceptedDistinct(t);
      if built.Some? {
        PlanDependsOnContentOnly(h, t, s, plan.migration, plan.createdAt, expected, built.value);
      }
    }
    if built.None? {
      return false;
    }
    ok := built.value.source == plan.source && h.plan(built.value) == h.plan(plan);
  }

  lemma AcceptedDistinct(s: Snapshot)
    requires Accepted(s)
    ensures DistinctIds(s)
  {
  }

  // ---- identity rows against actions ----

  function StateText(state: IdState): string
  {
    match state
    case Active => "active"
    case Retired => "retired"
    case Reserved => "reserved"
    case Blocked => "blocked"
    case Resolved => "resolved"
  }

  /** An identity row read back as an action; the link column is not selected. */
  function ActionOf(row: IdRow): Action
  {
    Action(StateText(row.state), row.player, if row.uuid.Some? then Format(row.uuid.value) else "", row.legacy, "")
  }

  function Unreasoned(actions: seq<Action>): (r: seq<Action>)
    ensures |r| == |actions| && forall i :: 0 <= i < |actions| ==> r[i] == actions[i].(reason := "")
  {
    seq(|actions|, i requires 0 <= i < |actions| => actions[i].(reason := ""))
  }

  /** The identities table is the plan, row for row, up to row order and reasons. */
  ghost predicate TableIs(ids: map<nat, IdRow>, actions: seq<Action>)
  {
    Holds(ids, ActionOf, Unreasoned(actions))
  }

  lemma SoundIsWellKeyed(actions: seq<Action>)
    requires SoundActions(actions)
    ensures WellKeyed(Elements(Unreasoned(actions)))
  {
    var bare := Unreasoned(actions);
    forall a | a in Elements(bare)
      ensures a.state in {"active", "blocked", "reserved"} && a.player.Some? == (a.state != "reserved")
      ensures a.player.None? ==> a.uuid != ""
    {
      var i :| 0 <= i < |bare| && bare[i] == a;
      assert WellFormed(actions[i]);
    }
    forall a, b | a in Elements(bare) && b in Elements(bare)
      ensures a.player.Some? && a.player == b.player ==> a == b
      ensures a.player.None? && b.player.None? && a.uuid == b.uuid ==> a == b
    {
      var i :| 0 <= i < |bare| && bare[i] == a;
      var j :| 0 <= j < |bare| && bare[j] == b;
      assert WellFormed(actions[i]) && WellFormed(actions[j]);
      assert i < j ==> Disjoint(actions[i], actions[j]);
      assert j < i ==> Disjoint(actions[j], actions[i]);
    }
  }

  /** For a validated plan, the comparison of two sorted lists accepts exactly the tables that are the plan. */
  method VerifyIdentities(ids: map<nat, IdRow>, plan: Plan) returns (ok: bool)
    requires ValidPlan(plan)
    ensures ok <==> TableIs(ids, plan.actions)
  {
    hide WellKeyed, ActionLess, ValidPlan, SoundActions, Holds, ActionOf, Ordered, TotalOn;
    var rows := KeysInOrder(ids.Keys);
    var actual: seq<Action> := [];
    for i := 0 to |rows|
      invariant |actual| == i
      invariant forall k :: 0 <= k < i ==> rows[k] in ids && actual[k] == ActionOf(ids[rows[k]])
    {
      assert rows[i] in Elements(rows);
      actual := actual + [ActionOf(ids[rows[i]])];
    }
    HoldsReading(ids, ActionOf, rows, actual);
    var expected := Unreasoned(plan.actions);
    HoldsUnique(ids, ActionOf, actual, expected);
    ValidIsSound(plan);
    SoundIsWellKeyed(plan.actions);
    ActionOrderIsTotal(Elements(expected));
    var a := SortBy(ActionLess, actual);
    var b := SortBy(ActionLess, expected);
    if multiset(actual) == multiset(expected) {
      SameElements(actual, expected);
      SameElements(expected, b);
      OrderedUnique(ActionLess, b, a);
    }
    if |a| != |b| {
      return false;
    }
    for i := 0 to |b|
      invariant forall k :: 0 <= k < i ==> a[k] == b[k]
    {
      if a[i] != b[i] {
        return false;
      }
    }
    assert a == b;
    ok := true;
  }

  lemma ValidIsSound(plan: Plan)
    requires ValidPlan(plan)
    ensures SoundActions(plan.actions)
  {
  }

  // ---- applying ----

  function RowFor(a: Action): IdRow
  {
    IdRow(a.player, ParseLegacy(a.uuid),
          if a.state == "active" then Active else if a.state == "blocked" then Blocked else Reserved, a.legacy, None)
  }

  /** The row inserted for a sound action satisfies the CHECK and reads back as the action. */
  lemma RowFits(a: Action)
    requires WellFormed(a)
    ensures CheckV1(RowFor(a)) && ActionOf(RowFor(a)) == a.(reason := "")
  {
    hide ParseLegacy, Format;
    EmptyIsNoUuid();
  }

  /** Rows of two disjoint actions never collide on a UNIQUE key. */
  lemma RowsDisjoint(a: Action, b: Action)
    requires WellFormed(a) && WellFormed(b) && Disjoint(a, b)
    ensures !Conflict(RowFor(a), RowFor(b)) && !Conflict(RowFor(b), RowFor(a))
  {
    hide ParseLegacy, Format;
    EmptyIsNoUuid();
  }

  /** The state row names this plan; a gate change also accepts the second schema version. */
  predicate GateMatches(g: Gate, plan: Plan, lenient: bool)
  {
    && (g.version == plan.version || (lenient && plan.version == 1 && g.version == 2))
    && g.watermark == plan.watermark && g.migration == plan.migration
  }

  /** A state row read for a plan: nothing there, a phase, or a mismatch. */
  datatype GateRead = NoRow | InPhase(phase: Phase) | Mismatch

  function ReadState(gate: Option<Gate>, plan: Plan, lenient: bool): GateRead
  {
    match gate
    case None => NoRow
    case Some(g) => if GateMatches(g, plan, lenient) then InPhase(g.phase) else Mismatch
  }

  /** The initial apply found nothing in its way. */
  predicate Bare(db: Db)
  {
    db.gate.None? && db.identities == map[] && db.tokens == map[] && db.sessions == map[]
  }

  ghost predicate Restaged(db: Db, plan: Plan)
  {
    ReadState(db.gate, plan, false) == InPhase(Staged) && TableIs(db.identities, plan.actions)
  }

  ghost predicate Inserted(ids: map<nat, IdRow>, actions: seq<Action>)
  {
    && TableIs(ids, actions)
    && forall i | i in ids :: exists k :: 0 <= k < |actions| && ids[i] == RowFor(actions[k])
  }

  /** The INSERT loop never meets a constraint: a validated plan fits an empty table. */
  method InsertActions(d: Database, plan: Plan)
    requires d.Valid() && d.identities == map[] && ValidPlan(plan)
    modifies d`identities, d`nextId
    ensures d.Valid() && d.nextId >= old(d.nextId)
    ensures Inserted(d.identities, plan.actions)
  {
    hide ValidPlan, WellFormed, Disjoint, RowFor, ActionOf, Holds, CheckV1, Conflict;
    ValidIsSound(plan);
    HoldsNothing(ActionOf);
    assert Unreasoned(plan.actions[..0]) == [];
    for i := 0 to |plan.actions|
      invariant d.Valid() && d.nextId >= old(d.nextId)
      invariant Inserted(d.identities, plan.actions[..i])
    {
      var a := plan.actions[i];
      RowFits(a);
      ghost var before := d.identities;
      forall k | k in before
        ensures !Conflict(RowFor(a), before[k])
      {
        var j :| 0 <= j < i && before[k] == RowFor(plan.actions[..i][j]);
        RowsDisjoint(plan.actions[j], a);
      }
      assert RowFor(a).target.None? by {
        NoLink(a);
      }
      var r := d.InsertIdentity(RowFor(a));
      assert r.Ok?;
      HoldsOneMore(before, ActionOf, Unreasoned(plan.actions[..i]), r.value, RowFor(a));
      assert Unreasoned(plan.actions[..i + 1]) == Unreasoned(plan.actions[..i]) + [a.(reason := "")];
      InsertedOneMore(before, plan.actions, i, r.value);
    }
    assert plan.actions[..|plan.actions|] == plan.actions;
  }

  /** The rows of a sound plan satisfy every constraint on identities. */
  lemma StagedRowsOk(plan: Plan, ids: map<nat, IdRow>)
    requires ValidPlan(plan) && Inserted(ids, plan.actions)
    ensures IdentitiesOk(ids) && forall i | i in ids :: CheckV1(ids[i])
  {
    hide WellFormed, RowFor, ActionOf, Disjoint;
    forall i | i in ids
      ensures exists k :: 0 <= k < |plan.actions| && ids[i] == RowFor(plan.actions[k])
      ensures CheckV1(ids[i])
    {
      var k :| 0 <= k < |plan.actions| && ids[i] == RowFor(plan.actions[k]);
      RowFits(plan.actions[k]);
    }
    forall i, j | i in ids && j in ids && i != j
      ensures !Conflict(ids[i], ids[j])
    {
      var k :| 0 <= k < |plan.actions| && ids[i] == RowFor(plan.actions[k]);
      var l :| 0 <= l < |plan.actions| && ids[j] == RowFor(plan.actions[l]);
      if k == l {
        TwiceIsTooMany(ids, plan.actions, k, i, j);
      } else if k < l {
        RowsDisjoint(plan.actions[k], plan.actions[l]);
      } else {
        RowsDisjoint(plan.actions[l], plan.actions[k]);
      }
    }
  }

  /** No action of a sound plan has two rows. */
  lemma TwiceIsTooMany(ids: map<nat, IdRow>, actions: seq<Action>, k: nat, i: nat, j: nat)
    requires SoundActions(actions) && TableIs(ids, actions) && k < |actions|
    requires i in ids && j in ids && ids[i] == RowFor(actions[k]) && ids[j] == RowFor(actions[k])
    ensures i == j
  {
    hide WellFormed, RowFor, ActionOf;
    RowFits(actions[k]);
    var bare := Unreasoned(actions);
    var a := bare[k];
    assert {i, j} <= KeysWith(ids, ActionOf, a);
    SubsetSize({i, j}, KeysWith(ids, ActionOf, a));
    forall x, y | 0 <= x < y < |bare|
      ensures bare[x] != bare[y]
    {
      BareDiffer(actions[x], actions[y]);
    }
    DistinctMultiset(bare);
  }

  lemma BareDiffer(a: Action, b: Action)
    requires WellFormed(a) && WellFormed(b) && Disjoint(a, b)
    ensures a.(reason := "") != b.(reason := "")
  {
  }

  lemma NoLink(a: Action)
    ensures RowFor(a).target.None?
  {
  }

  lemma InsertedOneMore(before: map<nat, IdRow>, actions: seq<Action>, i: nat, id: nat)
    requires i < |actions| && Inserted(before, actions[..i])
    requires TableIs(before[id := RowFor(actions[i])], actions[..i + 1])
    ensures Inserted(before[id := RowFor(actions[i])], actions[..i + 1])
  {
    hide RowFor, TableIs;
    var next, prefix := before[id := RowFor(actions[i])], actions[..i + 1];
    forall j | j in next
      ensures exists k :: 0 <= k < |prefix| && next[j] == RowFor(prefix[k])
    {
      if j == id {
        assert prefix[i] == actions[i];
      } else {
        var k :| 0 <= k < i && before[j] == RowFor(actions[..i][k]);
        assert prefix[k] == actions[..i][k];
      }
    }
  }

  ghost predicate Applicable(h: Hashes, catalog: Catalog, key: string -> string, db: Db, maxRows: nat, plan: Plan)
  {
    ValidPlan(plan) && Reviewed(h, catalog, key, db, maxRows, plan) && (Bare(db) || Restaged(db, plan))
  }

  /** Stage a reviewed plan. It succeeds exactly when the plan is sound, is the plan of the present source rows, and the
      target tables are either untouched or already hold this very plan; in the second case nothing changes. */
  method Apply(d: Database, h: Hashes, plan: Plan, maxRows: nat, outcome: Outcome) returns (ok: bool)
    requires d.Valid()
    modifies d
    ensures d.Valid()
    ensures ok <==> old(Applicable(h, d.catalog, d.key, d.Tables(), maxRows, plan)) && outcome.Confirmed?
    ensures if outcome.Lost? || old(d.gate).Some?
        || !old(Applicable(h, d.catalog, d.key, d.Tables(), maxRows, plan)) then
              d.Tables() == old(d.Tables())
            else
              && Inserted(d.identities, plan.actions)
              && d.Tables() == old(d.Tables()).(identities := d.identities,
                                                gate := Some(Gate(1, Staged, plan.watermark, plan.migration)))
    ensures d.schema == old(d.schema)
  {
    hide ValidPlan, Reviewed, TableIs, Inserted, IdentitiesOk, CheckV1;
    var valid := Validate(plan);
    if !valid {
      return false;
    }
    var saved := d.Tables();
    var reviewed := RequireSnapshot(d, h, plan, maxRows);
    if !reviewed {
      return false;
    }
    match ReadState(d.gate, plan, false)
    case Mismatch =>
      return false;
    case InPhase(phase) =>
      if phase != Staged {
        return false;
      }
      var same := VerifyIdentities(d.identities, plan);
      if !same {
        return false;
      }
      ok := d.Commit(saved, outcome);
    case NoRow =>
      if d.identities != map[] || d.tokens != map[] || d.sessions != map[] {
        return false;
      }
      InsertActions(d, plan);
      InsertedIsTable(d.identities, plan.actions);
      VersionIsOne(plan);
      d.gate := Some(Gate(plan.version, Staged, plan.watermark, plan.migration));
      var same := VerifyIdentities(d.identities, plan);
      assert same;
      ghost var tables := d.Tables();
      ok := d.Commit(saved, outcome);
      NothingIsOk();
  }

  lemma InsertedIsTable(ids: map<nat, IdRow>, actions: seq<Action>)
    requires Inserted(ids, actions)
    ensures TableIs(ids, actions)
  {
  }

  lemma VersionIsOne(plan: Plan)
    requires ValidPlan(plan)
    ensures plan.version == 1
  {
  }

  lemma NothingIsOk()
    ensures IdentitiesOk(map[])
  {
  }

  // ---- the gate ----

  /** Check a plan against the tables without changing anything. */
  method Verify(d: Database, h: Hashes, plan: Plan, maxRows: nat) returns (phase: Option<Phase>)
    ensures phase.Some? <==>
              && ValidPlan(plan) && Reviewed(h, d.catalog, d.key, d.Tables(), maxRows, plan)
              && ReadState(d.gate, plan, false).InPhase? && TableIs(d.identities, plan.actions)
    ensures phase.Some? ==> ReadState(d.gate, plan, false) == InPhase(phase.value)
  {
    hide ValidPlan, Reviewed, TableIs;
    var valid := Validate(plan);
    if !valid {
      return None;
    }
    var reviewed := RequireSnapshot(d, h, plan, maxRows);
    if !reviewed || !ReadState(d.gate, plan, false).InPhase? {
      return None;
    }
    var same := VerifyIdentities(d.identities, plan);
    phase := if same then Some(ReadState(d.gate, plan, false).phase) else None;
  }

  /** When a staged plan may go live: the security hooks are installed (and the resolution objects if the second schema
      version is active), the source is still the reviewed one and every row is still the plan's. */
  ghost predicate Activatable(h: Hashes, catalog: Catalog, key: string -> string, schema: Schema, db: Db,
                              maxRows: nat, plan: Plan)
  {
    && schema.userHooks && db.gate.Some? && (db.gate.value.version == 2 ==> ResolutionInstalled(schema))
    && ValidPlan(plan) && Reviewed(h, catalog, key, db, maxRows, plan)
    && ReadState(db.gate, plan, true) == InPhase(Staged) && TableIs(db.identities, plan.actions)
  }

  method Activate(d: Database, h: Hashes, plan: Plan, maxRows: nat, outcome: Outcome) returns (ok: bool)
    requires d.Valid()
    modifies d
    ensures d.Valid() && d.schema == old(d.schema)
    ensures ok <==> old(Activatable(h, d.catalog, d.key, d.schema, d.Tables(), maxRows, plan)) && outcome.Confirmed?
    ensures d.Tables() ==
            if !outcome.Lost? && old(Activatable(h, d.catalog, d.key, d.schema, d.Tables(), maxRows, plan)) then
              old(d.Tables()).(gate := Some(old(d.gate).value.(phase := Open)))
            else old(d.Tables())
  {
    hide ValidPlan, Reviewed, TableIs, IdentitiesOk, CheckV1;
    if !d.schema.userHooks || d.gate.None? || (d.gate.value.version == 2 && !ResolutionInstalled(d.schema)) {
      return false;
    }
    var valid := Validate(plan);
    if !valid {
      return false;
    }
    var saved := d.Tables();
    var reviewed := RequireSnapshot(d, h, plan, maxRows);
    if !reviewed || ReadState(d.gate, plan, true) != InPhase(Staged) {
      return false;
    }
    var same := VerifyIdentities(d.identities, plan);
    if !same {
      return false;
    }
    d.gate := Some(d.gate.value.(phase := Open));
    ok := d.Commit(saved, outcome);
  }

  /** Closing the gate needs neither the source nor the rows. */
  method Deactivate(d: Database, plan: Plan, outcome: Outcome) returns (ok: bool)
    requires d.Valid()
    modifies d
    ensures d.Valid() && d.schema == old(d.schema)
    ensures ok <==> ValidPlan(plan) && ReadState(old(d.gate), plan, true) == InPhase(Open) && outcome.Confirmed?
    ensures d.Tables() ==
            if !outcome.Lost? && ValidPlan(plan) && ReadState(old(d.gate), plan, true) == InPhase(Open) then
              old(d.Tables()).(gate := Some(old(d.gate).value.(phase := Staged)))
            else old(d.Tables())
  {
    hide ValidPlan, IdentitiesOk, CheckV1;
    var valid := Validate(plan);
    if !valid || ReadState(d.gate, plan, true) != InPhase(Open) {
      return false;
    }
    var saved := d.Tables();
    d.gate := Some(d.gate.value.(phase := Staged));
    ok := d.Commit(saved, outcome);
  }

  /** A second Apply of a plan whose first Apply was confirmed finds the table it left, and so changes nothing. */
  lemma SecondApplyFindsPlan(h: Hashes, catalog: Catalog, key: string -> string, before: Db, after: Db, maxRows: nat,
                             plan: Plan)
    requires ValidPlan(plan) && Reviewed(h, catalog, key, before, maxRows, plan)
    requires Inserted(after.identities, plan.actions)
    requires after == before.(identities := after.identities,
                              gate := Some(Gate(1, Staged, plan.watermark, plan.migration)))
    ensures Restaged(after, plan) && Reviewed(h, catalog, key, after, maxRows, plan)
  {
    hide ValidPlan, TableIs, IsPlanOf, Accepted;
    VersionIsOne(plan);
    var s, expected :| IsSnapshotOf(catalog, key, before, s) && Accepted(s)
                       && IsPlanOf(h, s, plan.migration, plan.createdAt, expected)
                       && expected.source == plan.source && h.plan(expected) == h.plan(plan);
    assert IsSnapshotOf(catalog, key, after, s);
  }
}
