/** The classification of legacy name mappings into identities: what the plan of a snapshot is.

    The plan is defined here from the sets of players and mappings alone; the loops over indexes that compute it
    are in MigrationBuild. */
module MigrationPlan {
  import opened Basics
  import opened Sorting
  import opened Uuids

  /** A 256-bit digest. */
  type Digest = nat

  datatype SourcePlayer = SourcePlayer(id: nat, owner: nat, name: string, key: string)
  datatype SourceMapping = SourceMapping(id: nat, name: string, key: string, uuid: string)

  datatype Snapshot = Snapshot(
    schema: string, playersCollation: string, mappingsCollation: string, pad: string, size: nat,
    players: seq<SourcePlayer>, mappings: seq<SourceMapping>)

  /** `uuid` is "" when absent. */
  datatype Action = Action(state: string, player: Option<nat>, uuid: string, legacy: Option<nat>, reason: string)

  datatype Summary = Summary(players: int, mappings: int, active: int, blocked: int, reserved: int, invalid: int)

  datatype Plan = Plan(version: int, migration: Uuid, createdAt: nat, source: Digest, watermark: nat,
                       summary: Summary, actions: seq<Action>)

  /** Hash functions the model does not interpret. */
  datatype Hashes = Hashes(md5: string -> Uuid, snapshot: Snapshot -> Digest, plan: Plan -> Digest)

  // ---- groups ----

  ghost function PlayersNamed(players: set<SourcePlayer>, name: string): set<SourcePlayer>
  {
    set p | p in players && p.name == name
  }

  ghost function MappingsNamed(mappings: set<SourceMapping>, name: string): set<SourceMapping>
  {
    set m | m in mappings && m.name == name
  }

  /** All spellings, on either side, that the collation gives this weight. */
  ghost function NamesOfKey(players: set<SourcePlayer>, mappings: set<SourceMapping>, key: string): set<string>
  {
    (set p | p in players && p.key == key :: p.name) + (set m | m in mappings && m.key == key :: m.name)
  }

  ghost function MappingsOf(mappings: set<SourceMapping>, u: Uuid): set<SourceMapping>
  {
    set m | m in mappings && ParseLegacy(m.uuid) == Some(u)
  }

  ghost function LegacyUuids(mappings: set<SourceMapping>): set<Uuid>
  {
    set m | m in mappings && ParseLegacy(m.uuid).Some? :: ParseLegacy(m.uuid).value
  }

  ghost function Unparsed(mappings: set<SourceMapping>): set<SourceMapping>
  {
    set m | m in mappings && ParseLegacy(m.uuid).None?
  }

  // ---- classification ----

  ghost function PlayerReason(players: set<SourcePlayer>, mappings: set<SourceMapping>, p: SourcePlayer): string
  {
    if |PlayersNamed(players, p.name)| != 1 then "duplicate_current_name"
    else if |NamesOfKey(players, mappings, p.key)| != 1 then "collation_equivalent_name"
    else
      var rows := MappingsNamed(mappings, p.name);
      if rows == {} then "missing_legacy_mapping"
      else if |rows| != 1 then "duplicate_legacy_name"
      else
        match ParseLegacy(Only(rows).uuid)
        case None => "invalid_legacy_uuid"
        case Some(u) => if |MappingsOf(mappings, u)| != 1 then "duplicate_legacy_uuid" else "active"
  }

  /** The identifier an offline server would give this name. */
  function OfflineUuid(h: Hashes, name: string): Uuid
  {
    FromDigest(h.md5("OfflinePlayer:" + name))
  }

  ghost function Generators(h: Hashes, players: set<SourcePlayer>, mappings: set<SourceMapping>,
                            u: Uuid): set<SourcePlayer>
  {
    set p | p in players && PlayerReason(players, mappings, p) == "missing_legacy_mapping"
        && OfflineUuid(h, p.name) == u
  }

  /** The identifier the plan gives a player, if it gives one. */
  ghost function PlannedUuid(h: Hashes, players: set<SourcePlayer>, mappings: set<SourceMapping>,
                             p: SourcePlayer): Option<Uuid>
  {
    var reason := PlayerReason(players, mappings, p);
    if reason == "missing_legacy_mapping" then
      var u := OfflineUuid(h, p.name);
      if |Generators(h, players, mappings, u)| != 1 || MappingsOf(mappings, u) != {} then None else Some(u)
    else if reason == "active" then ParseLegacy(Only(MappingsNamed(mappings, p.name)).uuid)
    else None
  }

  ghost function PlayerAction(h: Hashes, players: set<SourcePlayer>, mappings: set<SourceMapping>,
                              p: SourcePlayer): Action
  {
    var reason := PlayerReason(players, mappings, p);
    if reason == "missing_legacy_mapping" then
      match PlannedUuid(h, players, mappings, p)
      case None => Action("blocked", Some(p.id), "", None, "generated_v3_uuid_conflict")
      case Some(u) => Action("active", Some(p.id), Format(u), None, "generated_offline_v3")
    else if reason != "active" then Action("blocked", Some(p.id), "", None, reason)
    else
      var m := Only(MappingsNamed(mappings, p.name));
      Action("active", Some(p.id), Format(ParseLegacy(m.uuid).value), Some(m.id), "unique_exact_mapping")
  }

  ghost function ActiveUuids(h: Hashes, players: set<SourcePlayer>, mappings: set<SourceMapping>): set<Uuid>
  {
    set p | p in players && PlannedUuid(h, players, mappings, p).Some? :: PlannedUuid(h, players, mappings, p).value
  }

  ghost predicate Lowest(rows: set<SourceMapping>, id: nat)
  {
    (exists m :: m in rows && m.id == id) && forall m | m in rows :: id <= m.id
  }

  ghost function ReservationReason(players: set<SourcePlayer>, rows: set<SourceMapping>): string
  {
    if |rows| != 1 then "conflicting_legacy_uuid"
    else if PlayersNamed(players, Only(rows).name) == {} then "orphan_legacy_mapping"
    else "unassigned_conflict_uuid"
  }

  ghost function LowestId(rows: set<SourceMapping>): (id: nat)
    requires rows != {}
    ensures Lowest(rows, id)
  {
    var m :| m in rows;
    if rows == {m} then m.id
    else
      var k := LowestId(rows - {m});
      assert rows == rows - {m} + {m};
      if m.id < k then m.id else k
  }

  ghost function ReservedAction(players: set<SourcePlayer>, mappings: set<SourceMapping>, u: Uuid): Action
  {
    var rows := MappingsOf(mappings, u);
    if rows == {} then Action("reserved", None, Format(u), None, "")
    else Action("reserved", None, Format(u), Some(LowestId(rows)), ReservationReason(players, rows))
  }

  ghost function PlayerActions(h: Hashes, players: set<SourcePlayer>, mappings: set<SourceMapping>): set<Action>
  {
    set p | p in players :: PlayerAction(h, players, mappings, p)
  }

  ghost function ReservedActions(h: Hashes, players: set<SourcePlayer>, mappings: set<SourceMapping>): set<Action>
  {
    set u | u in LegacyUuids(mappings) - ActiveUuids(h, players, mappings) :: ReservedAction(players, mappings, u)
  }

  /** The meaning of a plan: one action for each player, and one for each legacy identifier no player received. */
  ghost function PlanActions(h: Hashes, players: set<SourcePlayer>, mappings: set<SourceMapping>): set<Action>
  {
    PlayerActions(h, players, mappings) + ReservedActions(h, players, mappings)
  }

  // ---- the order of actions ----

  /** A state the order table does not list counts as zero. */
  function StateOrder(state: string): int
  {
    if state == "blocked" then 1 else if state == "reserved" then 2 else 0
  }

  predicate ActionLess(a: Action, b: Action)
  {
    if StateOrder(a.state) != StateOrder(b.state) then StateOrder(a.state) < StateOrder(b.state)
    else if a.player.Some? && b.player.Some? then a.player.value < b.player.value
    else TextLess(a.uuid, b.uuid)
  }

  /** Actions that a player id, or failing that a UUID, tells apart within their state. */
  ghost predicate WellKeyed(actions: set<Action>)
  {
    && (forall a | a in actions :: a.state in {"active", "blocked", "reserved"}
                                   && a.player.Some? == (a.state != "reserved"))
    && (forall a, b | a in actions && b in actions && a.player.Some? && a.player == b.player :: a == b)
    && (forall a, b | a in actions && b in actions && a.player.None? && b.player.None? && a.uuid == b.uuid :: a == b)
  }

  /** On such actions the comparison is a strict total order, so an unstable sort has no freedom. */
  lemma ActionOrderIsTotal(actions: set<Action>)
    requires WellKeyed(actions)
    ensures TotalOn(ActionLess, actions)
  {
    var less := ActionLess;
    forall a | a in actions
      ensures !less(a, a)
    {
      TextLessIrreflexive(a.uuid);
    }
    forall a, b | a in actions && b in actions
      ensures a == b || less(a, b) || less(b, a)
    {
      TextLessTotal(a.uuid, b.uuid);
    }
    forall a, b, c | a in actions && b in actions && c in actions && less(a, b) && less(b, c)
      ensures less(a, c)
    {
      if a.player.None? && b.player.None? && c.player.None? {
        TextLessTransitive(a.uuid, b.uuid, c.uuid);
      }
    }
  }

  // ---- plans ----

  ghost predicate DistinctIds(s: Snapshot)
  {
    && (forall i, j :: 0 <= i < j < |s.players| ==> s.players[i].id != s.players[j].id)
    && (forall i, j :: 0 <= i < j < |s.mappings| ==> s.mappings[i].id != s.mappings[j].id)
  }

  predicate GoodPlayer(p: SourcePlayer)
  {
    p.id != 0 && p.owner != 0 && p.name != "" && p.key != ""
  }

  predicate GoodMapping(m: SourceMapping)
  {
    m.id != 0 && m.name != "" && m.key != "" && m.uuid != ""
  }

  predicate GoodHeader(s: Snapshot)
  {
    && s.schema != "" && s.playersCollation != "" && s.playersCollation == s.mappingsCollation
    && (s.pad == "PAD SPACE" || s.pad == "NO PAD") && 0 < s.size <= 1024
  }

  ghost predicate Accepted(s: Snapshot)
  {
    && GoodHeader(s) && DistinctIds(s)
    && (forall i :: 0 <= i < |s.players| ==> GoodPlayer(s.players[i]))
    && (forall i :: 0 <= i < |s.mappings| ==> GoodMapping(s.mappings[i]))
  }

  ghost predicate Greatest(players: set<SourcePlayer>, watermark: nat)
  {
    && (forall p | p in players :: p.id <= watermark)
    && (watermark == 0 || exists p :: p in players && p.id == watermark)
  }

  /** The same snapshot with both tables in id order: the text that is hashed. */
  ghost predicate Canonical(s: Snapshot, c: Snapshot)
  {
    && c == s.(players := c.players, mappings := c.mappings)
    && multiset(c.players) == multiset(s.players) && multiset(c.mappings) == multiset(s.mappings)
    && (forall i, j :: 0 <= i < j < |c.players| ==> c.players[i].id < c.players[j].id)
    && (forall i, j :: 0 <= i < j < |c.mappings| ==> c.mappings[i].id < c.mappings[j].id)
  }

  ghost function InState(actions: set<Action>, state: string): set<Action>
  {
    set a | a in actions && a.state == state
  }

  ghost function SummaryOf(h: Hashes, players: set<SourcePlayer>, mappings: set<SourceMapping>): Summary
  {
    var actions := PlanActions(h, players, mappings);
    Summary(|players|, |mappings|, |InState(actions, "active")|, |InState(actions, "blocked")|,
            |InState(actions, "reserved")|, |Unparsed(mappings)|)
  }

  /** `plan` is the plan of `s`. */
  ghost predicate IsPlanOf(h: Hashes, s: Snapshot, migration: Uuid, createdAt: nat, plan: Plan)
  {
    var players, mappings := Elements(s.players), Elements(s.mappings);
    && plan.version == 1 && plan.migration == migration && plan.createdAt == createdAt
    && (exists c :: Canonical(s, c) && plan.source == h.snapshot(c))
    && Greatest(players, plan.watermark)
    && plan.summary == SummaryOf(h, players, mappings)
    && multiset(plan.actions) == multiset(PlanActions(h, players, mappings))
    && Ordered(ActionLess, plan.actions)
  }
}
