/** The rules of the classification, said of the rows: for each player and each legacy identifier, exactly when the plan
    says what of it. */
module MigrationRules {
  import opened Basics
  import opened Sorting
  import opened Uuids
  import opened MigrationPlan
  import opened MigrationMeaning

  // ---- premises ----

  /** Nobody else has the player's name, and no row of either table spells the name's key differently. */
  ghost predicate AloneInName(players: set<SourcePlayer>, mappings: set<SourceMapping>, p: SourcePlayer)
  {
    && (forall q | q in players :: q.name == p.name ==> q == p)
    && (forall q | q in players :: q.key == p.key ==> q.name == p.name)
    && (forall m | m in mappings :: m.key == p.key ==> m.name == p.name)
  }

  ghost predicate NotMapped(mappings: set<SourceMapping>, p: SourcePlayer)
  {
    forall m | m in mappings :: m.name != p.name
  }

  ghost predicate OnlyMapping(mappings: set<SourceMapping>, p: SourcePlayer, m: SourceMapping)
  {
    m in mappings && forall n | n in mappings :: n.name == p.name <==> n == m
  }

  /** The mapping's text is read as the identifier, and no other mapping's is. */
  ghost predicate OnlyTextOf(mappings: set<SourceMapping>, m: SourceMapping, u: Uuid)
  {
    m in mappings && forall n | n in mappings :: ParseLegacy(n.uuid) == Some(u) <==> n == m
  }

  /** The identifier generated for the name of an unmapped player is in no mapping and is generated for nobody else. */
  ghost predicate OnlyGeneratedFor(h: Hashes, players: set<SourcePlayer>, mappings: set<SourceMapping>, p: SourcePlayer,
                                   u: Uuid)
  {
    && OfflineUuid(h, p.name) == u && (forall m | m in mappings :: ParseLegacy(m.uuid) != Some(u))
    && forall q | q in players && AloneInName(players, mappings, q) && NotMapped(mappings, q)
                  && OfflineUuid(h, q.name) == u :: q == p
  }

  /** The generated identifier, octet by octet: the digest of the prefixed name under version 3 and the RFC 4122
      variant. */
  lemma OfflineUuidIs(h: Hashes, name: string, i: nat)
    requires i < 16
    ensures var u, d := OfflineUuid(h, name), h.md5("OfflinePlayer:" + name);
            u[i] == (if i == 6 then 48 + d[6] % 16 else if i == 8 then 128 + d[8] % 64 else d[i])
  {
  }

  // ---- the groups of the definition ----

  lemma SingleMeans<T(!new)>(s: set<T>, x: T)
    requires x in s
    ensures |s| == 1 <==> forall y | y in s :: y == x
  {
    if |s| == 1 {
      SingletonIs(s, x);
    }
    if forall y | y in s :: y == x {
      assert s == {x};
    }
  }

  lemma AloneIsSingle(players: set<SourcePlayer>, mappings: set<SourceMapping>, p: SourcePlayer)
    requires p in players
    ensures |PlayersNamed(players, p.name)| == 1 <==> forall q | q in players :: q.name == p.name ==> q == p
    ensures |NamesOfKey(players, mappings, p.key)| == 1 <==>
            && (forall q | q in players :: q.key == p.key ==> q.name == p.name)
            && (forall m | m in mappings :: m.key == p.key ==> m.name == p.name)
  {
    var same, names := PlayersNamed(players, p.name), NamesOfKey(players, mappings, p.key);
    SingleMeans(same, p);
    SingleMeans(names, p.name);
    assert forall q :: q in same <==> q in players && q.name == p.name;
    assert (forall q | q in players && q.key == p.key :: q.name in names)
           && forall m | m in mappings && m.key == p.key :: m.name in names;
  }

  lemma OnlyOne<T>(s: set<T>, x: T)
    requires s == {x}
    ensures |s| == 1 && Only(s) == x
  {
    assert |{x}| == 1;
    assert Only(s) in s;
  }

  /** The mappings with a player's name: none, exactly one, or at least two. */
  lemma MappedCases(mappings: set<SourceMapping>, p: SourcePlayer)
    ensures NotMapped(mappings, p) <==> MappingsNamed(mappings, p.name) == {}
    ensures forall m :: OnlyMapping(mappings, p, m) <==> MappingsNamed(mappings, p.name) == {m}
    ensures |MappingsNamed(mappings, p.name)| == 1 <==> exists m :: OnlyMapping(mappings, p, m)
    ensures forall m | OnlyMapping(mappings, p, m) :: Only(MappingsNamed(mappings, p.name)) == m
  {
    var rows := MappingsNamed(mappings, p.name);
    assert NotMapped(mappings, p) <==> rows == {} by {
      assert forall m :: m in rows <==> m in mappings && m.name == p.name;
    }
    forall m
      ensures OnlyMapping(mappings, p, m) <==> rows == {m}
    {
      assert forall n :: n in rows <==> n in mappings && n.name == p.name;
      assert rows == {m} <==> forall n :: n in rows <==> n == m;
    }
    hide OnlyMapping;
    if |rows| == 1 {
      assert OnlyMapping(mappings, p, Only(rows));
    }
    forall m | OnlyMapping(mappings, p, m)
      ensures |rows| == 1 && Only(rows) == m
    {
      OnlyOne(rows, m);
    }
  }

  lemma TextCases(mappings: set<SourceMapping>, m: SourceMapping, u: Uuid)
    requires m in mappings && ParseLegacy(m.uuid) == Some(u)
    ensures |MappingsOf(mappings, u)| == 1 <==> OnlyTextOf(mappings, m, u)
  {
    hide ParseLegacy;
    SingleMeans(MappingsOf(mappings, u), m);
    assert forall n :: n in MappingsOf(mappings, u) <==> n in mappings && ParseLegacy(n.uuid) == Some(u);
  }

  /** The reasons, one by one. */
  lemma ReasonExactly(players: set<SourcePlayer>, mappings: set<SourceMapping>, p: SourcePlayer)
    requires p in players
    ensures var reason, alone := PlayerReason(players, mappings, p), AloneInName(players, mappings, p);
            && (reason == "duplicate_current_name" <==> exists q :: q in players && q.name == p.name && q != p)
            && (reason in {"duplicate_current_name", "collation_equivalent_name"} <==> !alone)
            && (reason == "missing_legacy_mapping" <==> alone && NotMapped(mappings, p))
            && (reason == "duplicate_legacy_name" <==>
                  alone && !NotMapped(mappings, p) && forall m :: !OnlyMapping(mappings, p, m))
            && (reason == "invalid_legacy_uuid" <==>
                  alone && exists m :: OnlyMapping(mappings, p, m) && ParseLegacy(m.uuid).None?)
            && (reason == "duplicate_legacy_uuid" <==>
                  alone && exists m :: OnlyMapping(mappings, p, m) && ParseLegacy(m.uuid).Some?
                                       && !OnlyTextOf(mappings, m, ParseLegacy(m.uuid).value))
            && (reason == "active" <==>
                  alone && exists m :: OnlyMapping(mappings, p, m) && ParseLegacy(m.uuid).Some?
                                       && OnlyTextOf(mappings, m, ParseLegacy(m.uuid).value))
  {
    AloneIsSingle(players, mappings, p);
    MappedCases(mappings, p);
    var rows := MappingsNamed(mappings, p.name);
    hide PlayersNamed, NamesOfKey, MappingsNamed, OnlyMapping, NotMapped, ParseLegacy, OnlyTextOf, MappingsOf;
    if m :| OnlyMapping(mappings, p, m) {
      assert m in mappings by {
        OnlyMappingIsMapping(mappings, p, m);
      }
      if ParseLegacy(m.uuid).Some? {
        TextCases(mappings, m, ParseLegacy(m.uuid).value);
      }
    }
  }

  lemma OnlyMappingIsMapping(mappings: set<SourceMapping>, p: SourcePlayer, m: SourceMapping)
    requires OnlyMapping(mappings, p, m)
    ensures m in mappings && m.name == p.name
  {
  }

  // ---- the action of a player ----

  /** A player keeps a legacy identifier exactly if it is alone in its name, has one mapping, and the mapping's text is
      read as that identifier and no other mapping's is. */
  lemma MappedExactly(h: Hashes, players: set<SourcePlayer>, mappings: set<SourceMapping>, p: SourcePlayer,
                      m: SourceMapping, u: Uuid)
    requires p in players && m in mappings && IdsTellApart(players, mappings)
    ensures PlayerAction(h, players, mappings, p)
            == Action("active", Some(p.id), Format(u), Some(m.id), "unique_exact_mapping")
            <==> AloneInName(players, mappings, p) && OnlyMapping(mappings, p, m) && OnlyTextOf(mappings, m, u)
  {
    ReasonExactly(players, mappings, p);
    MappedCases(mappings, p);
    hide PlayerReason, ParseLegacy, Format, AloneInName, NotMapped, PlannedUuid, MappingsNamed, OnlyMapping;
    if PlayerReason(players, mappings, p) == "active" {
      var only :| OnlyMapping(mappings, p, only) && ParseLegacy(only.uuid).Some?
          && OnlyTextOf(mappings, only, ParseLegacy(only.uuid).value);
      assert only in mappings;
      if Format(u) == Format(ParseLegacy(only.uuid).value) {
        FormatInjective(u, ParseLegacy(only.uuid).value);
      }
    }
  }

  lemma GeneratorsExactly(h: Hashes, players: set<SourcePlayer>, mappings: set<SourceMapping>, p: SourcePlayer, u: Uuid)
    requires p in players && AloneInName(players, mappings, p) && NotMapped(mappings, p) && OfflineUuid(h, p.name) == u
    ensures |Generators(h, players, mappings, u)| == 1 && MappingsOf(mappings, u) == {}
            <==> OnlyGeneratedFor(h, players, mappings, p, u)
  {
    hide PlayerReason, ParseLegacy, OfflineUuid, AloneInName, NotMapped;
    forall q | q in players
      ensures PlayerReason(players, mappings, q) == "missing_legacy_mapping"
              <==> AloneInName(players, mappings, q) && NotMapped(mappings, q)
    {
      ReasonExactly(players, mappings, q);
    }
    var all := Generators(h, players, mappings, u);
    assert p in all;
    SingleMeans(all, p);
    assert forall q :: q in all <==> q in players && AloneInName(players, mappings, q) && NotMapped(mappings, q)
                                     && OfflineUuid(h, q.name) == u;
    assert MappingsOf(mappings, u) == {} <==> forall m | m in mappings :: ParseLegacy(m.uuid) != Some(u) by {
      assert forall m :: m in MappingsOf(mappings, u) <==> m in mappings && ParseLegacy(m.uuid) == Some(u);
    }
  }

  /** A player gets a generated identifier exactly if it is alone in its name, has no mapping, and the identifier is in
      no mapping and generated for nobody else. */
  lemma GeneratedExactly(h: Hashes, players: set<SourcePlayer>, mappings: set<SourceMapping>, p: SourcePlayer, u: Uuid)
    requires p in players
    ensures PlayerAction(h, players, mappings, p)
            == Action("active", Some(p.id), Format(u), None, "generated_offline_v3")
            <==> AloneInName(players, mappings, p) && NotMapped(mappings, p)
                 && OnlyGeneratedFor(h, players, mappings, p, u)
  {
    ReasonExactly(players, mappings, p);
    hide PlayerReason, ParseLegacy, Format, AloneInName, NotMapped, OfflineUuid, OnlyMapping, OnlyTextOf, Generators,
      MappingsOf;
    if PlayerReason(players, mappings, p) == "missing_legacy_mapping" {
      GeneratorsExactly(h, players, mappings, p, OfflineUuid(h, p.name));
      if Format(u) == Format(OfflineUuid(h, p.name)) {
        FormatInjective(u, OfflineUuid(h, p.name));
      }
    }
  }

  /** Every other player is blocked, with the first reason that applies. */
  lemma BlockedExactly(h: Hashes, players: set<SourcePlayer>, mappings: set<SourceMapping>, p: SourcePlayer,
                       reason: string)
    requires p in players
    ensures PlayerAction(h, players, mappings, p) == Action("blocked", Some(p.id), "", None, reason) <==>
            || (reason == "duplicate_current_name" && exists q :: q in players && q.name == p.name && q != p)
            || (reason == "collation_equivalent_name" && !AloneInName(players, mappings, p)
                && forall q | q in players :: q.name == p.name ==> q == p)
            || (reason == "duplicate_legacy_name" && AloneInName(players, mappings, p) && !NotMapped(mappings, p)
                && forall m :: !OnlyMapping(mappings, p, m))
            || (reason == "invalid_legacy_uuid" && AloneInName(players, mappings, p)
                && exists m :: OnlyMapping(mappings, p, m) && forall u :: ParseLegacy(m.uuid) != Some(u))
            || (reason == "duplicate_legacy_uuid" && AloneInName(players, mappings, p)
                && exists m, u :: OnlyMapping(mappings, p, m) && ParseLegacy(m.uuid) == Some(u)
                                  && !OnlyTextOf(mappings, m, u))
            || (reason == "generated_v3_uuid_conflict" && AloneInName(players, mappings, p) && NotMapped(mappings, p)
                && forall u :: !OnlyGeneratedFor(h, players, mappings, p, u))
  {
    ReasonExactly(players, mappings, p);
    PlayerActionReason(h, players, mappings, p);
    if PlayerReason(players, mappings, p) == "missing_legacy_mapping" {
      GeneratorsExactly(h, players, mappings, p, OfflineUuid(h, p.name));
      assert forall u :: OnlyGeneratedFor(h, players, mappings, p, u) ==> u == OfflineUuid(h, p.name);
    }
    hide PlayerReason, PlayerAction, ParseLegacy, AloneInName, NotMapped, OfflineUuid, OnlyMapping, OnlyTextOf,
      OnlyGeneratedFor, Generators, MappingsOf;
    forall m: SourceMapping
      ensures (forall u :: ParseLegacy(m.uuid) != Some(u)) <==> ParseLegacy(m.uuid).None?
    {
      NoneMeans(ParseLegacy(m.uuid));
    }
  }

  lemma NoneMeans<T(!new)>(o: Option<T>)
    ensures (forall x :: o != Some(x)) <==> o.None?
  {
    if o.Some? {
      assert o == Some(o.value);
    }
  }

  lemma PlayerActionReason(h: Hashes, players: set<SourcePlayer>, mappings: set<SourceMapping>, p: SourcePlayer)
    ensures var reason, a := PlayerReason(players, mappings, p), PlayerAction(h, players, mappings, p);
            var u := OfflineUuid(h, p.name);
            if reason == "missing_legacy_mapping" then
              if |Generators(h, players, mappings, u)| == 1 && MappingsOf(mappings, u) == {} then a.state == "active"
              else a == Action("blocked", Some(p.id), "", None, "generated_v3_uuid_conflict")
            else if reason == "active" then a.state == "active"
            else a == Action("blocked", Some(p.id), "", None, reason)
  {
    hide PlayerReason, OfflineUuid, Format, ParseLegacy, Generators, MappingsOf, MappingsNamed;
  }

  // ---- the reservation of an identifier ----

  /** The identifier is the only text of the only mapping of a player that is alone in its name. */
  ghost predicate KeptBySome(players: set<SourcePlayer>, mappings: set<SourceMapping>, u: Uuid)
  {
    exists p, m :: p in players && AloneInName(players, mappings, p) && OnlyMapping(mappings, p, m)
                   && OnlyTextOf(mappings, m, u)
  }

  lemma KeptExactly(h: Hashes, players: set<SourcePlayer>, mappings: set<SourceMapping>, u: Uuid)
    requires u in LegacyUuids(mappings)
    ensures u in ActiveUuids(h, players, mappings) <==> KeptBySome(players, mappings, u)
  {
    hide PlayerReason, ParseLegacy, AloneInName, NotMapped, OfflineUuid, MappingsNamed;
    var one :| one in mappings && ParseLegacy(one.uuid) == Some(u);
    assert one in MappingsOf(mappings, u);
    forall p | p in players
      ensures PlannedUuid(h, players, mappings, p) == Some(u) <==>
              exists m :: AloneInName(players, mappings, p) && OnlyMapping(mappings, p, m) && OnlyTextOf(mappings, m, u)
    {
      ReasonExactly(players, mappings, p);
      MappedCases(mappings, p);
      hide Generators, OnlyMapping;
      if m :| OnlyMapping(mappings, p, m) {
        OnlyMappingIsMapping(mappings, p, m);
      }
    }
    hide PlannedUuid, OnlyMapping, OnlyTextOf;
  }

  lemma LowestIs(rows: set<SourceMapping>, k: nat)
    requires rows != {}
    ensures LowestId(rows) == k <==> (exists m :: m in rows && m.id == k) && forall m | m in rows :: k <= m.id
  {
    var low := LowestId(rows);
    var m :| m in rows && m.id == low;
  }

  /** A legacy identifier that no player keeps is reserved, once, under the lowest mapping that spells it. The reason
      says whether several mappings spell it, and if not, whether a player has the mapping's name. */
  lemma ReservedExactly(h: Hashes, players: set<SourcePlayer>, mappings: set<SourceMapping>, u: Uuid, k: nat,
                        reason: string)
    ensures Action("reserved", None, Format(u), Some(k), reason) in PlanActions(h, players, mappings) <==>
            && (exists m :: m in mappings && ParseLegacy(m.uuid) == Some(u) && m.id == k)
            && (forall m | m in mappings && ParseLegacy(m.uuid) == Some(u) :: k <= m.id)
            && !KeptBySome(players, mappings, u)
            && (if exists m :: OnlyTextOf(mappings, m, u) then
                  if exists m, p :: OnlyTextOf(mappings, m, u) && p in players && p.name == m.name
                  then reason == "unassigned_conflict_uuid" else reason == "orphan_legacy_mapping"
                else reason == "conflicting_legacy_uuid")
  {
    var a := Action("reserved", None, Format(u), Some(k), reason);
    hide ParseLegacy, AloneInName, OnlyMapping, PlayerReason, OfflineUuid, Format, PlayerAction, ReservedAction,
      ActiveUuids, OnlyTextOf, KeptBySome;
    NoPlayerIsReserved(h, players, mappings, a);
    assert a in PlanActions(h, players, mappings) <==> a in ReservedActions(h, players, mappings);
    forall v | v in LegacyUuids(mappings) && ReservedAction(players, mappings, v) == a
      ensures v == u
    {
      ReservedActionIs(players, mappings, v);
      FormatInjective(u, v);
    }
    assert a in ReservedActions(h, players, mappings) <==>
        u in LegacyUuids(mappings) && u !in ActiveUuids(h, players, mappings)
        && ReservedAction(players, mappings, u) == a;
    if u in LegacyUuids(mappings) {
      KeptExactly(h, players, mappings, u);
      ReservationExactly(players, mappings, u, k, reason);
    }
  }

  lemma NoPlayerIsReserved(h: Hashes, players: set<SourcePlayer>, mappings: set<SourceMapping>, a: Action)
    requires a.player.None?
    ensures a !in PlayerActions(h, players, mappings)
  {
    hide PlayerAction;
    forall p | p in players
      ensures PlayerAction(h, players, mappings, p) != a
    {
      PlayerActionIs(h, players, mappings, p);
    }
  }

  lemma ReservationExactly(players: set<SourcePlayer>, mappings: set<SourceMapping>, u: Uuid, k: nat, reason: string)
    requires u in LegacyUuids(mappings)
    ensures ReservedAction(players, mappings, u) == Action("reserved", None, Format(u), Some(k), reason) <==>
            && (exists m :: m in mappings && ParseLegacy(m.uuid) == Some(u) && m.id == k)
            && (forall m | m in mappings && ParseLegacy(m.uuid) == Some(u) :: k <= m.id)
            && (if exists m :: OnlyTextOf(mappings, m, u) then
                  if exists m, p :: OnlyTextOf(mappings, m, u) && p in players && p.name == m.name
                  then reason == "unassigned_conflict_uuid" else reason == "orphan_legacy_mapping"
                else reason == "conflicting_legacy_uuid")
  {
    hide ParseLegacy, Format, LowestId;
    var one :| one in mappings && ParseLegacy(one.uuid) == Some(u);
    var rows := MappingsOf(mappings, u);
    assert one in rows;
    assert forall m :: m in rows <==> m in mappings && ParseLegacy(m.uuid) == Some(u);
    LowestIs(rows, k);
    ReasonOfRows(players, mappings, u, one);
    hide MappingsOf, ReservationReason, OnlyTextOf;
  }

  lemma ReasonOfRows(players: set<SourcePlayer>, mappings: set<SourceMapping>, u: Uuid, one: SourceMapping)
    requires one in mappings && ParseLegacy(one.uuid) == Some(u)
    ensures ReservationReason(players, MappingsOf(mappings, u))
            == if exists m :: OnlyTextOf(mappings, m, u) then
                 if exists m, p :: OnlyTextOf(mappings, m, u) && p in players && p.name == m.name
                 then "unassigned_conflict_uuid" else "orphan_legacy_mapping"
               else "conflicting_legacy_uuid"
  {
    TextCases(mappings, one, u);
    forall m | OnlyTextOf(mappings, m, u)
      ensures m == one
    {
    }
    var rows := MappingsOf(mappings, u);
    assert one in rows;
    hide ParseLegacy, OnlyTextOf;
    if |rows| == 1 {
      OnlyMember(rows, one);
      assert PlayersNamed(players, one.name) == {} <==> !exists p :: p in players && p.name == one.name by {
        assert forall p :: p in PlayersNamed(players, one.name) <==> p in players && p.name == one.name;
      }
    }
    hide MappingsOf;
  }

  // ---- every plan that is built ----

  lemma PlanHolds(h: Hashes, s: Snapshot, migration: Uuid, createdAt: nat, plan: Plan)
    requires IsPlanOf(h, s, migration, createdAt, plan)
    ensures forall a :: a in plan.actions <==> a in PlanActions(h, Elements(s.players), Elements(s.mappings))
    ensures Distinct(plan.actions)
  {
    hide PlanActions, SummaryOf, Canonical, Ordered, Greatest;
    var actions := PlanActions(h, Elements(s.players), Elements(s.mappings));
    assert forall a :: a in plan.actions <==> a in multiset(plan.actions);
    assert forall a :: a in actions <==> a in multiset(actions);
    forall i, j | 0 <= i < j < |plan.actions|
      ensures plan.actions[i] != plan.actions[j]
    {
      OnceOnly(plan.actions, actions, i, j);
    }
  }

  lemma OnceOnly<T(!new)>(rows: seq<T>, all: set<T>, i: nat, j: nat)
    requires multiset(rows) == multiset(all) && i < j < |rows|
    ensures rows[i] != rows[j]
  {
    var x := rows[i];
    assert rows == rows[..j] + [rows[j]] + rows[j + 1..];
    assert rows[..j][i] == x;
    assert multiset(rows)[x] >= multiset(rows[..j])[x] + multiset([rows[j]])[x];
    assert multiset(all)[x] <= 1;
    assert x in multiset(rows[..j]);
  }

  lemma OneActionEach(h: Hashes, players: set<SourcePlayer>, mappings: set<SourceMapping>, p: SourcePlayer, a: Action)
    requires p in players && IdsTellApart(players, mappings) && a.player == Some(p.id)
    ensures a in PlanActions(h, players, mappings) <==> a == PlayerAction(h, players, mappings, p)
  {
    hide PlayerAction, ReservedAction, LegacyUuids, ActiveUuids;
    if a in PlanActions(h, players, mappings) {
      var q, u := ActionSource(h, players, mappings, a);
    }
  }

  /** Every plan built from a source leaves a player its legacy identifier exactly as the rows demand. */
  lemma PlanDecidesPlayer(h: Hashes, s: Snapshot, migration: Uuid, createdAt: nat, plan: Plan, p: SourcePlayer,
                          m: SourceMapping, u: Uuid)
    requires IsPlanOf(h, s, migration, createdAt, plan) && DistinctIds(s) && p in s.players && m in s.mappings
    ensures var players, mappings := Elements(s.players), Elements(s.mappings);
            Action("active", Some(p.id), Format(u), Some(m.id), "unique_exact_mapping") in plan.actions <==>
            AloneInName(players, mappings, p) && OnlyMapping(mappings, p, m) && OnlyTextOf(mappings, m, u)
  {
    hide IsPlanOf, PlanActions, PlayerAction, Format, AloneInName, OnlyMapping, OnlyTextOf;
    DistinctTellsApart(s);
    PlanHolds(h, s, migration, createdAt, plan);
    OneActionEach(h, Elements(s.players), Elements(s.mappings), p,
                  Action("active", Some(p.id), Format(u), Some(m.id), "unique_exact_mapping"));
    MappedExactly(h, Elements(s.players), Elements(s.mappings), p, m, u);
  }

  /** And gives a generated one exactly as they demand. */
  lemma PlanGenerates(h: Hashes, s: Snapshot, migration: Uuid, createdAt: nat, plan: Plan, p: SourcePlayer, u: Uuid)
    requires IsPlanOf(h, s, migration, createdAt, plan) && DistinctIds(s) && p in s.players
    ensures var players, mappings := Elements(s.players), Elements(s.mappings);
            Action("active", Some(p.id), Format(u), None, "generated_offline_v3") in plan.actions <==>
            AloneInName(players, mappings, p) && NotMapped(mappings, p)
            && OnlyGeneratedFor(h, players, mappings, p, u)
  {
    hide IsPlanOf, PlanActions, PlayerAction, Format, AloneInName, NotMapped, OnlyGeneratedFor;
    DistinctTellsApart(s);
    PlanHolds(h, s, migration, createdAt, plan);
    OneActionEach(h, Elements(s.players), Elements(s.mappings), p,
                  Action("active", Some(p.id), Format(u), None, "generated_offline_v3"));
    GeneratedExactly(h, Elements(s.players), Elements(s.mappings), p, u);
  }

  /** Each player has exactly one action. */
  lemma PlanCoversPlayers(h: Hashes, s: Snapshot, migration: Uuid, createdAt: nat, plan: Plan, p: SourcePlayer)
    requires IsPlanOf(h, s, migration, createdAt, plan) && DistinctIds(s) && p in s.players
    ensures exists i :: 0 <= i < |plan.actions| && plan.actions[i].player == Some(p.id)
    ensures forall i, j | 0 <= i < j < |plan.actions| && plan.actions[i].player == Some(p.id) ::
              plan.actions[j].player != Some(p.id)
  {
    hide IsPlanOf, PlanActions, PlayerAction;
    DistinctTellsApart(s);
    PlanHolds(h, s, migration, createdAt, plan);
    var players, mappings := Elements(s.players), Elements(s.mappings);
    var a := PlayerAction(h, players, mappings, p);
    PlayerActionIs(h, players, mappings, p);
    OneActionEach(h, players, mappings, p, a);
    forall b | b in plan.actions && b.player == Some(p.id)
      ensures b == a
    {
      OneActionEach(h, players, mappings, p, b);
    }
    var i :| 0 <= i < |plan.actions| && plan.actions[i] == a;
  }

  /** The header of a plan: its names, the digest of the source with both tables in id order, and the greatest player
      id. */
  lemma PlanHeader(h: Hashes, s: Snapshot, migration: Uuid, createdAt: nat, plan: Plan)
    requires IsPlanOf(h, s, migration, createdAt, plan)
    ensures plan.version == 1 && plan.migration == migration && plan.createdAt == createdAt
    ensures exists c: Snapshot ::
              && plan.source == h.snapshot(c) && c == s.(players := c.players, mappings := c.mappings)
              && multiset(c.players) == multiset(s.players) && multiset(c.mappings) == multiset(s.mappings)
              && (forall x, y :: 0 <= x < y < |c.players| ==> c.players[x].id < c.players[y].id)
              && (forall x, y :: 0 <= x < y < |c.mappings| ==> c.mappings[x].id < c.mappings[y].id)
    ensures forall p | p in s.players :: p.id <= plan.watermark
    ensures plan.watermark == 0 || exists p :: p in s.players && p.id == plan.watermark
  {
    HashedInOrder(h, s, migration, createdAt, plan);
    hide PlanActions, Canonical, SummaryOf, Ordered;
    assert Greatest(Elements(s.players), plan.watermark);
  }

  /** Its summary counts rows and actions. */
  lemma PlanSummary(h: Hashes, s: Snapshot, migration: Uuid, createdAt: nat, plan: Plan)
    requires IsPlanOf(h, s, migration, createdAt, plan) && DistinctIds(s)
    ensures plan.summary.players == |s.players| && plan.summary.mappings == |s.mappings|
    ensures plan.summary.active == |set a | a in plan.actions && a.state == "active"|
    ensures plan.summary.blocked == |set a | a in plan.actions && a.state == "blocked"|
    ensures plan.summary.reserved == |set a | a in plan.actions && a.state == "reserved"|
    ensures plan.summary.invalid == |set m | m in s.mappings && ParseLegacy(m.uuid).None?|
  {
    var players, mappings := Elements(s.players), Elements(s.mappings);
    PlanHolds(h, s, migration, createdAt, plan);
    DistinctTellsApart(s);
    DistinctSize(s.players);
    DistinctSize(s.mappings);
    hide PlanActions, Canonical, ParseLegacy, Ordered, Greatest;
    assert InState(PlanActions(h, players, mappings), "active") == set a | a in plan.actions && a.state == "active";
    assert InState(PlanActions(h, players, mappings), "blocked") == set a | a in plan.actions && a.state == "blocked";
    assert InState(PlanActions(h, players, mappings), "reserved") == set a | a in plan.actions && a.state == "reserved";
    assert Unparsed(mappings) == set m | m in s.mappings && ParseLegacy(m.uuid).None?;
  }

  /** Its actions are in order: active ones, blocked ones, reserved ones; the first two by player, the last by
      identifier. */
  lemma PlanOrder(h: Hashes, s: Snapshot, migration: Uuid, createdAt: nat, plan: Plan, i: nat, j: nat)
    requires IsPlanOf(h, s, migration, createdAt, plan) && DistinctIds(s) && i < j < |plan.actions|
    ensures var a, b := plan.actions[i], plan.actions[j];
            && (b.state == "active" ==> a.state == "active") && (a.state == "reserved" ==> b.state == "reserved")
            && (a.state == b.state && a.player.Some? && b.player.Some? ==> a.player.value < b.player.value)
            && (a.state == b.state == "reserved" ==> TextLess(a.uuid, b.uuid))
  {
    PlanHolds(h, s, migration, createdAt, plan);
    DistinctTellsApart(s);
    hide PlanActions, Canonical, ActionLess, SummaryOf, Greatest;
    assert ActionLess(plan.actions[i], plan.actions[j]);
    PlanIsUnique(h, Elements(s.players), Elements(s.mappings));
    OrderReads(PlanActions(h, Elements(s.players), Elements(s.mappings)), plan.actions[i], plan.actions[j]);
  }

  lemma HashedInOrder(h: Hashes, s: Snapshot, migration: Uuid, createdAt: nat, plan: Plan)
    requires IsPlanOf(h, s, migration, createdAt, plan)
    ensures exists c: Snapshot ::
              && plan.source == h.snapshot(c) && c == s.(players := c.players, mappings := c.mappings)
              && multiset(c.players) == multiset(s.players) && multiset(c.mappings) == multiset(s.mappings)
              && (forall x, y :: 0 <= x < y < |c.players| ==> c.players[x].id < c.players[y].id)
              && (forall x, y :: 0 <= x < y < |c.mappings| ==> c.mappings[x].id < c.mappings[y].id)
  {
    hide PlanActions, SummaryOf, Ordered, Greatest;
    var c :| Canonical(s, c) && plan.source == h.snapshot(c);
  }

  lemma OrderReads(actions: set<Action>, a: Action, b: Action)
    requires WellKeyed(actions) && a in actions && b in actions && ActionLess(a, b)
    ensures (b.state == "active" ==> a.state == "active") && (a.state == "reserved" ==> b.state == "reserved")
    ensures a.state == b.state && a.player.Some? && b.player.Some? ==> a.player.value < b.player.value
    ensures a.state == b.state == "reserved" ==> TextLess(a.uuid, b.uuid)
  {
  }
}
