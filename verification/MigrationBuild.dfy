/** The plan compiler: loops over indexes, proved to compute exactly the plan that MigrationPlan defines. */
module MigrationBuild {
  import opened Basics
  import opened Sorting
  import opened Listing
  import opened Uuids
  import opened MigrationPlan
  import opened MigrationMeaning

  // ---- indexes ----

  /** The maps the compiler fills before it classifies anything. */
  datatype Indexes = Indexes(names: Names, uuids: Values)

  datatype Names = Names(players: map<string, seq<SourcePlayer>>, mappings: map<string, seq<SourceMapping>>,
                         byKey: map<string, set<string>>)

  datatype Values = Values(parsed: map<nat, Uuid>, mappings: map<Uuid, seq<SourceMapping>>, invalid: set<nat>)

  const EMPTY: Indexes := Indexes(Names(map[], map[], map[]), Values(map[], map[], {}))

  /** A missing key reads as the empty slice. */
  function Rows<K, V>(index: map<K, seq<V>>, key: K): seq<V>
  {
    if key in index then index[key] else []
  }

  function Add<K, V>(index: map<K, seq<V>>, key: K, v: V): map<K, seq<V>>
  {
    index[key := Rows(index, key) + [v]]
  }

  function Spellings(index: map<string, set<string>>, key: string): set<string>
  {
    if key in index then index[key] else {}
  }

  function AddName(index: map<string, set<string>>, key: string, name: string): map<string, set<string>>
  {
    index[key := Spellings(index, key) + {name}]
  }

  ghost predicate NameIndexes(ix: Names, players: set<SourcePlayer>, mappings: set<SourceMapping>)
  {
    && (forall name :: Lists(Rows(ix.players, name), PlayersNamed(players, name)))
    && (forall name :: Lists(Rows(ix.mappings, name), MappingsNamed(mappings, name)))
    && (forall key :: Spellings(ix.byKey, key) == NamesOfKey(players, mappings, key))
  }

  ghost predicate UuidIndexes(ix: Values, mappings: set<SourceMapping>)
  {
    && (forall u :: Lists(Rows(ix.mappings, u), MappingsOf(mappings, u)))
    && ix.mappings.Keys == LegacyUuids(mappings)
    && (forall m | m in mappings && ParseLegacy(m.uuid).Some? :: m.id in ix.parsed
                                                                 && ix.parsed[m.id] == ParseLegacy(m.uuid).value)
    && ix.invalid == (set m | m in Unparsed(mappings) :: m.id)
    && |ix.invalid| == |Unparsed(mappings)|
  }

  ghost predicate Describes(ix: Indexes, players: set<SourcePlayer>, mappings: set<SourceMapping>)
  {
    NameIndexes(ix.names, players, mappings) && UuidIndexes(ix.uuids, mappings)
  }

  function WithPlayer(ix: Names, p: SourcePlayer): Names
  {
    ix.(players := Add(ix.players, p.name, p), byKey := AddName(ix.byKey, p.key, p.name))
  }

  function WithMapping(ix: Names, m: SourceMapping): Names
  {
    ix.(mappings := Add(ix.mappings, m.name, m), byKey := AddName(ix.byKey, m.key, m.name))
  }

  function WithUuid(ix: Values, m: SourceMapping): Values
  {
    match ParseLegacy(m.uuid)
    case None => ix.(invalid := ix.invalid + {m.id})
    case Some(u) => ix.(parsed := ix.parsed[m.id := u], mappings := Add(ix.mappings, u, m))
  }

  lemma PlayerIndexed(ix: Names, players: set<SourcePlayer>, mappings: set<SourceMapping>, p: SourcePlayer)
    requires NameIndexes(ix, players, mappings) && p !in players
    ensures NameIndexes(WithPlayer(ix, p), players + {p}, mappings)
  {
    var next := WithPlayer(ix, p);
    forall name
      ensures Lists(Rows(next.players, name), PlayersNamed(players + {p}, name))
    {
      assert PlayersNamed(players + {p}, name) == PlayersNamed(players, name) + (if p.name == name then {p} else {});
      if p.name == name {
        ListsOneMore(Rows(ix.players, name), PlayersNamed(players, name), p);
      }
    }
    forall key
      ensures Spellings(next.byKey, key) == NamesOfKey(players + {p}, mappings, key)
    {
      assert NamesOfKey(players + {p}, mappings, key)
          == NamesOfKey(players, mappings, key) + (if p.key == key then {p.name} else {});
    }
  }

  lemma MappingIndexed(ix: Names, players: set<SourcePlayer>, mappings: set<SourceMapping>, m: SourceMapping)
    requires NameIndexes(ix, players, mappings) && m !in mappings
    ensures NameIndexes(WithMapping(ix, m), players, mappings + {m})
  {
    var next := WithMapping(ix, m);
    forall name
      ensures Lists(Rows(next.mappings, name), MappingsNamed(mappings + {m}, name))
    {
      assert MappingsNamed(mappings + {m}, name)
          == MappingsNamed(mappings, name) + (if m.name == name then {m} else {});
      if m.name == name {
        ListsOneMore(Rows(ix.mappings, name), MappingsNamed(mappings, name), m);
      }
    }
    forall key
      ensures Spellings(next.byKey, key) == NamesOfKey(players, mappings + {m}, key)
    {
      assert NamesOfKey(players, mappings + {m}, key)
          == NamesOfKey(players, mappings, key) + (if m.key == key then {m.name} else {});
    }
  }

  lemma UuidIndexed(ix: Values, mappings: set<SourceMapping>, m: SourceMapping)
    requires UuidIndexes(ix, mappings) && m !in mappings && forall n | n in mappings :: n.id != m.id
    ensures UuidIndexes(WithUuid(ix, m), mappings + {m})
  {
    hide ParseLegacy, Lists, Rows, LegacyUuids, Unparsed;
    if ParseLegacy(m.uuid).Some? {
      var u := ParseLegacy(m.uuid).value;
      LegacyGrows(mappings, m);
      forall v
        ensures Lists(Rows(Add(ix.mappings, u, m), v), MappingsOf(mappings + {m}, v))
      {
        UuidListed(ix.mappings, mappings, m, u, v);
      }
    } else {
      UnparsedGrows(ix.invalid, mappings, m);
      forall v
        ensures MappingsOf(mappings + {m}, v) == MappingsOf(mappings, v)
      {
      }
    }
  }

  lemma UuidListed(index: map<Uuid, seq<SourceMapping>>, mappings: set<SourceMapping>, m: SourceMapping, u: Uuid,
                   v: Uuid)
    requires Lists(Rows(index, v), MappingsOf(mappings, v)) && m !in mappings && ParseLegacy(m.uuid) == Some(u)
    ensures Lists(Rows(Add(index, u, m), v), MappingsOf(mappings + {m}, v))
  {
    hide ParseLegacy;
    assert MappingsOf(mappings + {m}, v) == MappingsOf(mappings, v) + (if u == v then {m} else {});
    if u == v {
      ListsOneMore(Rows(index, u), MappingsOf(mappings, u), m);
    }
  }

  lemma LegacyGrows(mappings: set<SourceMapping>, m: SourceMapping)
    requires ParseLegacy(m.uuid).Some?
    ensures LegacyUuids(mappings + {m}) == LegacyUuids(mappings) + {ParseLegacy(m.uuid).value}
    ensures Unparsed(mappings + {m}) == Unparsed(mappings)
  {
    hide ParseLegacy;
  }

  lemma UnparsedGrows(invalid: set<nat>, mappings: set<SourceMapping>, m: SourceMapping)
    requires ParseLegacy(m.uuid).None? && m !in mappings && (forall n | n in mappings :: n.id != m.id)
    requires invalid == (set n | n in Unparsed(mappings) :: n.id) && |invalid| == |Unparsed(mappings)|
    ensures LegacyUuids(mappings + {m}) == LegacyUuids(mappings)
    ensures invalid + {m.id} == (set n | n in Unparsed(mappings + {m}) :: n.id)
    ensures |invalid + {m.id}| == |Unparsed(mappings + {m})|
  {
    hide ParseLegacy;
    assert Unparsed(mappings + {m}) == Unparsed(mappings) + {m};
    assert m.id !in invalid;
  }

  lemma NothingIndexed(s: Snapshot)
    ensures NameIndexes(EMPTY.names, Elements(s.players[..0]), Elements(s.mappings[..0]))
    ensures UuidIndexes(EMPTY.uuids, Elements(s.mappings[..0])) && Greatest(Elements(s.players[..0]), 0)
  {
  }

  lemma GreatestSoFar(players: set<SourcePlayer>, watermark: nat, p: SourcePlayer)
    requires Greatest(players, watermark)
    ensures Greatest(players + {p}, if watermark < p.id then p.id else watermark)
  {
  }

  method IndexSnapshot(s: Snapshot) returns (ix: Indexes, watermark: nat)
    requires DistinctIds(s)
    ensures Describes(ix, Elements(s.players), Elements(s.mappings))
    ensures Greatest(Elements(s.players), watermark)
  {
    hide ParseLegacy, NameIndexes, UuidIndexes, Greatest, WithPlayer, WithMapping, WithUuid;
    NothingIndexed(s);
    var names, uuids := EMPTY.names, EMPTY.uuids;
    watermark := 0;
    for i := 0 to |s.players|
      invariant NameIndexes(names, Elements(s.players[..i]), Elements(s.mappings[..0]))
      invariant Greatest(Elements(s.players[..i]), watermark)
    {
      var p := s.players[i];
      PlayerIndexed(names, Elements(s.players[..i]), Elements(s.mappings[..0]), p);
      GreatestSoFar(Elements(s.players[..i]), watermark, p);
      OneMoreElement(s.players, i);
      names := WithPlayer(names, p);
      watermark := if watermark < p.id then p.id else watermark;
    }
    assert s.players[..|s.players|] == s.players;
    for i := 0 to |s.mappings|
      invariant NameIndexes(names, Elements(s.players), Elements(s.mappings[..i]))
      invariant UuidIndexes(uuids, Elements(s.mappings[..i]))
    {
      var m := s.mappings[i];
      MappingIndexed(names, Elements(s.players), Elements(s.mappings[..i]), m);
      UuidIndexed(uuids, Elements(s.mappings[..i]), m);
      OneMoreElement(s.mappings, i);
      names := WithMapping(names, m);
      uuids := WithUuid(uuids, m);
    }
    assert s.mappings[..|s.mappings|] == s.mappings;
    ix := Indexes(names, uuids);
  }

  // ---- decisions over the indexes ----

  function IndexedReason(ix: Indexes, p: SourcePlayer): string
  {
    if |Rows(ix.names.players, p.name)| != 1 then "duplicate_current_name"
    else if |Spellings(ix.names.byKey, p.key)| != 1 then "collation_equivalent_name"
    else
      var rows := Rows(ix.names.mappings, p.name);
      if |rows| == 0 then "missing_legacy_mapping"
      else if |rows| != 1 then "duplicate_legacy_name"
      else if rows[0].id in ix.uuids.invalid then "invalid_legacy_uuid"
      else
        var u := if rows[0].id in ix.uuids.parsed then ix.uuids.parsed[rows[0].id] else NIL;
        if |Rows(ix.uuids.mappings, u)| != 1 then "duplicate_legacy_uuid" else "active"
  }

  /** Reading the indexes gives the reason the sets give. */
  lemma ReasonAgrees(ix: Indexes, players: set<SourcePlayer>, mappings: set<SourceMapping>, p: SourcePlayer)
    requires Describes(ix, players, mappings) && IdsTellApart(players, mappings) && p in players
    ensures IndexedReason(ix, p) == PlayerReason(players, mappings, p)
    ensures IndexedReason(ix, p) == "active" ==>
              && |Rows(ix.names.mappings, p.name)| == 1
              && var m := Rows(ix.names.mappings, p.name)[0];
                 m == Only(MappingsNamed(mappings, p.name)) && m in mappings && m.id in ix.uuids.parsed
                     && ParseLegacy(m.uuid) == Some(ix.uuids.parsed[m.id])
  {
    ListsSize(Rows(ix.names.players, p.name), PlayersNamed(players, p.name));
    var rows := Rows(ix.names.mappings, p.name);
    ListsSize(rows, MappingsNamed(mappings, p.name));
    if |rows| == 1 {
      var m := rows[0];
      assert m in MappingsNamed(mappings, p.name);
      assert m.id in ix.uuids.invalid <==> ParseLegacy(m.uuid).None?;
      if ParseLegacy(m.uuid).Some? {
        var u := ParseLegacy(m.uuid).value;
        ListsSize(Rows(ix.uuids.mappings, u), MappingsOf(mappings, u));
      }
    }
  }

  ghost function GeneratorsIn(h: Hashes, players: set<SourcePlayer>, mappings: set<SourceMapping>,
                              done: set<SourcePlayer>, u: Uuid): set<SourcePlayer>
  {
    Generators(h, players, mappings, u) * done
  }

  function Count(counts: map<Uuid, nat>, u: Uuid): nat
  {
    if u in counts then counts[u] else 0
  }

  lemma OneMoreGenerator(h: Hashes, players: set<SourcePlayer>, mappings: set<SourceMapping>, done: set<SourcePlayer>,
                         p: SourcePlayer, u: Uuid)
    requires p in players && p !in done
    ensures |GeneratorsIn(h, players, mappings, done + {p}, u)|
         == |GeneratorsIn(h, players, mappings, done, u)|
            + (if PlayerReason(players, mappings, p) == "missing_legacy_mapping" && OfflineUuid(h, p.name) == u then 1
                 else 0)
  {
    hide PlayerReason, OfflineUuid;
    var before := GeneratorsIn(h, players, mappings, done, u);
    var added := if PlayerReason(players, mappings, p) == "missing_legacy_mapping" && OfflineUuid(h, p.name) == u
      then {p} else {};
    assert GeneratorsIn(h, players, mappings, done + {p}, u) == before + added;
  }

  method CountGenerated(h: Hashes, s: Snapshot, ix: Indexes) returns (counts: map<Uuid, nat>)
    requires DistinctIds(s) && Describes(ix, Elements(s.players), Elements(s.mappings))
    ensures forall u :: Count(counts, u) == |Generators(h, Elements(s.players), Elements(s.mappings), u)|
  {
    hide PlayerReason, OfflineUuid, IndexedReason, Describes, GeneratorsIn, Count, Generators;
    ghost var players, mappings := Elements(s.players), Elements(s.mappings);
    DistinctTellsApart(s);
    counts := map[];
    NothingCounted(h, players, mappings, Elements(s.players[..0]));
    for i := 0 to |s.players|
      invariant Counts(counts, h, players, mappings, Elements(s.players[..i]))
    {
      var p := s.players[i];
      ReasonAgrees(ix, players, mappings, p);
      OneMoreElement(s.players, i);
      OneMoreCounted(counts, h, players, mappings, Elements(s.players[..i]), p);
      if IndexedReason(ix, p) == "missing_legacy_mapping" {
        var u := OfflineUuid(h, p.name);
        counts := counts[u := Count(counts, u) + 1];
      }
    }
    assert s.players[..|s.players|] == s.players;
    EveryoneCounted(counts, h, players, mappings);
  }

  ghost predicate Counts(counts: map<Uuid, nat>, h: Hashes, players: set<SourcePlayer>, mappings: set<SourceMapping>,
                         done: set<SourcePlayer>)
  {
    forall u :: Count(counts, u) == |GeneratorsIn(h, players, mappings, done, u)|
  }

  lemma NothingCounted(h: Hashes, players: set<SourcePlayer>, mappings: set<SourceMapping>, done: set<SourcePlayer>)
    requires done == {}
    ensures Counts(map[], h, players, mappings, done)
  {
  }

  lemma EveryoneCounted(counts: map<Uuid, nat>, h: Hashes, players: set<SourcePlayer>, mappings: set<SourceMapping>)
    requires Counts(counts, h, players, mappings, players)
    ensures forall u :: Count(counts, u) == |Generators(h, players, mappings, u)|
  {
    hide PlayerReason, OfflineUuid;
    assert forall u :: GeneratorsIn(h, players, mappings, players, u) == Generators(h, players, mappings, u);
  }

  lemma OneMoreCounted(counts: map<Uuid, nat>, h: Hashes, players: set<SourcePlayer>, mappings: set<SourceMapping>,
                       done: set<SourcePlayer>, p: SourcePlayer)
    requires Counts(counts, h, players, mappings, done) && p in players && p !in done
    ensures PlayerReason(players, mappings, p) == "missing_legacy_mapping" ==>
              var u := OfflineUuid(h, p.name);
              Counts(counts[u := Count(counts, u) + 1], h, players, mappings, done + {p})
    ensures PlayerReason(players, mappings, p) != "missing_legacy_mapping" ==>
              Counts(counts, h, players, mappings, done + {p})
  {
    hide PlayerReason, OfflineUuid, GeneratorsIn;
    forall u
      ensures |GeneratorsIn(h, players, mappings, done + {p}, u)|
           == Count(counts, u) + (if PlayerReason(players, mappings, p) == "missing_legacy_mapping"
                                  && OfflineUuid(h, p.name) == u then 1 else 0)
    {
      OneMoreGenerator(h, players, mappings, done, p, u);
    }
  }

  /** The action of one player and the identifier it takes, as the loop computes them. */
  method DecidePlayer(h: Hashes, ix: Indexes, counts: map<Uuid, nat>, p: SourcePlayer,
                      ghost players: set<SourcePlayer>, ghost mappings: set<SourceMapping>)
    returns (action: Action, taken: Option<Uuid>)
    requires Describes(ix, players, mappings) && IdsTellApart(players, mappings) && p in players
    requires forall u :: Count(counts, u) == |Generators(h, players, mappings, u)|
    ensures action == PlayerAction(h, players, mappings, p) && taken == PlannedUuid(h, players, mappings, p)
  {
    ReasonAgrees(ix, players, mappings, p);
    var reason := IndexedReason(ix, p);
    if reason == "missing_legacy_mapping" {
      var u := OfflineUuid(h, p.name);
      ListsSize(Rows(ix.uuids.mappings, u), MappingsOf(mappings, u));
      if Count(counts, u) != 1 || |Rows(ix.uuids.mappings, u)| != 0 {
        return Action("blocked", Some(p.id), "", None, "generated_v3_uuid_conflict"), None;
      }
      return Action("active", Some(p.id), Format(u), None, "generated_offline_v3"), Some(u);
    }
    if reason != "active" {
      return Action("blocked", Some(p.id), "", None, reason), None;
    }
    var m := Rows(ix.names.mappings, p.name)[0];
    var u := ix.uuids.parsed[m.id];
    return Action("active", Some(p.id), Format(u), Some(m.id), "unique_exact_mapping"), Some(u);
  }

  method DecidePlayers(h: Hashes, s: Snapshot, ix: Indexes, counts: map<Uuid, nat>) returns (actions: seq<Action>,
                       active: set<Uuid>)
    requires DistinctIds(s) && Describes(ix, Elements(s.players), Elements(s.mappings))
    requires forall u :: Count(counts, u) == |Generators(h, Elements(s.players), Elements(s.mappings), u)|
    ensures Lists(actions, PlayerActions(h, Elements(s.players), Elements(s.mappings)))
    ensures active == ActiveUuids(h, Elements(s.players), Elements(s.mappings))
  {
    hide PlayerAction, PlannedUuid, Describes;
    ghost var players, mappings := Elements(s.players), Elements(s.mappings);
    DistinctTellsApart(s);
    actions, active := [], {};
    for i := 0 to |s.players|
      invariant |actions| == i
      invariant forall k :: 0 <= k < i ==> actions[k] == PlayerAction(h, players, mappings, s.players[k])
      invariant active == set k: nat | k < i && PlannedUuid(h, players, mappings, s.players[k]).Some?
                            :: PlannedUuid(h, players, mappings, s.players[k]).value
    {
      var action, taken := DecidePlayer(h, ix, counts, s.players[i], players, mappings);
      actions := actions + [action];
      if taken.Some? {
        active := active + {taken.value};
      }
    }
    forall k | 0 <= k < |s.players|
      ensures actions[k].player == Some(s.players[k].id) && actions[k] in PlayerActions(h, players, mappings)
    {
      PlayerActionIs(h, players, mappings, s.players[k]);
    }
    forall a | a in PlayerActions(h, players, mappings)
      ensures a in actions
    {
      var p :| p in players && a == PlayerAction(h, players, mappings, p);
      var k :| 0 <= k < |s.players| && s.players[k] == p;
      assert actions[k] == a;
    }
    forall u
      ensures u in active <==> u in ActiveUuids(h, players, mappings)
    {
    }
  }

  // ---- reservations ----

  predicate UuidTextLess(a: Uuid, b: Uuid)
  {
    TextLess(Format(a), Format(b))
  }

  /** The legacy identifiers nobody took; a map is iterated in any order. */
  method Untaken(byUuid: map<Uuid, seq<SourceMapping>>, active: set<Uuid>) returns (values: seq<Uuid>)
    ensures Lists(values, byUuid.Keys - active)
  {
    values := [];
    var rest := byUuid.Keys;
    while rest != {}
      invariant rest <= byUuid.Keys
      invariant Lists(values, byUuid.Keys - rest - active)
    {
      var u :| u in rest;
      assert byUuid.Keys - (rest - {u}) - active == byUuid.Keys - rest - active + (if u in active then {} else {u});
      assert u !in values by {
        assert u !in Elements(values);
      }
      rest := rest - {u};
      if u !in active {
        values := values + [u];
      }
    }
    values := SortList(UuidTextLess, values, byUuid.Keys - active);
  }

  method Reserve(ix: Indexes, u: Uuid, ghost players: set<SourcePlayer>,
                 ghost mappings: set<SourceMapping>) returns (action: Action)
    requires Describes(ix, players, mappings) && IdsTellApart(players, mappings) && u in LegacyUuids(mappings)
    ensures action == ReservedAction(players, mappings, u)
  {
    ghost var all := MappingsOf(mappings, u);
    var rows := SortList(MappingIdLess, Rows(ix.uuids.mappings, u), all);
    ListsSize(rows, all);
    assert all != {} by {
      var m :| m in mappings && ParseLegacy(m.uuid) == Some(u);
      assert m in all;
    }
    assert Ordered(MappingIdLess, rows);
    assert Lowest(all, rows[0].id) by {
      forall m | m in all
        ensures rows[0].id <= m.id
      {
        var k :| 0 <= k < |rows| && rows[k] == m;
      }
      assert rows[0] in all;
    }
    var reason := if |rows| != 1 then "conflicting_legacy_uuid"
                  else if |Rows(ix.names.players, rows[0].name)| == 0 then "orphan_legacy_mapping"
                  else "unassigned_conflict_uuid";
    ListsSize(Rows(ix.names.players, rows[0].name), PlayersNamed(players, rows[0].name));
    action := Action("reserved", None, Format(u), Some(rows[0].id), reason);
  }

  method ReserveRest(h: Hashes, s: Snapshot, ix: Indexes, active: set<Uuid>) returns (actions: seq<Action>)
    requires DistinctIds(s) && Describes(ix, Elements(s.players), Elements(s.mappings))
    requires active == ActiveUuids(h, Elements(s.players), Elements(s.mappings))
    ensures Lists(actions, ReservedActions(h, Elements(s.players), Elements(s.mappings)))
  {
    hide ReservedAction, ActiveUuids, LegacyUuids;
    ghost var players, mappings := Elements(s.players), Elements(s.mappings);
    DistinctTellsApart(s);
    var values := Untaken(ix.uuids.mappings, active);
    actions := [];
    for i := 0 to |values|
      invariant |actions| == i
      invariant forall k :: 0 <= k < i ==> actions[k] == ReservedAction(players, mappings, values[k])
    {
      assert values[i] in Elements(values);
      var action := Reserve(ix, values[i], players, mappings);
      actions := actions + [action];
    }
    ReservationsListed(players, mappings, values, LegacyUuids(mappings) - active, actions);
  }

  lemma ReservationsListed(players: set<SourcePlayer>, mappings: set<SourceMapping>, values: seq<Uuid>, all: set<Uuid>,
                           actions: seq<Action>)
    requires Lists(values, all) && all <= LegacyUuids(mappings) && |actions| == |values|
    requires forall k :: 0 <= k < |values| ==> actions[k] == ReservedAction(players, mappings, values[k])
    ensures Lists(actions, set u | u in all :: ReservedAction(players, mappings, u))
  {
    hide ReservedAction, LegacyUuids;
    forall k | 0 <= k < |values|
      ensures actions[k].uuid == Format(values[k]) && values[k] in all
    {
      assert values[k] in Elements(values);
      ReservedActionIs(players, mappings, values[k]);
    }
    forall j, k | 0 <= j < k < |values|
      ensures actions[j] != actions[k]
    {
      if actions[j].uuid == actions[k].uuid {
        FormatInjective(values[j], values[k]);
      }
    }
    forall u | u in all
      ensures ReservedAction(players, mappings, u) in actions
    {
      assert u in Elements(values);
      var k :| 0 <= k < |values| && values[k] == u;
      assert actions[k] == ReservedAction(players, mappings, u);
    }
  }

  // ---- the plan ----

  method CountStates(actions: seq<Action>) returns (active: nat, blocked: nat, reserved: nat)
    requires Distinct(actions)
    ensures active == |InState(Elements(actions), "active")|
    ensures blocked == |InState(Elements(actions), "blocked")|
    ensures reserved == |InState(Elements(actions), "reserved")|
  {
    active, blocked, reserved := 0, 0, 0;
    for i := 0 to |actions|
      invariant active == |InState(Elements(actions[..i]), "active")|
      invariant blocked == |InState(Elements(actions[..i]), "blocked")|
      invariant reserved == |InState(Elements(actions[..i]), "reserved")|
    {
      OneMoreInState(actions, i, "active");
      OneMoreInState(actions, i, "blocked");
      OneMoreInState(actions, i, "reserved");
      if actions[i].state == "active" {
        active := active + 1;
      } else if actions[i].state == "blocked" {
        blocked := blocked + 1;
      } else if actions[i].state == "reserved" {
        reserved := reserved + 1;
      }
    }
    assert actions[..|actions|] == actions;
  }

  lemma OneMoreInState(actions: seq<Action>, i: nat, state: string)
    requires Distinct(actions) && i < |actions|
    ensures |InState(Elements(actions[..i + 1]), state)|
         == |InState(Elements(actions[..i]), state)| + (if actions[i].state == state then 1 else 0)
  {
    OneMoreElement(actions, i);
    var before, next := Elements(actions[..i]), actions[i];
    assert next !in before;
    OneMoreIn(before, next, state);
  }

  lemma OneMoreIn(before: set<Action>, next: Action, state: string)
    requires next !in before
    ensures |InState(before + {next}, state)| == |InState(before, state)| + (if next.state == state then 1 else 0)
  {
    assert InState(before + {next}, state) == InState(before, state) + (if next.state == state then {next} else {});
  }

  method ValidateRows(s: Snapshot) returns (ok: bool)
    ensures ok <==> DistinctIds(s) && (forall i :: 0 <= i < |s.players| ==> GoodPlayer(s.players[i]))
                    && (forall i :: 0 <= i < |s.mappings| ==> GoodMapping(s.mappings[i]))
  {
    var players: set<nat> := {};
    for i := 0 to |s.players|
      invariant players == set k: nat | k < i :: s.players[k].id
      invariant forall j, k :: 0 <= j < k < i ==> s.players[j].id != s.players[k].id
      invariant forall k :: 0 <= k < i ==> GoodPlayer(s.players[k])
    {
      if !GoodPlayer(s.players[i]) || s.players[i].id in players {
        return false;
      }
      players := players + {s.players[i].id};
    }
    var mappings: set<nat> := {};
    for i := 0 to |s.mappings|
      invariant mappings == set k: nat | k < i :: s.mappings[k].id
      invariant forall j, k :: 0 <= j < k < i ==> s.mappings[j].id != s.mappings[k].id
      invariant forall k :: 0 <= k < i ==> GoodMapping(s.mappings[k])
    {
      if !GoodMapping(s.mappings[i]) || s.mappings[i].id in mappings {
        return false;
      }
      mappings := mappings + {s.mappings[i].id};
    }
    ok := true;
  }

  /** The digest ignores the order of rows: it is taken of the snapshot in id order. */
  method SnapshotDigest(h: Hashes, s: Snapshot) returns (digest: Digest)
    requires DistinctIds(s)
    ensures exists c :: Canonical(s, c) && digest == h.snapshot(c)
  {
    DistinctTellsApart(s);
    var players := SortBy(PlayerIdLess, s.players);
    var mappings := SortBy(MappingIdLess, s.mappings);
    var c := s.(players := players, mappings := mappings);
    SortLists(s.players, players, Elements(s.players));
    SortLists(s.mappings, mappings, Elements(s.mappings));
    assert Canonical(s, c);
    digest := h.snapshot(c);
  }

  lemma ListsUnion(h: Hashes, players: set<SourcePlayer>, mappings: set<SourceMapping>, a: seq<Action>, b: seq<Action>)
    requires IdsTellApart(players, mappings)
    requires Lists(a, PlayerActions(h, players, mappings)) && Lists(b, ReservedActions(h, players, mappings))
    ensures Lists(a + b, PlanActions(h, players, mappings))
  {
    forall i, j | 0 <= i < |a| && 0 <= j < |b|
      ensures a[i] != b[j]
    {
      assert a[i] in Elements(a) && b[j] in Elements(b);
      var p :| p in players && a[i] == PlayerAction(h, players, mappings, p);
      PlayerActionIs(h, players, mappings, p);
      var u :| u in LegacyUuids(mappings) - ActiveUuids(h, players, mappings)
          && b[j] == ReservedAction(players, mappings, u);
      ReservedActionIs(players, mappings, u);
    }
    assert Elements(a + b) == Elements(a) + Elements(b);
  }

  /** Build succeeds exactly on accepted snapshots, and what it returns is the plan of the snapshot. */
  method Build(h: Hashes, s: Snapshot, migration: Uuid, createdAt: nat) returns (r: Option<Plan>)
    ensures r.Some? <==> migration != NIL && Accepted(s)
    ensures r.Some? ==> IsPlanOf(h, s, migration, createdAt, r.value)
  {
    if migration == NIL || !GoodHeader(s) {
      return None;
    }
    var ok := ValidateRows(s);
    if !ok {
      return None;
    }
    var source := SnapshotDigest(h, s);
    var ix, watermark := IndexSnapshot(s);
    var counts := CountGenerated(h, s, ix);
    var decided, active := DecidePlayers(h, s, ix, counts);
    var reserved := ReserveRest(h, s, ix, active);
    var plan := Assemble(h, s, migration, createdAt, source, watermark, |ix.uuids.invalid|, decided + reserved) by {
      DistinctTellsApart(s);
      ListsUnion(h, Elements(s.players), Elements(s.mappings), decided, reserved);
    }
    r := Some(plan);
  }

  method Assemble(h: Hashes, s: Snapshot, migration: Uuid, createdAt: nat, source: Digest, watermark: nat, invalid: nat,
                  actions: seq<Action>)
    returns (plan: Plan)
    requires DistinctIds(s) && (exists c :: Canonical(s, c) && source == h.snapshot(c))
    requires Greatest(Elements(s.players), watermark) && invalid == |Unparsed(Elements(s.mappings))|
    requires Lists(actions, PlanActions(h, Elements(s.players), Elements(s.mappings)))
    ensures IsPlanOf(h, s, migration, createdAt, plan)
  {
    hide PlanActions, Canonical, WellKeyed, DistinctUuids, DistinctMappings, ActionLess;
    ghost var planned := PlanActions(h, Elements(s.players), Elements(s.mappings));
    DistinctTellsApart(s);
    PlanIsUnique(h, Elements(s.players), Elements(s.mappings));
    ActionOrderIsTotal(planned);
    var sorted := SortList(ActionLess, actions, planned);
    DistinctMultiset(sorted);
    DistinctSize(s.players);
    DistinctSize(s.mappings);
    var a, b, r := CountStates(sorted);
    plan := Plan(1, migration, createdAt, source, watermark, Summary(|s.players|, |s.mappings|, a, b, r, invalid),
                 sorted);
  }
}
