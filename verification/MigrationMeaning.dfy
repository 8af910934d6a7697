/** What a plan means: conservation, uniqueness, and independence of the order of its inputs. */
module MigrationMeaning {
  import opened Basics
  import opened Sorting
  import opened Uuids
  import opened MigrationPlan

  ghost predicate IdsTellApart(players: set<SourcePlayer>, mappings: set<SourceMapping>)
  {
    && (forall p, q | p in players && q in players && p.id == q.id :: p == q)
    && (forall m, n | m in mappings && n in mappings && m.id == n.id :: m == n)
  }

  lemma DistinctTellsApart(s: Snapshot)
    requires DistinctIds(s)
    ensures IdsTellApart(Elements(s.players), Elements(s.mappings))
    ensures Distinct(s.players) && Distinct(s.mappings)
  {
    forall p, q | p in Elements(s.players) && q in Elements(s.players) && p.id == q.id
      ensures p == q
    {
      var i :| 0 <= i < |s.players| && s.players[i] == p;
      var j :| 0 <= j < |s.players| && s.players[j] == q;
    }
    forall p, q | p in Elements(s.mappings) && q in Elements(s.mappings) && p.id == q.id
      ensures p == q
    {
      var i :| 0 <= i < |s.mappings| && s.mappings[i] == p;
      var j :| 0 <= j < |s.mappings| && s.mappings[j] == q;
    }
  }

  /** Why a player has an identifier: a mapping nobody else shares, or a name nothing else contradicts. */
  lemma PlannedFrom(h: Hashes, players: set<SourcePlayer>, mappings: set<SourceMapping>, p: SourcePlayer, u: Uuid)
    requires p in players && PlannedUuid(h, players, mappings, p) == Some(u)
    ensures PlayersNamed(players, p.name) == {p}
    ensures |NamesOfKey(players, mappings, p.key)| == 1
    ensures PlayerReason(players, mappings, p) in {"missing_legacy_mapping", "active"}
    ensures PlayerReason(players, mappings, p) == "missing_legacy_mapping" ==>
              Generators(h, players, mappings, u) == {p} && MappingsOf(mappings, u) == {}
    ensures PlayerReason(players, mappings, p) == "active" ==>
              var m := Only(MappingsNamed(mappings, p.name));
              m in mappings && m.name == p.name && MappingsOf(mappings, u) == {m} && ParseLegacy(m.uuid) == Some(u)
  {
    assert p in PlayersNamed(players, p.name);
    SingletonIs(PlayersNamed(players, p.name), p);
    if PlayerReason(players, mappings, p) == "missing_legacy_mapping" {
      assert p in Generators(h, players, mappings, u);
      SingletonIs(Generators(h, players, mappings, u), p);
    } else {
      var m := Only(MappingsNamed(mappings, p.name));
      assert m in MappingsNamed(mappings, p.name);
      assert m in MappingsOf(mappings, u);
      SingletonIs(MappingsOf(mappings, u), m);
    }
  }

  /** No identifier is planned for two players. */
  lemma PlannedOnce(h: Hashes, players: set<SourcePlayer>, mappings: set<SourceMapping>, p: SourcePlayer,
                    q: SourcePlayer, u: Uuid)
    requires p in players && q in players
    requires PlannedUuid(h, players, mappings, p) == Some(u) && PlannedUuid(h, players, mappings, q) == Some(u)
    ensures p == q
  {
    PlannedFrom(h, players, mappings, p, u);
    PlannedFrom(h, players, mappings, q, u);
    assert q in PlayersNamed(players, q.name);
  }

  /** The action of a player carries its planned identifier, and is active exactly when there is one. */
  lemma PlayerActionIs(h: Hashes, players: set<SourcePlayer>, mappings: set<SourceMapping>, p: SourcePlayer)
    requires p in players
    ensures var a := PlayerAction(h, players, mappings, p);
            var u := PlannedUuid(h, players, mappings, p);
            && a.player == Some(p.id) && a.reason != ""
            && a.state == (if u.Some? then "active" else "blocked")
            && a.uuid == (if u.Some? then Format(u.value) else "")
            && (a.legacy.Some? ==> u.Some? && exists m :: m in MappingsOf(mappings, u.value) && m.id == a.legacy.value)
            && (a.state == "active" ==>
                    a.reason == (if a.legacy.Some? then "unique_exact_mapping" else "generated_offline_v3"))
            && (a.state == "blocked" ==> a.legacy.None?)
  {
    var reason := PlayerReason(players, mappings, p);
    if reason == "active" {
      var m := Only(MappingsNamed(mappings, p.name));
      assert m in MappingsNamed(mappings, p.name);
      assert m in MappingsOf(mappings, ParseLegacy(m.uuid).value);
    }
  }

  lemma ReservedActionIs(players: set<SourcePlayer>, mappings: set<SourceMapping>, u: Uuid)
    requires u in LegacyUuids(mappings)
    ensures var a := ReservedAction(players, mappings, u);
            && a.state == "reserved" && a.player.None? && a.uuid == Format(u) && a.reason != ""
            && a.legacy.Some? && exists m :: m in MappingsOf(mappings, u) && m.id == a.legacy.value
  {
    var m :| m in mappings && ParseLegacy(m.uuid) == Some(u);
    assert m in MappingsOf(mappings, u);
  }

  // ---- uniqueness ----

  ghost predicate DistinctUuids(actions: set<Action>)
  {
    forall a, b | a in actions && b in actions && a.uuid != "" && a.uuid == b.uuid :: a == b
  }

  ghost predicate DistinctMappings(actions: set<Action>)
  {
    forall a, b | a in actions && b in actions && a.legacy.Some? && a.legacy == b.legacy :: a == b
  }

  /** Which identifier an action of the plan carries, and where from. */
  lemma ActionSource(h: Hashes, players: set<SourcePlayer>, mappings: set<SourceMapping>, a: Action)
    returns (p: Option<SourcePlayer>, u: Option<Uuid>)
    requires a in PlanActions(h, players, mappings)
    ensures a.uuid == (if u.Some? then Format(u.value) else "")
    ensures p.Some? ==> p.value in players && a == PlayerAction(h, players, mappings, p.value)
                        && u == PlannedUuid(h, players, mappings, p.value)
    ensures p.None? ==> u.Some? && u.value in LegacyUuids(mappings) - ActiveUuids(h, players, mappings)
                        && a == ReservedAction(players, mappings, u.value)
    ensures a.legacy.Some? ==> u.Some? && exists m :: m in MappingsOf(mappings, u.value) && m.id == a.legacy.value
    ensures a.player == (if p.Some? then Some(p.value.id) else None) && a.reason != ""
    ensures a.state == (if p.None? then "reserved" else if u.Some? then "active" else "blocked")
  {
    if a in PlayerActions(h, players, mappings) {
      var q :| q in players && a == PlayerAction(h, players, mappings, q);
      PlayerActionIs(h, players, mappings, q);
      p, u := Some(q), PlannedUuid(h, players, mappings, q);
    } else {
      var v :| v in LegacyUuids(mappings) - ActiveUuids(h, players, mappings)
          && a == ReservedAction(players, mappings, v);
      ReservedActionIs(players, mappings, v);
      p, u := None, Some(v);
    }
  }

  /** An identifier determines its action. */
  lemma UuidDeterminesAction(h: Hashes, players: set<SourcePlayer>, mappings: set<SourceMapping>, a: Action, b: Action)
    requires a in PlanActions(h, players, mappings) && b in PlanActions(h, players, mappings)
    requires a.uuid != "" && a.uuid == b.uuid
    ensures a == b
  {
    var p, u := ActionSource(h, players, mappings, a);
    var q, v := ActionSource(h, players, mappings, b);
    FormatInjective(u.value, v.value);
    if p.Some? && q.Some? {
      PlannedOnce(h, players, mappings, p.value, q.value, u.value);
    }
  }

  lemma PlanIsUnique(h: Hashes, players: set<SourcePlayer>, mappings: set<SourceMapping>)
    requires IdsTellApart(players, mappings)
    ensures WellKeyed(PlanActions(h, players, mappings))
    ensures DistinctUuids(PlanActions(h, players, mappings))
    ensures DistinctMappings(PlanActions(h, players, mappings))
  {
    var actions := PlanActions(h, players, mappings);
    forall a | a in actions
      ensures a.state in {"active", "blocked", "reserved"} && a.player.Some? == (a.state != "reserved")
      ensures a.player.None? ==> a.uuid != ""
    {
      var p, u := ActionSource(h, players, mappings, a);
      if u.Some? {
        assert |Format(u.value)| == 32;
      }
    }
    forall a, b | a in actions && b in actions && a.uuid != "" && a.uuid == b.uuid
      ensures a == b
    {
      UuidDeterminesAction(h, players, mappings, a, b);
    }
    forall a, b | a in actions && b in actions && a.player.Some? && a.player == b.player
      ensures a == b
    {
      var p, u := ActionSource(h, players, mappings, a);
      var q, v := ActionSource(h, players, mappings, b);
    }
    forall a, b | a in actions && b in actions && a.legacy.Some? && a.legacy == b.legacy
      ensures a == b
    {
      var p, u := ActionSource(h, players, mappings, a);
      var q, v := ActionSource(h, players, mappings, b);
      assert u == v;
      assert |Format(u.value)| == 32;
      UuidDeterminesAction(h, players, mappings, a, b);
    }
  }

  // ---- conservation ----

  /** Every legacy identifier that can be parsed is in exactly one action of the plan, and that action is active for
      the player whose mapping it was, or reserved. */
  lemma EveryLegacyUuidOnce(h: Hashes, players: set<SourcePlayer>, mappings: set<SourceMapping>, u: Uuid)
    requires u in LegacyUuids(mappings)
    ensures exists a :: a in PlanActions(h, players, mappings) && a.uuid == Format(u)
    ensures forall a, b | a in PlanActions(h, players, mappings) && b in PlanActions(h, players, mappings)
              && a.uuid == Format(u) && b.uuid == Format(u) :: a == b
    ensures forall a | a in PlanActions(h, players, mappings) && a.uuid == Format(u) ::
              a.legacy.Some? && exists m :: m in MappingsOf(mappings, u) && m.id == a.legacy.value
  {
    var actions := PlanActions(h, players, mappings);
    assert |Format(u)| == 32;
    if u in ActiveUuids(h, players, mappings) {
      var p :| p in players && PlannedUuid(h, players, mappings, p) == Some(u);
      PlayerActionIs(h, players, mappings, p);
      assert PlayerAction(h, players, mappings, p) in actions;
    } else {
      ReservedActionIs(players, mappings, u);
      assert ReservedAction(players, mappings, u) in actions;
    }
    forall a | a in actions && a.uuid == Format(u)
      ensures a.legacy.Some? && exists m :: m in MappingsOf(mappings, u) && m.id == a.legacy.value
    {
      LegacyUuidKeepsMapping(h, players, mappings, u, a);
    }
    forall a, b | a in actions && b in actions && a.uuid == Format(u) && b.uuid == Format(u)
      ensures a == b
    {
      UuidDeterminesAction(h, players, mappings, a, b);
    }
  }

  lemma LegacyUuidKeepsMapping(h: Hashes, players: set<SourcePlayer>, mappings: set<SourceMapping>, u: Uuid, a: Action)
    requires u in LegacyUuids(mappings) && a in PlanActions(h, players, mappings) && a.uuid == Format(u)
    ensures a.legacy.Some? && exists m :: m in MappingsOf(mappings, u) && m.id == a.legacy.value
  {
    var p, v := ActionSource(h, players, mappings, a);
    FormatInjective(u, v.value);
    var m :| m in mappings && ParseLegacy(m.uuid) == Some(u);
    assert m in MappingsOf(mappings, u);
    if p.Some? {
      PlannedFrom(h, players, mappings, p.value, u);
    } else {
      ReservedActionIs(players, mappings, u);
    }
  }

  // ---- Build depends on content only ----

  predicate PlayerIdLess(a: SourcePlayer, b: SourcePlayer) { a.id < b.id }

  predicate MappingIdLess(a: SourceMapping, b: SourceMapping) { a.id < b.id }

  lemma CanonicalUnique(s: Snapshot, t: Snapshot, c: Snapshot, d: Snapshot)
    requires Canonical(s, c) && Canonical(t, d) && SameContent(s, t)
    ensures c == d
  {
    StrictIdsTotal(c);
    OrderedUnique(PlayerIdLess, c.players, d.players);
    OrderedUnique(MappingIdLess, c.mappings, d.mappings);
  }

  lemma StrictIdsTotal(c: Snapshot)
    requires Canonical(c, c)
    ensures TotalOn(PlayerIdLess, Elements(c.players)) && TotalOn(MappingIdLess, Elements(c.mappings))
  {
    forall p, q | p in Elements(c.players) && q in Elements(c.players)
      ensures p == q || p.id < q.id || q.id < p.id
    {
      var i :| 0 <= i < |c.players| && c.players[i] == p;
      var j :| 0 <= j < |c.players| && c.players[j] == q;
    }
    forall p, q | p in Elements(c.mappings) && q in Elements(c.mappings)
      ensures p == q || p.id < q.id || q.id < p.id
    {
      var i :| 0 <= i < |c.mappings| && c.mappings[i] == p;
      var j :| 0 <= j < |c.mappings| && c.mappings[j] == q;
    }
  }

  /** Equal but for the order of rows. */
  ghost predicate SameContent(s: Snapshot, t: Snapshot)
  {
    && t == s.(players := t.players, mappings := t.mappings)
    && multiset(s.players) == multiset(t.players) && multiset(s.mappings) == multiset(t.mappings)
  }

  /** Permuting the rows of a snapshot, or iterating a map or sorting unstably in another order, cannot change the plan:
      two plans of the same content are equal, action for action. */
  lemma PlanDependsOnContentOnly(h: Hashes, s: Snapshot, t: Snapshot, migration: Uuid, createdAt: nat, p: Plan, q: Plan)
    requires DistinctIds(s) && SameContent(s, t)
    requires IsPlanOf(h, s, migration, createdAt, p) && IsPlanOf(h, t, migration, createdAt, q)
    ensures p == q
  {
    hide PlanActions, SummaryOf, Canonical, Ordered, Greatest, SameContent, DistinctIds, WellKeyed, DistinctUuids,
      DistinctMappings;
    SameSets(s, t);
    DistinctTellsApart(s);
    var players, mappings := Elements(s.players), Elements(s.mappings);
    PlanIsUnique(h, players, mappings);
    SameActions(PlanActions(h, players, mappings), p.actions, q.actions);
    var c :| Canonical(s, c) && p.source == h.snapshot(c);
    var d :| Canonical(t, d) && q.source == h.snapshot(d);
    CanonicalUnique(s, t, c, d);
    GreatestUnique(players, p.watermark, q.watermark);
  }

  lemma SameSets(s: Snapshot, t: Snapshot)
    requires SameContent(s, t)
    ensures Elements(s.players) == Elements(t.players) && Elements(s.mappings) == Elements(t.mappings)
  {
    SameElements(s.players, t.players);
    SameElements(s.mappings, t.mappings);
  }

  lemma SameActions(actions: set<Action>, a: seq<Action>, b: seq<Action>)
    requires WellKeyed(actions)
    requires multiset(a) == multiset(actions) && multiset(b) == multiset(actions)
    requires Ordered(ActionLess, a) && Ordered(ActionLess, b)
    ensures a == b
  {
    hide WellKeyed, ActionLess;
    assert Elements(a) == actions by {
      assert forall x :: x in a <==> x in multiset(a);
    }
    ActionOrderIsTotal(actions);
    OrderedUnique(ActionLess, a, b);
  }

  lemma GreatestUnique(players: set<SourcePlayer>, a: nat, b: nat)
    requires Greatest(players, a) && Greatest(players, b)
    ensures a == b
  {
  }
}
