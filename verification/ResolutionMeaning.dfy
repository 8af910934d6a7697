/** What a resolution means: every decided player's name and approved identifier find each other, and nothing else
    that had an answer gets another one. */
module ResolutionMeaning {
  import opened Basics
  import opened Uuids
  import opened Tables
  import opened Directory
  import opened MigrationPlan
  import opened MigrationApply
  import opened ResolutionPlan
  import opened ResolutionApply
  import opened MigrationLookup

  /** What the decision gives its player. */
  function Given(db: Db, d: Decision): Identity
    requires d.player in db.players && ParseCanonical(d.uuid).Some?
  {
    Identity(d.reserved, d.player, ParseCanonical(d.uuid).value, db.players[d.player].name, db.players[d.player].owner)
  }

  /** A decision that is in place decides its player's name and its identifier. */
  lemma SettledMeans(env: Env, db: Db, watermark: nat, d: Decision, name: string)
    requires IdentitiesOk(db.identities) && Settled(db.identities, d) && d.player in db.players
    requires Named(env.key, db.players, name) == {d.player}
    ensures ParseCanonical(d.uuid).Some?
    ensures LookupName(env, db, watermark, name) == Ok(Given(db, d))
    ensures LookupUuid(db, Given(db, d).uuid) == Ok(Given(db, d))
  {
    hide IdentitiesOk, Format, ParseCanonical, LookupUuid;
    CanonicalIsFormat(d.uuid, db.identities[d.reserved].uuid.value);
    ReadIdentityIff(db.identities, d.player, db.players[d.player], Given(db, d));
    FoundAs(db, Given(db, d).uuid, d.player, d.reserved);
  }

  /** Before the resolution the same name needed review and the identifier was nobody's. */
  lemma PendingMeans(env: Env, db: Db, watermark: nat, d: Decision, name: string)
    requires IdentitiesOk(db.identities) && Pending(env.key, db, d) && env.key(name) == env.key(d.name)
    ensures ParseCanonical(d.uuid).Some? && Named(env.key, db.players, name) == {d.player}
    ensures LookupName(env, db, watermark, name) == Err(IdentityConflict)
    ensures LookupUuid(db, ParseCanonical(d.uuid).value) == Err(NotFound)
  {
    hide IdentitiesOk, Format, ParseCanonical, MappingsAgree, ReadIdentity;
    CanonicalIsFormat(d.uuid, db.identities[d.reserved].uuid.value);
    assert Named(env.key, db.players, name) == Named(env.key, db.players, d.name);
    BlockedConflicts(db.identities, d.player, db.players[d.player], d.blocked);
    SameActive(db.identities, db.identities, ParseCanonical(d.uuid).value, d.reserved);
  }

  predicate Decided(decisions: seq<Decision>, pid: nat)
  {
    exists k :: 0 <= k < |decisions| && decisions[k].player == pid
  }

  predicate Approves(decisions: seq<Decision>, u: Uuid)
  {
    exists k :: 0 <= k < |decisions| && ParseCanonical(decisions[k].uuid) == Some(u)
  }

  /** A row of the plan that has a player is the blocked row of a decision on that player. */
  lemma TouchedIsDecided(before: map<nat, IdRow>, decisions: seq<Decision>, i: nat, pid: nat)
    requires forall k :: 0 <= k < |decisions| ==> ShapedBefore(before, decisions[k])
    requires i in before && before[i].player == Some(pid) && Touches(decisions, i)
    ensures Decided(decisions, pid)
  {
    var k :| 0 <= k < |decisions| && (decisions[k].blocked == i || decisions[k].reserved == i);
    assert ShapedBefore(before, decisions[k]);
  }

  /** A row of the plan that carries an identifier is the reserved row of a decision that approves it. */
  lemma TouchedIsApproved(before: map<nat, IdRow>, decisions: seq<Decision>, i: nat, u: Uuid)
    requires forall k :: 0 <= k < |decisions| ==> ShapedBefore(before, decisions[k]) && Spelled(before, decisions[k])
    requires i in before && before[i].uuid == Some(u) && Touches(decisions, i)
    ensures Approves(decisions, u)
  {
    hide Format, ParseCanonical;
    var k :| 0 <= k < |decisions| && (decisions[k].blocked == i || decisions[k].reserved == i);
    assert ShapedBefore(before, decisions[k]) && Spelled(before, decisions[k]);
    CanonicalIsFormat(decisions[k].uuid, u);
  }

  /** The tables at the resolution, and later ones in which the resolved rows are still there. */
  ghost predicate Outlives(env: Env, before: Db, resolved: map<nat, IdRow>, decisions: seq<Decision>, later: Db)
  {
    && IdentitiesOk(before.identities) && IdentitiesOk(later.identities) && later.players == before.players
    && AllPending(env.key, before, decisions) && Resolves(before.identities, resolved, decisions)
    && forall i | i in resolved :: i in later.identities && later.identities[i] == resolved[i]
  }

  /** A decided player's name, in any equivalent spelling, and the approved identifier find each other from then on. */
  lemma DecisionMeans(env: Env, before: Db, resolved: map<nat, IdRow>, decisions: seq<Decision>, later: Db,
                      watermark: nat, k: nat, name: string)
    requires Outlives(env, before, resolved, decisions, later) && k < |decisions|
    requires env.key(name) == env.key(decisions[k].name)
    ensures var d := decisions[k];
            && d.player in later.players && ParseCanonical(d.uuid).Some?
            && LookupName(env, later, watermark, name) == Ok(Given(later, d))
            && LookupUuid(later, ParseCanonical(d.uuid).value) == Ok(Given(later, d))
    ensures var d := decisions[k];
            && LookupName(env, before, watermark, name) == Err(IdentityConflict)
            && LookupUuid(before, ParseCanonical(d.uuid).value) == Err(NotFound)
  {
    hide IdentitiesOk, Format, ParseCanonical, MappingsAgree, LookupName, LookupUuid, OthersKept;
    var d := decisions[k];
    assert Pending(env.key, before, d) && Carried(before.identities, resolved, d);
    PendingMeans(env, before, watermark, d, name);
    assert Settled(later.identities, d);
    SettledMeans(env, later, watermark, d, name);
  }

  /** Every name whose bearers were not decided on keeps its answer, if its bearer had a row at all. */
  lemma OtherNameKept(env: Env, before: Db, resolved: map<nat, IdRow>, decisions: seq<Decision>, later: Db,
                      watermark: nat, name: string)
    requires Outlives(env, before, resolved, decisions, later)
    requires forall pid | pid in Named(env.key, before.players, name) ::
               !Decided(decisions, pid) && exists i :: i in before.identities
                                                       && before.identities[i].player == Some(pid)
    ensures LookupName(env, later, watermark, name) == LookupName(env, before, watermark, name)
  {
    hide IdentitiesOk, ReadIdentity, UniquePlayerName, AllPending, Decided, Touches;
    PendingShapes(env.key, before, decisions);
    var bearer := UniquePlayerName(env, before.players, name);
    if bearer.Ok? {
      var pid := bearer.value;
      assert pid in Named(env.key, before.players, name);
      var i :| i in before.identities && before.identities[i].player == Some(pid);
      if Touches(decisions, i) {
        TouchedIsDecided(before.identities, decisions, i, pid);
      }
      SameRowRead(before.identities, later.identities, pid, before.players[pid], i);
    }
  }

  /** Every identifier that some row carried and no decision approved keeps its answer. */
  lemma OtherUuidKept(env: Env, before: Db, resolved: map<nat, IdRow>, decisions: seq<Decision>, later: Db, u: Uuid,
                      i: nat)
    requires Outlives(env, before, resolved, decisions, later) && !Approves(decisions, u)
    requires i in before.identities && before.identities[i].uuid == Some(u)
    ensures LookupUuid(later, u) == LookupUuid(before, u)
  {
    hide IdentitiesOk, LookupUuid, AllPending, Approves, Touches;
    PendingShapes(env.key, before, decisions);
    if Touches(decisions, i) {
      TouchedIsApproved(before.identities, decisions, i, u);
    }
    SameRowFound(before, later, u, i);
  }

  // ---- migrated and beyond resolution ----

  /** The player has two mappings of the same identifier, in a spelling that only the migration reads. */
  predicate TwiceMapped(db: Db, pid: nat, m: nat, n: nat, u: Uuid)
  {
    && pid in db.players && m in db.mappings && n in db.mappings && m != n
    && db.mappings[m].name == db.players[pid].name && db.mappings[n].name == db.players[pid].name
    && ParseLegacy(db.mappings[m].uuid) == Some(u) && ParseLegacy(db.mappings[n].uuid) == Some(u)
    && ParseCanonical(db.mappings[m].uuid).None?
  }

  /** Later that mapping has the same text, and the player an equivalent name. */
  predicate StillMapped(key: string -> string, db: Db, later: Db, pid: nat, m: nat)
    requires pid in db.players && m in db.mappings
  {
    && m in later.mappings && later.mappings[m] == db.mappings[m]
    && pid in later.players && key(later.players[pid].name) == key(db.players[pid].name)
  }

  /** The plan blocks such a player and reserves the identifier, and no operator can ever approve the two for each
      other, or the player for anything, while that mapping has that text and the player an equivalent name. */
  lemma ReservedBeyondResolution(h: Hashes, key: string -> string, db: Db, pid: nat, m: nat, n: nat, u: Uuid,
                                 later: Db, a: Approval)
    requires TwiceMapped(db, pid, m, n, u)
    ensures PlayerAction(h, SourcePlayers(key, db.players), SourceMappings(key, db.mappings),
                         Self(key, db, pid)).state == "blocked"
    ensures exists action :: action in PlanActions(h, SourcePlayers(key, db.players), SourceMappings(key, db.mappings))
              && action.state == "reserved" && action.uuid == Format(u)
    ensures StillMapped(key, db, later, pid, m) && a.player == pid ==> !Approvable(key, later, a)
  {
    hide ParseLegacy, ParseCanonical, Format;
    var players, mappings := SourcePlayers(key, db.players), SourceMappings(key, db.mappings);
    var self, first, second := Self(key, db, pid), MappingRow(key, m, db.mappings[m]), MappingRow(key, n,
            db.mappings[n]);
    assert self in players && first in mappings && second in mappings && first != second;
    TwoIsNotOne(MappingsNamed(mappings, self.name), first, second);
    TwoIsNotOne(MappingsOf(mappings, u), first, second);
    NobodyIsPlanned(h, players, mappings, u, first);
    assert u in LegacyUuids(mappings) - ActiveUuids(h, players, mappings);
    assert ReservedAction(players, mappings, u) in PlanActions(h, players, mappings);
    if StillMapped(key, db, later, pid, m) && a.player == pid {
      assert m in MappingsCalled(key, later.mappings, later.players[pid].name);
    }
  }

  lemma TwoIsNotOne<T>(s: set<T>, x: T, y: T)
    requires x in s && y in s && x != y
    ensures |s| != 1 && s != {}
  {
    SubsetSize({x, y}, s);
  }

  /** An identifier with two mappings is planned for nobody. */
  lemma NobodyIsPlanned(h: Hashes, players: set<SourcePlayer>, mappings: set<SourceMapping>, u: Uuid, m: SourceMapping)
    requires |MappingsOf(mappings, u)| != 1 && m in MappingsOf(mappings, u)
    ensures u !in ActiveUuids(h, players, mappings)
  {
    hide PlayerReason, Generators;
    forall p | p in players
      ensures PlannedUuid(h, players, mappings, p) != Some(u)
    {
      NotPlanned(h, players, mappings, p, u, m);
    }
  }

  lemma NotPlanned(h: Hashes, players: set<SourcePlayer>, mappings: set<SourceMapping>, p: SourcePlayer, u: Uuid,
                   m: SourceMapping)
    requires p in players && |MappingsOf(mappings, u)| != 1 && m in MappingsOf(mappings, u)
    ensures PlannedUuid(h, players, mappings, p) != Some(u)
  {
    hide ParseLegacy;
  }

  /** There is such a source: one player, two equal mappings with dashes. */
  lemma DashedTwiceMapped() returns (db: Db, pid: nat, m: nat, n: nat, u: Uuid)
    ensures TwiceMapped(db, pid, m, n, u) && db.mappings[m].uuid == DASHED
  {
    hide ParseLegacy, ParseCanonical;
    DashedIsMigratedOnly();
    pid, m, n, u := 1, 1, 2, ParseLegacy(DASHED).value;
    db := Db(map[], map[1 := Player(1, "Alex")], map[1 := Mapping("Alex", DASHED), 2 := Mapping("Alex", DASHED)],
             map[], map[], map[], map[], None);
  }
}
