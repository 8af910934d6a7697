/** The checks a stored plan must pass before an operator may apply it. */
module MigrationValidate {
  import opened Basics
  import opened Listing
  import opened Uuids
  import opened MigrationPlan
  import opened MigrationMeaning

  predicate CanonicalLegacy(text: string)
  {
    match ParseLegacy(text)
    case None => false
    case Some(u) => text == Format(u)
  }

  /** The rules for one action. */
  predicate WellFormed(a: Action)
  {
    && a.reason != ""
    && (if a.state == "active" then
          && a.player.Some? && a.uuid != ""
          && ((a.reason == "unique_exact_mapping" && a.legacy.Some?)
              || (a.reason == "generated_offline_v3" && a.legacy.None?))
        else if a.state == "blocked" then a.player.Some? && a.legacy.None? && a.uuid == ""
        else a.state == "reserved" && a.player.None? && a.legacy.Some? && a.uuid != "")
    && a.player != Some(0) && a.legacy != Some(0)
    && (a.uuid != "" ==> CanonicalLegacy(a.uuid))
  }

  /** No player, identifier or mapping is in two actions. */
  ghost predicate Disjoint(a: Action, b: Action)
  {
    && (a.player.Some? ==> a.player != b.player)
    && (a.uuid != "" ==> a.uuid != b.uuid)
    && (a.legacy.Some? ==> a.legacy != b.legacy)
  }

  ghost predicate SoundActions(actions: seq<Action>)
  {
    && (forall i :: 0 <= i < |actions| ==> WellFormed(actions[i]))
    && (forall i, j :: 0 <= i < j < |actions| ==> Disjoint(actions[i], actions[j]))
  }

  ghost predicate GreatestPlayer(actions: seq<Action>, watermark: nat)
  {
    && (forall a | a in actions && a.player.Some? :: a.player.value <= watermark)
    && (watermark == 0 || exists a :: a in actions && a.player == Some(watermark))
  }

  predicate GoodMetadata(p: Plan)
  {
    && p.version == 1 && p.createdAt != 0
    && p.summary.players >= 0 && p.summary.mappings >= 0 && p.summary.active >= 0
    && p.summary.blocked >= 0 && p.summary.reserved >= 0 && p.summary.invalid >= 0
    && p.summary.players == p.summary.active + p.summary.blocked
    && |p.actions| == p.summary.active + p.summary.blocked + p.summary.reserved
  }

  ghost predicate ValidPlan(p: Plan)
  {
    GoodMetadata(p) && SoundActions(p.actions) && GreatestPlayer(p.actions, p.watermark)
  }

  /** What the three sets of the loop hold after a prefix of the actions. */
  ghost predicate Seen(done: seq<Action>, players: set<nat>, values: set<Uuid>, mappings: set<nat>)
  {
    && players == (set a | a in done && a.player.Some? :: a.player.value)
    && values == (set a | a in done && ParseLegacy(a.uuid).Some? :: ParseLegacy(a.uuid).value)
    && mappings == (set a | a in done && a.legacy.Some? :: a.legacy.value)
  }

  predicate Fresh(a: Action, players: set<nat>, values: set<Uuid>, mappings: set<nat>)
  {
    && (a.player.Some? ==> a.player.value !in players)
    && (a.uuid != "" && ParseLegacy(a.uuid).Some? ==> ParseLegacy(a.uuid).value !in values)
    && (a.legacy.Some? ==> a.legacy.value !in mappings)
  }

  method Validate(p: Plan) returns (ok: bool)
    ensures ok <==> ValidPlan(p)
  {
    hide WellFormed, Disjoint, Fresh, Seen;
    if !GoodMetadata(p) {
      return false;
    }
    var players: set<nat>, values: set<Uuid>, mappings: set<nat> := {}, {}, {};
    var highest: nat := 0;
    NothingSeen(p.actions[..0]);
    for i := 0 to |p.actions|
      invariant SoundActions(p.actions[..i])
      invariant Seen(p.actions[..i], players, values, mappings)
      invariant GreatestPlayer(p.actions[..i], highest)
    {
      var a := p.actions[i];
      assert p.actions[..i + 1] == p.actions[..i] + [a];
      if !WellFormed(a) {
        return false;
      }
      OneMoreSeen(p.actions[..i], a, players, values, mappings);
      if !Fresh(a, players, values, mappings) {
        assert !SoundActions(p.actions) by {
          var k :| 0 <= k < i && !Disjoint(p.actions[k], a);
          assert !Disjoint(p.actions[k], p.actions[i]);
        }
        return false;
      }
      if a.player.Some? {
        players := players + {a.player.value};
        highest := if highest < a.player.value then a.player.value else highest;
      }
      if a.uuid != "" {
        values := values + {ParsedText(a)};
      }
      if a.legacy.Some? {
        mappings := mappings + {a.legacy.value};
      }
    }
    assert p.actions[..|p.actions|] == p.actions;
    ok := highest == p.watermark;
    if GreatestPlayer(p.actions, p.watermark) {
      GreatestPlayerUnique(p.actions, highest, p.watermark);
    }
  }

  function ParsedText(a: Action): Uuid
    requires WellFormed(a) && a.uuid != ""
  {
    ParseLegacy(a.uuid).value
  }

  lemma NothingSeen(done: seq<Action>)
    requires done == []
    ensures SoundActions(done) && Seen(done, {}, {}, {}) && GreatestPlayer(done, 0)
  {
  }

  lemma GreatestPlayerUnique(actions: seq<Action>, a: nat, b: nat)
    requires GreatestPlayer(actions, a) && GreatestPlayer(actions, b)
    ensures a == b
  {
  }

  /** Absent from the three sets means disjoint from every earlier action. */
  lemma OneMoreSeen(done: seq<Action>, a: Action, players: set<nat>, values: set<Uuid>, mappings: set<nat>)
    requires SoundActions(done) && WellFormed(a) && Seen(done, players, values, mappings)
    ensures Fresh(a, players, values, mappings) ==> SoundActions(done + [a])
    ensures !Fresh(a, players, values, mappings) ==> exists k :: 0 <= k < |done| && !Disjoint(done[k], a)
    ensures Seen(done + [a], if a.player.Some? then players + {a.player.value} else players,
                 if a.uuid != "" then values + {ParsedText(a)} else values,
                 if a.legacy.Some? then mappings + {a.legacy.value} else mappings)
  {
    SeenOneMore(done, a, players, values, mappings);
    if Fresh(a, players, values, mappings) {
      FreshIsDisjoint(done, a, players, values, mappings);
    } else {
      NotFreshMeets(done, a, players, values, mappings);
    }
    hide WellFormed, Disjoint, Seen, Fresh;
  }

  lemma FreshIsDisjoint(done: seq<Action>, a: Action, players: set<nat>, values: set<Uuid>, mappings: set<nat>)
    requires SoundActions(done) && WellFormed(a) && Seen(done, players, values, mappings)
    requires Fresh(a, players, values, mappings)
    ensures forall k :: 0 <= k < |done| ==> Disjoint(done[k], a)
  {
    hide ParseLegacy, Format;
    forall k | 0 <= k < |done|
      ensures Disjoint(done[k], a)
    {
      assert done[k] in done && WellFormed(done[k]);
    }
  }

  lemma NotFreshMeets(done: seq<Action>, a: Action, players: set<nat>, values: set<Uuid>, mappings: set<nat>)
    requires SoundActions(done) && WellFormed(a) && Seen(done, players, values, mappings)
    requires !Fresh(a, players, values, mappings)
    ensures exists k :: 0 <= k < |done| && !Disjoint(done[k], a)
  {
    hide ParseLegacy, Format;
    if a.uuid != "" && ParsedText(a) in values {
      var b :| b in done && ParseLegacy(b.uuid) == Some(ParsedText(a));
      var k :| 0 <= k < |done| && done[k] == b;
      assert WellFormed(done[k]);
      if b.uuid == "" {
        EmptyIsNoUuid();
      }
    }
  }

  lemma SeenOneMore(done: seq<Action>, a: Action, players: set<nat>, values: set<Uuid>, mappings: set<nat>)
    requires WellFormed(a) && Seen(done, players, values, mappings)
    ensures Seen(done + [a], if a.player.Some? then players + {a.player.value} else players,
                 if a.uuid != "" then values + {ParsedText(a)} else values,
                 if a.legacy.Some? then mappings + {a.legacy.value} else mappings)
  {
    hide ParseLegacy, Format;
    if a.uuid == "" {
      EmptyIsNoUuid();
    }
  }

  lemma EmptyIsNoUuid()
    ensures ParseLegacy("").None?
  {
  }

  // ---- Build and Validate agree ----

  lemma CanonicalWhenVariant(u: Uuid)
    requires Rfc4122Variant(u)
    ensures CanonicalLegacy(Format(u)) && ParseLegacy(Format(u)) == Some(u)
  {
    ParseFormat(u);
  }

  /** Every identifier a plan carries has the variant of RFC 4122: legacy text is filtered, generated values are
      stamped. */
  lemma PlannedVariant(h: Hashes, players: set<SourcePlayer>, mappings: set<SourceMapping>, p: SourcePlayer, u: Uuid)
    requires p in players && PlannedUuid(h, players, mappings, p) == Some(u)
    ensures Rfc4122Variant(u)
  {
    hide Parse;
  }

  lemma PlanActionWellFormed(h: Hashes, s: Snapshot, a: Action)
    requires Accepted(s) && a in PlanActions(h, Elements(s.players), Elements(s.mappings))
    ensures WellFormed(a)
  {
    hide PlanActions, PlayerAction, ReservedAction, CanonicalLegacy, ParseLegacy;
    var players, mappings := Elements(s.players), Elements(s.mappings);
    var p, u := ActionSource(h, players, mappings, a);
    if u.Some? {
      assert |Format(u.value)| == 32;
      if p.Some? {
        PlannedVariant(h, players, mappings, p.value, u.value);
      } else {
        LegacyVariant(mappings, u.value);
      }
      CanonicalWhenVariant(u.value);
    }
    if p.Some? {
      PlayerActionIs(h, players, mappings, p.value);
    } else {
      ReservedActionIs(players, mappings, u.value);
    }
  }

  lemma LegacyVariant(mappings: set<SourceMapping>, u: Uuid)
    requires u in LegacyUuids(mappings)
    ensures Rfc4122Variant(u)
  {
    hide Parse;
  }

  /** The counts of a plan add up: a player action for every player, active or blocked. */
  lemma PlanCounts(h: Hashes, players: set<SourcePlayer>, mappings: set<SourceMapping>)
    requires IdsTellApart(players, mappings)
    ensures var all := PlanActions(h, players, mappings);
            && |InState(all, "active")| + |InState(all, "blocked")| == |players|
            && |InState(all, "active")| + |InState(all, "blocked")| + |InState(all, "reserved")| == |all|
  {
    var all := PlanActions(h, players, mappings);
    var mine := PlayerActions(h, players, mappings);
    OneActionEach(h, players, mappings, players);
    forall a | a in all
      ensures a.state in {"active", "blocked", "reserved"} && (a in mine <==> a.state != "reserved")
    {
      ActionState(h, players, mappings, a);
    }
    Split3(all, mine);
  }

  lemma ActionState(h: Hashes, players: set<SourcePlayer>, mappings: set<SourceMapping>, a: Action)
    requires a in PlanActions(h, players, mappings)
    ensures a.state in {"active", "blocked", "reserved"}
    ensures a in PlayerActions(h, players, mappings) <==> a.state != "reserved"
  {
    hide PlayerAction, ReservedAction, PlannedUuid;
    var p, u := ActionSource(h, players, mappings, a);
    forall q | q in players
      ensures PlayerAction(h, players, mappings, q).state != "reserved"
    {
      PlayerActionIs(h, players, mappings, q);
    }
  }

  lemma Split3(all: set<Action>, mine: set<Action>)
    requires mine <= all
    requires forall a | a in all ::
              a.state in {"active", "blocked", "reserved"} && (a in mine <==> a.state != "reserved")
    ensures |InState(all, "active")| + |InState(all, "blocked")| == |mine|
    ensures |mine| + |InState(all, "reserved")| == |all|
  {
    assert InState(all, "active") + InState(all, "blocked") == mine;
    assert InState(all, "active") !! InState(all, "blocked");
    assert mine + InState(all, "reserved") == all;
  }

  lemma {:induction false} OneActionEach(h: Hashes, players: set<SourcePlayer>, mappings: set<SourceMapping>,
                                         some: set<SourcePlayer>)
    requires IdsTellApart(players, mappings) && some <= players
    ensures |set p | p in some :: PlayerAction(h, players, mappings, p)| == |some|
    decreases some
  {
    hide PlayerAction, PlannedUuid;
    if some != {} {
      var p :| p in some;
      var rest := some - {p};
      OneActionEach(h, players, mappings, rest);
      forall q | q in players
        ensures PlayerAction(h, players, mappings, q).player == Some(q.id)
      {
        PlayerActionIs(h, players, mappings, q);
      }
      assert (set q | q in some :: PlayerAction(h, players, mappings, q))
          == (set q | q in rest :: PlayerAction(h, players, mappings, q)) + {PlayerAction(h, players, mappings, p)};
    }
  }

  lemma WatermarkAgrees(h: Hashes, players: set<SourcePlayer>, mappings: set<SourceMapping>, actions: seq<Action>,
                        watermark: nat)
    requires Elements(actions) == PlanActions(h, players, mappings) && Greatest(players, watermark)
    ensures GreatestPlayer(actions, watermark)
  {
    hide PlayerAction, ReservedAction, PlannedUuid;
    forall a | a in actions && a.player.Some?
      ensures a.player.value <= watermark
    {
      assert a in Elements(actions);
      var p, u := ActionSource(h, players, mappings, a);
    }
    if watermark != 0 {
      var p :| p in players && p.id == watermark;
      PlayerActionIs(h, players, mappings, p);
      assert PlayerAction(h, players, mappings, p) in Elements(actions);
    }
  }

  lemma PlanActionsSound(h: Hashes, s: Snapshot, actions: seq<Action>)
    requires Accepted(s) && Lists(actions, PlanActions(h, Elements(s.players), Elements(s.mappings)))
    ensures SoundActions(actions)
  {
    hide PlanActions, WellFormed, PlayerAction, ReservedAction;
    var players, mappings := Elements(s.players), Elements(s.mappings);
    DistinctTellsApart(s);
    PlanIsUnique(h, players, mappings);
    forall i | 0 <= i < |actions|
      ensures WellFormed(actions[i]) && actions[i] in PlanActions(h, players, mappings)
    {
      assert actions[i] in Elements(actions);
      PlanActionWellFormed(h, s, actions[i]);
    }
  }

  /** Whatever Build returns for a creation time other than zero passes Validate. */
  lemma BuiltPlanIsValid(h: Hashes, s: Snapshot, plan: Plan)
    requires Accepted(s) && plan.createdAt != 0 && IsPlanOf(h, s, plan.migration, plan.createdAt, plan)
    ensures ValidPlan(plan)
  {
    hide PlanActions, InState, SoundActions, GreatestPlayer, Canonical, Accepted, Greatest;
    var players, mappings := Elements(s.players), Elements(s.mappings);
    MultisetLists(plan.actions, PlanActions(h, players, mappings));
    DistinctSize(plan.actions);
    TellsApartIfAccepted(s);
    PlanCounts(h, players, mappings);
    PlanActionsSound(h, s, plan.actions);
    WatermarkAgrees(h, players, mappings, plan.actions, plan.watermark);
  }

  lemma TellsApartIfAccepted(s: Snapshot)
    requires Accepted(s)
    ensures IdsTellApart(Elements(s.players), Elements(s.mappings))
  {
    DistinctTellsApart(s);
  }
}
