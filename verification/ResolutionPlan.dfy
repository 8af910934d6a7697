/** Reviewed resolutions of blocked players into reserved identifiers: the plan, its checks, and the rows it is
    about. */
module ResolutionPlan {
  import opened Basics
  import opened Sorting
  import opened Uuids
  import opened Tables
  import opened Directory
  import opened Database
  import opened MigrationPlan
  import opened Listing

  /** The rows an operator approved for one player. */
  datatype Approval = Approval(player: nat, blocked: nat, reserved: nat, mappings: seq<nat>)

  datatype Decision = Decision(player: nat, name: string, blocked: nat, reserved: nat, uuid: string, mappings: seq<nat>)

  datatype Resolution = Resolution(version: int, createdAt: nat, source: Digest, decisions: seq<Decision>)

  function Approved(d: Decision): Approval
  {
    Approval(d.player, d.blocked, d.reserved, d.mappings)
  }

  // ---- validation ----

  predicate GoodApproval(a: Approval)
  {
    && a.player != 0 && a.blocked != 0 && a.reserved != 0 && a.blocked != a.reserved
    && a.mappings != [] && 0 !in a.mappings && Distinct(a.mappings)
  }

  /** Two approvals name different players, different rows and different mappings. The check compares blocked rows with
      blocked rows and reserved rows with reserved rows, but never the one with the other. */
  predicate Separate(a: Approval, b: Approval)
  {
    && a.player != b.player && a.blocked != b.blocked && a.reserved != b.reserved
    && Elements(a.mappings) !! Elements(b.mappings)
  }

  predicate GoodApprovals(approvals: seq<Approval>)
  {
    && (forall i :: 0 <= i < |approvals| ==> GoodApproval(approvals[i]))
    && (forall i, j :: 0 <= i < j < |approvals| ==> Separate(approvals[i], approvals[j]))
  }

  predicate GoodDecision(d: Decision)
  {
    GoodApproval(Approved(d)) && d.name != "" && ParseCanonical(d.uuid).Some?
  }

  ghost predicate GoodDecisions(decisions: seq<Decision>)
  {
    && (forall i :: 0 <= i < |decisions| ==> GoodDecision(decisions[i]))
    && (forall i, j :: 0 <= i < j < |decisions| ==>
          Separate(Approved(decisions[i]), Approved(decisions[j])) && decisions[i].uuid != decisions[j].uuid)
  }

  ghost predicate ValidResolution(digest: seq<Decision> -> Digest, p: Resolution)
  {
    && p.version == 1 && p.createdAt != 0 && 1 <= |p.decisions| <= 1000
    && GoodDecisions(p.decisions) && digest(p.decisions) == p.source
  }

  /** The sets filled while checking, after a prefix of the approvals. */
  ghost predicate Noted(done: seq<Approval>, players: set<nat>, blocked: set<nat>, reserved: set<nat>,
                        mappings: set<nat>)
  {
    && players == (set a | a in done :: a.player)
    && blocked == (set a | a in done :: a.blocked)
    && reserved == (set a | a in done :: a.reserved)
    && mappings == (set a, m | a in done && m in a.mappings :: m)
  }

  predicate NewTo(a: Approval, players: set<nat>, blocked: set<nat>, reserved: set<nat>, mappings: set<nat>)
  {
    a.player !in players && a.blocked !in blocked && a.reserved !in reserved && Elements(a.mappings) !! mappings
  }

  lemma OneMoreNoted(done: seq<Approval>, a: Approval, players: set<nat>, blocked: set<nat>, reserved: set<nat>,
                     mappings: set<nat>)
    requires Noted(done, players, blocked, reserved, mappings)
    ensures NewTo(a, players, blocked, reserved, mappings) <==> forall k :: 0 <= k < |done| ==> Separate(done[k], a)
    ensures Noted(done + [a], players + {a.player}, blocked + {a.blocked}, reserved + {a.reserved},
                  mappings + Elements(a.mappings))
  {
    forall b | b in done
      ensures exists k :: 0 <= k < |done| && done[k] == b
    {
    }
    if forall k :: 0 <= k < |done| ==> Separate(done[k], a) {
      assert forall b | b in done :: Separate(b, a);
    } else {
      var k :| 0 <= k < |done| && !Separate(done[k], a);
      assert done[k] in done;
    }
  }

  /** The inner loop over one decision's mapping ids. */
  method CheckMappings(ids: seq<nat>, taken: set<nat>) returns (ok: bool)
    ensures ok <==> 0 !in ids && Distinct(ids) && Elements(ids) !! taken
  {
    var seen: set<nat> := {};
    for i := 0 to |ids|
      invariant seen == Elements(ids[..i]) && 0 !in ids[..i] && Distinct(ids[..i]) && seen !! taken
    {
      OneMoreElement(ids, i);
      if ids[i] == 0 || ids[i] in taken {
        assert ids[i] in Elements(ids);
        return false;
      }
      if ids[i] in seen {
        var k :| 0 <= k < i && ids[..i][k] == ids[i];
        return false;
      }
      seen := seen + {ids[i]};
    }
    assert ids[..|ids|] == ids;
    ok := true;
  }

  method ValidateApprovals(approvals: seq<Approval>) returns (ok: bool)
    ensures ok <==> GoodApprovals(approvals)
  {
    var players: set<nat>, blocked: set<nat>, reserved: set<nat>, mappings: set<nat> := {}, {}, {}, {};
    for i := 0 to |approvals|
      invariant GoodApprovals(approvals[..i])
      invariant Noted(approvals[..i], players, blocked, reserved, mappings)
    {
      var a := approvals[i];
      assert approvals[..i + 1] == approvals[..i] + [a];
      OneMoreNoted(approvals[..i], a, players, blocked, reserved, mappings);
      var mappingsOk := CheckMappings(a.mappings, mappings);
      if a.player == 0 || a.blocked == 0 || a.reserved == 0 || a.blocked == a.reserved || a.mappings == []
         || a.player in players || a.blocked in blocked || a.reserved in reserved || !mappingsOk {
        NotGood(approvals, i);
        return false;
      }
      players, blocked := players + {a.player}, blocked + {a.blocked};
      reserved, mappings := reserved + {a.reserved}, mappings + Elements(a.mappings);
    }
    assert approvals[..|approvals|] == approvals;
    ok := true;
  }

  lemma NotGood(approvals: seq<Approval>, i: nat)
    requires i < |approvals|
    requires !GoodApproval(approvals[i]) || exists k :: 0 <= k < i && !Separate(approvals[..i][k], approvals[i])
    ensures !GoodApprovals(approvals)
  {
    if GoodApproval(approvals[i]) {
      var k :| 0 <= k < i && !Separate(approvals[..i][k], approvals[i]);
      assert !Separate(approvals[k], approvals[i]);
    }
  }

  function Approvals(decisions: seq<Decision>): (r: seq<Approval>)
    ensures |r| == |decisions| && forall i :: 0 <= i < |decisions| ==> r[i] == Approved(decisions[i])
  {
    seq(|decisions|, i requires 0 <= i < |decisions| => Approved(decisions[i]))
  }

  method Validate(digest: seq<Decision> -> Digest, p: Resolution) returns (ok: bool)
    ensures ok <==> ValidResolution(digest, p)
  {
    hide GoodDecision, GoodDecisions, Separate, NewTo, Noted;
    if p.version != 1 || p.createdAt == 0 || p.decisions == [] || |p.decisions| > 1000 {
      return false;
    }
    var players: set<nat>, blocked: set<nat>, reserved: set<nat>, mappings: set<nat> := {}, {}, {}, {};
    var uuids: set<string> := {};
    NothingNoted(Approvals(p.decisions[..0]));
    NothingBad(p.decisions[..0]);
    for i := 0 to |p.decisions|
      invariant GoodDecisions(p.decisions[..i])
      invariant Noted(Approvals(p.decisions[..i]), players, blocked, reserved, mappings)
      invariant uuids == set k: nat | k < i :: p.decisions[k].uuid
    {
      var d := p.decisions[i];
      assert p.decisions[..i + 1] == p.decisions[..i] + [d];
      assert Approvals(p.decisions[..i + 1]) == Approvals(p.decisions[..i]) + [Approved(d)];
      OneMoreNoted(Approvals(p.decisions[..i]), Approved(d), players, blocked, reserved, mappings);
      var good := CheckDecision(d, uuids, players, blocked, reserved, mappings);
      if !good {
        NotGoodDecision(p.decisions, i);
        return false;
      }
      OneMoreGood(p.decisions[..i], d);
      uuids := uuids + {d.uuid};
      players, blocked := players + {d.player}, blocked + {d.blocked};
      reserved, mappings := reserved + {d.reserved}, mappings + Elements(d.mappings);
    }
    assert p.decisions[..|p.decisions|] == p.decisions;
    ok := digest(p.decisions) == p.source;
  }

  lemma NothingBad(done: seq<Decision>)
    requires done == []
    ensures GoodDecisions(done)
  {
  }

  lemma OneMoreGood(done: seq<Decision>, d: Decision)
    requires GoodDecisions(done) && GoodDecision(d)
    requires forall k :: 0 <= k < |done| ==> Separate(Approvals(done)[k], Approved(d)) && done[k].uuid != d.uuid
    ensures GoodDecisions(done + [d])
  {
    hide GoodDecision, Separate;
  }

  /** The body of the loop: one decision against everything seen before it. */
  method CheckDecision(d: Decision, uuids: set<string>, players: set<nat>, blocked: set<nat>, reserved: set<nat>,
                       mappings: set<nat>)
    returns (ok: bool)
    ensures ok <==> GoodDecision(d) && d.uuid !in uuids && NewTo(Approved(d), players, blocked, reserved, mappings)
  {
    hide ParseCanonical;
    if d.player == 0 || d.name == "" || d.blocked == 0 || d.reserved == 0 || d.blocked == d.reserved {
      return false;
    }
    if ParseCanonical(d.uuid).None? || d.uuid in uuids {
      return false;
    }
    if d.player in players || d.blocked in blocked || d.reserved in reserved || d.mappings == [] {
      return false;
    }
    ok := CheckMappings(d.mappings, mappings);
  }

  lemma NothingNoted(done: seq<Approval>)
    requires done == []
    ensures Noted(done, {}, {}, {}, {})
  {
  }

  lemma NotGoodDecision(decisions: seq<Decision>, i: nat)
    requires i < |decisions|
    requires !GoodDecision(decisions[i]) || (exists k :: 0 <= k < i && decisions[k].uuid == decisions[i].uuid)
             || exists k :: 0 <= k < i && !Separate(Approvals(decisions[..i])[k], Approved(decisions[i]))
    ensures !GoodDecisions(decisions)
  {
    hide GoodApproval, Separate, ParseCanonical;
    if GoodDecision(decisions[i]) && forall k :: 0 <= k < i ==> decisions[k].uuid != decisions[i].uuid {
      var k :| 0 <= k < i && !Separate(Approvals(decisions[..i])[k], Approved(decisions[i]));
      assert !Separate(Approved(decisions[k]), Approved(decisions[i]));
    }
  }

  // ---- reading the rows of an approval ----

  /** Legacy mappings the collation gives this name. */
  function MappingsCalled(key: string -> string, mappings: map<nat, Mapping>, name: string): set<nat>
  {
    set m | m in mappings && key(mappings[m].name) == key(name)
  }

  predicate BlockedRow(row: IdRow, player: nat)
  {
    row == IdRow(Some(player), None, Blocked, None, None)
  }

  predicate ReservedRow(row: IdRow)
  {
    row.player.None? && row.state == Reserved && row.uuid.Some? && row.target.None?
  }

  /** The player is alone under its name, the two rows are as reviewed, and the approved mappings are all the
      mappings of that name, every one of them spelling the reserved identifier. */
  ghost predicate Approvable(key: string -> string, db: Db, a: Approval)
  {
    && a.player in db.players && a.blocked in db.identities && a.reserved in db.identities
    && Named(key, db.players, db.players[a.player].name) == {a.player}
    && BlockedRow(db.identities[a.blocked], a.player) && ReservedRow(db.identities[a.reserved])
    && MappingsAgree(key, db.mappings, db.players[a.player].name, a.mappings, db.identities[a.reserved])
  }

  ghost predicate MappingsAgree(key: string -> string, mappings: map<nat, Mapping>, name: string, approved: seq<nat>,
                                reserved: IdRow)
  {
    var called := MappingsCalled(key, mappings, name);
    && Elements(approved) <= called && |called| == |approved|
    && (forall m | m in called :: ParseCanonical(mappings[m].uuid).Some?
                                  && ParseCanonical(mappings[m].uuid) == reserved.uuid)
    && (reserved.legacy.Some? ==> reserved.legacy.value in approved)
  }

  /** The decision read back for an approval. */
  ghost predicate ReadsAs(db: Db, a: Approval, d: Decision)
  {
    && a.player in db.players && a.reserved in db.identities && db.identities[a.reserved].uuid.Some?
    && d.player == a.player && d.blocked == a.blocked && d.reserved == a.reserved
    && d.name == db.players[a.player].name && d.uuid == Format(db.identities[a.reserved].uuid.value)
    && multiset(d.mappings) == multiset(a.mappings)
    && forall i, j :: 0 <= i < j < |d.mappings| ==> d.mappings[i] <= d.mappings[j]
  }

  method CheckCalled(d: Database, name: string, approved: seq<nat>, reserved: IdRow) returns (ok: bool)
    requires reserved.uuid.Some?
    ensures ok <==> MappingsAgree(d.key, d.mappings, name, approved, reserved)
  {
    hide ParseCanonical;
    var called := MappingsCalled(d.key, d.mappings, name);
    var rows := KeysInOrder(called);
    DistinctSize(rows);
    for i := 0 to |rows|
      invariant forall k ::
                0 <= k < i ==> rows[k] in d.mappings && ParseCanonical(d.mappings[rows[k]].uuid) == reserved.uuid
    {
      assert rows[i] in Elements(rows);
      if ParseCanonical(d.mappings[rows[i]].uuid) != reserved.uuid {
        return false;
      }
    }
    assert forall m | m in called :: m in Elements(rows);
    if |rows| != |approved| {
      return false;
    }
    for i := 0 to |approved|
      invariant forall k :: 0 <= k < i ==> approved[k] in called
    {
      if approved[i] !in called {
        assert approved[i] in Elements(approved);
        return false;
      }
    }
    ok := reserved.legacy.None? || reserved.legacy.value in approved;
  }

  method ReadDecision(d: Database, a: Approval) returns (r: Option<Decision>)
    ensures r.Some? <==> Approvable(d.key, d.Tables(), a)
    ensures r.Some? ==> ReadsAs(d.Tables(), a, r.value)
  {
    hide MappingsAgree, Format;
    if a.player !in d.players {
      return None;
    }
    var name := d.players[a.player].name;
    var equivalent := KeysInOrder(Named(d.key, d.players, name));
    DistinctSize(equivalent);
    assert a.player in Named(d.key, d.players, name);
    assert |{a.player}| == 1 && forall i :: 0 <= i < |equivalent| ==> equivalent[i] in Elements(equivalent);
    if |equivalent| != 1 || equivalent[0] != a.player {
      return None;
    }
    SingletonIs(Named(d.key, d.players, name), a.player);
    if a.blocked !in d.identities || !BlockedRow(d.identities[a.blocked], a.player) {
      return None;
    }
    if a.reserved !in d.identities || !ReservedRow(d.identities[a.reserved]) {
      return None;
    }
    var row := d.identities[a.reserved];
    var agreed := CheckCalled(d, name, a.mappings, row);
    if !agreed {
      return None;
    }
    BelowIsTotal(Elements(a.mappings));
    var sorted := SortBy(Below, a.mappings);
    r := Some(Decision(a.player, name, a.blocked, a.reserved, Format(row.uuid.value), sorted));
  }

  /** With everything else in order, a reserved identifier can be resolved exactly when the legacy table spells it as 32
      lower-case digits in every mapping of the player's name. */
  lemma OnlyPlainSpellingResolves(key: string -> string, db: Db, a: Approval)
    requires a.player in db.players && a.blocked in db.identities && a.reserved in db.identities
    requires Named(key, db.players, db.players[a.player].name) == {a.player}
    requires BlockedRow(db.identities[a.blocked], a.player) && ReservedRow(db.identities[a.reserved])
    requires Elements(a.mappings) == MappingsCalled(key, db.mappings, db.players[a.player].name) && Distinct(a.mappings)
    requires db.identities[a.reserved].legacy.Some? ==> db.identities[a.reserved].legacy.value in a.mappings
    ensures Approvable(key, db, a) <==>
              forall m | m in MappingsCalled(key, db.mappings, db.players[a.player].name) ::
                db.mappings[m].uuid == Format(db.identities[a.reserved].uuid.value)
  {
    hide Format, Parse;
    DistinctSize(a.mappings);
    forall m | m in MappingsCalled(key, db.mappings, db.players[a.player].name)
      ensures db.mappings[m].uuid == Format(db.identities[a.reserved].uuid.value)
         <==> ParseCanonical(db.mappings[m].uuid) == db.identities[a.reserved].uuid
    {
      CanonicalIsFormat(db.mappings[m].uuid, db.identities[a.reserved].uuid.value);
    }
  }

  const DASHED: string := "00000000-0000-3000-8000-000000000000"

  /** The migration accepts the dashed form, so such a mapping is planned and may be reserved, but never resolved. */
  lemma DashedIsMigratedOnly()
    ensures ParseLegacy(DASHED).Some? && ParseCanonical(DASHED).None?
  {
    hide HexByte, ReadBytes, HexAt, Format;
    DashedStart();
    DashedMiddle();
    DashedEnd();
    DashedBytes(DASHED);
  }

  lemma DashedStart()
    ensures HexByte(DASHED, 0).Some? && HexByte(DASHED, 2).Some? && HexByte(DASHED, 4).Some?
    ensures HexByte(DASHED, 6).Some? && HexByte(DASHED, 9).Some? && HexByte(DASHED, 11).Some?
  {
  }

  lemma DashedMiddle()
    ensures HexByte(DASHED, 14).Some? && HexByte(DASHED, 16).Some? && HexByte(DASHED, 19) == Some(128)
    ensures HexByte(DASHED, 21).Some? && DASHED[8] == DASHED[13] == DASHED[18] == DASHED[23] == '-'
  {
  }

  lemma DashedEnd()
    ensures HexByte(DASHED, 24).Some? && HexByte(DASHED, 26).Some? && HexByte(DASHED, 28).Some?
    ensures HexByte(DASHED, 30).Some? && HexByte(DASHED, 32).Some? && HexByte(DASHED, 34).Some?
  {
  }

  lemma DashedBytes(s: string)
    requires |s| == 36 && s[8] == '-' && s[13] == '-' && s[18] == '-' && s[23] == '-'
    requires HexByte(s, 0).Some? && HexByte(s, 2).Some? && HexByte(s, 4).Some? && HexByte(s, 6).Some?
    requires HexByte(s, 9).Some? && HexByte(s, 11).Some? && HexByte(s, 14).Some? && HexByte(s, 16).Some?
    requires HexByte(s, 19) == Some(128) && HexByte(s, 21).Some? && HexByte(s, 24).Some? && HexByte(s, 26).Some?
    requires HexByte(s, 28).Some? && HexByte(s, 30).Some? && HexByte(s, 32).Some? && HexByte(s, 34).Some?
    ensures ParseLegacy(s).Some?
  {
    hide HexByte;
    forall i | 0 <= i < 16
      ensures HexByte(s, DASHED_OFFSETS[i]).Some?
    {
      assert DASHED_OFFSETS[i] in DASHED_OFFSETS;
    }
    assert HexByte(s, DASHED_OFFSETS[8]) == Some(128);
  }

  // ---- references ----

  ghost predicate Unreferenced(db: Db, id: nat)
  {
    && (forall h | h in db.tokens :: db.tokens[h].identity != Some(id))
    && (forall v | v in db.sessions
        && db.sessions[v].hash in db.tokens :: db.tokens[db.sessions[v].hash].identity != Some(id))
  }

  method EnsureNoLiveReferences(d: Database, ids: seq<nat>) returns (ok: bool)
    ensures ok <==> forall i :: 0 <= i < |ids| ==> Unreferenced(d.Tables(), ids[i])
  {
    for i := 0 to |ids|
      invariant forall k :: 0 <= k < i ==> Unreferenced(d.Tables(), ids[k])
    {
      if exists h :: h in d.tokens && d.tokens[h].identity == Some(ids[i]) {
        return false;
      }
      if exists v :: v in d.sessions && d.sessions[v].hash in d.tokens
                     && d.tokens[d.sessions[v].hash].identity == Some(ids[i]) {
        return false;
      }
    }
    ok := true;
  }

  // ---- rows before and after a resolution ----

  /** Nothing a decision relies on has changed since it was read. */
  ghost predicate Pending(key: string -> string, db: Db, d: Decision)
  {
    Approvable(key, db, Approved(d)) && d.name == db.players[d.player].name
        && d.uuid == Format(db.identities[d.reserved].uuid.value)
  }

  /** The link and the binding a decision asks for are in place. */
  predicate Settled(ids: map<nat, IdRow>, d: Decision)
  {
    && d.blocked in ids && d.reserved in ids
    && ids[d.blocked] == IdRow(None, None, Resolved, None, Some(d.reserved))
    && ids[d.reserved].state == Active && ids[d.reserved].player == Some(d.player) && ids[d.reserved].target.None?
    && ids[d.reserved].uuid.Some? && d.uuid == Format(ids[d.reserved].uuid.value)
  }

  ghost predicate AllPending(key: string -> string, db: Db, decisions: seq<Decision>)
  {
    forall i :: 0 <= i < |decisions| ==> Pending(key, db, decisions[i])
  }

  predicate AllSettled(ids: map<nat, IdRow>, decisions: seq<Decision>)
  {
    forall i :: 0 <= i < |decisions| ==> Settled(ids, decisions[i])
  }

  ghost predicate AllUnreferenced(db: Db, decisions: seq<Decision>)
  {
    forall i :: 0 <= i < |decisions| ==>
            Unreferenced(db, decisions[i].blocked) && Unreferenced(db, decisions[i].reserved)
  }

  predicate PlayerBefore(a: Decision, b: Decision) { a.player < b.player }

  /** Equal up to order. */
  method SameIds(a: seq<nat>, b: seq<nat>) returns (same: bool)
    ensures same <==> multiset(a) == multiset(b)
  {
    var left := SortBy(Below, a);
    var right := SortBy(Below, b);
    BelowIsTotal(Elements(a));
    BelowIsTotal(Elements(b));
    BelowIsTotal(Elements(left));
    if multiset(a) == multiset(b) {
      OrderedUnique(Below, left, right);
    }
    same := left == right;
  }

  method VerifyRows(d: Database, decisions: seq<Decision>, resolved: bool) returns (ok: bool)
    ensures ok <==> if resolved then AllSettled(d.identities, decisions) else AllPending(d.key, d.Tables(), decisions)
  {
    hide Settled, Approvable;
    var sorted := SortBy(PlayerBefore, decisions);
    forall x
      ensures x in decisions <==> x in sorted
    {
      assert x in decisions <==> x in multiset(decisions);
    }
    for i := 0 to |sorted|
      invariant forall k ::
                0 <= k < i ==> if resolved then Settled(d.identities, sorted[k])
                  else Pending(d.key, d.Tables(), sorted[k])
    {
      var decision := sorted[i];
      assert decision in decisions;
      if resolved {
        if !Settled(d.identities, decision) {
          return false;
        }
      } else {
        var actual := ReadDecision(d, Approved(decision));
        if actual.None? || actual.value.name != decision.name || actual.value.uuid != decision.uuid {
          return false;
        }
        var same := SameIds(actual.value.mappings, decision.mappings);
        if !same {
          return false;
        }
      }
    }
    ok := true;
    assert forall k :: 0 <= k < |decisions| ==> decisions[k] in sorted;
  }
}
