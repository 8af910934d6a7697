/** Applying and rolling back a reviewed resolution while the gate is closed. */
module ResolutionApply {
  import opened Basics
  import opened Sorting
  import opened Uuids
  import opened Tables
  import opened Directory
  import opened Database
  import opened MigrationPlan
  import opened Listing
  import opened ResolutionPlan

  // ---- the effect on the rows ----

  function LinkTo(reserved: nat): IdRow
  {
    IdRow(None, None, Resolved, None, Some(reserved))
  }

  predicate Touches(decisions: seq<Decision>, i: nat)
  {
    exists k :: 0 <= k < |decisions| && (decisions[k].blocked == i || decisions[k].reserved == i)
  }

  predicate Carried(before: map<nat, IdRow>, after: map<nat, IdRow>, d: Decision)
    requires after.Keys == before.Keys
  {
    && d.blocked in before && after[d.blocked] == LinkTo(d.reserved)
    && d.reserved in before && after[d.reserved] == before[d.reserved].(state := Active, player := Some(d.player))
  }

  predicate Returned(before: map<nat, IdRow>, after: map<nat, IdRow>, d: Decision)
    requires after.Keys == before.Keys
  {
    && d.blocked in before
    && after[d.blocked] == before[d.blocked].(state := Blocked, player := Some(d.player), target := None)
    && d.reserved in before && after[d.reserved] == before[d.reserved].(state := Reserved, player := None)
  }

  ghost predicate OthersKept(before: map<nat, IdRow>, after: map<nat, IdRow>, decisions: seq<Decision>)
    requires after.Keys == before.Keys
  {
    forall i | i in before && !Touches(decisions, i) :: after[i] == before[i]
  }

  /** `after` is `before` with every decision carried out, and nothing else changed. */
  ghost predicate Resolves(before: map<nat, IdRow>, after: map<nat, IdRow>, decisions: seq<Decision>)
  {
    && after.Keys == before.Keys && OthersKept(before, after, decisions)
    && forall k :: 0 <= k < |decisions| ==> Carried(before, after, decisions[k])
  }

  /** `after` is `before` with every decision taken back, and nothing else changed. */
  ghost predicate Unresolves(before: map<nat, IdRow>, after: map<nat, IdRow>, decisions: seq<Decision>)
  {
    && after.Keys == before.Keys && OthersKept(before, after, decisions)
    && forall k :: 0 <= k < |decisions| ==> Returned(before, after, decisions[k])
  }

  predicate ShapedBefore(ids: map<nat, IdRow>, d: Decision)
  {
    d.blocked in ids && d.reserved in ids && BlockedRow(ids[d.blocked], d.player) && ReservedRow(ids[d.reserved])
  }

  /** No row takes part in two decisions, in whatever role. */
  ghost predicate RowsApart(decisions: seq<Decision>)
  {
    forall j, k :: 0 <= j < k < |decisions| ==>
      && decisions[j].player != decisions[k].player
      && {decisions[j].blocked, decisions[j].reserved} !! {decisions[k].blocked, decisions[k].reserved}
  }

  /** The validation compares blocked rows only with blocked rows. That a blocked row of one decision is not the
      reserved row of another follows from the states the rows are found in. */
  lemma PendingRowsApart(ids: map<nat, IdRow>, decisions: seq<Decision>)
    requires GoodDecisions(decisions) && forall k :: 0 <= k < |decisions| ==> ShapedBefore(ids, decisions[k])
    ensures RowsApart(decisions)
  {
    hide GoodDecision;
    forall j, k | 0 <= j < k < |decisions|
      ensures decisions[j].player != decisions[k].player
      ensures {decisions[j].blocked, decisions[j].reserved} !! {decisions[k].blocked, decisions[k].reserved}
    {
      assert Separate(Approved(decisions[j]), Approved(decisions[k]));
      assert ShapedBefore(ids, decisions[j]) && ShapedBefore(ids, decisions[k]);
    }
  }

  lemma SettledRowsApart(ids: map<nat, IdRow>, decisions: seq<Decision>)
    requires GoodDecisions(decisions) && AllSettled(ids, decisions)
    ensures RowsApart(decisions)
  {
    hide GoodDecision;
    forall j, k | 0 <= j < k < |decisions|
      ensures decisions[j].player != decisions[k].player
      ensures {decisions[j].blocked, decisions[j].reserved} !! {decisions[k].blocked, decisions[k].reserved}
    {
      assert Separate(Approved(decisions[j]), Approved(decisions[k]));
      assert Settled(ids, decisions[j]) && Settled(ids, decisions[k]);
    }
  }

  /** The WHERE clause of the first UPDATE, and the foreign key and the hook on the link it writes. */
  predicate Linkable(ids: map<nat, IdRow>, d: Decision)
  {
    && d.blocked in ids && ids[d.blocked].state == Blocked && ids[d.blocked].player == Some(d.player)
    && ids[d.blocked].target.None? && d.reserved in ids && d.reserved != d.blocked
  }

  /** And the WHERE clause of the second. */
  predicate Takeable(ids: map<nat, IdRow>, d: Decision)
  {
    && Linkable(ids, d) && ids[d.reserved].state == Reserved && ids[d.reserved].player.None?
    && ids[d.reserved].target.None?
  }

  function Taken(ids: map<nat, IdRow>, d: Decision): map<nat, IdRow>
    requires d.reserved in ids
  {
    ids[d.blocked := LinkTo(d.reserved)][d.reserved := ids[d.reserved].(state := Active, player := Some(d.player))]
  }

  /** One decision taken. Neither UPDATE is ever refused once its WHERE clause is met and the link has a row to
      point to; if the second finds its row changed, the first has been written, and the caller must roll back. */
  method ResolveOne(d: Database, decision: Decision) returns (changed: bool)
    requires d.Valid() && ResolutionInstalled(d.schema)
    modifies d`identities
    ensures d.Valid()
    ensures changed <==> !Takeable(old(d.identities), decision)
    ensures d.identities == if Takeable(old(d.identities), decision) then Taken(old(d.identities), decision)
                            else if Linkable(old(d.identities), decision) then
                              old(d.identities)[decision.blocked := LinkTo(decision.reserved)]
                            else old(d.identities)
  {
    var b, r := decision.blocked, decision.reserved;
    if b !in d.identities || d.identities[b].state != Blocked || d.identities[b].player != Some(decision.player)
       || d.identities[b].target.Some? {
      return true;
    }
    ghost var before := d.identities;
    var refused := d.UpdateIdentity(b, LinkTo(r));
    if refused.Some? {
      return true;
    }
    if r !in d.identities || d.identities[r].state != Reserved || d.identities[r].player.Some?
       || d.identities[r].target.Some? {
      return true;
    }
    BindingFits(d.schema, before, decision);
    refused := d.UpdateIdentity(r, d.identities[r].(state := Active, player := Some(decision.player)));
    changed := refused.Some?;
  }

  /** The player is free as soon as the blocked row has become a link. */
  lemma BindingFits(schema: Schema, before: map<nat, IdRow>, d: Decision)
    requires IdentitiesOk(before) && Takeable(before, d) && ResolutionInstalled(schema)
    ensures Updatable(schema, before[d.blocked := LinkTo(d.reserved)], d.reserved,
                      before[d.reserved].(state := Active, player := Some(d.player)))
  {
    var linked := before[d.blocked := LinkTo(d.reserved)];
    var row := before[d.reserved].(state := Active, player := Some(d.player));
    forall i | i in linked && i != d.reserved
      ensures !Conflict(row, linked[i])
    {
      if i != d.blocked {
        assert !Conflict(before[d.blocked], before[i]) && !Conflict(before[d.reserved], before[i]);
      }
    }
  }

  predicate Waiting(before: map<nat, IdRow>, now: map<nat, IdRow>, d: Decision)
    requires now.Keys == before.Keys
  {
    d.blocked in before && d.reserved in before && now[d.blocked] == before[d.blocked]
        && now[d.reserved] == before[d.reserved]
  }

  /** Between two turns of the loop: the first `k` decisions are done, the rows of the others are as they were. */
  ghost predicate Resolving(before: map<nat, IdRow>, now: map<nat, IdRow>, decisions: seq<Decision>, k: nat)
  {
    && k <= |decisions| && now.Keys == before.Keys && OthersKept(before, now, decisions)
    && (forall j :: 0 <= j < k ==> Carried(before, now, decisions[j]))
    && (forall j :: k <= j < |decisions| ==> Waiting(before, now, decisions[j]))
  }

  lemma ResolvingOneMore(before: map<nat, IdRow>, now: map<nat, IdRow>, next: map<nat, IdRow>,
                         decisions: seq<Decision>, k: nat)
    requires RowsApart(decisions) && Resolving(before, now, decisions, k) && k < |decisions|
    requires var d := decisions[k];
             d.blocked != d.reserved && d.reserved in now && next == Taken(now, d)
    ensures Resolving(before, next, decisions, k + 1)
  {
    var d := decisions[k];
    assert Waiting(before, now, d) && next.Keys == before.Keys;
    assert Touches(decisions, d.blocked) && Touches(decisions, d.reserved);
    forall j | 0 <= j < |decisions| && j != k
      ensures decisions[j].blocked !in {d.blocked, d.reserved} && decisions[j].reserved !in {d.blocked, d.reserved}
    {
      assert {decisions[j].blocked, decisions[j].reserved} !! {d.blocked, d.reserved};
    }
    forall j | 0 <= j < k
      ensures Carried(before, next, decisions[j])
    {
      assert Carried(before, now, decisions[j]);
    }
    forall j | k < j < |decisions|
      ensures Waiting(before, next, decisions[j])
    {
      assert Waiting(before, now, decisions[j]);
    }
  }

  // ---- the transactions ----

  predicate SecondVersion(db: Db, staged: bool)
  {
    db.gate.Some? && db.gate.value.version == 2 && (staged ==> db.gate.value.phase == Staged)
  }

  ghost predicate CanApply(digest: seq<Decision> -> Digest, key: string -> string, db: Db, p: Resolution)
  {
    && ValidResolution(digest, p) && SecondVersion(db, true)
    && AllPending(key, db, p.decisions) && AllUnreferenced(db, p.decisions)
  }

  predicate Spelled(ids: map<nat, IdRow>, d: Decision)
  {
    d.reserved in ids && ids[d.reserved].uuid.Some? && d.uuid == Format(ids[d.reserved].uuid.value)
  }

  lemma PendingShapes(key: string -> string, db: Db, decisions: seq<Decision>)
    requires AllPending(key, db, decisions)
    ensures forall k :: 0 <= k < |decisions| ==> ShapedBefore(db.identities, decisions[k])
    ensures forall k :: 0 <= k < |decisions| ==> Spelled(db.identities, decisions[k])
  {
    hide Format, MappingsAgree;
    forall k | 0 <= k < |decisions|
      ensures ShapedBefore(db.identities, decisions[k]) && Spelled(db.identities, decisions[k])
    {
      assert Pending(key, db, decisions[k]);
    }
  }

  lemma ResolvedIsSettled(before: map<nat, IdRow>, after: map<nat, IdRow>, decisions: seq<Decision>)
    requires Resolves(before, after, decisions)
    requires forall k :: 0 <= k < |decisions| ==> ShapedBefore(before, decisions[k]) && Spelled(before, decisions[k])
    ensures AllSettled(after, decisions)
  {
    hide Format;
    forall k | 0 <= k < |decisions|
      ensures Settled(after, decisions[k])
    {
      assert ShapedBefore(before, decisions[k]) && Carried(before, after, decisions[k]);
    }
  }

  /** The rows to be checked for references, one decision after another. */
  method CheckReferences(d: Database, decisions: seq<Decision>) returns (ok: bool)
    ensures ok <==> AllUnreferenced(d.Tables(), decisions)
  {
    for i := 0 to |decisions|
      invariant AllUnreferenced(d.Tables(), decisions[..i])
    {
      var free := EnsureNoLiveReferences(d, [decisions[i].blocked, decisions[i].reserved]);
      assert free <==> Unreferenced(d.Tables(), decisions[i].blocked) && Unreferenced(d.Tables(),
              decisions[i].reserved) by {
        var pair := [decisions[i].blocked, decisions[i].reserved];
        assert pair[0] == decisions[i].blocked && pair[1] == decisions[i].reserved;
      }
      if !free {
        return false;
      }
    }
    assert decisions[..|decisions|] == decisions;
    ok := true;
  }

  /** Apply succeeds exactly when its checks do, for a plan of any size: no UPDATE is ever refused or finds its row
      changed. It then carries out every decision and touches no other row. */
  method Apply(d: Database, digest: seq<Decision> -> Digest, p: Resolution, outcome: Outcome) returns (ok: bool)
    requires d.Valid() && (SecondVersion(d.Tables(), false) ==> ResolutionInstalled(d.schema))
    modifies d
    ensures d.Valid() && d.schema == old(d.schema)
    ensures ok <==> old(CanApply(digest, d.key, d.Tables(), p)) && outcome.Confirmed?
    ensures if outcome.Lost? || !old(CanApply(digest, d.key, d.Tables(), p)) then d.Tables() == old(d.Tables())
            else
              && Resolves(old(d.identities), d.identities, p.decisions)
              && d.Tables() == old(d.Tables()).(identities := d.identities)
  {
    hide ValidResolution, AllPending, AllUnreferenced, AllSettled, Resolves, IdentitiesOk, CheckV1, RowsApart;
    var valid := Validate(digest, p);
    if !valid || !SecondVersion(d.Tables(), true) {
      return false;
    }
    var saved := d.Tables();
    var pending := VerifyRows(d, p.decisions, false);
    if !pending {
      return false;
    }
    var free := CheckReferences(d, p.decisions);
    if !free {
      return false;
    }
    ValidIsGood(digest, p);
    PendingShapes(d.key, d.Tables(), p.decisions);
    PendingRowsApart(d.identities, p.decisions);
    ghost var before := d.identities;
    ResolvingStarts(before, p.decisions);
    for k := 0 to |p.decisions|
      invariant d.Valid() && d.schema == old(d.schema) && d.nextId == old(d.nextId)
      invariant Resolving(before, d.identities, p.decisions, k)
      invariant d.Tables() == saved.(identities := d.identities)
    {
      ghost var now := d.identities;
      WaitingIsShaped(before, now, p.decisions, k);
      var changed := ResolveOne(d, p.decisions[k]);
      ResolvingOneMore(before, now, d.identities, p.decisions, k);
      if changed {
        assert false; // no row can have changed under its lock
      }
    }
    ResolvingEnds(before, d.identities, p.decisions);
    ResolvedIsSettled(before, d.identities, p.decisions);
    var settled := VerifyRows(d, p.decisions, true);
    if !settled {
      assert false;
    }
    ok := d.Commit(saved, outcome);
  }

  lemma ValidIsGood(digest: seq<Decision> -> Digest, p: Resolution)
    requires ValidResolution(digest, p)
    ensures GoodDecisions(p.decisions)
  {
  }

  lemma ResolvingStarts(before: map<nat, IdRow>, decisions: seq<Decision>)
    requires forall k :: 0 <= k < |decisions| ==> ShapedBefore(before, decisions[k])
    ensures Resolving(before, before, decisions, 0)
  {
    assert forall k :: 0 <= k < |decisions| ==> ShapedBefore(before, decisions[k]);
  }

  lemma WaitingIsShaped(before: map<nat, IdRow>, now: map<nat, IdRow>, decisions: seq<Decision>, k: nat)
    requires forall j :: 0 <= j < |decisions| ==> ShapedBefore(before, decisions[j])
    requires Resolving(before, now, decisions, k) && k < |decisions|
    ensures ShapedBefore(now, decisions[k])
  {
    assert ShapedBefore(before, decisions[k]) && Waiting(before, now, decisions[k]);
  }

  lemma ResolvingEnds(before: map<nat, IdRow>, now: map<nat, IdRow>, decisions: seq<Decision>)
    requires Resolving(before, now, decisions, |decisions|)
    ensures Resolves(before, now, decisions)
  {
  }

  // ---- rollback ----

  /** What the player, its name and its legacy mappings must still say for a decision to be taken back. */
  ghost predicate Returnable(key: string -> string, db: Db, d: Decision)
  {
    && d.player in db.players && d.reserved in db.identities && db.players[d.player].name == d.name
    && Named(key, db.players, d.name) == {d.player}
    && MappingsAgree(key, db.mappings, d.name, d.mappings, db.identities[d.reserved])
  }

  ghost predicate CanRollback(digest: seq<Decision> -> Digest, key: string -> string, db: Db, p: Resolution)
  {
    && ValidResolution(digest, p) && SecondVersion(db, true)
    && AllSettled(db.identities, p.decisions) && AllUnreferenced(db, p.decisions)
    && forall k :: 0 <= k < |p.decisions| ==> Returnable(key, db, p.decisions[k])
  }

  /** The WHERE clause of the first UPDATE of a rollback. */
  predicate Releasable(ids: map<nat, IdRow>, d: Decision)
  {
    d.reserved in ids && ids[d.reserved].state == Active && ids[d.reserved].player == Some(d.player)
  }

  /** And of the second. */
  predicate Restorable(ids: map<nat, IdRow>, d: Decision)
  {
    && Releasable(ids, d) && d.blocked in ids
    && ids[d.blocked] == IdRow(None, None, Resolved, None, Some(d.reserved))
  }

  function Released(ids: map<nat, IdRow>, d: Decision): map<nat, IdRow>
    requires d.reserved in ids
  {
    ids[d.reserved := ids[d.reserved].(state := Reserved, player := None)]
  }

  function Restored(ids: map<nat, IdRow>, d: Decision): map<nat, IdRow>
    requires d.reserved in ids && d.blocked in ids
  {
    Released(ids, d)[d.blocked := ids[d.blocked].(state := Blocked, player := Some(d.player), target := None)]
  }

  /** One decision taken back: the binding first, so that the player is free for the blocked row. */
  method UnresolveOne(d: Database, decision: Decision) returns (changed: bool)
    requires d.Valid() && ResolutionInstalled(d.schema)
    modifies d`identities
    ensures d.Valid()
    ensures changed <==> !Restorable(old(d.identities), decision)
    ensures d.identities == if Restorable(old(d.identities), decision) then Restored(old(d.identities), decision)
                            else if Releasable(old(d.identities), decision) then Released(old(d.identities), decision)
                            else old(d.identities)
  {
    var b, r := decision.blocked, decision.reserved;
    if r !in d.identities || d.identities[r].state != Active || d.identities[r].player != Some(decision.player) {
      return true;
    }
    ghost var before := d.identities;
    var row := d.identities[r].(state := Reserved, player := None);
    assert row.target.None? by {
      assert CheckV2(d.identities[r]);
    }
    ReleaseFits(d.schema, before, decision);
    var refused := d.UpdateIdentity(r, row);
    if refused.Some? {
      assert false; // a row that loses its player meets no constraint
    }
    if b !in d.identities || d.identities[b].state != Resolved || d.identities[b].player.Some?
       || d.identities[b].uuid.Some?
       || d.identities[b].legacy.Some? || d.identities[b].target != Some(r) {
      return true;
    }
    ReturnFits(d.schema, before, decision);
    refused := d.UpdateIdentity(b, d.identities[b].(state := Blocked, player := Some(decision.player), target := None));
    changed := refused.Some?;
  }

  lemma ReleaseFits(schema: Schema, before: map<nat, IdRow>, d: Decision)
    requires IdentitiesOk(before) && Releasable(before, d) && ResolutionInstalled(schema)
    ensures Updatable(schema, before, d.reserved, before[d.reserved].(state := Reserved, player := None))
  {
    forall i | i in before && i != d.reserved
      ensures !Conflict(before[d.reserved].(state := Reserved, player := None), before[i])
    {
      assert !Conflict(before[d.reserved], before[i]);
    }
  }

  lemma ReturnFits(schema: Schema, before: map<nat, IdRow>, d: Decision)
    requires IdentitiesOk(before) && Restorable(before, d) && ResolutionInstalled(schema)
    ensures Updatable(schema, Released(before, d), d.blocked,
                      before[d.blocked].(state := Blocked, player := Some(d.player), target := None))
  {
    var back := before[d.blocked].(state := Blocked, player := Some(d.player), target := None);
    var freed := Released(before, d);
    forall i | i in freed && i != d.blocked
      ensures !Conflict(back, freed[i])
    {
      if i != d.reserved {
        assert !Conflict(before[d.reserved], before[i]);
      }
    }
  }

  /** One turn of the loop: the references of the two rows, then the two rows. */
  method TakeBack(d: Database, decision: Decision) returns (done: bool)
    requires d.Valid() && ResolutionInstalled(d.schema) && Settled(d.identities, decision)
    requires decision.blocked != decision.reserved
    modifies d`identities
    ensures d.Valid()
    ensures done <==> old(Unreferenced(d.Tables(), decision.blocked) && Unreferenced(d.Tables(), decision.reserved))
    ensures d.identities == if done then Restored(old(d.identities), decision) else old(d.identities)
  {
    assert Restorable(d.identities, decision);
    hide Settled, IdentitiesOk, CheckV1, Unreferenced;
    var pair := [decision.blocked, decision.reserved];
    done := EnsureNoLiveReferences(d, pair);
    assert pair[0] == decision.blocked && pair[1] == decision.reserved;
    if done {
      var changed := UnresolveOne(d, decision);
      if changed {
        assert false; // no row can have changed under its lock
      }
    }
  }

  ghost predicate Unresolving(before: map<nat, IdRow>, now: map<nat, IdRow>, decisions: seq<Decision>, k: nat)
  {
    && k <= |decisions| && now.Keys == before.Keys && OthersKept(before, now, decisions)
    && (forall j :: 0 <= j < k ==> Returned(before, now, decisions[j]))
    && (forall j :: k <= j < |decisions| ==> Waiting(before, now, decisions[j]))
  }

  lemma UnresolvingOneMore(before: map<nat, IdRow>, now: map<nat, IdRow>, next: map<nat, IdRow>,
                           decisions: seq<Decision>, k: nat)
    requires RowsApart(decisions) && Unresolving(before, now, decisions, k) && k < |decisions|
    requires var d := decisions[k];
             d.blocked != d.reserved && d.reserved in now && d.blocked in now && next == Restored(now, d)
    ensures Unresolving(before, next, decisions, k + 1)
  {
    var d := decisions[k];
    assert Waiting(before, now, d) && next.Keys == before.Keys;
    assert Touches(decisions, d.blocked) && Touches(decisions, d.reserved);
    forall j | 0 <= j < |decisions| && j != k
      ensures decisions[j].blocked !in {d.blocked, d.reserved} && decisions[j].reserved !in {d.blocked, d.reserved}
    {
      assert {decisions[j].blocked, decisions[j].reserved} !! {d.blocked, d.reserved};
    }
    forall j | 0 <= j < k
      ensures Returned(before, next, decisions[j])
    {
      assert Returned(before, now, decisions[j]);
    }
    forall j | k < j < |decisions|
      ensures Waiting(before, next, decisions[j])
    {
      assert Waiting(before, now, decisions[j]);
    }
  }

  lemma UnresolvingStarts(before: map<nat, IdRow>, decisions: seq<Decision>)
    requires AllSettled(before, decisions)
    ensures Unresolving(before, before, decisions, 0)
  {
    assert forall k :: 0 <= k < |decisions| ==> Settled(before, decisions[k]);
  }

  lemma WaitingIsSettled(before: map<nat, IdRow>, now: map<nat, IdRow>, decisions: seq<Decision>, k: nat)
    requires AllSettled(before, decisions) && Unresolving(before, now, decisions, k) && k < |decisions|
    ensures decisions[k].blocked in now && decisions[k].reserved in now && Settled(now, decisions[k])
  {
    hide Format;
    assert Settled(before, decisions[k]) && Waiting(before, now, decisions[k]);
  }

  lemma UnresolvingEnds(before: map<nat, IdRow>, now: map<nat, IdRow>, decisions: seq<Decision>)
    requires Unresolving(before, now, decisions, |decisions|)
    ensures Unresolves(before, now, decisions)
  {
  }

  /** After a rollback the source rows are as Apply demands exactly when name and mappings still agree. */
  lemma ReturnedIsPending(key: string -> string, db: Db, after: map<nat, IdRow>, decisions: seq<Decision>)
    requires AllSettled(db.identities, decisions) && Unresolves(db.identities, after, decisions)
    ensures AllPending(key, db.(identities := after), decisions) <==>
              forall k :: 0 <= k < |decisions| ==> Returnable(key, db, decisions[k])
  {
    hide AllSettled, Unresolves;
    forall k | 0 <= k < |decisions|
      ensures Pending(key, db.(identities := after), decisions[k]) <==> Returnable(key, db, decisions[k])
    {
      ReturnedRow(db.identities, after, decisions, k);
      PendingOne(key, db, after, decisions[k]);
    }
  }

  lemma ReturnedRow(before: map<nat, IdRow>, after: map<nat, IdRow>, decisions: seq<Decision>, k: nat)
    requires AllSettled(before, decisions) && Unresolves(before, after, decisions) && k < |decisions|
    ensures after.Keys == before.Keys && Settled(before, decisions[k]) && Returned(before, after, decisions[k])
  {
  }

  lemma PendingOne(key: string -> string, db: Db, after: map<nat, IdRow>, d: Decision)
    requires after.Keys == db.identities.Keys && Settled(db.identities, d) && Returned(db.identities, after, d)
    ensures Pending(key, db.(identities := after), d) <==> Returnable(key, db, d)
  {
    hide Format, MappingsCalled, ParseCanonical;
  }

  /** Rollback succeeds exactly when the plan's links and bindings are in place, nothing refers to them, and the source
      rows still agree; then it takes every decision back and touches no other row. */
  method Rollback(d: Database, digest: seq<Decision> -> Digest, p: Resolution, outcome: Outcome) returns (ok: bool)
    requires d.Valid() && (SecondVersion(d.Tables(), false) ==> ResolutionInstalled(d.schema))
    modifies d
    ensures d.Valid() && d.schema == old(d.schema)
    ensures ok <==> old(CanRollback(digest, d.key, d.Tables(), p)) && outcome.Confirmed?
    ensures if outcome.Lost? || !old(CanRollback(digest, d.key, d.Tables(), p)) then d.Tables() == old(d.Tables())
            else
              && Unresolves(old(d.identities), d.identities, p.decisions)
              && d.Tables() == old(d.Tables()).(identities := d.identities)
  {
    hide ValidResolution, AllPending, Unreferenced, AllSettled, Settled, Unresolves, IdentitiesOk, CheckV1, RowsApart,
      Returnable, Unresolving, GoodDecisions;
    var valid := Validate(digest, p);
    if !valid || !SecondVersion(d.Tables(), true) {
      return false;
    }
    var saved := d.Tables();
    var settled := VerifyRows(d, p.decisions, true);
    if !settled {
      return false;
    }
    ValidIsGood(digest, p);
    SettledRowsApart(d.identities, p.decisions);
    ghost var before := d.identities;
    UnresolvingStarts(before, p.decisions);
    for k := 0 to |p.decisions|
      invariant d.Valid() && d.schema == old(d.schema) && d.nextId == old(d.nextId)
      invariant Unresolving(before, d.identities, p.decisions, k)
      invariant d.Tables() == saved.(identities := d.identities)
      invariant AllUnreferenced(saved, p.decisions[..k])
    {
      ghost var now := d.identities;
      WaitingIsSettled(before, now, p.decisions, k);
      GoodIsApart(p.decisions, k);
      SameReferences(d.Tables(), saved);
      var done := TakeBack(d, p.decisions[k]);
      if !done {
        assert !AllUnreferenced(saved, p.decisions);
        d.Restore(saved);
        return false;
      }
      UnresolvingOneMore(before, now, d.identities, p.decisions, k);
    }
    assert p.decisions[..|p.decisions|] == p.decisions;
    UnresolvingEnds(before, d.identities, p.decisions);
    ReturnedIsPending(d.key, saved, d.identities, p.decisions);
    var pending := VerifyRows(d, p.decisions, false);
    if !pending {
      d.Restore(saved);
      return false;
    }
    ok := d.Commit(saved, outcome);
  }

  lemma SameReferences(a: Db, b: Db)
    requires a == b.(identities := a.identities)
    ensures forall id :: Unreferenced(a, id) == Unreferenced(b, id)
  {
  }

  lemma GoodIsApart(decisions: seq<Decision>, k: nat)
    requires GoodDecisions(decisions) && k < |decisions|
    ensures decisions[k].blocked != decisions[k].reserved
  {
    assert GoodDecision(decisions[k]);
  }

  // ---- gate and dry run ----

  /** Check that the links and bindings are in place, whatever the phase. */
  method Verify(d: Database, digest: seq<Decision> -> Digest, p: Resolution) returns (ok: bool)
    ensures ok <==>
              ValidResolution(digest, p) && SecondVersion(d.Tables(), false) && AllSettled(d.identities, p.decisions)
  {
    hide ValidResolution, AllSettled;
    ok := Validate(digest, p);
    if ok && SecondVersion(d.Tables(), false) {
      ok := VerifyRows(d, p.decisions, true);
    } else {
      ok := false;
    }
  }

  ghost predicate CanOpen(digest: seq<Decision> -> Digest, schema: Schema, db: Db, p: Resolution)
  {
    && ValidResolution(digest, p) && schema.userHooks && ResolutionInstalled(schema)
    && SecondVersion(db, true) && AllSettled(db.identities, p.decisions)
  }

  method Activate(d: Database, digest: seq<Decision> -> Digest, p: Resolution, outcome: Outcome) returns (ok: bool)
    requires d.Valid()
    modifies d
    ensures d.Valid() && d.schema == old(d.schema)
    ensures ok <==> old(CanOpen(digest, d.schema, d.Tables(), p)) && outcome.Confirmed?
    ensures d.Tables() == if outcome.Lost? || !old(CanOpen(digest, d.schema, d.Tables(), p)) then old(d.Tables())
                          else old(d.Tables()).(gate := Some(old(d.gate).value.(phase := Open)))
  {
    hide ValidResolution, AllSettled, IdentitiesOk, CheckV1;
    var valid := Validate(digest, p);
    if !valid || !d.schema.userHooks || !ResolutionInstalled(d.schema) || !SecondVersion(d.Tables(), true) {
      return false;
    }
    var saved := d.Tables();
    var settled := VerifyRows(d, p.decisions, true);
    if !settled {
      return false;
    }
    d.gate := Some(d.gate.value.(phase := Open));
    ok := d.Commit(saved, outcome);
  }

  method Deactivate(d: Database, digest: seq<Decision> -> Digest, p: Resolution, outcome: Outcome) returns (ok: bool)
    requires d.Valid()
    modifies d
    ensures d.Valid() && d.schema == old(d.schema)
    ensures ok <==>
              && ValidResolution(digest, p) && old(SecondVersion(d.Tables(), false) && d.gate.value.phase == Open)
              && outcome.Confirmed?
    ensures d.Tables() ==
            if !outcome.Lost? && ValidResolution(digest, p)
               && old(SecondVersion(d.Tables(), false) && d.gate.value.phase == Open) then
              old(d.Tables()).(gate := Some(old(d.gate).value.(phase := Staged)))
            else old(d.Tables())
  {
    hide ValidResolution, IdentitiesOk, CheckV1;
    var valid := Validate(digest, p);
    if !valid || !SecondVersion(d.Tables(), false) || d.gate.value.phase != Open {
      return false;
    }
    var saved := d.Tables();
    d.gate := Some(d.gate.value.(phase := Staged));
    ok := d.Commit(saved, outcome);
  }

  predicate ApprovalPlayerLess(a: Approval, b: Approval) { a.player < b.player }

  /** The dry run: read the approved rows, in player order, into a plan bound to them by its digest. Whatever it returns
      passes Validate, and Apply's row checks on the same tables. */
  method Build(d: Database, digest: seq<Decision> -> Digest, approvals: seq<Approval>, now: nat)
    returns (r: Option<Resolution>)
    requires d.Valid()
    ensures r.Some? <==>
              && 1 <= |approvals| <= 1000 && now != 0 && GoodApprovals(approvals) && SecondVersion(d.Tables(), false)
              && forall i :: 0 <= i < |approvals| ==> Buildable(d.key, d.Tables(), approvals[i])
    ensures r.Some? ==>
              && ValidResolution(digest, r.value) && r.value.createdAt == now
              && AllPending(d.key, d.Tables(), r.value.decisions) && AllUnreferenced(d.Tables(), r.value.decisions)
              && |r.value.decisions| == |approvals|
              && (forall i, j :: 0 <= i < j < |approvals| ==> r.value.decisions[i].player < r.value.decisions[j].player)
              && forall a :: a in approvals ==> exists e :: e in r.value.decisions && ReadsAs(d.Tables(), a, e)
  {
    hide Approvable, GoodApproval, Separate, ReadsAs, GoodDecisions, Unreferenced, Format;
    if approvals == [] || |approvals| > 1000 || now == 0 {
      return None;
    }
    var sorted := SortBy(ApprovalPlayerLess, approvals);
    PermutedApprovals(approvals, sorted);
    var good := ValidateApprovals(sorted);
    if good {
      PlayersAscend(approvals, sorted);
    }
    if !good || !SecondVersion(d.Tables(), false) {
      return None;
    }
    var decisions: seq<Decision> := [];
    for i := 0 to |sorted|
      invariant |decisions| == i
      invariant forall k ::
                0 <= k < i ==> Approvable(d.key, d.Tables(), sorted[k]) && ReadsAs(d.Tables(), sorted[k], decisions[k])
      invariant forall k ::
                0 <= k < i ==> Unreferenced(d.Tables(), sorted[k].blocked) && Unreferenced(d.Tables(),
                        sorted[k].reserved)
    {
      var decision := ReadDecision(d, sorted[i]);
      if decision.None? {
        assert sorted[i] in approvals && !Buildable(d.key, d.Tables(), sorted[i]);
        return None;
      }
      var pair := [sorted[i].blocked, sorted[i].reserved];
      var free := EnsureNoLiveReferences(d, pair);
      assert pair[0] == sorted[i].blocked && pair[1] == sorted[i].reserved;
      if !free {
        assert sorted[i] in approvals && !Buildable(d.key, d.Tables(), sorted[i]);
        return None;
      }
      decisions := decisions + [decision.value];
    }
    ReadDecisionsAgree(d.key, d.Tables(), sorted, decisions);
    var plan := Resolution(1, now, digest(decisions), decisions);
    var valid := Validate(digest, plan);
    AllBuildable(d.key, d.Tables(), approvals, sorted);
    r := if valid then Some(plan) else None;
    assert forall a :: a in approvals ==> a in sorted;
  }

  /** A row set that a plan can be read from; a player without a name would not pass Validate. */
  ghost predicate Buildable(key: string -> string, db: Db, a: Approval)
  {
    && Approvable(key, db, a) && Unreferenced(db, a.blocked) && Unreferenced(db, a.reserved)
    && db.players[a.player].name != ""
  }

  lemma AllBuildable(key: string -> string, db: Db, approvals: seq<Approval>, sorted: seq<Approval>)
    requires forall x :: x in approvals <==> x in sorted
    requires forall k :: 0 <= k < |sorted| ==> Approvable(key, db, sorted[k])
    requires forall k ::
              0 <= k < |sorted| ==> Unreferenced(db, sorted[k].blocked) && Unreferenced(db, sorted[k].reserved)
    ensures (forall i :: 0 <= i < |approvals| ==> Buildable(key, db, approvals[i]))
       <==> forall k :: 0 <= k < |sorted| ==> sorted[k].player in db.players && db.players[sorted[k].player].name != ""
  {
    hide Unreferenced;
    if forall k :: 0 <= k < |sorted| ==> sorted[k].player in db.players && db.players[sorted[k].player].name != "" {
      forall i | 0 <= i < |approvals|
        ensures Buildable(key, db, approvals[i])
      {
        assert approvals[i] in sorted;
      }
    } else {
      var k :| 0 <= k < |sorted| && !(sorted[k].player in db.players && db.players[sorted[k].player].name != "");
      assert sorted[k] in approvals && !Buildable(key, db, sorted[k]);
    }
  }

  /** A decision read back for a good approval is good but for the player's name, and pending on the same tables. */
  lemma ReadBack(key: string -> string, db: Db, a: Approval, e: Decision)
    requires GoodApproval(a) && Approvable(key, db, a) && ReadsAs(db, a, e)
    ensures GoodDecision(e) <==> db.players[a.player].name != ""
    ensures Pending(key, db, e) && |e.mappings| == |a.mappings| && Elements(e.mappings) == Elements(a.mappings)
  {
    hide MappingsCalled, Format, ParseCanonical;
    PermutedIds(a.mappings, e.mappings);
    CanonicalIsFormat(e.uuid, db.identities[a.reserved].uuid.value);
  }

  lemma ReadDecisionsAgree(key: string -> string, db: Db, approvals: seq<Approval>, decisions: seq<Decision>)
    requires IdentitiesOk(db.identities) && GoodApprovals(approvals) && |decisions| == |approvals|
    requires forall k ::
              0 <= k < |approvals| ==> Approvable(key, db, approvals[k]) && ReadsAs(db, approvals[k], decisions[k])
    ensures GoodDecisions(decisions) <==>
              forall k :: 0 <= k < |approvals| ==>
                      approvals[k].player in db.players && db.players[approvals[k].player].name != ""
    ensures AllPending(key, db, decisions)
    ensures forall k ::
              0 <= k < |approvals| ==> Approved(decisions[k]).(mappings := approvals[k].mappings) == approvals[k]
  {
    hide GoodApproval, Approvable, Pending, GoodDecision, IdentitiesOk;
    forall k | 0 <= k < |approvals|
      ensures approvals[k].player in db.players
      ensures GoodDecision(decisions[k]) <==> db.players[approvals[k].player].name != ""
      ensures Pending(key, db, decisions[k]) && Elements(decisions[k].mappings) == Elements(approvals[k].mappings)
    {
      ReadBack(key, db, approvals[k], decisions[k]);
    }
    forall i, j | 0 <= i < j < |approvals|
      ensures Separate(Approved(decisions[i]), Approved(decisions[j])) && decisions[i].uuid != decisions[j].uuid
    {
      assert Separate(approvals[i], approvals[j]);
      UuidsDiffer(key, db, approvals[i], approvals[j]);
    }
  }

  lemma UuidsDiffer(key: string -> string, db: Db, a: Approval, b: Approval)
    requires IdentitiesOk(db.identities) && Approvable(key, db, a) && Approvable(key, db, b) && a.reserved != b.reserved
    ensures Format(db.identities[a.reserved].uuid.value) != Format(db.identities[b.reserved].uuid.value)
  {
    hide Format, MappingsAgree;
    var u, v := db.identities[a.reserved].uuid.value, db.identities[b.reserved].uuid.value;
    assert !Conflict(db.identities[a.reserved], db.identities[b.reserved]);
    if Format(u) == Format(v) {
      FormatInjective(u, v);
    }
  }

  /** Approved players are distinct, so sorting by player puts them in strictly increasing order. */
  lemma PlayersAscend(approvals: seq<Approval>, sorted: seq<Approval>)
    requires GoodApprovals(sorted) && multiset(sorted) == multiset(approvals)
    requires TotalOn(ApprovalPlayerLess, Elements(approvals)) ==> Ordered(ApprovalPlayerLess, sorted)
    ensures forall i, j :: 0 <= i < j < |sorted| ==> sorted[i].player < sorted[j].player
  {
    hide GoodApproval;
    SameElements(approvals, sorted);
    forall a, b | a in Elements(approvals) && b in Elements(approvals)
      ensures a == b || a.player < b.player || b.player < a.player
    {
      var i :| 0 <= i < |sorted| && sorted[i] == a;
      var j :| 0 <= j < |sorted| && sorted[j] == b;
      assert i < j ==> Separate(sorted[i], sorted[j]);
      assert j < i ==> Separate(sorted[j], sorted[i]);
    }
    assert TotalOn(ApprovalPlayerLess, Elements(approvals));
    forall i, j | 0 <= i < j < |sorted|
      ensures sorted[i].player < sorted[j].player
    {
      assert Separate(sorted[i], sorted[j]);
    }
  }

  lemma PermutedApprovals(a: seq<Approval>, b: seq<Approval>)
    requires multiset(a) == multiset(b)
    ensures |a| == |b| && (forall x :: x in a <==> x in b)
    ensures GoodApprovals(a) <==> GoodApprovals(b)
  {
    hide GoodApproval;
    assert |multiset(a)| == |a| && |multiset(b)| == |b|;
    assert forall x :: x in a <==> x in multiset(a);
    assert forall x :: x in b <==> x in multiset(b);
    if GoodApprovals(a) {
      GoodMeansApart(a, b);
    }
    if GoodApprovals(b) {
      GoodMeansApart(b, a);
    }
  }

  lemma GoodMeansApart(a: seq<Approval>, b: seq<Approval>)
    requires multiset(a) == multiset(b) && GoodApprovals(a)
    ensures GoodApprovals(b)
  {
    hide GoodApproval;
    assert Distinct(a);
    SortLists(a, b, Elements(a));
    assert forall x :: x in a <==> x in multiset(a);
    forall i | 0 <= i < |b|
      ensures GoodApproval(b[i]) && exists k :: 0 <= k < |a| && a[k] == b[i]
    {
      assert b[i] in multiset(b);
    }
    forall i, j | 0 <= i < j < |b|
      ensures Separate(b[i], b[j])
    {
      var k :| 0 <= k < |a| && a[k] == b[i];
      var l :| 0 <= l < |a| && a[l] == b[j];
      assert k < l || l < k;
    }
  }

  // ---- the effects keep every constraint ----

  /** Who had the player that a row has after a resolution: the row itself, or the blocked row it replaces. */
  lemma HolderBefore(before: map<nat, IdRow>, after: map<nat, IdRow>, decisions: seq<Decision>, i: nat) returns (h: nat)
    requires Resolves(before, after, decisions) && i in after && after[i].player.Some?
    requires forall k :: 0 <= k < |decisions| ==> ShapedBefore(before, decisions[k])
    ensures h in before && before[h].player == after[i].player
    ensures TookFrom(decisions, i, h, true)
  {
    h := i;
    if Touches(decisions, i) {
      var k :| 0 <= k < |decisions| && (decisions[k].blocked == i || decisions[k].reserved == i);
      assert Carried(before, after, decisions[k]) && ShapedBefore(before, decisions[k]);
      h := decisions[k].blocked;
      assert Took(decisions[k], i, h, true);
    }
  }

  lemma ResolvedPlayersUnique(before: map<nat, IdRow>, after: map<nat, IdRow>, decisions: seq<Decision>, i: nat, j: nat)
    requires Unique(before) && Resolves(before, after, decisions) && RowsApart(decisions)
    requires forall k :: 0 <= k < |decisions| ==> ShapedBefore(before, decisions[k])
    requires i in after && j in after && after[i].player.Some? && after[i].player == after[j].player
    ensures i == j
  {
    var g := HolderBefore(before, after, decisions, i);
    var h := HolderBefore(before, after, decisions, j);
    assert Conflict(before[g], before[h]);
    SameHolder(decisions, i, j, g, true);
  }

  /** Row `x` has its player from row `h`: they are the two rows of one decision, or one row no decision touches. */
  ghost predicate TookFrom(decisions: seq<Decision>, x: nat, h: nat, forward: bool)
  {
    if !Touches(decisions, x) then h == x
    else exists k :: 0 <= k < |decisions| && Took(decisions[k], x, h, forward)
  }

  predicate Took(d: Decision, x: nat, h: nat, forward: bool)
  {
    if forward then d.reserved == x && d.blocked == h else d.blocked == x && d.reserved == h
  }

  /** Rows that take a player from the same row are the same row. */
  lemma SameHolder(decisions: seq<Decision>, i: nat, j: nat, h: nat, forward: bool)
    requires RowsApart(decisions) && TookFrom(decisions, i, h, forward) && TookFrom(decisions, j, h, forward)
    ensures i == j
  {
    if Touches(decisions, h) {
      var k :| 0 <= k < |decisions| && Took(decisions[k], i, h, forward);
      var l :| 0 <= l < |decisions| && Took(decisions[l], j, h, forward);
      assert h in {decisions[k].blocked, decisions[k].reserved} && h in {decisions[l].blocked, decisions[l].reserved};
    }
  }

  /** Row by row: the identifier and the mapping stay, and the CHECK and the link constraints hold. */
  lemma ResolvedRow(before: map<nat, IdRow>, after: map<nat, IdRow>, decisions: seq<Decision>, i: nat)
    requires IdentitiesOk(before) && Resolves(before, after, decisions) && i in after
    requires forall k :: 0 <= k < |decisions| ==> ShapedBefore(before, decisions[k])
    ensures i in before && after[i].uuid == before[i].uuid && after[i].legacy == before[i].legacy && CheckV2(after[i])
    ensures after[i].target.Some? ==> after[i].target.value in after && after[i].target.value != i
  {
    if Touches(decisions, i) {
      var k :| 0 <= k < |decisions| && (decisions[k].blocked == i || decisions[k].reserved == i);
      assert Carried(before, after, decisions[k]) && ShapedBefore(before, decisions[k]);
    }
  }

  /** Carrying out pending decisions leaves every CHECK, UNIQUE, foreign key and self-resolution constraint in force. */
  lemma ResolvedOk(before: map<nat, IdRow>, after: map<nat, IdRow>, decisions: seq<Decision>)
    requires IdentitiesOk(before) && Resolves(before, after, decisions) && RowsApart(decisions)
    requires forall k :: 0 <= k < |decisions| ==> ShapedBefore(before, decisions[k])
    ensures IdentitiesOk(after)
  {
    forall i | i in after
      ensures i in before && after[i].uuid == before[i].uuid && after[i].legacy == before[i].legacy && CheckV2(after[i])
      ensures after[i].target.Some? ==> after[i].target.value in after && after[i].target.value != i
    {
      ResolvedRow(before, after, decisions, i);
    }
    forall i, j | i in after && j in after && i != j
      ensures !Conflict(after[i], after[j])
    {
      assert !Conflict(before[i], before[j]);
      if after[i].player.Some? && after[i].player == after[j].player {
        ResolvedPlayersUnique(before, after, decisions, i, j);
      }
    }
  }

  lemma HolderLater(before: map<nat, IdRow>, after: map<nat, IdRow>, decisions: seq<Decision>, i: nat) returns (h: nat)
    requires Unresolves(before, after, decisions) && i in after && after[i].player.Some?
    requires AllSettled(before, decisions)
    ensures h in before && before[h].player == after[i].player
    ensures TookFrom(decisions, i, h, false)
  {
    h := i;
    if Touches(decisions, i) {
      var k :| 0 <= k < |decisions| && (decisions[k].blocked == i || decisions[k].reserved == i);
      assert Returned(before, after, decisions[k]) && Settled(before, decisions[k]);
      h := decisions[k].reserved;
      assert Took(decisions[k], i, h, false);
    }
  }

  lemma ReturnedPlayersUnique(before: map<nat, IdRow>, after: map<nat, IdRow>, decisions: seq<Decision>, i: nat, j: nat)
    requires Unique(before) && Unresolves(before, after, decisions) && RowsApart(decisions)
    requires AllSettled(before, decisions)
    requires i in after && j in after && after[i].player.Some? && after[i].player == after[j].player
    ensures i == j
  {
    var g := HolderLater(before, after, decisions, i);
    var h := HolderLater(before, after, decisions, j);
    assert Conflict(before[g], before[h]);
    SameHolder(decisions, i, j, g, false);
  }

  lemma ReturnedRowOk(before: map<nat, IdRow>, after: map<nat, IdRow>, decisions: seq<Decision>, i: nat)
    requires IdentitiesOk(before) && Unresolves(before, after, decisions) && AllSettled(before, decisions) && i in after
    ensures i in before && after[i].uuid == before[i].uuid && after[i].legacy == before[i].legacy && CheckV2(after[i])
    ensures after[i].target.Some? ==> after[i].target.value in after && after[i].target.value != i
  {
    if Touches(decisions, i) {
      var k :| 0 <= k < |decisions| && (decisions[k].blocked == i || decisions[k].reserved == i);
      assert Returned(before, after, decisions[k]) && Settled(before, decisions[k]);
    }
  }

  /** So does taking them back. */
  lemma ReturnedOk(before: map<nat, IdRow>, after: map<nat, IdRow>, decisions: seq<Decision>)
    requires IdentitiesOk(before) && Unresolves(before, after, decisions) && RowsApart(decisions)
    requires AllSettled(before, decisions)
    ensures IdentitiesOk(after)
  {
    forall i | i in after
      ensures i in before && after[i].uuid == before[i].uuid && after[i].legacy == before[i].legacy && CheckV2(after[i])
      ensures after[i].target.Some? ==> after[i].target.value in after && after[i].target.value != i
    {
      ReturnedRowOk(before, after, decisions, i);
    }
    forall i, j | i in after && j in after && i != j
      ensures !Conflict(after[i], after[j])
    {
      assert !Conflict(before[i], before[j]);
      if after[i].player.Some? && after[i].player == after[j].player {
        ReturnedPlayersUnique(before, after, decisions, i, j);
      }
    }
  }
}
