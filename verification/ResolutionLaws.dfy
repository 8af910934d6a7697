/** What a resolution and its rollback ask of the rows and what they leave alone, said of the rows themselves. */
module ResolutionLaws {
  import opened Basics
  import opened Uuids
  import opened Tables
  import opened Directory
  import opened MigrationPlan
  import opened ResolutionPlan
  import Res = ResolutionApply
  import opened Lifecycle
  import LifecycleTheorems

  // ---- what a decision asks for ----

  /** The player has exactly that name, nobody else has an equivalent one, the two rows are as they were reviewed, and
      the legacy mappings of equivalent names are exactly the listed ones, each with the very text of the identifier. */
  ghost predicate Awaits(key: string -> string, db: Db, d: Decision)
  {
    && d.player in db.players && db.players[d.player].name == d.name
    && (forall q | q in db.players :: key(db.players[q].name) == key(d.name) <==> q == d.player)
    && d.blocked in db.identities && db.identities[d.blocked] == IdRow(Some(d.player), None, Blocked, None, None)
    && d.reserved in db.identities && db.identities[d.reserved].state == Reserved
    && db.identities[d.reserved].player == None && db.identities[d.reserved].target == None
    && (exists u :: db.identities[d.reserved].uuid == Some(u) && Format(u) == d.uuid)
    && (forall m :: m in d.mappings <==> m in db.mappings && key(db.mappings[m].name) == key(d.name))
    && (forall m | m in d.mappings :: db.mappings[m].uuid == d.uuid)
    && (db.identities[d.reserved].legacy.Some? ==> db.identities[d.reserved].legacy.value in d.mappings)
  }

  lemma PendingExactly(key: string -> string, db: Db, d: Decision)
    requires Distinct(d.mappings)
    ensures Pending(key, db, d) <==> Awaits(key, db, d)
  {
    if d.player in db.players && d.reserved in db.identities && db.identities[d.reserved].uuid.Some? {
      var u := db.identities[d.reserved].uuid.value;
      MappingsExactly(key, db.mappings, db.players[d.player].name, d.mappings, db.identities[d.reserved], u);
      AloneInRows(key, db.players, db.players[d.player].name, d.player);
      hide MappingsAgree, Format, Named;
    }
  }

  lemma AloneInRows(key: string -> string, players: map<nat, Player>, name: string, pid: nat)
    ensures Named(key, players, name) == {pid} <==>
            pid in players && forall q | q in players :: key(players[q].name) == key(name) <==> q == pid
  {
    assert forall q :: q in Named(key, players, name) <==> q in players && key(players[q].name) == key(name);
    if pid in players && forall q | q in players :: key(players[q].name) == key(name) <==> q == pid {
      assert Named(key, players, name) == {pid};
    }
  }

  lemma MappingsExactly(key: string -> string, mappings: map<nat, Mapping>, name: string, approved: seq<nat>,
                        reserved: IdRow, u: Uuid)
    requires Distinct(approved) && reserved.uuid == Some(u)
    ensures MappingsAgree(key, mappings, name, approved, reserved) <==>
            && (forall m :: m in approved <==> m in mappings && key(mappings[m].name) == key(name))
            && (forall m | m in approved :: mappings[m].uuid == Format(u))
            && (reserved.legacy.Some? ==> reserved.legacy.value in approved)
  {
    hide Format, ParseCanonical;
    var called := MappingsCalled(key, mappings, name);
    assert forall m :: m in called <==> m in mappings && key(mappings[m].name) == key(name);
    forall m | m in called
      ensures ParseCanonical(mappings[m].uuid) == reserved.uuid <==> mappings[m].uuid == Format(u)
    {
      CanonicalIsFormat(mappings[m].uuid, u);
    }
    DistinctSize(approved);
    if Elements(approved) <= called && |called| == |approved| {
      AllIn(Elements(approved), called);
    }
    assert (forall m :: m in approved <==> m in called) ==> Elements(approved) == called;
  }

  lemma AllIn(some: set<nat>, all: set<nat>)
    requires some <= all && |some| == |all|
    ensures some == all
  {
    if x :| x in all && x !in some {
      SubsetSize(some, all - {x});
    }
  }

  /** A plan is applied only to rows that await each of its decisions, with the gate closed under version 2, and only if
      no token refers to them. */
  lemma AppliesInRows(digest: seq<Decision> -> Digest, key: string -> string, db: Db, r: Resolution, k: nat, h: Hash)
    requires Res.CanApply(digest, key, db, r) && k < |r.decisions|
    ensures r.version == 1 && |r.decisions| <= 1000 && digest(r.decisions) == r.source
    ensures db.gate.Some? && db.gate.value.version == 2 && db.gate.value.phase == Staged
    ensures Awaits(key, db, r.decisions[k])
    ensures h in db.tokens ==> db.tokens[h].identity !in {Some(r.decisions[k].blocked), Some(r.decisions[k].reserved)}
  {
    hide Pending;
    assert GoodDecision(r.decisions[k]) && Pending(key, db, r.decisions[k]);
    assert Unreferenced(db, r.decisions[k].blocked) && Unreferenced(db, r.decisions[k].reserved);
    PendingExactly(key, db, r.decisions[k]);
    hide Awaits;
  }

  /** After a rollback every decision of the plan is awaited again, and no token refers to its rows. */
  lemma RollsBackInRows(digest: seq<Decision> -> Digest, key: string -> string, db: Db, r: Resolution, after: Db,
                        k: nat, h: Hash)
    requires Res.CanRollback(digest, key, db, r) && k < |r.decisions|
    requires Res.Unresolves(db.identities, after.identities, r.decisions)
    requires after == db.(identities := after.identities)
    ensures r.version == 1 && |r.decisions| <= 1000 && digest(r.decisions) == r.source
    ensures db.gate.Some? && db.gate.value.version == 2 && db.gate.value.phase == Staged
    ensures Awaits(key, after, r.decisions[k])
    ensures h in db.tokens ==> db.tokens[h].identity !in {Some(r.decisions[k].blocked), Some(r.decisions[k].reserved)}
  {
    var d := r.decisions[k];
    hide MappingsAgree, Format, Named;
    assert GoodDecision(d) && Settled(db.identities, d) && Res.Returnable(key, db, d);
    assert Res.Returned(db.identities, after.identities, d);
    assert Unreferenced(db, d.blocked) && Unreferenced(db, d.reserved);
    SameAgreement(key, db.mappings, d.name, d.mappings, db.identities[d.reserved], after.identities[d.reserved]);
    assert Pending(key, after, d);
    PendingExactly(key, after, d);
    hide Awaits, Pending;
  }

  lemma SameAgreement(key: string -> string, mappings: map<nat, Mapping>, name: string, approved: seq<nat>, a: IdRow,
                      b: IdRow)
    requires MappingsAgree(key, mappings, name, approved, a) && b.uuid == a.uuid && b.legacy == a.legacy
    ensures MappingsAgree(key, mappings, name, approved, b)
  {
  }

  /** If no two lists of decisions have the same digest, a plan altered after its review is no valid plan. */
  lemma AlteredPlanIsInvalid(digest: seq<Decision> -> Digest, p: Resolution, q: Resolution)
    requires forall a, b | digest(a) == digest(b) :: a == b
    requires ValidResolution(digest, p) && q.source == p.source && q.decisions != p.decisions
    ensures !ValidResolution(digest, q)
  {
  }

  // ---- what stays ----

  /** Rows that no token refers to may change without any token noticing. */
  lemma UnreferredRowsDoNotMatter(env: Env, before: Db, after: Db, h: Hash, c: string, t: nat)
    requires IdentitiesOk(before.identities) && IdentitiesOk(after.identities)
    requires after == before.(identities := after.identities)
    requires before.identities.Keys == after.identities.Keys
    requires forall i | i in before.identities && after.identities[i] != before.identities[i] ::
               forall k | k in before.tokens :: before.tokens[k].identity != Some(i)
    ensures Authorize(env, after, h, c, t) == Authorize(env, before, h, c, t)
  {
    if h in before.tokens && before.tokens[h].identity.Some? {
      SameBound(before, after, before.tokens[h].owner, before.tokens[h].identity.value);
    }
    hide BoundIdentity, IdentitiesOk;
  }

  lemma SameBound(before: Db, after: Db, owner: nat, i: nat)
    requires IdentitiesOk(before.identities) && IdentitiesOk(after.identities)
    requires after == before.(identities := after.identities) && before.identities.Keys == after.identities.Keys
    requires i in before.identities ==> after.identities[i] == before.identities[i]
    ensures BoundIdentity(after, owner, i) == BoundIdentity(before, owner, i)
  {
    if i in before.identities && before.identities[i].player.Some? {
      OwnRow(before.identities, i, before.identities[i].player.value);
      OwnRow(after.identities, i, before.identities[i].player.value);
    }
  }

  lemma OwnRow(ids: map<nat, IdRow>, i: nat, p: nat)
    requires IdentitiesOk(ids) && i in ids && ids[i].player == Some(p)
    ensures RowOf(ids, p) == Some(i)
  {
    var j := RowOf(ids, p);
    assert j.Some? && (j.value != i ==> Conflict(ids[i], ids[j.value]));
  }

  /** A resolution that commits, or a rollback, changes the answer of no token at any time, for any client. */
  lemma ResolutionsKeepTokens(env: Env, before: Db, after: Db, decisions: seq<Decision>, h: Hash, c: string, t: nat)
    requires IdentitiesOk(before.identities) && IdentitiesOk(after.identities)
    requires after == before.(identities := after.identities) && AllUnreferenced(before, decisions)
    requires Res.Resolves(before.identities, after.identities, decisions)
             || Res.Unresolves(before.identities, after.identities, decisions)
    ensures Authorize(env, after, h, c, t) == Authorize(env, before, h, c, t)
  {
    forall i | i in before.identities && after.identities[i] != before.identities[i]
      ensures forall k | k in before.tokens :: before.tokens[k].identity != Some(i)
    {
      assert Res.Touches(decisions, i);
      var n :| 0 <= n < |decisions| && (decisions[n].blocked == i || decisions[n].reserved == i);
      assert Unreferenced(before, decisions[n].blocked) && Unreferenced(before, decisions[n].reserved);
    }
    hide Res.Resolves, Res.Unresolves, IdentitiesOk, AllUnreferenced;
    assert before.identities.Keys == after.identities.Keys by {
      SameKeySet(before.identities, after.identities, decisions);
    }
    UnreferredRowsDoNotMatter(env, before, after, h, c, t);
  }

  lemma SameKeySet(before: map<nat, IdRow>, after: map<nat, IdRow>, decisions: seq<Decision>)
    requires Res.Resolves(before, after, decisions) || Res.Unresolves(before, after, decisions)
    ensures before.Keys == after.Keys
  {
  }

  /** In the life of an installation: whatever has happened before, a resolution or a rollback that the operator
      commits leaves every token with the answer it had. */
  lemma OperatorKeepsTokens(site: Site, w: World, tx: Transaction, h: Hash, c: string, t: nat)
    requires LifecycleTheorems.Arrives(site, w) && Enabled(site, w, Operate(tx)) && (tx.Resolve? || tx.Unresolve?)
    ensures Authorize(w.cfg.env, Next(site, w, Operate(tx)).m.db, h, c, t) == Authorize(w.cfg.env, w.m.db, h, c, t)
  {
    hide LifecycleTheorems.Arrives, WorldOk, IdentitiesOk, Authorize, Res.Resolves, Res.Unresolves, AllUnreferenced;
    LifecycleTheorems.ArrivesOk(site, w);
    RowsOk(w);
    RowsTxFits(site, w, tx);
    RowsTxIs(site, w, tx);
    ResolutionsKeepTokens(w.cfg.env, w.m.db, Next(site, w, Operate(tx)).m.db, tx.r.decisions, h, c, t);
  }

  /** The rows that a resolution leaves: of each decision, the blocked row is nothing but a link to the reserved
      one, which is active for the player with the identifier and mapping it had. Every other row is as it was. */
  lemma ResolutionInRows(site: Site, w: World, r: Resolution, ids: map<nat, IdRow>, k: nat)
    requires Enabled(site, w, Operate(Resolve(r, ids))) && k < |r.decisions|
    ensures var before, d := w.m.db.identities, r.decisions[k];
            && ids.Keys == before.Keys && d.blocked in before && d.reserved in before
            && before[d.blocked] == IdRow(Some(d.player), None, Blocked, None, None)
            && before[d.reserved].player == None && before[d.reserved].state == Reserved
            && ids[d.blocked] == IdRow(None, None, Resolved, None, Some(d.reserved))
            && ids[d.reserved] == IdRow(Some(d.player), before[d.reserved].uuid, Active, before[d.reserved].legacy,
                                        None)
    ensures forall i | i in w.m.db.identities && i in ids && ids[i] != w.m.db.identities[i] ::
              exists n :: 0 <= n < |r.decisions| && (i == r.decisions[n].blocked || i == r.decisions[n].reserved)
  {
    RowsTxIs(site, w, Resolve(r, ids));
    ResolvesUnder(site, w, r, ids);
    hide Pending, Awaits, Format;
    assert Pending(w.cfg.env.key, w.m.db, r.decisions[k]) && GoodDecision(r.decisions[k]);
    PendingExactly(w.cfg.env.key, w.m.db, r.decisions[k]);
    AwaitedRows(w.cfg.env.key, w.m.db, r.decisions[k]);
    assert Res.Carried(w.m.db.identities, ids, r.decisions[k]);
  }

  lemma AwaitedRows(key: string -> string, db: Db, d: Decision)
    requires Awaits(key, db, d)
    ensures d.blocked in db.identities && db.identities[d.blocked] == IdRow(Some(d.player), None, Blocked, None, None)
    ensures d.reserved in db.identities && db.identities[d.reserved].state == Reserved
    ensures db.identities[d.reserved].player == None && db.identities[d.reserved].target == None
  {
  }

  lemma ResolvesUnder(site: Site, w: World, r: Resolution, ids: map<nat, IdRow>)
    requires Enabled(site, w, Operate(Resolve(r, ids)))
    ensures GoodDecisions(r.decisions) && AllPending(w.cfg.env.key, w.m.db, r.decisions)
    ensures Res.Resolves(w.m.db.identities, ids, r.decisions)
  {
    hide GoodDecisions, AllPending, Res.Resolves, AllUnreferenced;
  }

  /** The rows that a rollback leaves: the blocked row blocks the player again, the reserved row is nobody's again. */
  lemma RollbackInRows(site: Site, w: World, r: Resolution, ids: map<nat, IdRow>, k: nat)
    requires Enabled(site, w, Operate(Unresolve(r, ids))) && k < |r.decisions|
    ensures var before, d := w.m.db.identities, r.decisions[k];
            && ids.Keys == before.Keys && d.blocked in before && d.reserved in before
            && before[d.blocked] == IdRow(None, None, Resolved, None, Some(d.reserved))
            && before[d.reserved].player == Some(d.player) && before[d.reserved].state == Active
            && ids[d.blocked] == IdRow(Some(d.player), None, Blocked, None, None)
            && ids[d.reserved] == IdRow(None, before[d.reserved].uuid, Reserved, before[d.reserved].legacy, None)
    ensures forall i | i in w.m.db.identities && i in ids && ids[i] != w.m.db.identities[i] ::
              exists n :: 0 <= n < |r.decisions| && (i == r.decisions[n].blocked || i == r.decisions[n].reserved)
  {
    RowsTxIs(site, w, Unresolve(r, ids));
    RollsBackUnder(site, w, r, ids);
    hide Format;
    assert Settled(w.m.db.identities, r.decisions[k]) && Res.Returned(w.m.db.identities, ids, r.decisions[k]);
  }

  lemma RollsBackUnder(site: Site, w: World, r: Resolution, ids: map<nat, IdRow>)
    requires Enabled(site, w, Operate(Unresolve(r, ids)))
    ensures AllSettled(w.m.db.identities, r.decisions) && Res.Unresolves(w.m.db.identities, ids, r.decisions)
  {
    hide ValidResolution, AllSettled, Res.Unresolves, AllUnreferenced;
  }

  lemma RowsTxIs(site: Site, w: World, tx: Transaction)
    requires Enabled(site, w, Operate(tx)) && (tx.Resolve? || tx.Unresolve?)
    ensures Permitted(site, w, tx)
    ensures Next(site, w, Operate(tx)).m.db == w.m.db.(identities := tx.ids)
    ensures AllUnreferenced(w.m.db, tx.r.decisions)
    ensures Res.Resolves(w.m.db.identities, tx.ids, tx.r.decisions)
            || Res.Unresolves(w.m.db.identities, tx.ids, tx.r.decisions)
  {
    hide Res.Resolves, Res.Unresolves, ValidResolution, AllPending, AllSettled, AllUnreferenced;
  }
}
