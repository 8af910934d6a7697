/** Requests that run alone reach their end: the safety theorems are about runs that exist. */
module MachineProgress {
  import opened Basics
  import opened Uuids
  import opened Tables
  import opened Directory
  import opened Machine

  ghost predicate Leads(cfg: Config, s: State, s': State)
  {
    exists steps :: Execute(cfg, s, steps) == Some(s')
  }

  lemma {:induction false} ExecuteAppend(cfg: Config, s: State, steps: seq<Step>, mid: State, step: Step)
    requires Execute(cfg, s, steps) == Some(mid) && Enabled(cfg, mid, step)
    ensures Execute(cfg, s, steps + [step]) == Some(Next(cfg, mid, step))
    decreases |steps|
  {
    if steps == [] {
      assert Execute(cfg, mid, [step]) == Execute(cfg, Next(cfg, mid, step), []);
    } else {
      assert (steps + [step])[1..] == steps[1..] + [step];
      ExecuteAppend(cfg, Next(cfg, s, steps[0]), steps[1..], mid, step);
    }
  }

  lemma LeadsThen(cfg: Config, s: State, mid: State, step: Step)
    requires Leads(cfg, s, mid) && Enabled(cfg, mid, step)
    ensures Leads(cfg, s, Next(cfg, mid, step))
  {
    var steps :| Execute(cfg, s, steps) == Some(mid);
    ExecuteAppend(cfg, s, steps, mid, step);
  }

  lemma LeadsNowhere(cfg: Config, s: State)
    ensures Leads(cfg, s, s)
  {
    assert Execute(cfg, s, []) == Some(s);
  }

  lemma {:induction false} LeadsOn(cfg: Config, s: State, mid: State, steps: seq<Step>, s': State)
    requires Leads(cfg, s, mid) && Execute(cfg, mid, steps) == Some(s')
    ensures Leads(cfg, s, s')
    decreases |steps|
  {
    hide Enabled, Next, Leads;
    if steps != [] {
      LeadsThen(cfg, s, mid, steps[0]);
      LeadsOn(cfg, s, Next(cfg, mid, steps[0]), steps[1..], s');
    }
  }

  lemma LeadsFar(cfg: Config, s: State, mid: State, s': State)
    requires Leads(cfg, s, mid) && Leads(cfg, mid, s')
    ensures Leads(cfg, s, s')
  {
    var steps :| Execute(cfg, mid, steps) == Some(s');
    LeadsOn(cfg, s, mid, steps, s');
  }

  // ---- one transaction alone ----

  function At(s: State, t: Tid, txn: Txn): State
  {
    s.(txns := map[t := txn.(at := s.now)])
  }

  lemma BeginsAlone(cfg: Config, s: State, t: Tid, prog: Prog)
    requires s.txns == map[] && (prog.Editing? || ServiceOpen(s.db.gate)) && Starts(cfg, s.db, prog)
    ensures Leads(cfg, s, At(s, t, Txn(prog, {}, {}, s.now, NO_WRITES)))
  {
    hide Starts, Leads;
    LeadsNowhere(cfg, s);
    LeadsThen(cfg, s, s, Begin(t, prog));
    assert Next(cfg, s, Begin(t, prog)) == At(s, t, Txn(prog, {}, {}, s.now, NO_WRITES));
  }

  lemma StepAlone(cfg: Config, s: State, t: Tid, txn: Txn, ch: Choice)
    requires Leads(cfg, s, At(s, t, txn)) && ch.at == s.now && Advance(cfg, s.db, s.now, txn.(at := s.now), ch).Some?
    ensures Leads(cfg, s, At(s, t, Advance(cfg, s.db, s.now, txn.(at := s.now), ch).value))
  {
    hide Advance, Leads;
    var mid := At(s, t, txn);
    LeadsThen(cfg, s, mid, Run(t, ch));
    assert Next(cfg, mid, Run(t, ch)) == At(s, t, Advance(cfg, s.db, s.now, txn.(at := s.now), ch).value);
  }

  lemma EditAlone(cfg: Config, s: State, t: Tid, txn: Txn, op: EditOp)
    requires Leads(cfg, s, At(s, t, txn)) && txn.prog.Editing?
    ensures Leads(cfg, s, At(s, t, EditStep(s.db, txn, op)))
  {
    hide Leads;
    var mid := At(s, t, txn);
    LeadsThen(cfg, s, mid, Edit(t, op));
    assert Next(cfg, mid, Edit(t, op)) == At(s, t, EditStep(s.db, txn, op));
  }

  /** The state a transaction leaves that commits alone and is answered. */
  function Committed(s: State, w: Writes): State
  {
    s.(db := Apply(s.db, w, |s.log|), log := LogAfter(s.log, w), txns := map[],
       replies := s.replies + Appended(s.log, w))
  }

  lemma CommitsAlone(cfg: Config, s: State, t: Tid, txn: Txn)
    requires Leads(cfg, s, At(s, t, txn)) && Ready(txn.prog)
    ensures Leads(cfg, s, Committed(s, txn.writes))
  {
    hide Leads, Advance, Apply, LogAfter, Appended;
    var mid := At(s, t, txn);
    LeadsThen(cfg, s, mid, Commit(t, true));
    assert mid.txns - {t} == map[];
  }

  // ---- authorization ----

  /** What is known on the way, without interference. */
  ghost predicate Underway(s: State, v0: AccessVars, h: Hash, txn: Txn)
  {
    && h in s.db.tokens && txn.writes == NO_WRITES && txn.at == s.now
    && txn.prog.Access?
    && var v := txn.prog.access;
    var row := s.db.tokens[h];
    && v.goal == v0.goal && v.client == v0.client
    && (v.pc == 0 ==> v.goal.Admit? && v.goal.at in s.db.sessions && s.db.sessions[v.goal.at].hash == h)
    && (v.pc >= 1 ==> v.hash == h)
    && (v.pc >= 2 ==> v.owner == row.owner)
    && (v.pc >= 4 ==> v.gen == row.generation)
    && (v.pc >= 5 ==> v.row == row)
    && (v.pc < 7 ==> v.bound == None)
    && (v.pc == 6 ==> row.identity.Some?)
    && (v.pc >= 7 && row.identity.None? ==> v.bound == None)
    && (v.pc >= 7 && row.identity.Some? ==>
          v.bound.Some? && BoundIdentity(s.db, row.owner, row.identity.value) == Ok(v.bound.value))
    && (v.pc >= 8 ==> v.picked == v.bound && v.checkedAt == s.now)
    && forall q | Locks(txn, PlayerRow(q)) :: HasRow(s.db.identities, row.identity, q)
  }

  predicate Locks(txn: Txn, row: Row)
  {
    row in txn.shared || row in txn.excl
  }

  predicate HasRow(ids: map<nat, IdRow>, iid: Option<nat>, q: nat)
  {
    iid.Some? && iid.value in ids && ids[iid.value].player == Some(q)
  }

  lemma AuthorizesOnce(cfg: Config, s: State, v0: AccessVars, h: Hash, txn: Txn, ch: Choice)
    requires Underway(s, v0, h, txn) && txn.prog.access.pc < 8 && ch.at == s.now
    requires Authorize(cfg.env, s.db, h, v0.client, s.now).Ok?
    ensures Advance(cfg, s.db, s.now, txn, ch).Some?
    ensures var next := Advance(cfg, s.db, s.now, txn, ch).value.(at := s.now);
            && Underway(s, v0, h, next)
            && txn.prog.access.pc < next.prog.access.pc <= 8
  {
    hide ReadIdentity;
  }

  /** The token a request is about: the one it names, or for HasJoined the one the session names. */
  ghost predicate About(db: Db, v: AccessVars, h: Hash)
  {
    if v.goal.Admit? then v.goal.at in db.sessions && db.sessions[v.goal.at].hash == h else v.hash == h
  }

  /** From the first statement to the end of authorization. */
  lemma AuthorizesAlone(cfg: Config, s: State, t: Tid, v: AccessVars, h: Hash) returns (txn: Txn)
    requires s.txns == map[] && ServiceOpen(s.db.gate) && Starts(cfg, s.db, Access(v)) && About(s.db, v, h)
    requires Authorize(cfg.env, s.db, h, v.client, s.now).Ok?
    ensures Leads(cfg, s, At(s, t, txn)) && Underway(s, v, h, txn) && txn.prog.access.pc == 8
    ensures txn.prog.access.bound == Authorize(cfg.env, s.db, h, v.client, s.now).value.identity
  {
    hide Leads, Advance;
    var ch := Choice(s.now, 0, NIL, 0, {}, [], {});
    txn := Txn(Access(v), {}, {}, s.now, NO_WRITES);
    BeginsAlone(cfg, s, t, Access(v));
    while txn.prog.access.pc < 8
      invariant Leads(cfg, s, At(s, t, txn)) && Underway(s, v, h, txn) && txn.prog.access.pc <= 8
      decreases 8 - txn.prog.access.pc
    {
      AuthorizesOnce(cfg, s, v, h, txn, ch);
      StepAlone(cfg, s, t, txn, ch);
      txn := Advance(cfg, s.db, s.now, txn, ch).value.(at := s.now);
    }
  }

  /** A token that authorizes is validated by a transaction that runs alone; with AuthorizationHoldsToTheEnd,
      such a transaction succeeds exactly when the token authorizes. */
  lemma ValidateSucceeds(cfg: Config, s: State, t: Tid, v: AccessVars)
    requires s.txns == map[] && ServiceOpen(s.db.gate) && v.goal == Validate
    requires Starts(cfg, s.db, Access(v)) && Authorize(cfg.env, s.db, v.hash, v.client, s.now).Ok?
    ensures exists s' :: Leads(cfg, s, s') && t in s'.txns && Ready(s'.txns[t].prog) && s'.txns[t].prog.Access?
              && s'.txns[t].prog.access.hash == v.hash && s'.db == s.db
  {
    var txn := AuthorizesAlone(cfg, s, t, v, v.hash);
    var s' := At(s, t, txn);
    assert Leads(cfg, s, s') && t in s'.txns;
  }

  // ---- Refresh ----

  /** The profile a refresh of an authorized token would carry, if the selection is allowed. */
  ghost function Selection(db: Db, g: Grant, selected: Option<Uuid>): Option<Option<Identity>>
  {
    match selected
    case None => Some(g.identity)
    case Some(u) =>
      if g.identity.Some? then (if g.identity.value.uuid == u then Some(g.identity) else None)
      else match LookupUuid(db, u)
        case Ok(x) => if x.owner == g.owner then Some(Some(x)) else None
        case Err(_) => None
  }

  function RefreshedRow(env: Env, row: Token, picked: Option<Identity>, now: nat, serial: nat): Token
  {
    Token(row.owner, row.generation, IdOf(picked), row.client, now, now + env.ttl, serial)
  }

  /** The three statements after authorization. */
  lemma RefreshesOnce(cfg: Config, s: State, txn: Txn, ch: Choice, picked: Option<Identity>)
    requires txn.prog.Access? && 8 <= txn.prog.access.pc <= 10 && txn.prog.access.goal.Refresh?
    requires var v := txn.prog.access;
             && (v.pc == 8 ==>
                   && v.picked == v.bound
                   && Selection(s.db, Grant(v.owner, v.gen, v.row.client, v.bound, v.row.expires), v.goal.selected)
                     == Some(picked))
             && (v.pc > 8 ==> v.picked == picked)
             && (v.pc == 10 ==> v.tries == 0 && ch.hash != v.hash && ch.hash !in s.db.tokens)
    ensures Advance(cfg, s.db, s.now, txn, ch).Some?
    ensures var next := Advance(cfg, s.db, s.now, txn, ch).value;
            var v := txn.prog.access;
            match v.pc
            case 8 => next.prog == Access(v.(pc := 9, picked := picked)) && next.writes == txn.writes
            case 9 => next.prog == Access(v.(pc := 10, tries := 0)) && next.writes == txn.writes.(kills := {v.hash})
            case _ =>
              && next.prog == Access(v.(pc := 11))
              && next.writes == txn.writes.(issue := Some(Issue(ch.hash,
                   Token(v.owner, v.gen, IdOf(picked), v.row.client, ch.at, ch.at + cfg.env.ttl, 0), Some(v.row))))
  {
    hide LookupUuid;
  }

  /** A token that authorizes, with a profile its owner may select, is refreshed by a transaction that runs alone,
      given any unused candidate. */
  lemma RefreshSucceeds(cfg: Config, s: State, t: Tid, v: AccessVars, unused: Hash)
    requires s.txns == map[] && ServiceOpen(s.db.gate) && v.goal.Refresh?
    requires Starts(cfg, s.db, Access(v)) && Authorize(cfg.env, s.db, v.hash, v.client, s.now).Ok?
    requires Selection(s.db, Authorize(cfg.env, s.db, v.hash, v.client, s.now).value, v.goal.selected).Some?
    requires unused !in s.db.tokens
    ensures var row := s.db.tokens[v.hash];
            var picked := Selection(s.db, Authorize(cfg.env, s.db, v.hash, v.client, s.now).value,
                                    v.goal.selected).value;
            exists s' :: Leads(cfg, s, s') && s'.txns == map[]
              && s'.db == s.db.(tokens := (s.db.tokens - {v.hash})[unused := RefreshedRow(cfg.env, row, picked, s.now,
                      |s.log|)])
  {
    hide Leads, Advance;
    var row := s.db.tokens[v.hash];
    var g := Authorize(cfg.env, s.db, v.hash, v.client, s.now).value;
    var picked := Selection(s.db, g, v.goal.selected).value;
    var txn := AuthorizesAlone(cfg, s, t, v, v.hash);
    assert g == Grant(row.owner, row.generation, row.client, txn.prog.access.bound, row.expires);
    hide Authorize, Underway, Selection, Starts;
    var done := RefreshesAlone(cfg, s, t, txn, Choice(s.now, unused, NIL, 0, {}, [], {}), picked);
    CommitsAlone(cfg, s, t, done);
    assert Committed(s, done.writes).db
        == s.db.(tokens := (s.db.tokens - {v.hash})[unused := RefreshedRow(cfg.env, row, picked, s.now, |s.log|)]) by {
      OnlyTokens(s.db, done.writes, |s.log|);
    }
  }

  /** Those three statements one after the other. */
  lemma RefreshesAlone(cfg: Config, s: State, t: Tid, txn: Txn, ch: Choice, picked: Option<Identity>)
    returns (done: Txn)
    requires txn.prog.Access? && txn.prog.access.pc == 8 && txn.prog.access.goal.Refresh? && txn.at == s.now
    requires txn.writes == NO_WRITES && Leads(cfg, s, At(s, t, txn))
    requires var v := txn.prog.access;
             && v.picked == v.bound && ch.at == s.now && ch.hash != v.hash && ch.hash !in s.db.tokens
             && Selection(s.db, Grant(v.owner, v.gen, v.row.client, v.bound, v.row.expires), v.goal.selected)
               == Some(picked)
    ensures Leads(cfg, s, At(s, t, done)) && Ready(done.prog)
    ensures var v := txn.prog.access;
            done.writes == NO_WRITES.(kills := {v.hash}, issue := Some(Issue(ch.hash,
              Token(v.owner, v.gen, IdOf(picked), v.row.client, ch.at, ch.at + cfg.env.ttl, 0), Some(v.row))))
  {
    hide Advance, Leads, Selection;
    RefreshesOnce(cfg, s, txn, ch, picked);
    StepAlone(cfg, s, t, txn, ch);
    var txn1 := Advance(cfg, s.db, s.now, txn, ch).value.(at := s.now);
    RefreshesOnce(cfg, s, txn1, ch, picked);
    StepAlone(cfg, s, t, txn1, ch);
    var txn2 := Advance(cfg, s.db, s.now, txn1, ch).value.(at := s.now);
    RefreshesOnce(cfg, s, txn2, ch, picked);
    StepAlone(cfg, s, t, txn2, ch);
    done := Advance(cfg, s.db, s.now, txn2, ch).value.(at := s.now);
  }

  lemma OnlyTokens(db: Db, w: Writes, serial: nat)
    requires w == NO_WRITES.(kills := w.kills, issue := w.issue)
    ensures Apply(db, w, serial) == db.(tokens := CommitTokens(db.tokens, w, serial))
  {
    assert db.subjects + map[] == db.subjects && db.identities + map[] == db.identities;
    assert Merge(db.users, map[]) == db.users && Merge(db.players, map[]) == db.players;
    assert Merge(db.sessions, map[]) == db.sessions;
  }

  // ---- EnsureIdentity ----

  /** What EnsureIdentity needs: an active row, or a new player and an unused pair of candidates. */
  ghost predicate CanProvide(cfg: Config, db: Db, pid: nat, id: nat, u: Uuid)
  {
    && pid in db.players && pid > 0
    && match ReadIdentity(db.identities, pid, db.players[pid])
       case Ok(_) => true
       case Err(NotFound) =>
         pid > cfg.watermark && id !in db.identities
             && forall i | i in db.identities :: db.identities[i].uuid != Some(u)
       case Err(_) => false
  }

  ghost function ProvidedRows(ids: map<nat, IdRow>, pid: nat, player: Player, id: nat, u: Uuid): map<nat, IdRow>
  {
    if ReadIdentity(ids, pid, player).Ok? then ids else ids[id := NewRow(pid, u)]
  }

  lemma NewRowFits(ids: map<nat, IdRow>, id: nat, pid: nat, u: Uuid)
    requires IdentitiesOk(ids) && id !in ids && pid > 0
    requires forall i | i in ids :: ids[i].uuid != Some(u) && ids[i].player != Some(pid)
    ensures IdentitiesOk(ids[id := NewRow(pid, u)])
  {
  }

  /** A player that has an identity, or may get one, is given it by a transaction that runs alone. */
  lemma EnsureSucceeds(cfg: Config, s: State, t: Tid, v: EnsureVars, id: nat, u: Uuid)
    requires s.txns == map[] && ServiceOpen(s.db.gate) && Starts(cfg, s.db, Ensure(v))
    requires CanProvide(cfg, s.db, v.pid, id, u)
    ensures exists s' :: Leads(cfg, s, s') && s'.txns == map[] && s'.now == s.now
              && s'.db == s.db.(identities := ProvidedRows(s.db.identities, v.pid, s.db.players[v.pid], id, u))
              && |s'.log| == |s.log| + 1 && s'.log[|s.log|].Provided? && s'.log[|s.log|].pid == v.pid
  {
    hide Leads, Advance, CanProvide, ReadIdentity, ProvidedRows, Starts, Apply, LogAfter, Appended;
    var ch := Choice(s.now, 0, u, id, {}, [], {});
    var done := EnsuresAlone(cfg, s, t, v, ch);
    CommitsAlone(cfg, s, t, done);
    EnsureLeaves(s, done, v.pid, ch);
  }

  /** The writes of an EnsureIdentity that ran alone. */
  ghost predicate EnsureWrites(db: Db, w: Writes, pid: nat, ch: Choice)
    requires pid in db.players
  {
    && w == NO_WRITES.(identities := w.identities, events := w.events)
    && db.identities + w.identities == ProvidedRows(db.identities, pid, db.players[pid], ch.id, ch.uuid)
    && |w.events| == 1 && w.events[0].Provided? && w.events[0].pid == pid
  }

  lemma EnsureLeaves(s: State, done: Txn, pid: nat, ch: Choice)
    requires pid in s.db.players && EnsureWrites(s.db, done.writes, pid, ch)
    ensures var s' := Committed(s, done.writes);
            && s'.db == s.db.(identities := ProvidedRows(s.db.identities, pid, s.db.players[pid], ch.id, ch.uuid))
            && |s'.log| == |s.log| + 1 && s'.log[|s.log|].Provided? && s'.log[|s.log|].pid == pid
  {
    hide ProvidedRows;
    OnlyIdentities(s.db, done.writes, |s.log|);
    assert LogAfter(s.log, done.writes) == s.log + done.writes.events;
  }

  /** The statements of an EnsureIdentity one after the other. */
  lemma EnsuresAlone(cfg: Config, s: State, t: Tid, v: EnsureVars, ch: Choice) returns (done: Txn)
    requires s.txns == map[] && ServiceOpen(s.db.gate) && Starts(cfg, s.db, Ensure(v))
    requires CanProvide(cfg, s.db, v.pid, ch.id, ch.uuid) && ch.at == s.now
    ensures Leads(cfg, s, At(s, t, done)) && Ready(done.prog) && v.pid in s.db.players
    ensures EnsureWrites(s.db, done.writes, v.pid, ch)
  {
    BeginsAlone(cfg, s, t, Ensure(v));
    var txn0 := Txn(Ensure(v), {}, {}, s.now, NO_WRITES);
    EnsureLocks(cfg, s, v, ch);
    hide Leads, Advance, CanProvide, ReadIdentity, Starts;
    StepAlone(cfg, s, t, txn0, ch);
    var txn1 := Advance(cfg, s.db, s.now, txn0, ch).value.(at := s.now);
    EnsureReads(cfg, s, txn1, ch);
    StepAlone(cfg, s, t, txn1, ch);
    done := Advance(cfg, s.db, s.now, txn1, ch).value.(at := s.now);
    if ReadIdentity(s.db.identities, v.pid, s.db.players[v.pid]).Err? {
      var txn2 := done;
      EnsureInserts(cfg, s, txn2, ch);
      StepAlone(cfg, s, t, txn2, ch);
      done := Advance(cfg, s.db, s.now, txn2, ch).value.(at := s.now);
    }
  }

  lemma EnsureLocks(cfg: Config, s: State, v: EnsureVars, ch: Choice)
    requires Starts(cfg, s.db, Ensure(v)) && CanProvide(cfg, s.db, v.pid, ch.id, ch.uuid)
    ensures v.pid in s.db.players
    ensures Advance(cfg, s.db, s.now, Txn(Ensure(v), {}, {}, s.now, NO_WRITES), ch)
            == Some(Txn(Ensure(v.(pc := 1)), {PlayerRow(v.pid)}, {}, s.now, NO_WRITES))
  {
    hide ReadIdentity;
    assert {} + {PlayerRow(v.pid)} == {PlayerRow(v.pid)};
  }

  lemma EnsureReads(cfg: Config, s: State, txn: Txn, ch: Choice)
    requires txn.prog.Ensure? && txn.prog.ensure.pc == 1 && txn.writes == NO_WRITES && txn.at == s.now
    requires CanProvide(cfg, s.db, txn.prog.ensure.pid, ch.id, ch.uuid)
    ensures Advance(cfg, s.db, s.now, txn, ch).Some?
    ensures var v, next := txn.prog.ensure, Advance(cfg, s.db, s.now, txn, ch).value;
            var read := ReadIdentity(s.db.identities, v.pid, s.db.players[v.pid]);
            if read.Ok? then next == EnsureDone(txn, read.value) && read.value.player == v.pid
            else next == txn.(prog := Ensure(v.(pc := 2, tries := 0)))
  {
    assert ViewIds(s.db, txn.writes) == s.db.identities;
  }

  lemma EnsureInserts(cfg: Config, s: State, txn: Txn, ch: Choice)
    requires txn.prog.Ensure? && txn.prog.ensure.pc == 2 && txn.prog.ensure.tries == 0 && txn.writes == NO_WRITES
    requires CanProvide(cfg, s.db, txn.prog.ensure.pid, ch.id, ch.uuid)
    requires ReadIdentity(s.db.identities, txn.prog.ensure.pid, s.db.players[txn.prog.ensure.pid]) == Err(NotFound)
    ensures Advance(cfg, s.db, s.now, txn, ch).Some?
    ensures var pid, next := txn.prog.ensure.pid, Advance(cfg, s.db, s.now, txn, ch).value;
            && next.prog.Ensure? && Ready(next.prog)
            && next.writes == NO_WRITES.(identities := map[ch.id := NewRow(pid, ch.uuid)],
                                         events := [Provided(pid, ch.id, ch.uuid)])
  {
    assert ViewIds(s.db, txn.writes) == s.db.identities;
  }

  lemma OnlyIdentities(db: Db, w: Writes, serial: nat)
    requires w == NO_WRITES.(identities := w.identities, events := w.events)
    ensures Apply(db, w, serial) == db.(identities := db.identities + w.identities)
  {
    assert db.subjects + map[] == db.subjects && db.tokens - {} == db.tokens;
    assert Merge(db.users, map[]) == db.users && Merge(db.players, map[]) == db.players;
    assert Merge(db.sessions, map[]) == db.sessions;
  }

  // ---- the account system ----

  /** An account and a player can always be written when nothing else is open. */
  lemma AccountIsCreated(cfg: Config, s: State, t: Tid, uid: nat, user: User, pid: nat, player: Player)
    requires s.txns == map[] && uid !in s.db.users
    ensures exists s' :: Leads(cfg, s, s') && s'.txns == map[] && s'.now == s.now && s'.log == s.log
              && s'.db == s.db.(users := s.db.users[uid := user], players := s.db.players[pid := player])
  {
    var txn0 := Txn(Editing, {}, {}, s.now, NO_WRITES);
    BeginsAlone(cfg, s, t, Editing);
    EditAlone(cfg, s, t, txn0, PutUser(uid, Some(user)));
    var txn1 := EditStep(s.db, txn0, PutUser(uid, Some(user)));
    assert Merge(s.db.users, map[]) == s.db.users;
    assert txn1.writes == NO_WRITES.(users := map[uid := Some(user)]);
    EditAlone(cfg, s, t, txn1, PutPlayer(pid, Some(player)));
    var done := EditStep(s.db, txn1, PutPlayer(pid, Some(player)));
    hide Leads;
    CommitsAlone(cfg, s, t, done);
    OnlyAccounts(s.db, done.writes, |s.log|, uid, user, pid, player);
  }

  lemma OnlyAccounts(db: Db, w: Writes, serial: nat, uid: nat, user: User, pid: nat, player: Player)
    requires w == NO_WRITES.(users := map[uid := Some(user)], players := map[pid := Some(player)])
    ensures Apply(db, w, serial) == db.(users := db.users[uid := user], players := db.players[pid := player])
  {
    assert db.subjects + map[] == db.subjects && db.tokens - {} == db.tokens && db.identities + map[] == db.identities;
    assert Merge(db.sessions, map[]) == db.sessions;
    assert Merge(db.users, w.users) == db.users[uid := user];
    assert Merge(db.players, w.players) == db.players[pid := player];
  }

  // ---- Join and HasJoined ----

  /** The server id is free, was bound thirty seconds ago, or is bound to the same token and address already. */
  predicate Joinable(sessions: map<string, Session>, server: string, h: Hash, ip: seq<int>, now: nat)
  {
    server in sessions && now < sessions[server].expires ==> sessions[server].hash == h && sessions[server].ip == ip
  }

  function JoinedRows(sessions: map<string, Session>, server: string, h: Hash, ip: seq<int>,
                      now: nat): map<string, Session>
  {
    if server in sessions && now < sessions[server].expires then sessions
    else sessions[server := Session(h, ip, now, now + SESSION_TTL)]
  }

  /** The statement that frees the server id, if its session has expired. */
  lemma JoinClears(cfg: Config, s: State, txn: Txn, ch: Choice)
    requires txn.prog.Access? && txn.prog.access.goal.Join? && txn.prog.access.pc == 8 && txn.writes == NO_WRITES
    requires var v := txn.prog.access; v.bound.Some? && v.bound.value.uuid == v.goal.profile && ch.at == s.now
    ensures Advance(cfg, s.db, s.now, txn, ch).Some?
    ensures var v, next := txn.prog.access, Advance(cfg, s.db, s.now, txn, ch).value;
            var server := v.goal.server;
            && next.prog == Access(v.(pc := 9))
            && next.writes == NO_WRITES.(sessions := next.writes.sessions)
            && Merge(s.db.sessions, next.writes.sessions)
               == if server in s.db.sessions && s.db.sessions[server].expires <= s.now then s.db.sessions - {server}
                  else s.db.sessions
  {
    assert Merge(s.db.sessions, map[]) == s.db.sessions;
    var server := txn.prog.access.goal.server;
    assert Merge(s.db.sessions, map[server := None]) == s.db.sessions - {server};
  }

  /** The statement that stores the session, or finds it there. */
  lemma JoinStores(cfg: Config, s: State, txn: Txn, ch: Choice)
    requires txn.prog.Access? && txn.prog.access.goal.Join? && txn.prog.access.pc == 9 && ch.at == s.now
    requires txn.writes == NO_WRITES.(sessions := txn.writes.sessions)
    requires var v := txn.prog.access;
             && Joinable(s.db.sessions, v.goal.server, v.hash, v.goal.ip, s.now)
             && Merge(s.db.sessions, txn.writes.sessions)
                == if v.goal.server in s.db.sessions && s.db.sessions[v.goal.server].expires <= s.now then
                     s.db.sessions - {v.goal.server}
                   else s.db.sessions
    ensures Advance(cfg, s.db, s.now, txn, ch).Some?
    ensures var v, done := txn.prog.access, Advance(cfg, s.db, s.now, txn, ch).value;
            && Ready(done.prog)
            && done.writes == NO_WRITES.(sessions := done.writes.sessions, events := done.writes.events)
            && Merge(s.db.sessions, done.writes.sessions)
               == JoinedRows(s.db.sessions, v.goal.server, v.hash, v.goal.ip, s.now)
  {
    var server := txn.prog.access.goal.server;
    MergeOne(s.db.sessions, txn.writes.sessions, server,
             Session(txn.prog.access.hash, txn.prog.access.goal.ip, s.now, s.now + SESSION_TTL));
    hide Merge;
  }

  lemma MergeOne(m: map<string, Session>, w: map<string, Option<Session>>, k: string, row: Session)
    ensures Merge(m, w[k := Some(row)]) == Merge(m, w)[k := row]
  {
  }

  /** A token bound to the profile joins a server whose id nobody else holds, by a transaction that runs alone. */
  lemma JoinSucceeds(cfg: Config, s: State, t: Tid, v: AccessVars)
    requires s.txns == map[] && ServiceOpen(s.db.gate) && v.goal.Join? && Starts(cfg, s.db, Access(v))
    requires Authorize(cfg.env, s.db, v.hash, v.client, s.now).Ok?
    requires var g := Authorize(cfg.env, s.db, v.hash, v.client, s.now).value;
             g.identity.Some? && g.identity.value.uuid == v.goal.profile
    requires Joinable(s.db.sessions, v.goal.server, v.hash, v.goal.ip, s.now)
    ensures exists s' :: Leads(cfg, s, s') && s'.txns == map[] && s'.now == s.now
              && s'.db == s.db.(sessions := JoinedRows(s.db.sessions, v.goal.server, v.hash, v.goal.ip, s.now))
  {
    var txn := AuthorizesAlone(cfg, s, t, v, v.hash);
    hide Leads, Advance, Authorize, JoinedRows, Joinable;
    var ch := Choice(s.now, 0, NIL, 0, {}, [], {});
    JoinClears(cfg, s, txn, ch);
    StepAlone(cfg, s, t, txn, ch);
    var next := Advance(cfg, s.db, s.now, txn, ch).value.(at := s.now);
    JoinStores(cfg, s, next, ch);
    StepAlone(cfg, s, t, next, ch);
    var done := Advance(cfg, s.db, s.now, next, ch).value;
    CommitsAlone(cfg, s, t, done);
    OnlySessions(s.db, done.writes, |s.log|);
  }

  lemma OnlySessions(db: Db, w: Writes, serial: nat)
    requires w == NO_WRITES.(sessions := w.sessions, events := w.events)
    ensures Apply(db, w, serial) == db.(sessions := Merge(db.sessions, w.sessions))
  {
    assert db.subjects + map[] == db.subjects && db.tokens - {} == db.tokens && db.identities + map[] == db.identities;
    assert Merge(db.users, map[]) == db.users && Merge(db.players, map[]) == db.players;
  }

  /** What HasJoined asks of the tables besides authorization. */
  ghost predicate Admissible(cfg: Config, db: Db, v: AccessVars, h: Hash, now: nat)
  {
    && v.goal.Admit? && v.goal.at in db.sessions
    && var session := db.sessions[v.goal.at];
    && session.hash == h && now < session.expires && (v.goal.from.Some? ==> session.ip == v.goal.from.value)
    && Authorize(cfg.env, db, h, v.client, now).Ok?
    && var g := Authorize(cfg.env, db, h, v.client, now).value;
    && g.identity.Some? && now < g.expires
    && UniquePlayerName(cfg.env, db.players, v.goal.name) == Ok(g.identity.value.player)
  }

  lemma AdmitsOnce(cfg: Config, s: State, v0: AccessVars, h: Hash, txn: Txn, ch: Choice)
    requires Underway(s, v0, h, txn) && txn.prog.access.pc == 8 && Admissible(cfg, s.db, v0, h, s.now) && ch.at == s.now
    requires txn.prog.access.bound == Authorize(cfg.env, s.db, h, v0.client, s.now).value.identity
    ensures Advance(cfg, s.db, s.now, txn, ch).Some?
    ensures var next := Advance(cfg, s.db, s.now, txn, ch).value.(at := s.now);
            && Advance(cfg, s.db, s.now, next, ch).Some?
            && var done := Advance(cfg, s.db, s.now, next, ch).value;
            && done.prog == Access(txn.prog.access.(pc := 11)) && Ready(done.prog)
            && done.shared == txn.shared + {SessionRow(v0.goal.at)} && done.excl == txn.excl
            && done.writes == NO_WRITES.(events := done.writes.events)
  {
    hide UniquePlayerName;
  }

  /** A player who has joined is admitted by a HasJoined that runs alone: it gets ready to commit, and of all
      players it has locked only its own. */
  lemma AdmitSucceeds(cfg: Config, s: State, t: Tid, v: AccessVars, h: Hash) returns (done: Txn)
    requires s.txns == map[] && ServiceOpen(s.db.gate) && Starts(cfg, s.db, Access(v))
    requires Admissible(cfg, s.db, v, h, s.now)
    ensures Leads(cfg, s, At(s, t, done)) && done.prog.Access? && Ready(done.prog) && done.prog.access.goal == v.goal
    ensures done.prog.access.hash == h
    ensures done.prog.access.bound == Authorize(cfg.env, s.db, h, v.client, s.now).value.identity
    ensures forall q :: Locks(done, PlayerRow(q)) ==> q == done.prog.access.bound.value.player
  {
    var txn := AuthorizesAlone(cfg, s, t, v, h);
    var ch := Choice(s.now, 0, NIL, 0, {}, [], {});
    AdmitsOnce(cfg, s, v, h, txn, ch);
    StepAlone(cfg, s, t, txn, ch);
    var next := Advance(cfg, s.db, s.now, txn, ch).value.(at := s.now);
    StepAlone(cfg, s, t, next, ch);
    done := Advance(cfg, s.db, s.now, next, ch).value;
    forall q | Locks(done, PlayerRow(q))
      ensures q == done.prog.access.bound.value.player
    {
      assert Locks(txn, PlayerRow(q)) && HasRow(s.db.identities, s.db.tokens[h].identity, q);
    }
  }

  // ---- Invalidate, Signout, CleanupExpired ----

  lemma OnlySubjects(db: Db, w: Writes, serial: nat)
    requires w == NO_WRITES.(subjects := w.subjects, events := w.events)
    ensures Apply(db, w, serial) == db.(subjects := db.subjects + w.subjects)
  {
    assert db.identities + map[] == db.identities && db.tokens - {} == db.tokens;
    assert Merge(db.users, map[]) == db.users && Merge(db.players, map[]) == db.players;
    assert Merge(db.sessions, map[]) == db.sessions;
  }

  /** The next statement of an Invalidate that meets no other request. */
  lemma DropsOnce(cfg: Config, s: State, v0: DropVars, txn: Txn, ch: Choice)
    requires txn.prog.Drop? && txn.prog.drop.hash == v0.hash && txn.prog.drop.client == v0.client
    requires txn.prog.drop.pc < 5 && txn.writes == NO_WRITES
    requires v0.hash in s.db.tokens ==>
               && s.db.tokens[v0.hash].owner in s.db.subjects
               && (v0.client == "" || v0.client == s.db.tokens[v0.hash].client)
    requires txn.prog.drop.pc > 0 ==> v0.hash in s.db.tokens && txn.prog.drop.owner == s.db.tokens[v0.hash].owner
    ensures Advance(cfg, s.db, s.now, txn, ch).Some?
    ensures var next := Advance(cfg, s.db, s.now, txn, ch).value;
            && next.prog.Drop? && next.prog.drop.hash == v0.hash && next.prog.drop.client == v0.client
            && txn.prog.drop.pc < next.prog.drop.pc <= 5
            && (next.prog.drop.pc < 5 ==>
                  && next.writes == NO_WRITES && v0.hash in s.db.tokens
                  && next.prog.drop.owner == s.db.tokens[v0.hash].owner)
            && (next.prog.drop.pc == 5 ==>
                  next.writes == NO_WRITES.(kills := if v0.hash in s.db.tokens then {v0.hash} else {}))
  {
  }

  /** An Invalidate of an unknown token, or of one whose account has an anchor, under no client token or the right one,
      succeeds when it runs alone, and the token is gone. */
  lemma DropSucceeds(cfg: Config, s: State, t: Tid, v: DropVars) returns (s': State)
    requires s.txns == map[] && ServiceOpen(s.db.gate) && Starts(cfg, s.db, Drop(v))
    requires v.hash in s.db.tokens ==>
               && s.db.tokens[v.hash].owner in s.db.subjects
               && (v.client == "" || v.client == s.db.tokens[v.hash].client)
    ensures Leads(cfg, s, s') && s'.txns == map[] && s'.db == s.db.(tokens := s.db.tokens - {v.hash})
    ensures s'.log == s.log
  {
    hide Leads, Advance;
    var ch := Choice(s.now, 0, NIL, 0, {}, [], {});
    var txn := Txn(Drop(v), {}, {}, s.now, NO_WRITES);
    BeginsAlone(cfg, s, t, Drop(v));
    while txn.prog.drop.pc < 5
      invariant Leads(cfg, s, At(s, t, txn)) && txn.at == s.now && txn.prog.Drop? && txn.prog.drop.pc <= 5
      invariant txn.prog.drop.hash == v.hash && txn.prog.drop.client == v.client
      invariant txn.prog.drop.pc < 5 ==> txn.writes == NO_WRITES
      invariant 0 < txn.prog.drop.pc < 5 ==>
                  v.hash in s.db.tokens && txn.prog.drop.owner == s.db.tokens[v.hash].owner
      invariant txn.prog.drop.pc == 5 ==>
                  txn.writes == NO_WRITES.(kills := if v.hash in s.db.tokens then {v.hash} else {})
      decreases 5 - txn.prog.drop.pc
    {
      DropsOnce(cfg, s, v, txn, ch);
      assert txn.(at := s.now) == txn;
      StepAlone(cfg, s, t, txn, ch);
      txn := Advance(cfg, s.db, s.now, txn, ch).value.(at := s.now);
    }
    CommitsAlone(cfg, s, t, txn);
    s' := Committed(s, txn.writes);
    OnlyTokens(s.db, txn.writes, |s.log|);
    assert s.db.tokens - {} == s.db.tokens;
  }

  /** A sign-out with the account's password and a name that stands for it succeeds when it runs alone. */
  lemma LogoutSucceeds(cfg: Config, s: State, t: Tid, v: LogoutVars) returns (s': State)
    requires s.txns == map[] && ServiceOpen(s.db.gate) && Starts(cfg, s.db, Logout(v))
    requires v.cred.uid in s.db.users && s.db.users[v.cred.uid].password == v.cred.stored
    requires cfg.env.allowed(s.db.users[v.cred.uid].permission, s.db.users[v.cred.uid].verified)
    requires LoginOwner(cfg.env, s.db, v.cred.username) == Ok(v.cred.uid)
    ensures Leads(cfg, s, s') && s'.txns == map[] && s'.log == s.log + [Revoked(v.cred.uid, SignedOut)]
    ensures s'.db == s.db.(subjects := s.db.subjects[v.cred.uid := Base(s.db.subjects, v.cred.uid) + 1])
  {
    hide Leads, LoginOwner;
    var ch := Choice(s.now, 0, NIL, 0, {}, [], {});
    var uid := v.cred.uid;
    var txn0 := Txn(Logout(v), {}, {}, s.now, NO_WRITES);
    BeginsAlone(cfg, s, t, Logout(v));
    StepAlone(cfg, s, t, txn0, ch);
    var txn1 := Txn(Logout(v.(pc := 1)), {UserRow(uid)}, {}, s.now, NO_WRITES);
    assert {} + {UserRow(uid)} == {UserRow(uid)};
    StepAlone(cfg, s, t, txn1, ch);
    var txn2 := txn1.(prog := Logout(v.(pc := 2)));
    StepAlone(cfg, s, t, txn2, ch);
    assert s.db.subjects + map[] == s.db.subjects;
    var done := Advance(cfg, s.db, s.now, txn2, ch).value;
    CommitsAlone(cfg, s, t, done);
    s' := Committed(s, done.writes);
    OnlySubjects(s.db, done.writes, |s.log|);
  }

  /** A cleanup that runs alone can remove any expired rows it is asked to, up to a batch from each table. */
  lemma SweepSucceeds(cfg: Config, s: State, t: Tid, v: SweepVars, hashes: set<Hash>, servers: set<string>)
    returns (s': State)
    requires s.txns == map[] && ServiceOpen(s.db.gate) && Starts(cfg, s.db, Sweep(v))
    requires |hashes| <= v.batch && |servers| <= v.batch
    requires forall h | h in hashes :: h in s.db.tokens && s.db.tokens[h].expires <= s.now
    requires forall x | x in servers :: x in s.db.sessions && s.db.sessions[x].expires <= s.now
    ensures Leads(cfg, s, s') && s'.txns == map[] && s'.log == s.log
    ensures s'.db == s.db.(tokens := s.db.tokens - hashes, sessions := s.db.sessions - servers)
  {
    hide Leads;
    var ch := Choice(s.now, 0, NIL, 0, hashes, [], servers);
    var txn0 := Txn(Sweep(v), {}, {}, s.now, NO_WRITES);
    BeginsAlone(cfg, s, t, Sweep(v));
    StepAlone(cfg, s, t, txn0, ch);
    var txn1 := Advance(cfg, s.db, s.now, txn0, ch).value;
    StepAlone(cfg, s, t, txn1, ch);
    var done := Advance(cfg, s.db, s.now, txn1.(at := s.now), ch).value;
    CommitsAlone(cfg, s, t, done);
    s' := Committed(s, done.writes);
    OnlyExpired(s.db, done.writes, |s.log|, hashes, servers);
  }

  lemma OnlyExpired(db: Db, w: Writes, serial: nat, hashes: set<Hash>, servers: set<string>)
    requires w == NO_WRITES.(kills := hashes, sessions := w.sessions)
    requires w.sessions == map[] + map v | v in servers :: None
    ensures Apply(db, w, serial) == db.(tokens := db.tokens - hashes, sessions := db.sessions - servers)
  {
    assert db.subjects + map[] == db.subjects && db.identities + map[] == db.identities;
    assert Merge(db.users, map[]) == db.users && Merge(db.players, map[]) == db.players;
    assert Merge(db.sessions, w.sessions) == db.sessions - servers;
  }
}
