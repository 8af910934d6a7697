/** HasJoined and the name it was asked about: who bears it when the name is checked, and until the request ends. */
module MachineAdmissions {
  import opened Basics
  import opened Tables
  import opened Directory
  import opened Machine
  import opened MachineInvariant
  import opened MachineTheorems
  import Lifecycle

  /** An open HasJoined whose name has been checked. */
  predicate NameChecked(s: State, t: Tid)
  {
    && t in s.txns && s.txns[t].prog.Access? && s.txns[t].prog.access.goal.Admit?
    && s.txns[t].prog.access.pc >= 9
  }

  /** The same request, later. */
  predicate SameRequest(v: AccessVars, v': AccessVars)
  {
    v'.goal == v.goal && v'.hash == v.hash && v'.client == v.client && v'.bound == v.bound
        && v'.checkedAt == v.checkedAt
  }

  /** The player of the token's profile is the only one with the name. */
  predicate BearsAlone(env: Env, db: Db, v: AccessVars)
  {
    v.goal.Admit? && v.bound.Some? && Named(env.key, db.players, v.goal.name) == {v.bound.value.player}
  }

  lemma CheckedByStep(cfg: Config, s: State, step: Step, t: Tid)
    requires Enabled(cfg, s, step) && NameChecked(Next(cfg, s, step), t)
    ensures var s' := Next(cfg, s, step);
            || (NameChecked(s, t) && SameRequest(s.txns[t].prog.access, s'.txns[t].prog.access))
            || BearsAlone(cfg.env, s'.db, s'.txns[t].prog.access)
  {
    if step.Run? && step.t == t {
      CheckedByStatement(cfg, s.db, s.now, s.txns[t], step.ch);
    }
  }

  lemma CheckedByStatement(cfg: Config, db: Db, now: nat, txn: Txn, ch: Choice)
    requires Advance(cfg, db, now, txn, ch).Some?
    requires var next := Advance(cfg, db, now, txn, ch).value;
             next.prog.Access? && next.prog.access.goal.Admit? && next.prog.access.pc >= 9
    ensures txn.prog.Access? && txn.prog.access.goal.Admit?
    ensures var v, v' := txn.prog.access, Advance(cfg, db, now, txn, ch).value.prog.access;
            (v.pc >= 9 && SameRequest(v, v')) || BearsAlone(cfg.env, db, v')
  {
    hide BoundIdentity, LookupUuid, Allocate, ReadIdentity, IsEviction, LoginOwner;
  }

  lemma CheckedByWorldStep(site: Lifecycle.Site, w: Lifecycle.World, step: Lifecycle.WorldStep, t: Tid)
    requires Lifecycle.Enabled(site, w, step) && NameChecked(Lifecycle.Next(site, w, step).m, t)
    ensures var w' := Lifecycle.Next(site, w, step);
            || (NameChecked(w.m, t) && SameRequest(w.m.txns[t].prog.access, w'.m.txns[t].prog.access))
            || BearsAlone(w'.cfg.env, w'.m.db, w'.m.txns[t].prog.access)
  {
    if step.Runtime? {
      hide Enabled, Next;
      CheckedByStep(w.cfg, w.m, step.step, t);
    } else {
      hide Lifecycle.Permitted;
    }
  }

  // ---- runs ----

  /** The request stays open, past its check, in every state of the run. */
  ghost predicate StaysOpen(site: Lifecycle.Site, w: Lifecycle.World, steps: seq<Lifecycle.WorldStep>, t: Tid,
                            v: AccessVars)
    decreases |steps|
  {
    && NameChecked(w.m, t) && SameRequest(w.m.txns[t].prog.access, v)
    && (steps != [] && Lifecycle.Enabled(site, w, steps[0]) ==>
          StaysOpen(site, Lifecycle.Next(site, w, steps[0]), steps[1..], t, v))
  }

  lemma {:induction false} StaysOpenLonger(site: Lifecycle.Site, w: Lifecycle.World, steps: seq<Lifecycle.WorldStep>,
                                           mid: Lifecycle.World, step: Lifecycle.WorldStep, t: Tid, v: AccessVars)
    requires Lifecycle.Execute(site, w, steps) == Some(mid) && Lifecycle.Enabled(site, mid, step)
    requires StaysOpen(site, w, steps, t, v) && NameChecked(Lifecycle.Next(site, mid, step).m, t)
    requires SameRequest(Lifecycle.Next(site, mid, step).m.txns[t].prog.access, v)
    ensures StaysOpen(site, w, steps + [step], t, v)
    decreases |steps|
  {
    hide Lifecycle.Enabled, Lifecycle.Next, NameChecked, SameRequest;
    if steps == [] {
      var w' := Lifecycle.Next(site, mid, step);
      assert StaysOpen(site, w', [], t, v);
      assert ([] + [step])[1..] == [];
    } else {
      assert (steps + [step])[1..] == steps[1..] + [step];
      StaysOpenLonger(site, Lifecycle.Next(site, w, steps[0]), steps[1..], mid, step, t, v);
    }
  }

  lemma {:induction false} LastStep(site: Lifecycle.Site, w: Lifecycle.World, steps: seq<Lifecycle.WorldStep>,
                                    w': Lifecycle.World) returns (mid: Lifecycle.World)
    requires steps != [] && Lifecycle.Execute(site, w, steps) == Some(w')
    ensures Lifecycle.Execute(site, w, steps[..|steps| - 1]) == Some(mid)
    ensures Lifecycle.Enabled(site, mid, steps[|steps| - 1]) && Lifecycle.Next(site, mid, steps[|steps| - 1]) == w'
    decreases |steps|
  {
    hide Lifecycle.Enabled, Lifecycle.Next;
    if |steps| == 1 {
      mid := w;
      assert Lifecycle.Execute(site, Lifecycle.Next(site, w, steps[0]), []) == Some(w');
    } else {
      assert steps[..|steps| - 1][1..] == steps[1..][..|steps| - 2];
      mid := LastStep(site, Lifecycle.Next(site, w, steps[0]), steps[1..], w');
    }
  }

  /** A request that is past its check when a run ends, and was not when it began, was checked during the run: then its
      player bore the name alone, and it has been the same open request ever since. */
  lemma {:induction false} CheckedDuringRun(site: Lifecycle.Site, w0: Lifecycle.World, steps: seq<Lifecycle.WorldStep>,
                                            w': Lifecycle.World, t: Tid) returns (k: nat, mid: Lifecycle.World)
    requires Lifecycle.Execute(site, w0, steps) == Some(w') && !NameChecked(w0.m, t) && NameChecked(w'.m, t)
    ensures k <= |steps| && Lifecycle.Execute(site, w0, steps[..k]) == Some(mid)
    ensures Lifecycle.Execute(site, mid, steps[k..]) == Some(w')
    ensures StaysOpen(site, mid, steps[k..], t, w'.m.txns[t].prog.access)
    ensures BearsAlone(mid.cfg.env, mid.m.db, w'.m.txns[t].prog.access)
    decreases |steps|
  {
    hide Lifecycle.Enabled, Lifecycle.Next;
    assert steps != [];
    var n := |steps| - 1;
    var v := w'.m.txns[t].prog.access;
    var prev := LastStep(site, w0, steps, w');
    CheckedByWorldStep(site, prev, steps[n], t);
    if BearsAlone(w'.cfg.env, w'.m.db, v) {
      k, mid := |steps|, w';
      assert steps[..k] == steps && steps[k..] == [];
    } else {
      k, mid := CheckedDuringRun(site, w0, steps[..n], prev, t);
      assert steps[..n][..k] == steps[..k] && steps[k..] == steps[..n][k..] + [steps[n]];
      SameThroughout(site, mid, steps[..n][k..], t, prev.m.txns[t].prog.access, v);
      StaysOpenLonger(site, mid, steps[..n][k..], prev, steps[n], t, v);
      Lifecycle.ExecuteAppend(site, mid, steps[..n][k..], prev, steps[n]);
    }
  }

  lemma {:induction false} SameThroughout(site: Lifecycle.Site, w: Lifecycle.World, steps: seq<Lifecycle.WorldStep>,
                                          t: Tid, v: AccessVars, v': AccessVars)
    requires StaysOpen(site, w, steps, t, v) && SameRequest(v, v')
    ensures StaysOpen(site, w, steps, t, v')
    decreases |steps|
  {
    hide Lifecycle.Enabled, Lifecycle.Next;
    if steps != [] && Lifecycle.Enabled(site, w, steps[0]) {
      SameThroughout(site, Lifecycle.Next(site, w, steps[0]), steps[1..], t, v, v');
    }
  }

  // ---- from the check to the end ----

  /** In every state of the run the player bears the name alone. */
  ghost predicate AloneThroughout(site: Lifecycle.Site, w: Lifecycle.World, steps: seq<Lifecycle.WorldStep>,
                                  v: AccessVars)
    decreases |steps|
  {
    && BearsAlone(w.cfg.env, w.m.db, v)
    && (steps != [] && Lifecycle.Enabled(site, w, steps[0]) ==>
          AloneThroughout(site, Lifecycle.Next(site, w, steps[0]), steps[1..], v))
  }

  /** The step commits a player row that gives the name to somebody else. */
  predicate CommitsRival(env: Env, s: State, step: Step, v: AccessVars)
    requires v.goal.Admit? && v.bound.Some?
  {
    && step.Commit? && step.t in s.txns
    && exists q :: q in s.txns[step.t].writes.players && Rival(env, q, s.txns[step.t].writes.players[q], v)
  }

  predicate Rival(env: Env, q: nat, row: Option<Player>, v: AccessVars)
    requires v.goal.Admit? && v.bound.Some?
  {
    row.Some? && env.key(row.value.name) == env.key(v.goal.name) && q != v.bound.value.player
  }

  /** No step of the run does. */
  ghost predicate NoRivalCommitted(site: Lifecycle.Site, w: Lifecycle.World, steps: seq<Lifecycle.WorldStep>,
                                   v: AccessVars)
    requires v.goal.Admit? && v.bound.Some?
    decreases |steps|
  {
    steps != [] && Lifecycle.Enabled(site, w, steps[0]) ==>
      && !(steps[0].Runtime? && CommitsRival(w.cfg.env, w.m, steps[0].step, v))
      && NoRivalCommitted(site, Lifecycle.Next(site, w, steps[0]), steps[1..], v)
  }

  /** A commit of another transaction, on the names: it cannot take the name from the request's locked player, and
      whether somebody else gets it is visible in what it writes. */
  lemma RivalByCommit(env: Env, db: Db, w: Writes, serial: nat, v: AccessVars)
    requires BearsAlone(env, db, v) && v.bound.value.player !in w.players
    ensures BearsAlone(env, Apply(db, w, serial), v) <==>
            !exists q :: q in w.players && Rival(env, q, w.players[q], v)
  {
    var players, players' := db.players, Apply(db, w, serial).players;
    var p := v.bound.value.player;
    assert p in Named(env.key, players, v.goal.name);
    if q :| q in w.players && Rival(env, q, w.players[q], v) {
      assert q in Named(env.key, players', v.goal.name);
    } else {
      assert forall q | q in Named(env.key, players', v.goal.name) && q in w.players :: Rival(env, q, w.players[q], v)
              || q == p;
      assert Named(env.key, players', v.goal.name) == {p};
    }
  }

  /** The player of an open request is locked, so no other transaction is about to write it. */
  lemma BoundIsLocked(cfg: Config, s: State, t: Tid, u: Tid)
    requires Inv(cfg, s) && NameChecked(s, t) && u in s.txns && u != t
    ensures s.txns[t].prog.access.bound.Some?
    ensures s.txns[t].prog.access.bound.value.player !in s.txns[u].writes.players
  {
    hide DbOk, IdsPart, IssuePart, SubjectsPart, SessionsPart, EventsPart, GoalKnows, ProvidedOk;
    assert AccessKnows(cfg, s.db, s.now, s.txns[t], s.txns[t].prog.access);
    assert GoalKnows(cfg, s.db, s.now, s.txns[t], s.txns[t].prog.access);
    GoalBinds(cfg, s.db, s.now, s.txns[t], s.txns[t].prog.access);
    assert LockedPart(s.db, s.txns[u]) && Compatible(s.txns[t], s.txns[u]);
  }

  lemma GoalBinds(cfg: Config, db: Db, now: nat, txn: Txn, v: AccessVars)
    requires GoalKnows(cfg, db, now, txn, v) && v.goal.Admit? && v.pc >= 9
    ensures v.bound.Some?
  {
  }

  lemma RivalByStep(cfg: Config, s: State, step: Step, t: Tid, v: AccessVars)
    requires Inv(cfg, s) && Enabled(cfg, s, step) && BearsAlone(cfg.env, s.db, v)
    requires NameChecked(s, t) && SameRequest(s.txns[t].prog.access, v) && NameChecked(Next(cfg, s, step), t)
    ensures BearsAlone(cfg.env, Next(cfg, s, step).db, v) <==> !CommitsRival(cfg.env, s, step, v)
  {
    if step.Commit? {
      BoundIsLocked(cfg, s, t, step.t);
      hide Inv, Apply, LogAfter, BearsAlone, Rival;
      RivalByCommit(cfg.env, s.db, s.txns[step.t].writes, |s.log|, v);
    }
  }

  lemma RivalByWorldStep(site: Lifecycle.Site, w: Lifecycle.World, step: Lifecycle.WorldStep, t: Tid, v: AccessVars)
    requires Lifecycle.WorldOk(w) && Lifecycle.Enabled(site, w, step) && BearsAlone(w.cfg.env, w.m.db, v)
    requires NameChecked(w.m, t) && SameRequest(w.m.txns[t].prog.access, v)
    requires NameChecked(Lifecycle.Next(site, w, step).m, t)
    ensures var w' := Lifecycle.Next(site, w, step);
            BearsAlone(w'.cfg.env, w'.m.db, v) <==> !(step.Runtime? && CommitsRival(w.cfg.env, w.m, step.step, v))
  {
    if step.Runtime? {
      hide Enabled, Next, Inv;
      RivalByStep(w.cfg, w.m, step.step, t, v);
    } else {
      hide Lifecycle.Permitted, Inv;
    }
  }

  /** From the check to its end the player bears the name alone exactly when nobody commits an equivalent name. */
  lemma {:induction false} AloneIffNoRival(site: Lifecycle.Site, w: Lifecycle.World, steps: seq<Lifecycle.WorldStep>,
                                           w': Lifecycle.World, t: Tid, v: AccessVars)
    requires Lifecycle.WorldOk(w) && Lifecycle.Execute(site, w, steps) == Some(w')
    requires StaysOpen(site, w, steps, t, v) && BearsAlone(w.cfg.env, w.m.db, v)
    ensures AloneThroughout(site, w, steps, v) <==> NoRivalCommitted(site, w, steps, v)
    decreases |steps|
  {
    hide Lifecycle.WorldOk, Lifecycle.Enabled, Lifecycle.Next, NameChecked, SameRequest, CommitsRival, Named;
    if steps != [] {
      var next := Lifecycle.Next(site, w, steps[0]);
      Lifecycle.WorldStepOk(site, w, steps[0]);
      assert StaysOpen(site, next, steps[1..], t, v);
      RivalByWorldStep(site, w, steps[0], t, v);
      if BearsAlone(next.cfg.env, next.m.db, v) {
        AloneIffNoRival(site, next, steps[1..], w', t, v);
      }
    }
  }

  // ---- when it ends ----

  /** What a step commits to a player's row, if it does. */
  function WrittenBy(s: State, step: Lifecycle.WorldStep, q: nat): Option<Option<Player>>
  {
    if step.Runtime? && step.step.Commit? && step.step.t in s.txns then Lookup(s.txns[step.step.t].writes.players, q)
    else None
  }

  /** What the run last commits to it. */
  ghost function Written(site: Lifecycle.Site, w: Lifecycle.World, steps: seq<Lifecycle.WorldStep>,
                         q: nat): Option<Option<Player>>
    decreases |steps|
  {
    if steps == [] || !Lifecycle.Enabled(site, w, steps[0]) then None
    else
      var later := Written(site, Lifecycle.Next(site, w, steps[0]), steps[1..], q);
      if later.Some? then later else WrittenBy(w.m, steps[0], q)
  }

  lemma PlayersByStep(site: Lifecycle.Site, w: Lifecycle.World, step: Lifecycle.WorldStep, q: nat)
    requires Lifecycle.Enabled(site, w, step)
    ensures Lookup(Lifecycle.Next(site, w, step).m.db.players, q)
            == match WrittenBy(w.m, step, q) case None => Lookup(w.m.db.players, q) case Some(row) => row
    ensures Lifecycle.Next(site, w, step).cfg.env == w.cfg.env
  {
    hide Enabled, Next, Lifecycle.Enabled, Lifecycle.Next, Lookup;
    if step.Runtime? {
      ServiceStep(site, w, step);
      PlayersByCommit(w.cfg, w.m, step.step, q);
    } else {
      OperatorsKeepPlayers(site, w, step);
    }
  }

  lemma ServiceStep(site: Lifecycle.Site, w: Lifecycle.World, step: Lifecycle.WorldStep)
    requires Lifecycle.Enabled(site, w, step) && step.Runtime?
    ensures Enabled(w.cfg, w.m, step.step)
    ensures Lifecycle.Next(site, w, step) == w.(m := Next(w.cfg, w.m, step.step))
  {
    hide Enabled, Next;
  }

  lemma OperatorsKeepPlayers(site: Lifecycle.Site, w: Lifecycle.World, step: Lifecycle.WorldStep)
    requires Lifecycle.Enabled(site, w, step) && !step.Runtime?
    ensures Lifecycle.Next(site, w, step).m.db.players == w.m.db.players
    ensures Lifecycle.Next(site, w, step).cfg.env == w.cfg.env
  {
    hide Lifecycle.Effect, Lifecycle.Permitted, Lifecycle.StartEnabled, Lifecycle.StatementEnabled;
    if step.Operate? {
      TransactionsKeepPlayers(site, w, step.tx);
    }
  }

  lemma TransactionsKeepPlayers(site: Lifecycle.Site, w: Lifecycle.World, tx: Lifecycle.Transaction)
    requires Lifecycle.Permitted(site, w, tx)
    ensures Lifecycle.Effect(site, w, tx).m.db.players == w.m.db.players
    ensures Lifecycle.Effect(site, w, tx).cfg.env == w.cfg.env
  {
    hide Lifecycle.Permitted;
  }

  lemma PlayersByCommit(cfg: Config, s: State, step: Step, q: nat)
    requires Enabled(cfg, s, step)
    ensures Lookup(Next(cfg, s, step).db.players, q)
            == match WrittenBy(s, Lifecycle.Runtime(step), q)
               case None => Lookup(s.db.players, q)
               case Some(row) => row
  {
    hide Starts, Advance, LockFree, EditStep, LogAfter, Appended, CommitTokens;
  }

  lemma {:induction false} PlayersByRun(site: Lifecycle.Site, w: Lifecycle.World, steps: seq<Lifecycle.WorldStep>,
                                        w': Lifecycle.World, q: nat)
    requires Lifecycle.Execute(site, w, steps) == Some(w')
    ensures Lookup(w'.m.db.players, q)
            == match Written(site, w, steps, q) case None => Lookup(w.m.db.players, q) case Some(row) => row
    ensures w'.cfg.env == w.cfg.env
    decreases |steps|
  {
    hide Lifecycle.Enabled, Lifecycle.Next, WrittenBy, Lookup;
    if steps != [] {
      PlayersByStep(site, w, steps[0], q);
      PlayersByRun(site, Lifecycle.Next(site, w, steps[0]), steps[1..], w', q);
    }
  }

  lemma BoundUnwrittenBy(w: Lifecycle.World, step: Lifecycle.WorldStep, t: Tid, v: AccessVars)
    requires Lifecycle.WorldOk(w) && NameChecked(w.m, t) && SameRequest(w.m.txns[t].prog.access, v)
    requires v.bound.Some? && (step.Runtime? && step.step.Commit? ==> step.step.t != t)
    ensures WrittenBy(w.m, step, v.bound.value.player).None?
  {
    hide Inv;
    if step.Runtime? && step.step.Commit? && step.step.t in w.m.txns {
      BoundIsLocked(w.cfg, w.m, t, step.step.t);
    }
  }

  /** Nobody writes the player of the request while it is open. */
  lemma {:induction false} BoundUnwritten(site: Lifecycle.Site, w: Lifecycle.World, steps: seq<Lifecycle.WorldStep>,
                                          w': Lifecycle.World, t: Tid, v: AccessVars)
    requires Lifecycle.WorldOk(w) && Lifecycle.Execute(site, w, steps) == Some(w') && StaysOpen(site, w, steps, t, v)
    requires v.bound.Some?
    ensures Written(site, w, steps, v.bound.value.player).None?
    decreases |steps|
  {
    hide Lifecycle.WorldOk, Lifecycle.Enabled, Lifecycle.Next, NameChecked, SameRequest, WrittenBy;
    if steps != [] {
      var next := Lifecycle.Next(site, w, steps[0]);
      Lifecycle.WorldStepOk(site, w, steps[0]);
      assert StaysOpen(site, next, steps[1..], t, v);
      StillOpenIsOther(site, w, steps[0], t);
      BoundUnwrittenBy(w, steps[0], t, v);
      BoundUnwritten(site, next, steps[1..], w', t, v);
    }
  }

  lemma StillOpenIsOther(site: Lifecycle.Site, w: Lifecycle.World, step: Lifecycle.WorldStep, t: Tid)
    requires Lifecycle.Enabled(site, w, step) && NameChecked(Lifecycle.Next(site, w, step).m, t)
    ensures step.Runtime? && step.step.Commit? ==> step.step.t != t
  {
    hide Apply, LogAfter, Appended;
  }

  /** Somebody else was given an equivalent name and has not lost it again. */
  ghost predicate RivalLeft(site: Lifecycle.Site, w: Lifecycle.World, steps: seq<Lifecycle.WorldStep>, v: AccessVars,
                            q: nat)
    requires v.goal.Admit? && v.bound.Some?
  {
    Written(site, w, steps, q).Some? && Rival(w.cfg.env, q, Written(site, w, steps, q).value, v)
  }

  /** When the run ends the player is alone exactly when everybody who was given an equivalent name since the check has
      lost it again. */
  lemma AloneAtEnd(site: Lifecycle.Site, w: Lifecycle.World, steps: seq<Lifecycle.WorldStep>, w': Lifecycle.World,
                   t: Tid, v: AccessVars)
    requires Lifecycle.WorldOk(w) && Lifecycle.Execute(site, w, steps) == Some(w')
    requires StaysOpen(site, w, steps, t, v) && BearsAlone(w.cfg.env, w.m.db, v)
    ensures BearsAlone(w'.cfg.env, w'.m.db, v) <==> forall q :: !RivalLeft(site, w, steps, v, q)
  {
    hide Lifecycle.WorldOk, Lifecycle.Execute, StaysOpen, Written;
    var key, players, players', p := w.cfg.env.key, w.m.db.players, w'.m.db.players, v.bound.value.player;
    PlayersByRun(site, w, steps, w', p);
    BoundUnwritten(site, w, steps, w', t, v);
    forall q
      ensures q in Named(key, players', v.goal.name) <==> q == p || RivalLeft(site, w, steps, v, q)
    {
      PlayersByRun(site, w, steps, w', q);
      assert q in Named(key, players, v.goal.name) <==> q == p;
    }
    if forall q :: !RivalLeft(site, w, steps, v, q) {
      assert Named(key, players', v.goal.name) == {p};
    } else {
      var q :| RivalLeft(site, w, steps, v, q);
      assert q in Named(key, players', v.goal.name) && q != p;
    }
  }

  /** Every HasJoined that succeeds decided at one moment, while open, that its token's profile is the only player
      with the name, on a token that authorized then as it still does. Until it commits the player stays alone
      throughout exactly when no transaction commits an equivalent name in between, and is alone at the end exactly
      when everybody who was given one has lost it again: the check takes no lock on other players' rows. */
  lemma AdmissionNamesOneBearer(site: Lifecycle.Site, w0: Lifecycle.World, steps: seq<Lifecycle.WorldStep>,
                                w': Lifecycle.World, t: Tid) returns (k: nat, mid: Lifecycle.World)
    requires Lifecycle.Initial(w0) && Lifecycle.Execute(site, w0, steps) == Some(w')
    requires NameChecked(w'.m, t)
    ensures k <= |steps| && Lifecycle.Execute(site, w0, steps[..k]) == Some(mid)
    ensures Lifecycle.Execute(site, mid, steps[k..]) == Some(w')
    ensures var v := w'.m.txns[t].prog.access;
            && StaysOpen(site, mid, steps[k..], t, v) && BearsAlone(mid.cfg.env, mid.m.db, v)
            && Authorize(mid.cfg.env, mid.m.db, v.hash, v.client, v.checkedAt).Ok?
            && Authorize(mid.cfg.env, mid.m.db, v.hash, v.client, v.checkedAt).value.identity == v.bound
            && (AloneThroughout(site, mid, steps[k..], v) <==> NoRivalCommitted(site, mid, steps[k..], v))
            && (BearsAlone(w'.cfg.env, w'.m.db, v) <==> forall q :: !RivalLeft(site, mid, steps[k..], v, q))
  {
    hide Lifecycle.WorldOk, Lifecycle.Execute, Authorize, NoneRevokedSince, AloneThroughout, NoRivalCommitted,
      BearsAlone, RivalLeft;
    k, mid := CheckedDuringRun(site, w0, steps, w', t);
    Lifecycle.InitialOk(w0);
    Lifecycle.WorldRunOk(site, w0, steps[..k], mid);
    assert Reachable(mid.cfg, mid.m);
    AuthorizationHoldsToTheEnd(mid.cfg, mid.m, t);
    AloneIffNoRival(site, mid, steps[k..], w', t, w'.m.txns[t].prog.access);
    AloneAtEnd(site, mid, steps[k..], w', t, w'.m.txns[t].prog.access);
  }
}
