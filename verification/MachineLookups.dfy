/** Public lookups by name, statement by statement: what is returned is current, and was asked for. */
module MachineLookups {
  import opened Basics
  import opened Tables
  import opened Directory
  import opened Machine
  import opened MachineInvariant
  import opened MachineTheorems
  import MachineAdmissions
  import Lifecycle

  /** A lookup that commits returns each player once and no more players than names. Each still has, under its
      present name and account, the identity that is returned, and its name is equivalent to one that was asked
      for: a rename or a change of account between the statements of the lookup never shows. Nothing but the rows
      of new players is written. */
  lemma LookupIsCurrent(cfg: Config, s: State, t: Tid, answered: bool)
    requires Reachable(cfg, s) && t in s.txns && s.txns[t].prog.Names? && Ready(s.txns[t].prog)
    ensures var v := s.txns[t].prog.lookup;
            var s' := Next(cfg, s, Commit(t, answered));
            && s'.db == s.db.(identities := s'.db.identities) && s'.log == s.log + Provisions(v.answers)
            && (forall x | x in v.answers ::
                  && x.player in s'.db.players && s'.db.players[x.player] == Player(x.owner, x.name)
                  && x.id in s'.db.identities && s'.db.identities[x.id].state == Active
                  && s'.db.identities[x.id].player == Some(x.player) && s'.db.identities[x.id].uuid == Some(x.uuid)
                  && exists k :: 0 <= k < |v.names| && cfg.env.key(v.names[k]) == cfg.env.key(x.name))
            && (forall i, j :: 0 <= i < j < |v.answers| ==> v.answers[i].player != v.answers[j].player)
            && |v.answers| <= |v.names| && (v.single ==> |v.answers| == 1)
  {
    hide Reachable, IdentitiesOk, WritesOk, Apply, LogAfter, Knows;
    TxnNow(cfg, s, t);
    LookupCommits(cfg, s.db, s.now, s.log, s.txns[t], s.txns[t].prog.lookup);
  }

  lemma LookupCommits(cfg: Config, db: Db, now: nat, log: seq<Event>, txn: Txn, v: LookupVars)
    requires TxnOk(cfg, db, now, txn) && txn.prog == Names(v) && v.pc == 6
    ensures var db' := Apply(db, txn.writes, |log|);
            && db' == db.(identities := db'.identities) && LogAfter(log, txn.writes) == log + Provisions(v.answers)
            && (forall x | x in v.answers :: PlayerHas(db', x) && Asked(cfg.env, v.names, x.name))
            && (forall i, j :: 0 <= i < j < |v.answers| ==> v.answers[i].player != v.answers[j].player)
            && |v.answers| <= |v.names| && (v.single ==> |v.answers| == 1)
  {
    hide WritesOk, Asked;
    EmptyMerge(db.users);
    EmptyMerge(db.players);
    EmptyMerge(db.sessions);
    assert db.subjects + map[] == db.subjects;
    assert db.tokens - {} == db.tokens;
  }

  // ---- each player was alone under its name ----

  /** One of the names designates the player, and only the player. */
  predicate BearsOne(env: Env, players: map<nat, Player>, names: seq<string>, pid: nat)
  {
    exists k :: 0 <= k < |names| && Named(env.key, players, names[k]) == {pid}
  }

  /** The open lookup has passed the check of this player. */
  predicate Vouched(s: State, t: Tid, pid: nat)
  {
    && t in s.txns && s.txns[t].prog.Names?
    && VouchedBy(s.txns[t].prog.lookup, pid)
  }

  predicate VouchedBy(v: LookupVars, pid: nat)
  {
    || (v.pc in {3, 4} && v.hits != [] && v.hits[0].pid == pid)
    || (exists p :: p in v.resolved && v.resolved[p].player == pid)
    || (exists x :: x in v.answers && x.player == pid)
  }

  lemma AllocatedFor(db: Db, txn: Txn, pid: nat, ch: Choice)
    requires pid in db.players
    ensures var a := Allocate(db, txn, pid, ch);
            && (a.Allocated? ==> a.txn.prog == txn.prog && a.made.player == pid)
            && (a.Existing? ==> a.found.player == pid)
  {
  }

  lemma ReadFor(ids: map<nat, IdRow>, pid: nat, player: Player)
    ensures ReadIdentity(ids, pid, player).Ok? ==> ReadIdentity(ids, pid, player).value.player == pid
  {
  }

  /** The statements that resolve a player only take on the one at the front. */
  lemma VouchedBefore(cfg: Config, db: Db, now: nat, txn: Txn, ch: Choice, pid: nat)
    requires txn.prog.Names? && txn.prog.lookup.pc in {3, 4} && LookupStep(cfg, db, txn, ch).Some?
    ensures LookupStep(cfg, db, txn, ch).value.prog.Names?
    ensures var v, v' := txn.prog.lookup, LookupStep(cfg, db, txn, ch).value.prog.lookup;
            v'.names == v.names && (VouchedBy(v', pid) ==> VouchedBy(v, pid))
  {
    hide Allocate, ReadIdentity, ViewIds;
    var front := txn.prog.lookup.hits[0].pid;
    AllocatedFor(db, txn, front, ch);
    ReadFor(ViewIds(db, txn.writes), front, db.players[front]);
  }

  lemma VouchedByStatement(cfg: Config, db: Db, now: nat, txn: Txn, ch: Choice, pid: nat)
    requires txn.prog.Names? && LookupKnows(cfg, db, txn, txn.prog.lookup) && LookupStep(cfg, db, txn, ch).Some?
    ensures LookupStep(cfg, db, txn, ch).value.prog.Names?
    ensures var v, v' := txn.prog.lookup, LookupStep(cfg, db, txn, ch).value.prog.lookup;
            && v'.names == v.names
            && (VouchedBy(v', pid) ==> VouchedBy(v, pid) || BearsOne(cfg.env, db.players, v.names, pid))
  {
    hide Carries, ViewIds, Asked, Allocate, ReadIdentity;
    var v := txn.prog.lookup;
    if v.pc in {3, 4} {
      VouchedBefore(cfg, db, now, txn, ch, pid);
    } else {
      var v' := LookupStep(cfg, db, txn, ch).value.prog.lookup;
      if v.pc == 2 && v'.pc == 3 {
        var k :| 0 <= k < |v.names| && v.names[k] == v.hits[0].name;
        assert v.hits[0].pid == pid ==> Named(cfg.env.key, db.players, v.names[k]) == {pid};
      }
    }
  }

  lemma VouchedByStep(cfg: Config, s: State, step: Step, t: Tid, pid: nat)
    requires Inv(cfg, s) && Enabled(cfg, s, step) && Vouched(Next(cfg, s, step), t, pid)
    ensures var s' := Next(cfg, s, step);
            || (Vouched(s, t, pid) && s'.txns[t].prog.lookup.names == s.txns[t].prog.lookup.names)
            || BearsOne(cfg.env, s'.db.players, s'.txns[t].prog.lookup.names, pid)
  {
    hide DbOk, WritesOk, BearsOne;
    if step.Run? && step.t == t {
      var txn := s.txns[t];
      KindKept(cfg, s.db, s.now, txn, step.ch);
      assert LookupKnows(cfg, s.db, txn, txn.prog.lookup);
      VouchedByStatement(cfg, s.db, s.now, txn, step.ch, pid);
    }
  }

  /** A statement never turns one request into another. */
  lemma KindKept(cfg: Config, db: Db, now: nat, txn: Txn, ch: Choice)
    requires Advance(cfg, db, now, txn, ch).Some?
    ensures Advance(cfg, db, now, txn, ch).value.prog.Names? <==> txn.prog.Names?
  {
    hide BoundIdentity, LookupUuid, ReadIdentity, IsEviction, LoginOwner, ViewIds, UniquePlayerName;
  }

  lemma VouchedByWorldStep(site: Lifecycle.Site, w: Lifecycle.World, step: Lifecycle.WorldStep, t: Tid, pid: nat)
    requires Lifecycle.WorldOk(w) && Lifecycle.Enabled(site, w, step)
    requires Vouched(Lifecycle.Next(site, w, step).m, t, pid)
    ensures var w' := Lifecycle.Next(site, w, step);
            || (Vouched(w.m, t, pid) && w'.m.txns[t].prog.lookup.names == w.m.txns[t].prog.lookup.names)
            || BearsOne(w'.cfg.env, w'.m.db.players, w'.m.txns[t].prog.lookup.names, pid)
  {
    if step.Runtime? {
      hide Enabled, Next, Inv, Vouched, BearsOne;
      VouchedByStep(w.cfg, w.m, step.step, t, pid);
    } else {
      hide Lifecycle.Permitted, Inv, BearsOne;
    }
  }

  /** The lookup stays open, past its check of the player, in every state of the run. */
  ghost predicate StaysVouched(site: Lifecycle.Site, w: Lifecycle.World, steps: seq<Lifecycle.WorldStep>, t: Tid,
                               names: seq<string>, pid: nat)
    decreases |steps|
  {
    && Vouched(w.m, t, pid) && w.m.txns[t].prog.lookup.names == names
    && (steps != [] && Lifecycle.Enabled(site, w, steps[0]) ==>
          StaysVouched(site, Lifecycle.Next(site, w, steps[0]), steps[1..], t, names, pid))
  }

  lemma {:induction false} StaysVouchedLonger(site: Lifecycle.Site, w: Lifecycle.World, steps: seq<Lifecycle.WorldStep>,
                                              mid: Lifecycle.World, step: Lifecycle.WorldStep, t: Tid,
                                              names: seq<string>, pid: nat)
    requires Lifecycle.Execute(site, w, steps) == Some(mid) && Lifecycle.Enabled(site, mid, step)
    requires StaysVouched(site, w, steps, t, names, pid) && Vouched(Lifecycle.Next(site, mid, step).m, t, pid)
    requires Lifecycle.Next(site, mid, step).m.txns[t].prog.lookup.names == names
    ensures StaysVouched(site, w, steps + [step], t, names, pid)
    decreases |steps|
  {
    hide Lifecycle.Enabled, Lifecycle.Next, VouchedBy;
    if steps == [] {
      var w' := Lifecycle.Next(site, mid, step);
      assert StaysVouched(site, w', [], t, names, pid);
      assert ([] + [step])[1..] == [];
    } else {
      assert (steps + [step])[1..] == steps[1..] + [step];
      StaysVouchedLonger(site, Lifecycle.Next(site, w, steps[0]), steps[1..], mid, step, t, names, pid);
    }
  }

  lemma {:induction false} VouchedDuringRun(site: Lifecycle.Site, w0: Lifecycle.World, steps: seq<Lifecycle.WorldStep>,
                                            w': Lifecycle.World, t: Tid, pid: nat)
    returns (k: nat, mid: Lifecycle.World)
    requires Lifecycle.WorldOk(w0) && Lifecycle.Execute(site, w0, steps) == Some(w')
    requires !Vouched(w0.m, t, pid) && Vouched(w'.m, t, pid)
    ensures k <= |steps| && Lifecycle.Execute(site, w0, steps[..k]) == Some(mid)
    ensures Lifecycle.Execute(site, mid, steps[k..]) == Some(w')
    ensures StaysVouched(site, mid, steps[k..], t, w'.m.txns[t].prog.lookup.names, pid)
    ensures BearsOne(mid.cfg.env, mid.m.db.players, w'.m.txns[t].prog.lookup.names, pid)
    decreases |steps|
  {
    hide Lifecycle.WorldOk, Lifecycle.Enabled, Lifecycle.Next, BearsOne, VouchedBy;
    assert steps != [];
    var n := |steps| - 1;
    var names := w'.m.txns[t].prog.lookup.names;
    var prev := MachineAdmissions.LastStep(site, w0, steps, w');
    Lifecycle.WorldRunOk(site, w0, steps[..n], prev);
    VouchedByWorldStep(site, prev, steps[n], t, pid);
    if BearsOne(w'.cfg.env, w'.m.db.players, names, pid) {
      k, mid := |steps|, w';
      assert steps[..k] == steps && steps[k..] == [];
    } else {
      k, mid := VouchedDuringRun(site, w0, steps[..n], prev, t, pid);
      assert steps[..n][..k] == steps[..k] && steps[k..] == steps[..n][k..] + [steps[n]];
      StaysVouchedLonger(site, mid, steps[..n][k..], prev, steps[n], t, names, pid);
      Lifecycle.ExecuteAppend(site, mid, steps[..n][k..], prev, steps[n]);
    }
  }

  /** Whoever a lookup is about to return was, at one moment since it opened, the only player with one of the names
      it was asked for. */
  lemma AnswersWereAlone(site: Lifecycle.Site, w0: Lifecycle.World, steps: seq<Lifecycle.WorldStep>,
                         w': Lifecycle.World, t: Tid, pid: nat) returns (k: nat, mid: Lifecycle.World)
    requires Lifecycle.Initial(w0) && Lifecycle.Execute(site, w0, steps) == Some(w')
    requires t in w'.m.txns && w'.m.txns[t].prog.Names?
    requires exists x :: x in w'.m.txns[t].prog.lookup.answers && x.player == pid
    ensures k <= |steps| && Lifecycle.Execute(site, w0, steps[..k]) == Some(mid)
    ensures Lifecycle.Execute(site, mid, steps[k..]) == Some(w')
    ensures StaysVouched(site, mid, steps[k..], t, w'.m.txns[t].prog.lookup.names, pid)
    ensures BearsOne(mid.cfg.env, mid.m.db.players, w'.m.txns[t].prog.lookup.names, pid)
  {
    assert !Vouched(w0.m, t, pid) && Vouched(w'.m, t, pid);
    Lifecycle.InitialOk(w0);
    hide Lifecycle.WorldOk, Lifecycle.Initial, Lifecycle.Execute, Vouched, BearsOne;
    k, mid := VouchedDuringRun(site, w0, steps, w', t, pid);
  }
}
