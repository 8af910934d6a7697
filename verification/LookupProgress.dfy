/** A public lookup by names that runs alone, statement by statement, answers what the transaction of module Profiles
    does, and leaves the same tables. */
module LookupProgress {
  import opened Basics
  import opened Uuids
  import opened Tables
  import opened Directory
  import S = Service
  import P = Profiles
  import LP = LoginProgress
  import opened Machine
  import opened MachineProgress

  lemma StepsOn(cfg: Config, s: State, t: Tid, txn: Txn, ch: Choice) returns (next: Txn)
    requires Leads(cfg, s, At(s, t, txn)) && txn.at == s.now && ch.at == s.now
    requires Advance(cfg, s.db, s.now, txn, ch).Some?
    ensures Leads(cfg, s, At(s, t, next)) && next == Advance(cfg, s.db, s.now, txn, ch).value.(at := s.now)
  {
    hide Advance, Leads;
    assert txn.(at := s.now) == txn;
    StepAlone(cfg, s, t, txn, ch);
    next := Advance(cfg, s.db, s.now, txn, ch).value.(at := s.now);
    assert At(s, t, next) == At(s, t, Advance(cfg, s.db, s.now, txn, ch).value);
  }

  // ---- whom the names designate ----

  ghost predicate IsHit(env: Env, players: map<nat, Player>, names: seq<string>, h: Hit)
  {
    && h.pid in players && h.name in names && h.owner == players[h.pid].owner
    && UniquePlayerName(env, players, h.name) == Ok(h.pid)
  }

  /** One candidate, in the order of their ids, for each player that one of the first `n` names designates. */
  ghost predicate Found(env: Env, players: map<nat, Player>, names: seq<string>, n: nat, hits: seq<Hit>)
    requires n <= |names|
  {
    && (forall i, j :: 0 <= i < j < |hits| ==> hits[i].pid < hits[j].pid)
    && (forall h | h in hits :: IsHit(env, players, names, h))
    && forall k | 0 <= k < n && UniquePlayerName(env, players, names[k]).Ok? ::
         exists h :: h in hits && h.pid == UniquePlayerName(env, players, names[k]).value
  }

  lemma {:induction false} HitInserted(s: seq<Hit>, h: Hit)
    requires forall i, j :: 0 <= i < j < |s| ==> s[i].pid < s[j].pid
    requires forall g | g in s :: g.pid != h.pid
    ensures var r := InsertHit(s, h);
            && (forall i, j :: 0 <= i < j < |r| ==> r[i].pid < r[j].pid)
            && forall g :: g in r <==> g in s || g == h
  {
    if s != [] && s[0].pid < h.pid {
      HitInserted(s[1..], h);
      assert forall g :: g in s <==> g == s[0] || g in s[1..];
      var r := InsertHit(s[1..], h);
      forall i | 0 <= i < |r|
        ensures s[0].pid < r[i].pid
      {
        assert r[i] in r;
        if r[i] != h {
          var k :| 0 <= k < |s[1..]| && s[1..][k] == r[i];
          assert s[k + 1] == r[i];
        }
      }
    } else if s != [] {
      assert s[0] in s;
    }
  }

  lemma FindsOnce(cfg: Config, s: State, txn: Txn, ch: Choice)
    requires txn.prog.Names? && txn.prog.lookup.pc == 0 && txn.prog.lookup.read < |txn.prog.lookup.names|
    requires var v := txn.prog.lookup;
             && Found(cfg.env, s.db.players, v.names, v.read, v.hits)
             && (v.single ==> UniquePlayerName(cfg.env, s.db.players, v.names[v.read]).Ok?)
    ensures Advance(cfg, s.db, s.now, txn, ch).Some?
    ensures var v, next := txn.prog.lookup, Advance(cfg, s.db, s.now, txn, ch).value;
            && next.prog.Names? && next == txn.(prog := Names(v.(read := v.read + 1, hits := next.prog.lookup.hits)))
            && Found(cfg.env, s.db.players, v.names, v.read + 1, next.prog.lookup.hits)
  {
    hide UniquePlayerName, InsertHit, IsHit, Found, Advance;
    FindsStep(cfg, s, txn, ch);
    var v := txn.prog.lookup;
    var u := UniquePlayerName(cfg.env, s.db.players, v.names[v.read]);
    if u.Ok? && !exists h :: h in v.hits && h.pid == u.value {
      FoundOneMore(cfg.env, s.db.players, v.names, v.read, v.hits,
                   Hit(v.names[v.read], u.value, s.db.players[u.value].owner));
    } else {
      FoundAgain(cfg.env, s.db.players, v.names, v.read, v.hits);
    }
  }

  lemma FindsStep(cfg: Config, s: State, txn: Txn, ch: Choice)
    requires txn.prog.Names? && txn.prog.lookup.pc == 0 && txn.prog.lookup.read < |txn.prog.lookup.names|
    ensures var v := txn.prog.lookup;
            var u := UniquePlayerName(cfg.env, s.db.players, v.names[v.read]);
            && (u.Ok? ==> u.value in s.db.players)
            && Advance(cfg, s.db, s.now, txn, ch)
               == if u.Err? && v.single then None
                  else if u.Err? || exists h :: h in v.hits && h.pid == u.value then
                    Some(txn.(prog := Names(v.(read := v.read + 1))))
                  else
                    Some(txn.(prog := Names(v.(read := v.read + 1, hits := InsertHit(v.hits, Hit(v.names[v.read],
                      u.value, s.db.players[u.value].owner))))))
  {
    var v := txn.prog.lookup;
    var u := UniquePlayerName(cfg.env, s.db.players, v.names[v.read]);
    if u.Ok? {
      assert u.value in Named(cfg.env.key, s.db.players, v.names[v.read]);
    }
    hide UniquePlayerName, InsertHit;
  }

  lemma FoundOneMore(env: Env, players: map<nat, Player>, names: seq<string>, n: nat, hits: seq<Hit>, hit: Hit)
    requires n < |names| && Found(env, players, names, n, hits)
    requires UniquePlayerName(env, players, names[n]) == Ok(hit.pid)
    requires forall h | h in hits :: h.pid != hit.pid
    requires hit.pid in players && hit.name == names[n] && hit.owner == players[hit.pid].owner
    ensures Found(env, players, names, n + 1, InsertHit(hits, hit))
  {
    HitInserted(hits, hit);
    hide UniquePlayerName, InsertHit;
    assert IsHit(env, players, names, hit);
    assert hit in InsertHit(hits, hit);
  }

  lemma FoundAgain(env: Env, players: map<nat, Player>, names: seq<string>, n: nat, hits: seq<Hit>)
    requires n < |names| && Found(env, players, names, n, hits)
    requires UniquePlayerName(env, players, names[n]).Ok? ==>
               exists h :: h in hits && h.pid == UniquePlayerName(env, players, names[n]).value
    ensures Found(env, players, names, n + 1, hits)
  {
    hide UniquePlayerName, IsHit;
  }

  lemma FindsAlone(cfg: Config, s: State, t: Tid, v: LookupVars) returns (txn: Txn)
    requires s.txns == map[] && ServiceOpen(s.db.gate) && Starts(cfg, s.db, Names(v))
    requires v.single ==> |v.names| == 1 && UniquePlayerName(cfg.env, s.db.players, v.names[0]).Ok?
    ensures Leads(cfg, s, At(s, t, txn)) && txn.at == s.now && txn.prog.Names? && txn.writes == NO_WRITES
    ensures txn.prog.lookup == v.(pc := 1, read := |v.names|, hits := txn.prog.lookup.hits)
    ensures Found(cfg.env, s.db.players, v.names, |v.names|, txn.prog.lookup.hits)
  {
    hide Leads, Advance, UniquePlayerName, Found;
    txn := Txn(Names(v), {}, {}, s.now, NO_WRITES);
    BeginsAlone(cfg, s, t, Names(v));
    var ch := Choice(s.now, 0, NIL, 0, {}, [], {});
    NothingFound(cfg.env, s.db.players, v.names);
    while txn.prog.lookup.read < |v.names|
      invariant Leads(cfg, s, At(s, t, txn)) && txn.at == s.now && txn.prog.Names? && txn.writes == NO_WRITES
      invariant txn.prog.lookup.read <= |v.names|
      invariant txn.prog.lookup == v.(read := txn.prog.lookup.read, hits := txn.prog.lookup.hits)
      invariant Found(cfg.env, s.db.players, v.names, txn.prog.lookup.read, txn.prog.lookup.hits)
      decreases |v.names| - txn.prog.lookup.read
    {
      FindsOnce(cfg, s, txn, ch);
      txn := StepsOn(cfg, s, t, txn, ch);
    }
    FindsEnd(cfg, s, txn, ch);
    txn := StepsOn(cfg, s, t, txn, ch);
  }

  lemma NothingFound(env: Env, players: map<nat, Player>, names: seq<string>)
    ensures Found(env, players, names, 0, [])
  {
  }

  lemma FindsEnd(cfg: Config, s: State, txn: Txn, ch: Choice)
    requires txn.prog.Names? && txn.prog.lookup.pc == 0 && txn.prog.lookup.read == |txn.prog.lookup.names|
    ensures Advance(cfg, s.db, s.now, txn, ch) == Some(txn.(prog := Names(txn.prog.lookup.(pc := 1))))
  {
  }

  // ---- one candidate ----

  /** The player has an identity or can be given one. */
  ghost predicate Providable(ids: map<nat, IdRow>, pid: nat, player: Player, watermark: nat, draw: S.Draw)
  {
    || ReadIdentity(ids, pid, player).Ok?
    || (ReadIdentity(ids, pid, player) == Err(NotFound) && pid > watermark && S.Pick(ids, draw, pid).Some?)
  }

  /** The lookup after its candidate at the front has been dealt with. */
  predicate Dealt(v: LookupVars, v': LookupVars, r: Result<Identity, Error>)
    requires v.hits != []
  {
    var rest := v.(hits := v.hits[1..], tries := v'.tries);
    v' == (match r
           case Err(_) => rest.(pc := 1)
           case Ok(x) => if v.single then rest.(pc := 6, answers := [x])
                         else rest.(pc := 1, resolved := v.resolved[v.hits[0].pid := x]))
  }

  /** Only identities are pending, and the events of an answer. */
  predicate Writing(w: Writes, events: seq<Event>)
  {
    w == NO_WRITES.(identities := w.identities, events := events)
  }

  function Told(single: bool, r: Result<Identity, Error>): seq<Event>
  {
    if single && r.Ok? then Provisions([r.value]) else []
  }

  /** Locking the player and looking at its name again. */
  lemma LocksHit(cfg: Config, s: State, txn: Txn, ch: Choice)
    requires txn.prog.Names? && txn.prog.lookup.pc in {1, 2} && txn.prog.lookup.hits != []
    requires IsHit(cfg.env, s.db.players, txn.prog.lookup.names, txn.prog.lookup.hits[0])
    ensures Advance(cfg, s.db, s.now, txn, ch).Some?
    ensures var v, next := txn.prog.lookup, Advance(cfg, s.db, s.now, txn, ch).value;
            next.prog == Names(v.(pc := v.pc + 1)) && next.writes == txn.writes
  {
    hide UniquePlayerName;
  }

  /** Reading the player's row. */
  lemma ReadsHit(cfg: Config, s: State, txn: Txn, ch: Choice, draw: S.Draw) returns (r: Result<Identity, Error>)
    requires txn.prog.Names? && txn.prog.lookup.pc == 3 && txn.prog.lookup.hits != []
    requires txn.prog.lookup.hits[0].pid in s.db.players && Writing(txn.writes, [])
    requires var v, ids := txn.prog.lookup, ViewIds(s.db, txn.writes);
             v.single ==> Providable(ids, v.hits[0].pid, s.db.players[v.hits[0].pid], cfg.watermark, draw)
    ensures Advance(cfg, s.db, s.now, txn, ch).Some?
    ensures var v, next := txn.prog.lookup, Advance(cfg, s.db, s.now, txn, ch).value;
            var pid, ids := v.hits[0].pid, ViewIds(s.db, txn.writes);
            && next.prog.Names?
            && if ReadIdentity(ids, pid, s.db.players[pid]) == Err(NotFound) && pid > cfg.watermark then
                 next == txn.(prog := Names(v.(pc := 4, tries := 0)))
               else
                 && Dealt(v, next.prog.lookup, r) && ViewIds(s.db, next.writes) == ids
                 && Writing(next.writes, Told(v.single, r))
                 && S.Provides(ids, ids, s.db.players[pid], pid, cfg.watermark, draw, r)
  {
    hide ViewIds;
    var v, ids := txn.prog.lookup, ViewIds(s.db, txn.writes);
    var read := ReadIdentity(ids, v.hits[0].pid, s.db.players[v.hits[0].pid]);
    hide ReadIdentity, S.Pick;
    r := if read == Err(NotFound) then Err(IdentityConflict) else read;
    assert [] + Told(v.single, r) == Told(v.single, r);
    SameView(s.db, txn.writes, Told(v.single, r));
  }

  lemma SameView(db: Db, w: Writes, events: seq<Event>)
    ensures ViewIds(db, w.(events := events)) == ViewIds(db, w)
  {
  }

  /** Trying the next candidate identifier. */
  lemma DrawsHit(cfg: Config, s: State, txn: Txn, ch: Choice, draw: S.Draw) returns (r: Result<Identity, Error>)
    requires txn.prog.Names? && txn.prog.lookup.pc == 4 && txn.prog.lookup.hits != [] && Writing(txn.writes, [])
    requires var v, ids := txn.prog.lookup, ViewIds(s.db, txn.writes);
             && v.hits[0].pid in s.db.players && v.hits[0].pid > cfg.watermark && IdentitiesOk(ids)
             && ReadIdentity(ids, v.hits[0].pid, s.db.players[v.hits[0].pid]) == Err(NotFound)
             && v.tries <= 3 && (forall k :: 0 <= k < v.tries ==> !S.Free(ids, draw(v.hits[0].pid, k)))
             && (v.single ==> S.Pick(ids, draw, v.hits[0].pid).Some?)
             && ch.id !in ids && ch.uuid == draw(v.hits[0].pid, v.tries)
    ensures Advance(cfg, s.db, s.now, txn, ch).Some?
    ensures var v, next := txn.prog.lookup, Advance(cfg, s.db, s.now, txn, ch).value;
            var pid, ids := v.hits[0].pid, ViewIds(s.db, txn.writes);
            && next.prog.Names?
            && if v.tries < 3 && !S.Free(ids, draw(pid, v.tries)) then
                 next == txn.(prog := Names(v.(tries := v.tries + 1)))
               else
                 && Dealt(v, next.prog.lookup, r) && Writing(next.writes, Told(v.single, r))
                 && IdentitiesOk(ViewIds(s.db, next.writes))
                 && S.Provides(ids, ViewIds(s.db, next.writes), s.db.players[pid], pid, cfg.watermark, draw, r)
  {
    hide ViewIds, ReadIdentity, IdentitiesOk, Allocate, S.Free;
    var v, ids := txn.prog.lookup, ViewIds(s.db, txn.writes);
    var pid := v.hits[0].pid;
    r := Err(IdentityConflict);
    if v.tries == 3 {
      assert !S.Free(ids, draw(pid, 0)) && !S.Free(ids, draw(pid, 1)) && !S.Free(ids, draw(pid, 2));
    } else if !S.Free(ids, ch.uuid) {
      LP.Collides(s.db, txn, pid, ch);
    } else {
      LP.Allocates(s.db, txn, pid, ch);
      FirstFree(ids, draw, pid, v.tries);
      r := Ok(Allocate(s.db, txn, pid, ch).made);
      var mid := Allocate(s.db, txn, pid, ch).txn;
      assert [] + Told(v.single, r) == Told(v.single, r);
      SameView(s.db, mid.writes, Told(v.single, r));
    }
    hide S.Pick;
  }

  lemma FirstFree(ids: map<nat, IdRow>, draw: S.Draw, pid: nat, tries: nat)
    requires tries < 3 && S.Free(ids, draw(pid, tries)) && forall k :: 0 <= k < tries ==> !S.Free(ids, draw(pid, k))
    ensures S.Pick(ids, draw, pid) == Some(draw(pid, tries))
  {
    hide S.Free;
    assert (tries > 0 ==> !S.Free(ids, draw(pid, 0))) && (tries > 1 ==> !S.Free(ids, draw(pid, 1)));
  }

  lemma FreshChoice(s: State, w: Writes, u: Uuid) returns (ch: Choice)
    ensures ch.at == s.now && ch.id !in ViewIds(s.db, w) && ch.uuid == u
  {
    var id: nat := 0;
    if ViewIds(s.db, w).Keys != {} {
      id := LP.Highest(ViewIds(s.db, w).Keys);
      id := id + 1;
    }
    ch := Choice(s.now, 0, u, id, {}, [], {});
  }

  /** From a candidate at the front to the next one. */
  lemma DealsWith(cfg: Config, s: State, t: Tid, txn: Txn, draw: S.Draw) returns (next: Txn, r: Result<Identity, Error>)
    requires Leads(cfg, s, At(s, t, txn)) && txn.at == s.now && txn.prog.Names? && txn.prog.lookup.pc == 1
    requires txn.prog.lookup.hits != [] && Writing(txn.writes, []) && IdentitiesOk(ViewIds(s.db, txn.writes))
    requires IsHit(cfg.env, s.db.players, txn.prog.lookup.names, txn.prog.lookup.hits[0])
    requires var v, ids := txn.prog.lookup, ViewIds(s.db, txn.writes);
             v.single ==> Providable(ids, v.hits[0].pid, s.db.players[v.hits[0].pid], cfg.watermark, draw)
    ensures Leads(cfg, s, At(s, t, next)) && next.at == s.now && next.prog.Names?
    ensures Dealt(txn.prog.lookup, next.prog.lookup, r) && Writing(next.writes, Told(txn.prog.lookup.single, r))
    ensures IdentitiesOk(ViewIds(s.db, next.writes))
    ensures var pid := txn.prog.lookup.hits[0].pid;
            S.Provides(ViewIds(s.db, txn.writes), ViewIds(s.db, next.writes), s.db.players[pid], pid, cfg.watermark,
                       draw, r)
  {
    hide Leads, Advance, ViewIds, IdentitiesOk, ReadIdentity, S.Provides, S.Pick, S.Free, UniquePlayerName;
    var v := txn.prog.lookup;
    var pid := v.hits[0].pid;
    var ch := FreshChoice(s, txn.writes, draw(pid, 0));
    LocksHit(cfg, s, txn, ch);
    next := StepsOn(cfg, s, t, txn, ch);
    LocksHit(cfg, s, next, ch);
    next := StepsOn(cfg, s, t, next, ch);
    r := ReadsHit(cfg, s, next, ch, draw);
    next := StepsOn(cfg, s, t, next, ch);
    while next.prog.lookup.pc == 4
      invariant Leads(cfg, s, At(s, t, next)) && next.at == s.now && next.prog.Names?
      invariant next.prog.lookup.pc == 4 ==>
                  && next.prog.lookup == v.(pc := 4, tries := next.prog.lookup.tries) && next.writes == txn.writes
                  && next.prog.lookup.tries <= 3 && pid > cfg.watermark
                  && ReadIdentity(ViewIds(s.db, txn.writes), pid, s.db.players[pid]) == Err(NotFound)
                  && forall k :: 0 <= k < next.prog.lookup.tries ==> !S.Free(ViewIds(s.db, txn.writes), draw(pid, k))
      invariant next.prog.lookup.pc != 4 ==>
                  && Dealt(v, next.prog.lookup, r) && Writing(next.writes, Told(v.single, r))
                  && IdentitiesOk(ViewIds(s.db, next.writes))
                  && S.Provides(ViewIds(s.db, txn.writes), ViewIds(s.db, next.writes), s.db.players[pid], pid,
                                cfg.watermark, draw, r)
      decreases if next.prog.lookup.pc == 4 then 4 - next.prog.lookup.tries else 0
    {
      ch := FreshChoice(s, next.writes, draw(pid, next.prog.lookup.tries));
      r := DrawsHit(cfg, s, next, ch, draw);
      next := StepsOn(cfg, s, t, next, ch);
    }
  }

  // ---- all candidates ----

  function Candidates(hits: seq<Hit>): (r: seq<P.Candidate>)
    ensures |r| == |hits|
    ensures forall i :: 0 <= i < |hits| ==> r[i] == P.Candidate(hits[i].name, hits[i].pid, hits[i].owner)
  {
    seq(|hits|, i requires 0 <= i < |hits| => P.Candidate(hits[i].name, hits[i].pid, hits[i].owner))
  }

  lemma FoundAreCandidates(env: Env, players: map<nat, Player>, names: seq<string>, hits: seq<Hit>)
    requires Found(env, players, names, |names|, hits)
    ensures P.Candidates(env, players, names, Candidates(hits))
  {
    hide UniquePlayerName;
    var all := Candidates(hits);
    forall i | 0 <= i < |all|
      ensures P.IsCandidate(env, players, names, all[i])
    {
      assert IsHit(env, players, names, hits[i]);
    }
    forall k | 0 <= k < |names| && UniquePlayerName(env, players, names[k]).Ok?
      ensures exists i :: 0 <= i < |all| && all[i].pid == UniquePlayerName(env, players, names[k]).value
    {
      var h :| h in hits && h.pid == UniquePlayerName(env, players, names[k]).value;
      var i :| 0 <= i < |hits| && hits[i] == h;
      assert all[i].pid == h.pid;
    }
  }

  /** The players before the rest have been dealt with as the transaction would. */
  ghost predicate DoneTo(cfg: Config, db: Db, draw: S.Draw, all: seq<Hit>, txn: Txn)
  {
    && txn.prog.Names? && Writing(txn.writes, []) && IdentitiesOk(ViewIds(db, txn.writes))
    && var v := txn.prog.lookup;
    && |v.hits| <= |all| && v.hits == all[|all| - |v.hits|..]
    && P.ResolvedSo(db.identities, ViewIds(db, txn.writes), db.players, cfg.watermark, draw,
                    P.Pids(Candidates(all[..|all| - |v.hits|])), v.resolved)
  }

  lemma DoneOneMore(cfg: Config, db: Db, names: seq<string>, draw: S.Draw, all: seq<Hit>, txn: Txn, next: Txn,
                    r: Result<Identity, Error>)
    requires DoneTo(cfg, db, draw, all, txn) && txn.prog.lookup.hits != [] && !txn.prog.lookup.single
    requires Found(cfg.env, db.players, names, |names|, all) && next.prog.Names?
    requires Dealt(txn.prog.lookup, next.prog.lookup, r) && Writing(next.writes, [])
    requires IdentitiesOk(ViewIds(db, next.writes)) && txn.prog.lookup.hits[0].pid in db.players
    requires var pid := txn.prog.lookup.hits[0].pid;
             S.Provides(ViewIds(db, txn.writes), ViewIds(db, next.writes), db.players[pid], pid, cfg.watermark, draw, r)
    ensures DoneTo(cfg, db, draw, all, next)
  {
    hide ViewIds, IdentitiesOk, S.Provides, P.ResolvedSo, IsHit;
    var v := txn.prog.lookup;
    var n := |all| - |v.hits|;
    var pid := v.hits[0].pid;
    assert all[..n + 1] == all[..n] + [all[n]];
    assert P.Pids(Candidates(all[..n + 1])) == P.Pids(Candidates(all[..n])) + [pid];
    assert pid !in P.Pids(Candidates(all[..n]));
    P.ResolvedOneMore(db.identities, ViewIds(db, txn.writes), ViewIds(db, next.writes), db.players, cfg.watermark,
                      P.Pids(Candidates(all[..n])), v.resolved, pid, draw, r);
  }

  lemma DealsWithAll(cfg: Config, s: State, t: Tid, txn: Txn, draw: S.Draw) returns (done: Txn)
    requires Leads(cfg, s, At(s, t, txn)) && txn.at == s.now && txn.prog.Names? && txn.writes == NO_WRITES
    requires var v := txn.prog.lookup;
             && v.pc == 1 && !v.single && v.resolved == map[]
             && Found(cfg.env, s.db.players, v.names, |v.names|, v.hits)
    requires IdentitiesOk(s.db.identities)
    ensures Leads(cfg, s, At(s, t, done)) && done.at == s.now && done.prog.Names?
    ensures DoneTo(cfg, s.db, draw, txn.prog.lookup.hits, done)
    ensures var v, v' := txn.prog.lookup, done.prog.lookup;
            v' == v.(hits := [], tries := v'.tries, resolved := v'.resolved)
  {
    var all, v := txn.prog.lookup.hits, txn.prog.lookup;
    done := txn;
    assert ViewIds(s.db, txn.writes) == s.db.identities;
    hide Leads, IdentitiesOk, S.Provides, P.ResolvedSo, IsHit, ViewIds, P.Pids;
    P.NothingResolved(s.db.identities, s.db.players, cfg.watermark, draw, P.Pids(Candidates(all[..0]))) by {
      assert all[..0] == [];
      assert P.Pids(Candidates([])) == [];
    }
    while done.prog.lookup.hits != []
      invariant Leads(cfg, s, At(s, t, done)) && done.at == s.now && done.prog.Names?
      invariant DoneTo(cfg, s.db, draw, all, done)
      invariant var v' := done.prog.lookup; v' == v.(hits := v'.hits, tries := v'.tries, resolved := v'.resolved)
      decreases |done.prog.lookup.hits|
    {
      var h := done.prog.lookup.hits[0];
      assert h in all;
      HitPlayer(cfg.env, s.db.players, v.names, h);
      var next, r := DealsWith(cfg, s, t, done, draw);
      DoneOneMore(cfg, s.db, v.names, draw, all, done, next, r);
      done := next;
    }
  }

  lemma HitPlayer(env: Env, players: map<nat, Player>, names: seq<string>, h: Hit)
    requires IsHit(env, players, names, h)
    ensures h.pid in players
  {
  }

  // ---- the answers ----

  /** The answers so far, and who is left to be answered. */
  ghost predicate Answered(cfg: Config, db: Db, full: map<nat, Identity>, v: LookupVars)
  {
    && v.read <= |v.names| && v.answers == P.Batch(cfg.env, db, cfg.watermark, v.names[..v.read])
    && (forall p :: p in v.resolved <==> p in full && !exists y :: y in v.answers && y.player == p)
    && forall p | p in v.resolved :: v.resolved[p] == full[p]
  }

  lemma AnswersOnce(cfg: Config, s: State, txn: Txn, ch: Choice, db: Db, full: map<nat, Identity>)
    requires txn.prog.Names? && txn.prog.lookup.pc == 5 && txn.prog.lookup.read < |txn.prog.lookup.names|
    requires Answered(cfg, db, full, txn.prog.lookup) && db.players == s.db.players
    requires var name := txn.prog.lookup.names[txn.prog.lookup.read];
             match UniquePlayerName(cfg.env, db.players, name)
             case Err(_) => LookupName(cfg.env, db, cfg.watermark, name).Err?
             case Ok(p) =>
               if p in full then LookupName(cfg.env, db, cfg.watermark, name) == Ok(full[p]) && full[p].player == p
               else LookupName(cfg.env, db, cfg.watermark, name).Err?
    ensures Advance(cfg, s.db, s.now, txn, ch).Some?
    ensures var v, next := txn.prog.lookup, Advance(cfg, s.db, s.now, txn, ch).value;
            && next.prog.Names? && Answered(cfg, db, full, next.prog.lookup)
            && var v' := next.prog.lookup;
            && v' == v.(read := v.read + 1, answers := v'.answers, resolved := v'.resolved)
            && next == txn.(prog := Names(v'))
  {
    hide UniquePlayerName, LookupName;
    var v := txn.prog.lookup;
    assert v.names[..v.read + 1][..v.read] == v.names[..v.read];
    assert v.names[..v.read + 1][v.read] == v.names[v.read];
    var u := UniquePlayerName(cfg.env, db.players, v.names[v.read]);
    if u.Ok? && u.value in v.resolved {
      var more := v.answers + [full[u.value]];
      assert forall y :: y in more <==> y in v.answers || y == full[u.value];
    }
  }

  /** From the last candidate to the end. */
  lemma AnswersAlone(cfg: Config, s: State, t: Tid, txn: Txn, draw: S.Draw, all: seq<Hit>) returns (done: Txn)
    requires Leads(cfg, s, At(s, t, txn)) && txn.at == s.now && txn.prog.Names? && DoneTo(cfg, s.db, draw, all, txn)
    requires var v := txn.prog.lookup;
             && v.pc == 1 && v.hits == [] && !v.single && v.answers == []
             && Found(cfg.env, s.db.players, v.names, |v.names|, all)
    ensures Leads(cfg, s, At(s, t, done)) && done.prog.Names? && Ready(done.prog)
    ensures var db := s.db.(identities := ViewIds(s.db, txn.writes));
            var answers := P.Batch(cfg.env, db, cfg.watermark, txn.prog.lookup.names);
            done.writes == txn.writes.(events := Provisions(answers)) && done.prog.lookup.answers == answers
  {
    hide Leads, IdentitiesOk, P.ResolvedSo, ViewIds, P.Pids, UniquePlayerName, LookupName, P.Candidates, Found, Advance,
      Answered, DoneTo, P.Batch;
    var v, full := txn.prog.lookup, txn.prog.lookup.resolved;
    var db := s.db.(identities := ViewIds(s.db, txn.writes));
    var ch := Choice(s.now, 0, NIL, 0, {}, [], {});
    AllDone(cfg, s.db, draw, all, txn);
    FoundAreCandidates(cfg.env, s.db.players, v.names, all);
    AnswersStart(cfg, s, txn, ch, db);
    done := StepsOn(cfg, s, t, txn, ch);
    while done.prog.lookup.read < |v.names|
      invariant Leads(cfg, s, At(s, t, done)) && done.at == s.now && done.prog.Names? && done.writes == txn.writes
      invariant var v' := done.prog.lookup;
                v' == v.(pc := 5, read := v'.read, answers := v'.answers, resolved := v'.resolved)
      invariant Answered(cfg, db, full, done.prog.lookup)
      decreases |v.names| - done.prog.lookup.read
    {
      P.LookupAgrees(cfg.env, s.db.identities, db, cfg.watermark, draw, v.names, Candidates(all), full,
                     done.prog.lookup.read);
      AnswersOnce(cfg, s, done, ch, db, full);
      done := StepsOn(cfg, s, t, done, ch);
    }
    AllAnswered(cfg, db, full, done.prog.lookup);
    AnswersEnd(cfg, s, done, ch);
    done := StepsOn(cfg, s, t, done, ch);
  }

  lemma AllDone(cfg: Config, db: Db, draw: S.Draw, all: seq<Hit>, txn: Txn)
    requires DoneTo(cfg, db, draw, all, txn) && txn.prog.lookup.hits == []
    ensures IdentitiesOk(ViewIds(db, txn.writes)) && txn.writes.events == []
    ensures P.ResolvedSo(db.identities, ViewIds(db, txn.writes), db.players, cfg.watermark, draw,
                         P.Pids(Candidates(all)), txn.prog.lookup.resolved)
  {
    hide IdentitiesOk, P.ResolvedSo, ViewIds, P.Pids;
    assert all[..|all|] == all;
  }

  lemma AnswersStart(cfg: Config, s: State, txn: Txn, ch: Choice, db: Db)
    requires txn.prog.Names?
    requires var v := txn.prog.lookup; v.pc == 1 && v.hits == [] && !v.single && v.answers == []
    ensures Advance(cfg, s.db, s.now, txn, ch) == Some(txn.(prog := Names(txn.prog.lookup.(pc := 5, read := 0))))
    ensures Answered(cfg, db, txn.prog.lookup.resolved, txn.prog.lookup.(pc := 5, read := 0))
  {
    assert txn.prog.lookup.names[..0] == [];
  }

  lemma AllAnswered(cfg: Config, db: Db, full: map<nat, Identity>, v: LookupVars)
    requires Answered(cfg, db, full, v) && v.read >= |v.names|
    ensures v.read == |v.names| && v.answers == P.Batch(cfg.env, db, cfg.watermark, v.names)
  {
    hide P.Batch;
    assert v.names[..|v.names|] == v.names;
  }

  lemma AnswersEnd(cfg: Config, s: State, txn: Txn, ch: Choice)
    requires txn.prog.Names? && txn.prog.lookup.pc == 5 && txn.prog.lookup.read == |txn.prog.lookup.names|
    requires txn.writes.events == []
    ensures Advance(cfg, s.db, s.now, txn, ch)
            == Some(txn.(prog := Names(txn.prog.lookup.(pc := 6)),
                         writes := txn.writes.(events := Provisions(txn.prog.lookup.answers))))
  {
    assert [] + Provisions(txn.prog.lookup.answers) == Provisions(txn.prog.lookup.answers);
  }

  // ---- the whole lookup ----

  /** A lookup of up to ten names that runs alone ends. What it answers, and the rows it leaves, are those of the
      transaction: each player once, and exactly the players that a single lookup of one of the names finds
      afterwards. */
  lemma LookupSucceeds(cfg: Config, s: State, t: Tid, v: LookupVars, draw: S.Draw)
    returns (s': State, answers: seq<Identity>)
    requires s.txns == map[] && ServiceOpen(s.db.gate) && Starts(cfg, s.db, Names(v)) && !v.single
    requires IdentitiesOk(s.db.identities) && S.Watermark(s.db) == cfg.watermark
    ensures Leads(cfg, s, s') && s'.txns == map[] && s'.log == s.log + Provisions(answers)
    ensures P.BatchBody(cfg.env, s.db, s'.db, v.names, draw, Ok(answers)) && IdentitiesOk(s'.db.identities)
    ensures P.Answers(cfg.env, s'.db, cfg.watermark, v.names, |v.names|, answers)
  {
    hide Leads, IdentitiesOk, P.ResolvedSo, ViewIds, P.Pids, Found, P.Candidates, P.Batch, P.Answers, Starts,
      P.BatchBody, Provisions;
    StartsEmpty(cfg, s.db, v);
    var found := FindsAlone(cfg, s, t, v);
    var all := found.prog.lookup.hits;
    var dealt := DealsWithAll(cfg, s, t, found, draw);
    var done := AnswersAlone(cfg, s, t, dealt, draw, all);
    CommitsAlone(cfg, s, t, done);
    s' := Committed(s, done.writes);
    answers := done.prog.lookup.answers;
    SameView(s.db, dealt.writes, Provisions(answers));
    LookupLeaves(s.db, done.writes, |s.log|);
    assert s'.db == s.db.(identities := ViewIds(s.db, dealt.writes));
    LookupEnds(cfg, s.db, s'.db, v.names, draw, all, dealt, answers);
    P.BatchMeans(cfg.env, s'.db, cfg.watermark, v.names, |v.names|);
    assert v.names[..|v.names|] == v.names;
    assert IssueEvents(done.writes, |s.log|) == [] && s.log + [] == s.log;
  }

  lemma StartsEmpty(cfg: Config, db: Db, v: LookupVars)
    requires Starts(cfg, db, Names(v))
    ensures v.pc == 0 && v.read == 0 && v.hits == [] && v.resolved == map[] && v.answers == []
    ensures if v.single then |v.names| == 1 else |v.names| <= 10
  {
  }

  lemma LookupLeaves(db: Db, w: Writes, serial: nat)
    requires Writing(w, w.events)
    ensures Apply(db, w, serial) == db.(identities := ViewIds(db, w))
  {
    OnlyIdentities(db, w, serial);
  }

  lemma LookupEnds(cfg: Config, before: Db, after: Db, names: seq<string>, draw: S.Draw, all: seq<Hit>, txn: Txn,
                   answers: seq<Identity>)
    requires DoneTo(cfg, before, draw, all, txn) && txn.prog.lookup.hits == []
    requires Found(cfg.env, before.players, names, |names|, all) && |names| <= 10 && ServiceOpen(before.gate)
    requires after == before.(identities := ViewIds(before, txn.writes)) && S.Watermark(before) == cfg.watermark
    requires answers == P.Batch(cfg.env, after, cfg.watermark, names)
    ensures P.BatchBody(cfg.env, before, after, names, draw, Ok(answers)) && IdentitiesOk(after.identities)
  {
    hide IdentitiesOk, P.ResolvedSo, ViewIds, P.Pids, Found, P.Candidates, P.Batch, P.Attended, P.Designated;
    assert all[..|all|] == all;
    FoundAreCandidates(cfg.env, before.players, names, all);
    P.ResolvedGrew(before.identities, after.identities, before.players, cfg.watermark, draw, P.Pids(Candidates(all)),
                   txn.prog.lookup.resolved);
    P.CandidatesNamed(cfg.env, before.players, names, Candidates(all));
  }

  /** The lookup of one name succeeds, running alone, if the name designates one player and that player has an identity
      or can be given one; its answer and the rows it leaves are those of the transaction, and a plain lookup finds the
      same afterwards. */
  lemma NameSucceeds(cfg: Config, s: State, t: Tid, v: LookupVars, draw: S.Draw, pid: nat)
    returns (s': State, x: Identity)
    requires s.txns == map[] && ServiceOpen(s.db.gate) && Starts(cfg, s.db, Names(v)) && v.single && v.names[0] != ""
    requires IdentitiesOk(s.db.identities) && S.Watermark(s.db) == cfg.watermark
    requires UniquePlayerName(cfg.env, s.db.players, v.names[0]) == Ok(pid) && pid in s.db.players
    requires Providable(s.db.identities, pid, s.db.players[pid], cfg.watermark, draw)
    ensures Leads(cfg, s, s') && s'.txns == map[] && s'.log == s.log + [Provided(x.player, x.id, x.uuid)]
    ensures P.ByNameBody(cfg.env, s.db, s'.db, v.names[0], draw, Ok(x)) && IdentitiesOk(s'.db.identities)
    ensures LookupName(cfg.env, s'.db, cfg.watermark, v.names[0]) == Ok(x)
  {
    hide Leads, IdentitiesOk, ViewIds, Starts, S.Provides, Providable, UniquePlayerName, P.ByNameBody, LookupName;
    StartsEmpty(cfg, s.db, v);
    var found := FindsAlone(cfg, s, t, v);
    OneHit(cfg.env, s.db.players, v.names, found.prog.lookup.hits, pid);
    SameView(s.db, NO_WRITES, []);
    NothingPending(s.db);
    var done, r := DealsWith(cfg, s, t, found, draw);
    ProvidableIsProvided(s.db.identities, ViewIds(s.db, done.writes), pid, s.db.players[pid], cfg.watermark, draw, r);
    x := r.value;
    CommitsAlone(cfg, s, t, done);
    s' := Committed(s, done.writes);
    LookupLeaves(s.db, done.writes, |s.log|);
    NameEnds(cfg, s.db, s'.db, v.names[0], draw, pid, r);
    assert IssueEvents(done.writes, |s.log|) == [] && s.log + [] == s.log;
    assert Provisions([x]) == [Provided(x.player, x.id, x.uuid)];
  }

  lemma NothingPending(db: Db)
    ensures ViewIds(db, NO_WRITES) == db.identities
  {
  }

  lemma OneHit(env: Env, players: map<nat, Player>, names: seq<string>, hits: seq<Hit>, pid: nat)
    requires |names| == 1 && Found(env, players, names, 1, hits) && UniquePlayerName(env, players, names[0]) == Ok(pid)
    ensures hits != [] && IsHit(env, players, names, hits[0]) && hits[0].pid == pid
  {
    hide UniquePlayerName;
    var h :| h in hits && h.pid == pid;
    assert hits[0] in hits;
    assert hits[0].name == names[0];
  }

  lemma ProvidableIsProvided(before: map<nat, IdRow>, after: map<nat, IdRow>, pid: nat, player: Player, watermark: nat,
                             draw: S.Draw, r: Result<Identity, Error>)
    requires Providable(before, pid, player, watermark, draw)
    requires S.Provides(before, after, player, pid, watermark, draw, r)
    ensures r.Ok?
  {
    hide ReadIdentity, S.Pick;
  }

  lemma NameEnds(cfg: Config, before: Db, after: Db, name: string, draw: S.Draw, pid: nat, r: Result<Identity, Error>)
    requires r.Ok? && name != "" && ServiceOpen(before.gate) && S.Watermark(before) == cfg.watermark
    requires UniquePlayerName(cfg.env, before.players, name) == Ok(pid) && pid in before.players
    requires after == before.(identities := after.identities) && IdentitiesOk(after.identities)
    requires S.Provides(before.identities, after.identities, before.players[pid], pid, cfg.watermark, draw, r)
    ensures P.ByNameBody(cfg.env, before, after, name, draw, r)
    ensures LookupName(cfg.env, after, cfg.watermark, name) == r
  {
    hide IdentitiesOk, ReadIdentity, UniquePlayerName;
    S.ProvidedIsRead(before.identities, after.identities, before.players[pid], pid, cfg.watermark, draw, r);
    hide S.Provides;
  }

  /** And only then: a transaction that succeeds found one player, which it could provide for. */
  lemma NameNeeds(env: Env, before: Db, after: Db, name: string, draw: S.Draw, x: Identity) returns (pid: nat)
    requires P.ByNameBody(env, before, after, name, draw, Ok(x))
    ensures name != "" && ServiceOpen(before.gate) && UniquePlayerName(env, before.players, name) == Ok(pid)
    ensures pid in before.players
    ensures Providable(before.identities, pid, before.players[pid], S.Watermark(before), draw)
  {
    pid := UniquePlayerName(env, before.players, name).value;
    assert pid in Named(env.key, before.players, name);
    hide ReadIdentity, S.Pick, UniquePlayerName;
  }
}
