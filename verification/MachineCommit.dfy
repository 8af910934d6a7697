/** A commit keeps every invariant of the tables and the history, and shows other transactions only changes
    their locks allow. */
module MachineCommit {
  import opened Basics
  import opened Tables
  import opened Directory
  import opened Machine
  import opened MachineInvariant

  // ---- the history grows at its end ----

  lemma {:induction false} BirthExtends(log: seq<Event>, more: seq<Event>, serial: nat)
    requires serial < |log|
    ensures Birth(log + more, serial) == Birth(log, serial) <= serial
    decreases serial
  {
    assert (log + more)[serial] == log[serial];
    if log[serial].Refreshed? && log[serial].prior.serial < serial {
      BirthExtends(log, more, log[serial].prior.serial);
    }
  }

  lemma NoneRevokedExtends(log: seq<Event>, more: seq<Event>, from: nat, uid: nat)
    requires NoneRevokedSince(log, from, uid) && !Revokes(more, uid)
    ensures NoneRevokedSince(log + more, from, uid)
  {
    forall k | from <= k < |log + more| && (log + more)[k].Revoked?
      ensures (log + more)[k].uid != uid
    {
      if k >= |log| {
        assert (log + more)[k] == more[k - |log|];
      }
    }
  }

  lemma LogShape(log: seq<Event>, w: Writes)
    ensures LogAfter(log, w) == log + (IssueEvents(w, |log|) + w.events)
    ensures forall k :: 0 <= k < |log| ==> LogAfter(log, w)[k] == log[k]
    ensures w.issue.Some? ==> LogAfter(log, w)[|log|] == IssueEvents(w, |log|)[0]
    ensures forall k :: |log| + |IssueEvents(w, |log|)| <= k < |LogAfter(log, w)| ==> LogAfter(log, w)[k] in w.events
    ensures forall e | e in w.events :: e in LogAfter(log, w)
    ensures forall e | e in log :: e in LogAfter(log, w)
  {
  }

  lemma IssueRevokesNothing(w: Writes, serial: nat, uid: nat)
    requires !Revokes(w.events, uid)
    ensures !Revokes(IssueEvents(w, serial) + w.events, uid)
  {
    var all := IssueEvents(w, serial) + w.events;
    var n := |IssueEvents(w, serial)|;
    forall k | 0 <= k < |all| && all[k].Revoked?
      ensures all[k].uid != uid
    {
      if k >= n {
        assert all[k] == w.events[k - n];
      }
    }
  }

  // ---- tables ----

  lemma CommitIdentities(cfg: Config, db: Db, txn: Txn, serial: nat)
    requires IdentitiesOk(db.identities) && IdsPart(cfg, db, txn)
    ensures IdentitiesOk(Apply(db, txn.writes, serial).identities)
  {
  }

  /** Generations never fall. */
  lemma CommitSubjects(db: Db, txn: Txn, serial: nat, uid: nat)
    requires SubjectsPart(db, txn)
    ensures var db' := Apply(db, txn.writes, serial);
            && Base(db.subjects, uid) <= Base(db'.subjects, uid)
            && (uid in db.subjects ==> uid in db'.subjects)
            && (Revokes(txn.writes.events, uid) ==> Base(db.subjects, uid) < Base(db'.subjects, uid))
  {
    if Revokes(txn.writes.events, uid) {
      var k :| 0 <= k < |txn.writes.events| && txn.writes.events[k].Revoked? && txn.writes.events[k].uid == uid;
      assert uid in txn.writes.subjects;
    }
  }

  /** Every token row of the new table is an old one or the one just issued. */
  lemma CommitTokenRows(db: Db, w: Writes, serial: nat, h: Hash)
    requires h in Apply(db, w, serial).tokens
    ensures var row := Apply(db, w, serial).tokens[h];
            || (w.issue.Some? && h == w.issue.value.hash && row == Numbered(w.issue.value, serial))
            || (h in db.tokens && h !in w.kills && row == db.tokens[h])
  {
  }

  lemma CommitTokensOk(cfg: Config, db: Db, now: nat, log: seq<Event>, txn: Txn)
    requires TokensOk(db, log) && cfg.env.ttl > 0
    requires SubjectsPart(db, txn) && IssuePart(cfg, db, now, txn)
    requires forall u | u in db.subjects :: db.subjects[u] >= 1
    ensures TokensOk(Apply(db, txn.writes, |log|), LogAfter(log, txn.writes))
  {
    var w := txn.writes;
    var db' := Apply(db, w, |log|);
    LogShape(log, w);
    forall h | h in db'.tokens
      ensures var row := db'.tokens[h];
        && row.owner in db'.subjects && 1 <= row.generation <= db'.subjects[row.owner]
        && (row.identity.Some? ==> row.identity.value in db'.identities)
        && row.created < row.expires
        && row.serial < |LogAfter(log, w)| && Issues(LogAfter(log, w)[row.serial], h, row)
    {
      CommitTokenRows(db, w, |log|, h);
      CommitSubjects(db, txn, |log|, db'.tokens[h].owner);
    }
  }

  /** A commit appends at most one issuing event, right after the history it found. */
  lemma IssuedNow(db: Db, log: seq<Event>, txn: Txn, k: nat)
    requires EventsPart(db, txn)
    requires |log| <= k < |LogAfter(log, txn.writes)|
    requires LogAfter(log, txn.writes)[k].LoggedIn? || LogAfter(log, txn.writes)[k].Refreshed?
    ensures k == |log| && txn.writes.issue.Some?
    ensures LogAfter(log, txn.writes)[k] == IssueEvents(txn.writes, |log|)[0]
  {
    LogShape(log, txn.writes);
    if k >= |log| + |IssueEvents(txn.writes, |log|)| {
      NotIssuing(db, txn, LogAfter(log, txn.writes)[k]);
    }
  }

  lemma NotIssuing(db: Db, txn: Txn, e: Event)
    requires EventsPart(db, txn) && e in txn.writes.events
    ensures !e.LoggedIn? && !e.Refreshed?
  {
  }

  /** The row a refresh consumes is in the table, was issued under its serial, and no earlier refresh consumed it. */
  lemma PriorRow(cfg: Config, db: Db, now: nat, log: seq<Event>, txn: Txn) returns (g: Hash)
    requires TokensOk(db, log) && SpentGone(db.tokens, log) && IssuePart(cfg, db, now, txn)
    requires txn.writes.issue.Some? && txn.writes.issue.value.from.Some?
    ensures var prior := txn.writes.issue.value.from.value;
            && g in txn.writes.kills && g in db.tokens && db.tokens[g] == prior
            && prior.serial < |log| && Issues(log[prior.serial], g, prior)
            && Inherits(prior, txn.writes.issue.value.row)
            && forall k :: 0 <= k < |log| && log[k].Refreshed? ==> log[k].prior.serial != prior.serial
  {
    g :| g in txn.writes.kills && g in db.tokens && db.tokens[g] == txn.writes.issue.value.from.value;
  }

  lemma CommitLog(cfg: Config, db: Db, now: nat, log: seq<Event>, txn: Txn)
    requires LogOk(log) && TokensOk(db, log) && SpentGone(db.tokens, log)
    requires IssuePart(cfg, db, now, txn) && EventsPart(db, txn)
    ensures LogOk(LogAfter(log, txn.writes))
  {
    var w := txn.writes;
    var log' := LogAfter(log, w);
    LogShape(log, w);
    if w.issue.Some? && w.issue.value.from.Some? {
      var _ := PriorRow(cfg, db, now, log, txn);
    }
    forall k | |log| <= k < |log'| && (log'[k].LoggedIn? || log'[k].Refreshed?)
      ensures k == |log| && w.issue.Some? && log'[k] == IssueEvents(w, |log|)[0]
    {
      IssuedNow(db, log, txn, k);
    }
    hide EventsPart, IssuePart, TokensOk, SpentGone, LogAfter;
    assert LogOk(log');
  }

  lemma CommitSpent(cfg: Config, db: Db, now: nat, log: seq<Event>, txn: Txn)
    requires LogOk(log) && TokensOk(db, log) && SpentGone(db.tokens, log)
    requires IssuePart(cfg, db, now, txn) && EventsPart(db, txn)
    ensures SpentGone(Apply(db, txn.writes, |log|).tokens, LogAfter(log, txn.writes))
  {
    var w := txn.writes;
    var log' := LogAfter(log, w);
    var tokens' := Apply(db, w, |log|).tokens;
    LogShape(log, w);
    forall h, k | h in tokens' && 0 <= k < |log'| && log'[k].Refreshed?
      ensures tokens'[h].serial != log'[k].prior.serial
    {
      CommitTokenRows(db, w, |log|, h);
      if k >= |log| {
        IssuedNow(db, log, txn, k);
        var g := PriorRow(cfg, db, now, log, txn);
      }
    }
  }

  lemma CommitRevocation(cfg: Config, db: Db, now: nat, log: seq<Event>, txn: Txn)
    requires TokensOk(db, log) && RevocationOk(db, log)
    requires SubjectsPart(db, txn) && IssuePart(cfg, db, now, txn)
    ensures RevocationOk(Apply(db, txn.writes, |log|), LogAfter(log, txn.writes))
  {
    var w := txn.writes;
    var db' := Apply(db, w, |log|);
    var more := IssueEvents(w, |log|) + w.events;
    LogShape(log, w);
    forall h | h in db'.tokens && Base(db'.subjects, db'.tokens[h].owner) == db'.tokens[h].generation
      ensures NoneRevokedSince(log + more, Birth(log + more, db'.tokens[h].serial), db'.tokens[h].owner)
    {
      var row := db'.tokens[h];
      CommitTokenRows(db, w, |log|, h);
      CommitSubjects(db, txn, |log|, row.owner);
      if h in db.tokens && h !in w.kills && row == db.tokens[h] {
        assert Base(db.subjects, row.owner) == row.generation;
        IssueRevokesNothing(w, |log|, row.owner);
        BirthExtends(log, more, row.serial);
        NoneRevokedExtends(log, more, Birth(log, row.serial), row.owner);
      } else {
        CommitFresh(cfg, db, now, log, txn);
      }
    }
  }

  /** The row just issued: born now if by a login, or with the row it replaces if by a refresh. */
  lemma CommitFresh(cfg: Config, db: Db, now: nat, log: seq<Event>, txn: Txn)
    requires TokensOk(db, log) && RevocationOk(db, log)
    requires SubjectsPart(db, txn) && IssuePart(cfg, db, now, txn) && txn.writes.issue.Some?
    ensures var more := IssueEvents(txn.writes, |log|) + txn.writes.events;
            NoneRevokedSince(log + more, Birth(log + more, |log|), txn.writes.issue.value.row.owner)
  {
    var w := txn.writes;
    var i := w.issue.value;
    var more := IssueEvents(w, |log|) + w.events;
    IssueRevokesNothing(w, |log|, i.row.owner);
    assert (log + more)[|log|] == IssueEvents(w, |log|)[0];
    if i.from.Some? {
      var prior := i.from.value;
      var g :| g in w.kills && g in db.tokens && db.tokens[g] == prior;
      CommitSubjects(db, txn, |log|, i.row.owner);
      BirthExtends(log, more, prior.serial);
      NoneRevokedExtends(log, more, Birth(log, prior.serial), prior.owner);
    } else {
      NoneRevokedExtends(log, more, |log|, i.row.owner);
    }
  }

  // ---- the quota ----

  /** When a transaction that issues a token is ready, room has been made for it. */
  ghost predicate RoomMade(cfg: Config, db: Db, now: nat, w: Writes)
  {
    w.issue.Some? ==> |Live(db.tokens, w.issue.value.row.owner, w.issue.value.row.generation,
                            now) - w.kills| < cfg.quota
  }

  lemma LoginMakesRoom(cfg: Config, db: Db, now: nat, txn: Txn)
    requires txn.prog.Login? && Ready(txn.prog) && LoginKnows(cfg, db, now, txn, txn.prog.login) && txn.at <= now
    ensures RoomMade(cfg, db, now, txn.writes)
  {
    var v := txn.prog.login;
    var live := Live(db.tokens, v.cred.uid, v.gen, v.evictAt);
    assert Live(db.tokens, v.cred.uid, v.gen, now) <= live;
    SubsetSize(Live(db.tokens, v.cred.uid, v.gen, now) - v.victims, live - v.victims);
  }

  lemma RefreshMakesRoom(cfg: Config, db: Db, now: nat, txn: Txn)
    requires txn.prog.Access? && Ready(txn.prog) && AccessKnows(cfg, db, now, txn, txn.prog.access)
    ensures RoomMade(cfg, db, now, txn.writes)
  {
    var v := txn.prog.access;
    if v.goal.Refresh? {
      var live := Live(db.tokens, v.owner, v.gen, v.lockedAt);
      assert v.hash in live;
      assert Live(db.tokens, v.owner, v.gen, now) <= live;
      SubsetSize(Live(db.tokens, v.owner, v.gen, now) - {v.hash}, live - {v.hash});
    }
  }

  lemma ReadyMakesRoom(cfg: Config, db: Db, now: nat, txn: Txn)
    requires TxnOk(cfg, db, now, txn) && Ready(txn.prog)
    ensures RoomMade(cfg, db, now, txn.writes)
  {
    if txn.prog.Login? {
      LoginMakesRoom(cfg, db, now, txn);
    } else if txn.prog.Access? {
      RefreshMakesRoom(cfg, db, now, txn);
    }
  }

  /** An account's live tokens after a commit: some of those before, and the new one if it is the account's. */
  lemma LiveAfter(db: Db, log: seq<Event>, w: Writes, u: nat, gen: nat, now: nat)
    ensures var live' := Live(Apply(db, w, |log|).tokens, u, gen, now);
            var rest := Live(db.tokens, u, gen, now) - w.kills;
            live' <= (if w.issue.Some? && w.issue.value.row.owner == u then rest + {w.issue.value.hash} else rest)
  {
  }

  /** No token carries a generation its subject has not reached. */
  lemma NoneAhead(db: Db, log: seq<Event>, u: nat, gen: nat, now: nat)
    requires TokensOk(db, log) && gen > Base(db.subjects, u)
    ensures Live(db.tokens, u, gen, now) == {}
  {
  }

  lemma CommitQuota(cfg: Config, db: Db, now: nat, log: seq<Event>, txn: Txn)
    requires TokensOk(db, log) && WithinQuota(db, now, cfg.quota) && cfg.quota > 0
    requires SubjectsPart(db, txn) && IssuePart(cfg, db, now, txn) && RoomMade(cfg, db, now, txn.writes)
    ensures WithinQuota(Apply(db, txn.writes, |log|), now, cfg.quota)
  {
    hide TokensOk, SubjectsPart, IssuePart, RoomMade, Apply, Live;
    forall u: nat
      ensures |Live(Apply(db, txn.writes, |log|).tokens, u, Base(Apply(db, txn.writes, |log|).subjects, u),
                    now)| <= cfg.quota
    {
      if txn.writes.issue.Some? && txn.writes.issue.value.row.owner == u {
        IssuedQuota(cfg, db, now, log, txn, u);
      } else {
        OtherQuota(cfg, db, now, log, txn, u);
      }
    }
  }

  lemma IssuedQuota(cfg: Config, db: Db, now: nat, log: seq<Event>, txn: Txn, u: nat)
    requires SubjectsPart(db, txn) && IssuePart(cfg, db, now, txn) && RoomMade(cfg, db, now, txn.writes)
    requires txn.writes.issue.Some? && txn.writes.issue.value.row.owner == u
    ensures |Live(Apply(db, txn.writes, |log|).tokens, u, Base(Apply(db, txn.writes, |log|).subjects, u),
                  now)| <= cfg.quota
  {
    var w, db' := txn.writes, Apply(db, txn.writes, |log|);
    var g := Base(db'.subjects, u);
    assert g == w.issue.value.row.generation;
    var rest := Live(db.tokens, u, g, now) - w.kills;
    LiveAfter(db, log, w, u, g, now);
    hide Live, Apply, IssuePart, SubjectsPart;
    SubsetSize(Live(db'.tokens, u, g, now), rest + {w.issue.value.hash});
  }

  lemma OtherQuota(cfg: Config, db: Db, now: nat, log: seq<Event>, txn: Txn, u: nat)
    requires TokensOk(db, log) && WithinQuota(db, now, cfg.quota) && SubjectsPart(db, txn)
    requires txn.writes.issue.None? || txn.writes.issue.value.row.owner != u
    ensures |Live(Apply(db, txn.writes, |log|).tokens, u, Base(Apply(db, txn.writes, |log|).subjects, u),
                  now)| <= cfg.quota
  {
    hide TokensOk, SubjectsPart, Apply, Live;
    var db' := Apply(db, txn.writes, |log|);
    var g := Base(db'.subjects, u);
    CommitSubjects(db, txn, |log|, u);
    LiveAfter(db, log, txn.writes, u, g, now);
    if g > Base(db.subjects, u) {
      NoneAhead(db, log, u, g, now);
    }
    assert |Live(db.tokens, u, Base(db.subjects, u), now)| <= cfg.quota;
    SubsetSize(Live(db'.tokens, u, g, now), Live(db.tokens, u, g, now));
  }

  // ---- sessions, identities, admissions ----

  lemma CommitSessions(db: Db, now: nat, log: seq<Event>, txn: Txn)
    requires SessionsOk(db.sessions, now, log) && SessionsPart(db, now, txn)
    ensures SessionsOk(Apply(db, txn.writes, |log|).sessions, now, LogAfter(log, txn.writes))
  {
    LogShape(log, txn.writes);
  }

  lemma ProvidedIsSeen(db: Db, txn: Txn, e: Event)
    requires EventsPart(db, txn) && e in txn.writes.events && e.Provided?
    ensures Carries(ViewIds(db, txn.writes), e.id, e.pid, e.uuid)
  {
  }

  lemma CommitProvided(db: Db, log: seq<Event>, txn: Txn, from: nat)
    requires ProvidedOk(db.identities, log, from) && EventsPart(db, txn)
    requires forall i | i in txn.writes.identities :: i !in db.identities
    ensures ProvidedOk(Apply(db, txn.writes, |log|).identities, LogAfter(log, txn.writes), from)
  {
    var w := txn.writes;
    var log' := LogAfter(log, w);
    LogShape(log, w);
    forall k | from <= k < |log'| && log'[k].Provided?
      ensures Carries(Apply(db, w, |log|).identities, log'[k].id, log'[k].pid, log'[k].uuid)
    {
      if k >= |log| + |IssueEvents(w, |log|)| {
        ProvidedIsSeen(db, txn, log'[k]);
      }
    }
  }

  lemma CommitAdmissions(db: Db, now: nat, log: seq<Event>, txn: Txn)
    requires AdmissionsOk(log) && SessionsOk(db.sessions, now, log) && EventsPart(db, txn)
    ensures AdmissionsOk(LogAfter(log, txn.writes))
  {
    var w := txn.writes;
    var log' := LogAfter(log, w);
    LogShape(log, w);
    forall k | 0 <= k < |log'| && log'[k].Admitted?
      ensures JoinedBefore(log', k, log'[k])
    {
      var e := log'[k];
      if k < |log| {
        assert JoinedBefore(log, k, log[k]);
        var j :| 0 <= j < k && j < |log| && log[j].Joined? && log[j].server == e.server && log[j].hash == e.hash
          && e.at < log[j].at + SESSION_TTL && (e.from.Some? ==> log[j].ip == e.from.value);
        assert log'[j] == log[j];
      } else {
        assert e in w.events;
        var r := db.sessions[e.server];
        var j :| 0 <= j < |log| && log[j] == Joined(e.server, r.hash, r.ip, r.created);
        assert log'[j] == log[j];
      }
    }
  }

  lemma CommitKeepsTables(cfg: Config, db: Db, now: nat, log: seq<Event>, txn: Txn)
    requires DbOk(cfg, db, now, log) && TxnOk(cfg, db, now, txn) && Ready(txn.prog) && cfg.env.ttl > 0 && cfg.quota > 0
    ensures DbOk(cfg, Apply(db, txn.writes, |log|), now, LogAfter(log, txn.writes))
  {
    ReadyMakesRoom(cfg, db, now, txn);
    CommitIdentities(cfg, db, txn, |log|);
    CommitLog(cfg, db, now, log, txn);
    CommitSpent(cfg, db, now, log, txn);
    CommitTokensOk(cfg, db, now, log, txn);
    CommitRevocation(cfg, db, now, log, txn);
    CommitQuota(cfg, db, now, log, txn);
    CommitSessions(db, now, log, txn);
    CommitAdmissions(db, now, log, txn);
    CommitPositive(db, txn, |log|);
  }

  lemma CommitPositive(db: Db, txn: Txn, serial: nat)
    requires SubjectsPart(db, txn) && (forall u | u in db.subjects :: db.subjects[u] >= 1)
    ensures forall u | u in Apply(db, txn.writes, serial).subjects :: Apply(db, txn.writes, serial).subjects[u] >= 1
  {
  }

  /** What a commit does to the tables under another transaction's locks. */
  lemma CommitEvolves(cfg: Config, db: Db, now: nat, serial: nat, txn: Txn, other: Txn)
    requires IdentitiesOk(db.identities) && WritesOk(cfg, db, now, txn) && Compatible(txn, other)
    ensures Evolves(db, Apply(db, txn.writes, serial), other)
  {
    CommitIdentities(cfg, db, txn, serial);
    CommitTokensApart(cfg, db, now, serial, txn, other);
    CommitRowsApart(db, now, txn, other);
    CommitIdsApart(cfg, db, txn, other);
    hide WritesOk, IdentitiesOk, CommitTokens, Merge, Compatible, Holds;
  }

  /** A commit leaves the user, player, subject and session rows that another transaction has locked. */
  lemma CommitRowsApart(db: Db, now: nat, txn: Txn, other: Txn)
    requires LockedPart(db, txn) && SubjectsPart(db, txn) && SessionsPart(db, now, txn) && Compatible(txn, other)
    ensures var w := txn.writes;
            && (forall u | Holds(other, UserRow(u)) :: Lookup(db.users, u) == Lookup(Merge(db.users, w.users), u))
            && (forall p | Holds(other, PlayerRow(p)) ::
                  Lookup(db.players, p) == Lookup(Merge(db.players, w.players), p))
            && (forall u | SubjectRow(u) in other.excl :: Lookup(db.subjects, u) == Lookup(db.subjects + w.subjects, u))
            && (forall v | Holds(other, SessionRow(v)) ::
                  Lookup(db.sessions, v) == Lookup(Merge(db.sessions, w.sessions), v))
  {
    hide Revokes;
  }

  /** A commit only adds identity rows, and none under a key that another transaction has locked. */
  lemma CommitIdsApart(cfg: Config, db: Db, txn: Txn, other: Txn)
    requires IdsPart(cfg, db, txn) && Compatible(txn, other)
    ensures var ids := db.identities + txn.writes.identities;
            && (forall i | i in db.identities :: i in ids && ids[i] == db.identities[i])
            && (forall i | i in ids && i !in db.identities ::
                  var r := ids[i];
                  && IdentityRow(i) !in other.excl
                  && (r.player.Some? ==> PlayerKey(r.player.value) !in other.excl)
                  && (r.uuid.Some? ==> UuidKey(r.uuid.value) !in other.excl)
                  && r.legacy.None?)
  {
    hide Unique;
  }

  /** A commit leaves the token rows that another transaction has locked, and adds none under its account's lock. */
  lemma CommitTokensApart(cfg: Config, db: Db, now: nat, serial: nat, txn: Txn, other: Txn)
    requires LockedPart(db, txn) && IssuePart(cfg, db, now, txn) && Compatible(txn, other)
    ensures var tokens := CommitTokens(db.tokens, txn.writes, serial);
            && (forall h | TokenRow(h) in other.excl :: Lookup(db.tokens, h) == Lookup(tokens, h))
            && (forall h | h in tokens :: Lookup(db.tokens, h) == Some(tokens[h])
                                          || SubjectRow(tokens[h].owner) !in other.excl)
  {
    hide Replaces, Revokes, ViewIds;
  }
}
