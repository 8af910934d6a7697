/** What a transaction knows survives the commits of others and the passing of time. */
module MachineStable {
  import opened Basics
  import opened Tables
  import opened Directory
  import opened Machine
  import opened MachineInvariant

  /** The live tokens of an account whose subject row and live token rows are locked do not change. */
  lemma LiveStable(db: Db, db': Db, txn: Txn, uid: nat, gen: nat, at: nat)
    requires Evolves(db, db', txn) && SubjectRow(uid) in txn.excl
    ensures Live(db'.tokens, uid, gen, at) <= Live(db.tokens, uid, gen, at)
    ensures (forall h | h in Live(db.tokens, uid, gen, at) :: TokenRow(h) in txn.excl) ==>
              Live(db'.tokens, uid, gen, at) == Live(db.tokens, uid, gen, at)
  {
    forall h | h in Live(db'.tokens, uid, gen, at)
      ensures h in Live(db.tokens, uid, gen, at)
    {
      assert Lookup(db.tokens, h) == Some(db'.tokens[h]);
    }
    if forall h | h in Live(db.tokens, uid, gen, at) :: TokenRow(h) in txn.excl {
      forall h | h in Live(db.tokens, uid, gen, at)
        ensures h in Live(db'.tokens, uid, gen, at)
      {
        assert Lookup(db.tokens, h) == Lookup(db'.tokens, h);
      }
    }
  }

  lemma IdsStable(cfg: Config, db: Db, db': Db, txn: Txn)
    requires IdsPart(cfg, db, txn) && Evolves(db, db', txn)
    ensures IdsPart(cfg, db', txn)
    ensures forall i | i in ViewIds(db, txn.writes) ::
              i in ViewIds(db', txn.writes) && ViewIds(db', txn.writes)[i] == ViewIds(db, txn.writes)[i]
  {
    var w := txn.writes;
    var ids := ViewIds(db', w);
    forall i, j | i in ids && j in ids && i != j
      ensures !Conflict(ids[i], ids[j])
    {
      if i in ViewIds(db, w) && j in ViewIds(db, w) {
        assert !Conflict(ViewIds(db, w)[i], ViewIds(db, w)[j]);
      } else if i in w.identities || j in w.identities {
      } else {
        assert !Conflict(db'.identities[i], db'.identities[j]);
      }
    }
  }

  lemma EventsStable(cfg: Config, db: Db, db': Db, txn: Txn)
    requires IdsPart(cfg, db, txn) && EventsPart(db, txn) && Evolves(db, db', txn)
    ensures EventsPart(db', txn)
  {
    IdsStable(cfg, db, db', txn);
    forall e | e in txn.writes.events && e.Admitted?
      ensures Lookup(db.sessions, e.server) == Lookup(db'.sessions, e.server)
    {
      assert Holds(txn, SessionRow(e.server));
    }
  }

  lemma SessionsStable(db: Db, db': Db, now: nat, now': nat, txn: Txn)
    requires SessionsPart(db, now, txn) && Evolves(db, db', txn) && now <= now'
    ensures SessionsPart(db', now', txn)
  {
    forall v | v in txn.writes.sessions
      ensures Lookup(db.sessions, v) == Lookup(db'.sessions, v)
    {
      assert Holds(txn, SessionRow(v));
    }
  }

  lemma IssueStable(cfg: Config, db: Db, db': Db, now: nat, now': nat, txn: Txn)
    requires LockedPart(db, txn) && IdsPart(cfg, db, txn) && IssuePart(cfg, db, now, txn) && Evolves(db, db', txn)
    requires now <= now'
    ensures LockedPart(db', txn) && IssuePart(cfg, db', now', txn)
  {
    var w := txn.writes;
    forall h | h in w.kills
      ensures h in db'.tokens && h in db.tokens && db'.tokens[h] == db.tokens[h]
    {
      assert Lookup(db.tokens, h) == Lookup(db'.tokens, h);
    }
    if w.issue.Some? {
      var i := w.issue.value;
      IdsStable(cfg, db, db', txn);
      assert Lookup(db.tokens, i.hash) == Lookup(db'.tokens, i.hash);
      assert Lookup(db.subjects, i.row.owner) == Lookup(db'.subjects, i.row.owner);
      if i.from.Some? {
        var h :| h in w.kills && h in db.tokens && db.tokens[h] == i.from.value;
        assert h in db'.tokens && db'.tokens[h] == i.from.value;
      }
    }
  }

  lemma SubjectsStable(db: Db, db': Db, txn: Txn)
    requires SubjectsPart(db, txn) && Evolves(db, db', txn)
    ensures SubjectsPart(db', txn)
  {
    forall u | u in txn.writes.subjects
      ensures Lookup(db.subjects, u) == Lookup(db'.subjects, u)
    {
    }
  }

  lemma WritesStable(cfg: Config, db: Db, db': Db, now: nat, now': nat, txn: Txn)
    requires WritesOk(cfg, db, now, txn) && Evolves(db, db', txn) && now <= now'
    ensures WritesOk(cfg, db', now', txn)
  {
    IdsStable(cfg, db, db', txn);
    EventsStable(cfg, db, db', txn);
    SessionsStable(db, db', now, now', txn);
    IssueStable(cfg, db, db', now, now', txn);
    SubjectsStable(db, db', txn);
  }

  lemma UserStable(env: Env, db: Db, db': Db, txn: Txn, uid: nat)
    requires UserKnown(env, db, txn, uid) && Evolves(db, db', txn)
    ensures UserKnown(env, db', txn, uid) && db'.users[uid] == db.users[uid]
  {
    assert Holds(txn, UserRow(uid));
    assert Lookup(db.users, uid) == Lookup(db'.users, uid);
  }

  lemma PlayerStable(db: Db, db': Db, txn: Txn, pid: nat)
    requires PlayerRow(pid) in txn.shared && Evolves(db, db', txn) && pid in db.players
    ensures pid in db'.players && db'.players[pid] == db.players[pid]
  {
    assert Holds(txn, PlayerRow(pid));
    assert Lookup(db.players, pid) == Lookup(db'.players, pid);
  }

  lemma CountedStable(db: Db, db': Db, txn: Txn, v: LoginVars)
    requires LoginCounted(db, txn, v) && SubjectRow(v.cred.uid) in txn.excl
    requires Evolves(db, db', txn)
    ensures LoginCounted(db', txn, v)
  {
    hide IdentitiesOk;
    var live := Live(db.tokens, v.cred.uid, v.gen, v.evictAt);
    LiveStable(db, db', txn, v.cred.uid, v.gen, v.evictAt);
    forall h | h in live
      ensures h in db'.tokens && db'.tokens[h] == db.tokens[h]
    {
      assert Lookup(db.tokens, h) == Lookup(db'.tokens, h);
    }
  }

  lemma ProfiledStable(cfg: Config, db: Db, db': Db, txn: Txn, v: LoginVars)
    requires LoginProfiled(cfg, db, txn, v) && IdsPart(cfg, db, txn) && Evolves(db, db', txn)
    ensures LoginProfiled(cfg, db', txn, v)
  {
    IdsStable(cfg, db, db', txn);
    forall p | p in v.todo
      ensures p in db'.players && db'.players[p] == db.players[p]
    {
      PlayerStable(db, db', txn, p);
    }
    forall x | x in v.profiles
      ensures HoldsPlayer(db', txn, x)
    {
      PlayerStable(db, db', txn, x.player);
    }
  }

  lemma LoginStable(cfg: Config, db: Db, db': Db, now: nat, now': nat, txn: Txn, v: LoginVars)
    requires IdsPart(cfg, db, txn) && Evolves(db, db', txn) && now <= now'
    requires LoginKnows(cfg, db, now, txn, v)
    ensures LoginKnows(cfg, db', now', txn, v)
  {
    ProfiledStable(cfg, db, db', txn, v);
    if v.pc >= 1 {
      UserStable(cfg.env, db, db', txn, v.cred.uid);
    }
    if v.pc >= 3 {
      assert Lookup(db.subjects, v.cred.uid) == Lookup(db'.subjects, v.cred.uid);
    }
    if v.pc >= 5 {
      CountedStable(db, db', txn, v);
    }
  }

  lemma HoldsStable(db: Db, db': Db, txn: Txn, x: Identity)
    requires HoldsIdentity(db, txn, x) && Evolves(db, db', txn)
    ensures HoldsIdentity(db', txn, x)
  {
    PlayerStable(db, db', txn, x.player);
  }

  lemma AccessStable(cfg: Config, db: Db, db': Db, now: nat, now': nat, txn: Txn, v: AccessVars)
    requires Evolves(db, db', txn) && now <= now'
    requires AccessKnows(cfg, db, now, txn, v)
    ensures AccessKnows(cfg, db', now', txn, v)
  {
    if v.pc >= 3 {
      UserStable(cfg.env, db, db', txn, v.owner);
    }
    if v.pc >= 4 {
      assert Lookup(db.subjects, v.owner) == Lookup(db'.subjects, v.owner);
    }
    if v.pc >= 5 {
      assert Lookup(db.tokens, v.hash) == Lookup(db'.tokens, v.hash);
      LiveStable(db, db', txn, v.owner, v.gen, v.lockedAt);
      SubsetSize(Live(db'.tokens, v.owner, v.gen, v.lockedAt), Live(db.tokens, v.owner, v.gen, v.lockedAt));
    }
    if v.bound.Some? {
      HoldsStable(db, db', txn, v.bound.value);
    }
    if v.pc >= 8 && v.picked.Some? {
      HoldsStable(db, db', txn, v.picked.value);
    }
    if v.goal.Join? && v.pc == 11 {
      assert Holds(txn, SessionRow(v.goal.server));
      assert Lookup(db.sessions, v.goal.server) == Lookup(db'.sessions, v.goal.server);
    }
  }

  lemma LogoutStable(cfg: Config, db: Db, db': Db, txn: Txn, v: LogoutVars)
    requires SubjectsPart(db, txn) && LogoutKnows(cfg, db, txn, v) && Evolves(db, db', txn)
    ensures LogoutKnows(cfg, db', txn, v)
  {
    if v.pc >= 1 {
      UserStable(cfg.env, db, db', txn, v.cred.uid);
    }
    if v.pc == 3 {
      assert v.cred.uid in txn.writes.subjects;
      assert Lookup(db.subjects, v.cred.uid) == Lookup(db'.subjects, v.cred.uid);
    }
  }

  lemma DropStable(db: Db, db': Db, txn: Txn, v: DropVars)
    requires DropKnows(db, txn, v) && Evolves(db, db', txn)
    ensures DropKnows(db', txn, v)
  {
    if TokenRow(v.hash) in txn.excl {
      assert Lookup(db.tokens, v.hash) == Lookup(db'.tokens, v.hash);
    }
  }

  lemma EnsureStable(cfg: Config, db: Db, db': Db, txn: Txn, v: EnsureVars)
    requires IdsPart(cfg, db, txn) && EnsureKnows(cfg, db, txn, v) && Evolves(db, db', txn)
    ensures EnsureKnows(cfg, db', txn, v)
  {
    IdsStable(cfg, db, db', txn);
    if v.pc >= 1 {
      PlayerStable(db, db', txn, v.pid);
    }
  }

  lemma SweepStable(db: Db, db': Db, now: nat, now': nat, txn: Txn, v: SweepVars)
    requires LockedPart(db, txn) && SweepKnows(db, now, txn, v) && Evolves(db, db', txn) && now <= now'
    ensures SweepKnows(db', now', txn, v)
  {
    forall h | h in txn.writes.kills
      ensures Lookup(db.tokens, h) == Lookup(db'.tokens, h)
    {
    }
  }

  lemma AnswerableStable(cfg: Config, db: Db, db': Db, txn: Txn, names: seq<string>, x: Identity)
    requires IdsPart(cfg, db, txn) && Answerable(cfg.env, db, txn, names, x) && Evolves(db, db', txn)
    ensures Answerable(cfg.env, db', txn, names, x)
  {
    IdsStable(cfg, db, db', txn);
    PlayerStable(db, db', txn, x.player);
  }

  lemma LookupStable(cfg: Config, db: Db, db': Db, txn: Txn, v: LookupVars)
    requires IdsPart(cfg, db, txn) && LookupKnows(cfg, db, txn, v) && Evolves(db, db', txn)
    ensures LookupKnows(cfg, db', txn, v)
  {
    if 2 <= v.pc <= 4 {
      PlayerStable(db, db', txn, v.hits[0].pid);
    }
    forall p | p in v.resolved
      ensures Answerable(cfg.env, db', txn, v.names, v.resolved[p])
    {
      AnswerableStable(cfg, db, db', txn, v.names, v.resolved[p]);
    }
    forall x | x in v.answers
      ensures Answerable(cfg.env, db', txn, v.names, x)
    {
      AnswerableStable(cfg, db, db', txn, v.names, x);
    }
  }

  lemma EditStable(db: Db, db': Db, txn: Txn)
    requires LockedPart(db, txn) && EditKnows(db, txn) && Evolves(db, db', txn)
    ensures EditKnows(db', txn)
  {
    forall u | u in txn.writes.users
      ensures Lookup(db.users, u) == Lookup(db'.users, u)
    {
      assert Holds(txn, UserRow(u));
    }
  }

  lemma TxnStable(cfg: Config, db: Db, db': Db, now: nat, now': nat, txn: Txn)
    requires TxnOk(cfg, db, now, txn) && Evolves(db, db', txn) && now <= now'
    ensures TxnOk(cfg, db', now', txn)
  {
    WritesStable(cfg, db, db', now, now', txn);
    match txn.prog
    case Login(v) => LoginStable(cfg, db, db', now, now', txn, v);
    case Access(v) => AccessStable(cfg, db, db', now, now', txn, v);
    case Logout(v) => LogoutStable(cfg, db, db', txn, v);
    case Drop(v) => DropStable(db, db', txn, v);
    case Ensure(v) => EnsureStable(cfg, db, db', txn, v);
    case Sweep(v) => SweepStable(db, db', now, now', txn, v);
    case Names(v) => LookupStable(cfg, db, db', txn, v);
    case Editing => EditStable(db, db', txn);
  }

  lemma EvolvesReflexive(db: Db, txn: Txn)
    requires IdentitiesOk(db.identities)
    ensures Evolves(db, db, txn)
  {
  }
}
