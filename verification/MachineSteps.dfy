/** Each statement of each program takes what the transaction knows to what it must know next. */
module MachineSteps {
  import opened Basics
  import opened Uuids
  import opened Tables
  import opened Directory
  import opened Machine
  import opened MachineInvariant

  /** The situation in which a statement runs. */
  ghost predicate Running(cfg: Config, db: Db, now: nat, txn: Txn, ch: Choice)
  {
    && IdentitiesOk(db.identities) && WithinQuota(db, now, cfg.quota) && cfg.env.ttl > 0
    && TxnOk(cfg, db, now, txn) && txn.at <= ch.at <= now
  }

  /** More locks, same writes. */
  predicate Grows(txn: Txn, next: Txn)
  {
    next.writes == txn.writes && txn.shared <= next.shared && txn.excl <= next.excl
  }

  lemma WritesKept(cfg: Config, db: Db, now: nat, txn: Txn, next: Txn)
    requires WritesOk(cfg, db, now, txn) && Grows(txn, next)
    ensures WritesOk(cfg, db, now, next)
  {
  }

  lemma ViewOk(cfg: Config, db: Db, txn: Txn)
    requires IdentitiesOk(db.identities) && IdsPart(cfg, db, txn)
    ensures IdentitiesOk(ViewIds(db, txn.writes))
  {
  }

  /** An inserted row meets no UNIQUE key. */
  lemma InsertIsUnique(ids: map<nat, IdRow>, id: nat, pid: nat, u: Uuid)
    requires Unique(ids) && id !in ids && forall i | i in ids :: ids[i].player != Some(pid) && ids[i].uuid != Some(u)
    ensures Unique(ids[id := NewRow(pid, u)])
  {
  }

  lemma AllocationInserts(cfg: Config, db: Db, txn: Txn, pid: nat, ch: Choice)
    requires IdsPart(cfg, db, txn) && pid in db.players && pid > cfg.watermark && Allocate(db, txn, pid, ch).Allocated?
    ensures var next, made := Allocate(db, txn, pid, ch).txn, Allocate(db, txn, pid, ch).made;
            var ids, ids' := ViewIds(db, txn.writes), ViewIds(db, next.writes);
            && ch.id !in ids && ids' == ids[ch.id := NewRow(pid, ch.uuid)] && IdsPart(cfg, db, next)
            && next.shared == txn.shared && next.prog == txn.prog && next.at == txn.at
            && next.excl >= txn.excl && next.writes == txn.writes.(identities := next.writes.identities)
            && made == Identity(ch.id, pid, ch.uuid, db.players[pid].name, db.players[pid].owner)
  {
    hide ReadIdentity, Unique;
    var next, ids := Allocate(db, txn, pid, ch).txn, ViewIds(db, txn.writes);
    assert ViewIds(db, next.writes) == ids[ch.id := NewRow(pid, ch.uuid)];
    InsertIsUnique(ids, ch.id, pid, ch.uuid);
  }

  lemma AllocationFinds(db: Db, txn: Txn, pid: nat, ch: Choice)
    requires pid in db.players && Allocate(db, txn, pid, ch).Existing?
    ensures ReadIdentity(ViewIds(db, txn.writes), pid, db.players[pid]) == Ok(Allocate(db, txn, pid, ch).found)
  {
    hide ReadIdentity, ViewIds;
  }

  /** An allocation that inserts keeps the UNIQUE keys and is bound to locks the transaction now holds. */
  lemma AllocateOk(cfg: Config, db: Db, txn: Txn, pid: nat, ch: Choice)
    requires IdentitiesOk(db.identities) && IdsPart(cfg, db, txn) && pid in db.players && pid > cfg.watermark
    ensures
      match Allocate(db, txn, pid, ch)
      case Allocated(next, made) =>
        && IdsPart(cfg, db, next) && next.shared == txn.shared && next.prog == txn.prog && next.at == txn.at
        && next.excl >= txn.excl && next.writes == txn.writes.(identities := next.writes.identities)
        && (forall i | i in ViewIds(db, txn.writes) ::
              i in ViewIds(db, next.writes) && ViewIds(db, next.writes)[i] == ViewIds(db, txn.writes)[i])
        && Carries(ViewIds(db, next.writes), made.id, pid, made.uuid)
        && made.player == pid && Player(made.owner, made.name) == db.players[pid]
      case Existing(x) =>
        Carries(ViewIds(db, txn.writes), x.id, pid, x.uuid) && x.player == pid
            && Player(x.owner, x.name) == db.players[pid]
      case _ => true
  {
    hide IdsPart, IdentitiesOk, ReadIdentity, ViewIds, Allocate;
    match Allocate(db, txn, pid, ch)
    case Allocated(next, made) =>
      AllocationInserts(cfg, db, txn, pid, ch);
    case Existing(x) =>
      ViewOk(cfg, db, txn);
      AllocationFinds(db, txn, pid, ch);
      ReadIdentityIff(ViewIds(db, txn.writes), pid, db.players[pid], x);
    case _ =>
  }

  /** Statements of Authenticate that write nothing before the tokens are counted. */
  lemma LoginReads(cfg: Config, db: Db, now: nat, txn: Txn, ch: Choice)
    requires txn.prog.Login? && LoginKnows(cfg, db, now, txn, txn.prog.login)
    requires txn.prog.login.pc in {0, 1, 3} && LoginStep(cfg, db, txn, ch).Some?
    ensures var next := LoginStep(cfg, db, txn, ch).value.(at := now);
            Grows(txn, next) && next.prog.Login? && LoginKnows(cfg, db, now, next, next.prog.login)
  {
  }

  lemma LoginUpserts(cfg: Config, db: Db, now: nat, txn: Txn, ch: Choice)
    requires Running(cfg, db, now, txn, ch) && txn.prog.Login? && txn.prog.login.pc == 2
    ensures TxnOk(cfg, db, now, LoginStep(cfg, db, txn, ch).value.(at := now))
  {
    var next := LoginStep(cfg, db, txn, ch).value.(at := now);
    assert ViewIds(db, txn.writes) == ViewIds(db, next.writes);
    assert IdsPart(cfg, db, next);
    assert SubjectsPart(db, next);
  }

  lemma LoginCounts(cfg: Config, db: Db, now: nat, txn: Txn, ch: Choice)
    requires txn.prog.Login? && LoginKnows(cfg, db, now, txn, txn.prog.login) && txn.at <= ch.at <= now
    requires txn.prog.login.pc in {4, 5} && LoginStep(cfg, db, txn, ch).Some?
    ensures var next := LoginStep(cfg, db, txn, ch).value.(at := now);
            Grows(txn, next) && next.prog.Login? && LoginKnows(cfg, db, now, next, next.prog.login)
  {
  }

  /** The part of Authenticate's knowledge that the statements after the count leave alone. */
  lemma LoginCarries(cfg: Config, db: Db, now: nat, txn: Txn, v: LoginVars, next: Txn, v': LoginVars)
    requires LoginKnows(cfg, db, now, txn, v) && v.pc >= 6 && v'.pc >= 6
    requires v' == v.(pc := v'.pc, todo := v'.todo, profiles := v'.profiles, chosen := v'.chosen, tries := v'.tries)
    requires txn.shared <= next.shared && txn.excl <= next.excl && txn.at <= next.at
    requires next.writes == txn.writes.(identities := next.writes.identities, issue := next.writes.issue,
                                        kills := next.writes.kills, events := next.writes.events)
    requires LoginProfiled(cfg, db, next, v') && LoginIssued(next, v')
    ensures LoginKnows(cfg, db, now, next, v')
  {
  }

  /** The next player's row gives a profile whose player is locked. */
  lemma LoginReadsNext(cfg: Config, db: Db, now: nat, txn: Txn, ch: Choice)
    requires IdentitiesOk(ViewIds(db, txn.writes))
    requires txn.prog.Login? && txn.prog.login.pc == 6 && LoginProfiled(cfg, db, txn, txn.prog.login)
    requires LoginStep(cfg, db, txn, ch).Some?
    ensures var next := LoginStep(cfg, db, txn, ch).value.(at := now);
            Grows(txn, next) && next.prog.Login? && LoginProfiled(cfg, db, next, next.prog.login)
  {
    hide IdentitiesOk, ViewIds, Carries;
    var v := txn.prog.login;
    if v.todo != [] {
      var pid := v.todo[0];
      match ReadIdentity(ViewIds(db, txn.writes), pid, db.players[pid])
      case Ok(x) => ReadsProfile(ViewIds(db, txn.writes), pid, db.players[pid], x);
      case Err(_) =>
    }
  }

  lemma ReadsProfile(ids: map<nat, IdRow>, pid: nat, player: Player, x: Identity)
    requires IdentitiesOk(ids) && ReadIdentity(ids, pid, player) == Ok(x)
    ensures Carries(ids, x.id, x.player, x.uuid) && x.player == pid && player == Player(x.owner, x.name)
  {
    hide ReadIdentity, IdentitiesOk;
    ReadIdentityIff(ids, pid, player, x);
  }

  /** The profile chosen by name is one of the only player of that name. */
  lemma LoginChooses(cfg: Config, db: Db, now: nat, txn: Txn, ch: Choice)
    requires txn.prog.Login? && txn.prog.login.pc == 8 && LoginProfiled(cfg, db, txn, txn.prog.login)
    requires LoginStep(cfg, db, txn, ch).Some?
    ensures var next := LoginStep(cfg, db, txn, ch).value.(at := now);
            Grows(txn, next) && next.prog.Login? && LoginProfiled(cfg, db, next, next.prog.login)
  {
    hide ViewIds, Carries;
    var v := txn.prog.login;
    if '@' !in v.cred.username {
      var pid := UniquePlayerName(cfg.env, db.players, v.cred.username).value;
      assert pid in Named(cfg.env.key, db.players, v.cred.username);
    }
  }

  lemma LoginReadsLate(cfg: Config, db: Db, now: nat, txn: Txn, ch: Choice)
    requires Running(cfg, db, now, txn, ch) && txn.prog.Login? && txn.prog.login.pc in {6, 8}
    requires LoginStep(cfg, db, txn, ch).Some?
    ensures TxnOk(cfg, db, now, LoginStep(cfg, db, txn, ch).value.(at := now))
  {
    hide LockedPart, SubjectsPart, IssuePart, SessionsPart, EventsPart, LoginProfiled, IdsPart, LoginCounted;
    var next := LoginStep(cfg, db, txn, ch).value.(at := now);
    ViewOk(cfg, db, txn);
    if txn.prog.login.pc == 6 {
      LoginReadsNext(cfg, db, now, txn, ch);
    } else {
      LoginChooses(cfg, db, now, txn, ch);
    }
    LoginCarries(cfg, db, now, txn, txn.prog.login, next, next.prog.login);
    WritesKept(cfg, db, now, txn, next);
  }

  /** Inserting an identity leaves the other pending writes as they were. */
  lemma AllocationWrites(cfg: Config, db: Db, now: nat, txn: Txn, next: Txn)
    requires WritesOk(cfg, db, now, txn) && IdsPart(cfg, db, next)
    requires txn.shared <= next.shared && txn.excl <= next.excl
    requires next.writes == txn.writes.(identities := next.writes.identities)
    requires forall i | i in ViewIds(db, txn.writes) ::
               i in ViewIds(db, next.writes) && ViewIds(db, next.writes)[i] == ViewIds(db, txn.writes)[i]
    ensures WritesOk(cfg, db, now, next)
  {
  }

  /** The first of the players left gets a profile. */
  function Took(txn: Txn, x: Identity): Txn
    requires txn.prog.Login? && txn.prog.login.todo != []
  {
    var v := txn.prog.login;
    txn.(prog := Login(v.(pc := 6, todo := v.todo[1..], profiles := v.profiles + [x])))
  }

  lemma LoginTakes(cfg: Config, db: Db, now: nat, txn: Txn, mid: Txn, x: Identity)
    requires WritesOk(cfg, db, now, txn) && IdsPart(cfg, db, mid) && txn.at <= now
    requires txn.prog.Login? && txn.prog.login.pc == 7 && LoginKnows(cfg, db, now, txn, txn.prog.login)
    requires mid.prog == txn.prog && txn.shared <= mid.shared && txn.excl <= mid.excl
    requires mid.writes == txn.writes.(identities := mid.writes.identities)
    requires forall i | i in ViewIds(db, txn.writes) ::
               i in ViewIds(db, mid.writes) && ViewIds(db, mid.writes)[i] == ViewIds(db, txn.writes)[i]
    requires Carries(ViewIds(db, mid.writes), x.id, x.player, x.uuid)
    requires x.player == txn.prog.login.todo[0] && db.players[x.player] == Player(x.owner, x.name)
    ensures TxnOk(cfg, db, now, Took(mid, x).(at := now))
  {
    hide WritesOk, IdsPart, ViewIds, Carries, LoginCounted, LoginProfiled;
    LoginAtPlayer(cfg, db, txn, txn.prog.login);
    var next := Took(mid, x).(at := now);
    AllocationWrites(cfg, db, now, txn, mid);
    TookProfiled(cfg, db, txn, mid, x);
    WritesKept(cfg, db, now, mid, next);
    LoginCarries(cfg, db, now, txn, txn.prog.login, next, next.prog.login);
  }

  lemma TookProfiled(cfg: Config, db: Db, txn: Txn, mid: Txn, x: Identity)
    requires txn.prog.Login? && txn.prog.login.pc == 7 && LoginProfiled(cfg, db, txn, txn.prog.login)
    requires mid.prog == txn.prog && txn.shared <= mid.shared && txn.excl <= mid.excl
    requires forall i | i in ViewIds(db, txn.writes) ::
               i in ViewIds(db, mid.writes) && ViewIds(db, mid.writes)[i] == ViewIds(db, txn.writes)[i]
    requires Carries(ViewIds(db, mid.writes), x.id, x.player, x.uuid)
    requires x.player == txn.prog.login.todo[0] && db.players[x.player] == Player(x.owner, x.name)
    ensures forall now: nat :: LoginProfiled(cfg, db, Took(mid, x).(at := now), Took(mid, x).prog.login)
  {
    hide ViewIds;
  }

  lemma LoginFails(cfg: Config, db: Db, now: nat, txn: Txn, ch: Choice)
    requires WritesOk(cfg, db, now, txn) && txn.at <= now
    requires txn.prog.Login? && txn.prog.login.pc == 7 && LoginKnows(cfg, db, now, txn, txn.prog.login)
    requires LoginStep(cfg, db, txn, ch).Some? && Allocate(db, txn, txn.prog.login.todo[0], ch).Collided?
    ensures TxnOk(cfg, db, now, LoginStep(cfg, db, txn, ch).value.(at := now))
  {
    hide WritesOk, LoginCounted, Allocate, ViewIds, Carries;
    var next := LoginStep(cfg, db, txn, ch).value.(at := now);
    WritesKept(cfg, db, now, txn, next);
    LoginCarries(cfg, db, now, txn, txn.prog.login, next, next.prog.login);
  }

  /** What a login about to allocate knows of the player. */
  lemma LoginAtPlayer(cfg: Config, db: Db, txn: Txn, v: LoginVars)
    requires LoginProfiled(cfg, db, txn, v) && v.pc == 7
    ensures v.todo != [] && v.todo[0] in db.players && v.todo[0] > cfg.watermark
  {
  }

  lemma LoginInserts(cfg: Config, db: Db, now: nat, txn: Txn, pid: nat, ch: Choice)
    requires IdentitiesOk(db.identities) && WritesOk(cfg, db, now, txn) && txn.at <= now
    requires txn.prog.Login? && txn.prog.login.pc == 7 && LoginKnows(cfg, db, now, txn, txn.prog.login)
    requires pid == txn.prog.login.todo[0] && pid in db.players && Allocate(db, txn, pid, ch).Allocated?
    requires Allocate(db, txn, pid, ch).txn.prog == txn.prog
    ensures TxnOk(cfg, db, now, Took(Allocate(db, txn, pid, ch).txn, Allocate(db, txn, pid, ch).made).(at := now))
  {
    assert IdsPart(cfg, db, txn);
    LoginAtPlayer(cfg, db, txn, txn.prog.login);
    hide TxnOk, WritesOk, IdsPart, LoginKnows, Allocate, IdentitiesOk, ViewIds, Carries, ReadIdentity, Took;
    AllocateOk(cfg, db, txn, pid, ch);
    LoginTakes(cfg, db, now, txn, Allocate(db, txn, pid, ch).txn, Allocate(db, txn, pid, ch).made);
  }

  lemma LoginMeets(cfg: Config, db: Db, now: nat, txn: Txn, pid: nat, ch: Choice)
    requires IdentitiesOk(db.identities) && WritesOk(cfg, db, now, txn) && txn.at <= now
    requires txn.prog.Login? && txn.prog.login.pc == 7 && LoginKnows(cfg, db, now, txn, txn.prog.login)
    requires pid == txn.prog.login.todo[0] && pid in db.players && Allocate(db, txn, pid, ch).Existing?
    ensures TxnOk(cfg, db, now, Took(txn, Allocate(db, txn, pid, ch).found).(at := now))
  {
    assert IdsPart(cfg, db, txn);
    LoginAtPlayer(cfg, db, txn, txn.prog.login);
    hide TxnOk, WritesOk, IdsPart, LoginKnows, Allocate, IdentitiesOk, ViewIds, Carries, ReadIdentity, Took;
    AllocateOk(cfg, db, txn, pid, ch);
    LoginTakes(cfg, db, now, txn, txn, Allocate(db, txn, pid, ch).found);
  }

  /** The statement in terms of the allocation. */
  lemma LoginStepTakes(cfg: Config, db: Db, txn: Txn, ch: Choice)
    requires txn.prog.Login? && txn.prog.login.pc == 7 && LoginStep(cfg, db, txn, ch).Some?
    ensures txn.prog.login.todo != [] && txn.prog.login.todo[0] in db.players
    ensures match Allocate(db, txn, txn.prog.login.todo[0], ch)
            case Allocated(mid, x) => mid.prog == txn.prog && LoginStep(cfg, db, txn, ch).value == Took(mid, x)
            case Existing(x) => LoginStep(cfg, db, txn, ch).value == Took(txn, x)
            case Collided => true
            case Refused => false
  {
    hide ReadIdentity, ViewIds;
  }

  lemma LoginAllocates(cfg: Config, db: Db, now: nat, txn: Txn, ch: Choice)
    requires Running(cfg, db, now, txn, ch) && txn.prog.Login? && txn.prog.login.pc == 7
    requires LoginStep(cfg, db, txn, ch).Some?
    ensures TxnOk(cfg, db, now, LoginStep(cfg, db, txn, ch).value.(at := now))
  {
    assert LoginKnows(cfg, db, now, txn, txn.prog.login);
    hide WritesOk, LoginKnows, Allocate, IdentitiesOk, WithinQuota, LoginStep, Took;
    LoginStepTakes(cfg, db, txn, ch);
    var pid := txn.prog.login.todo[0];
    match Allocate(db, txn, pid, ch)
    case Allocated(_, _) => LoginInserts(cfg, db, now, txn, pid, ch);
    case Existing(_) => LoginMeets(cfg, db, now, txn, pid, ch);
    case Collided => LoginFails(cfg, db, now, txn, ch);
  }

  lemma IssueWrites(cfg: Config, db: Db, now: nat, txn: Txn, next: Txn)
    requires WritesOk(cfg, db, now, txn) && txn.shared <= next.shared && txn.excl <= next.excl
    requires next.writes == txn.writes.(issue := next.writes.issue)
    requires IssuePart(cfg, db, now, next)
    ensures WritesOk(cfg, db, now, next)
  {
    assert ViewIds(db, txn.writes) == ViewIds(db, next.writes);
  }

  /** The pending row of a login. */
  lemma LoginRow(cfg: Config, db: Db, now: nat, txn: Txn, ch: Choice)
    requires txn.prog.Login? && LoginKnows(cfg, db, now, txn, txn.prog.login) && txn.at <= ch.at <= now
    requires txn.prog.login.pc == 9 && LoginStep(cfg, db, txn, ch).Some?
    ensures IssuePart(cfg, db, now, LoginStep(cfg, db, txn, ch).value.(at := now))
  {
    hide LoginCounted, IsEviction, Live;
    assert ViewIds(db, txn.writes) == ViewIds(db, LoginStep(cfg, db, txn, ch).value.writes);
  }

  lemma LoginIssues(cfg: Config, db: Db, now: nat, txn: Txn, ch: Choice)
    requires Running(cfg, db, now, txn, ch) && txn.prog.Login? && txn.prog.login.pc == 9
    requires LoginStep(cfg, db, txn, ch).Some?
    ensures TxnOk(cfg, db, now, LoginStep(cfg, db, txn, ch).value.(at := now))
  {
    hide WritesOk, IssuePart, LoginCounted, WithinQuota, IdentitiesOk, LoginProfiled;
    var v := txn.prog.login;
    var next := LoginStep(cfg, db, txn, ch).value.(at := now);
    assert ViewIds(db, txn.writes) == ViewIds(db, next.writes);
    LoginRow(cfg, db, now, txn, ch);
    IssueWrites(cfg, db, now, txn, next);
    CountedBefore(db, txn, v);
    ProfiledSame(cfg, db, txn, next, v, next.prog.login);
    hide ViewIds;
    LoginCarries(cfg, db, now, txn, v, next, next.prog.login);
  }

  lemma CountedBefore(db: Db, txn: Txn, v: LoginVars)
    requires LoginCounted(db, txn, v)
    ensures v.evictAt <= txn.at
  {
  }

  lemma ProfiledSame(cfg: Config, db: Db, txn: Txn, next: Txn, v: LoginVars, v': LoginVars)
    requires LoginProfiled(cfg, db, txn, v) && v.pc >= 9 && v' == v.(pc := v'.pc, tries := v'.tries) && v'.pc >= 9
    requires txn.shared <= next.shared && ViewIds(db, next.writes) == ViewIds(db, txn.writes)
    ensures LoginProfiled(cfg, db, next, v')
  {
  }

  /** Deleting locked rows and publishing identities, beside a pending issue. */
  lemma EvictionWrites(cfg: Config, db: Db, now: nat, txn: Txn, next: Txn, kills: set<Hash>, xs: seq<Identity>)
    requires WritesOk(cfg, db, now, txn) && txn.shared <= next.shared && txn.excl <= next.excl
    requires next.writes == txn.writes.(kills := kills, events := Provisions(xs))
    requires txn.writes.kills == {} && txn.writes.events == [] && txn.writes.sessions == map[]
    requires txn.writes.issue.Some? ==> txn.writes.issue.value.from.None?
    requires forall h | h in kills :: TokenRow(h) in next.excl && h in db.tokens
    requires forall x | x in xs :: Carries(ViewIds(db, txn.writes), x.id, x.player, x.uuid)
    ensures WritesOk(cfg, db, now, next)
  {
    assert ViewIds(db, txn.writes) == ViewIds(db, next.writes);
    assert EventsPart(db, next);
    assert SubjectsPart(db, next);
    assert IssuePart(cfg, db, now, next);
  }

  /** What a login about to evict knows. */
  lemma LoginAtEviction(cfg: Config, db: Db, now: nat, txn: Txn, v: LoginVars)
    requires LoginKnows(cfg, db, now, txn, v) && v.pc == 10
    ensures txn.writes.kills == {} && txn.writes.events == [] && txn.writes.sessions == map[]
    ensures txn.writes.issue.Some? && txn.writes.issue.value.from.None?
    ensures v.victims <= db.tokens.Keys ==> forall h | h in v.victims :: TokenRow(h) in txn.excl && h in db.tokens
    ensures forall x | x in v.profiles :: Carries(ViewIds(db, txn.writes), x.id, x.player, x.uuid)
  {
    hide Carries, ViewIds;
  }

  lemma LoginEvicts(cfg: Config, db: Db, now: nat, txn: Txn, ch: Choice)
    requires Running(cfg, db, now, txn, ch) && txn.prog.Login? && txn.prog.login.pc == 10
    requires LoginStep(cfg, db, txn, ch).Some?
    ensures TxnOk(cfg, db, now, LoginStep(cfg, db, txn, ch).value.(at := now))
  {
    hide WritesOk, LoginCounted, LoginProfiled, IdentitiesOk, WithinQuota, Carries;
    var v := txn.prog.login;
    var next := LoginStep(cfg, db, txn, ch).value.(at := now);
    assert ViewIds(db, txn.writes) == ViewIds(db, next.writes);
    hide ViewIds;
    LoginAtEviction(cfg, db, now, txn, v);
    EvictionWrites(cfg, db, now, txn, next, v.victims, v.profiles);
    ProfiledSame(cfg, db, txn, next, v, next.prog.login);
    LoginCarries(cfg, db, now, txn, v, next, next.prog.login);
  }

  lemma LoginKeeps(cfg: Config, db: Db, now: nat, txn: Txn, ch: Choice)
    requires Running(cfg, db, now, txn, ch) && txn.prog.Login?
    requires LoginStep(cfg, db, txn, ch).Some?
    ensures TxnOk(cfg, db, now, LoginStep(cfg, db, txn, ch).value.(at := now))
  {
    var pc := txn.prog.login.pc;
    if pc == 2 {
      LoginUpserts(cfg, db, now, txn, ch);
    } else if pc in {6, 8} {
      LoginReadsLate(cfg, db, now, txn, ch);
    } else if pc == 7 {
      LoginAllocates(cfg, db, now, txn, ch);
    } else if pc == 9 {
      LoginIssues(cfg, db, now, txn, ch);
    } else if pc == 10 {
      LoginEvicts(cfg, db, now, txn, ch);
    } else {
      if pc in {4, 5} {
        LoginCounts(cfg, db, now, txn, ch);
      } else {
        LoginReads(cfg, db, now, txn, ch);
      }
      WritesKept(cfg, db, now, txn, LoginStep(cfg, db, txn, ch).value.(at := now));
    }
  }

  // ---- Validate, Refresh, Join, HasJoined ----

  lemma AccessLocks(cfg: Config, db: Db, now: nat, txn: Txn, ch: Choice)
    requires WithinQuota(db, now, cfg.quota)
    requires txn.prog.Access? && txn.prog.access.pc < 5 && AccessKnows(cfg, db, now, txn, txn.prog.access)
    requires AccessStep(cfg, db, now, txn, ch).Some?
    ensures var next := AccessStep(cfg, db, now, txn, ch).value.(at := now);
            Grows(txn, next) && next.prog.Access? && AccessKnows(cfg, db, now, next, next.prog.access)
  {
    var v := txn.prog.access;
    assert |Live(db.tokens, v.owner, Base(db.subjects, v.owner), now)| <= cfg.quota;
  }

  lemma AccessBinds(cfg: Config, db: Db, now: nat, txn: Txn, ch: Choice)
    requires IdentitiesOk(db.identities) && txn.at <= ch.at <= now
    requires txn.prog.Access? && 5 <= txn.prog.access.pc < 8 && AccessKnows(cfg, db, now, txn, txn.prog.access)
    requires AccessStep(cfg, db, now, txn, ch).Some?
    ensures var next := AccessStep(cfg, db, now, txn, ch).value.(at := now);
            Grows(txn, next) && next.prog.Access? && AccessKnows(cfg, db, now, next, next.prog.access)
  {
    var v := txn.prog.access;
    if v.pc == 6 {
      var x := BoundIdentity(db, v.owner, v.row.identity.value).value;
      var pid := db.identities[v.row.identity.value].player.value;
      ReadIdentityIff(db.identities, pid, db.players[pid], x);
    }
  }

  lemma SelectedIdentity(db: Db, u: Uuid, x: Identity)
    requires IdentitiesOk(db.identities) && LookupUuid(db, u) == Ok(x)
    ensures x.player in db.players && db.players[x.player] == Player(x.owner, x.name)
    ensures Carries(db.identities, x.id, x.player, x.uuid) && x.uuid == u
  {
    var i := ActiveRow(db.identities, u).value;
    ReadIdentityIff(db.identities, x.player, db.players[x.player], x);
    assert i != x.id ==> Conflict(db.identities[i], db.identities[x.id]);
  }

  lemma AccessSelects(cfg: Config, db: Db, now: nat, txn: Txn, ch: Choice)
    requires IdentitiesOk(db.identities)
    requires txn.prog.Access? && txn.prog.access.pc == 8 && AccessKnows(cfg, db, now, txn, txn.prog.access)
    requires !txn.prog.access.goal.Join? && txn.at <= now
    requires AccessStep(cfg, db, now, txn, ch).Some?
    ensures var next := AccessStep(cfg, db, now, txn, ch).value.(at := now);
            Grows(txn, next) && next.prog.Access? && AccessKnows(cfg, db, now, next, next.prog.access)
  {
    var v := txn.prog.access;
    if v.goal.Refresh? && v.goal.selected.Some? && v.bound.None? {
      SelectedIdentity(db, v.goal.selected.value, LookupUuid(db, v.goal.selected.value).value);
    }
    if v.goal.Admit? {
      assert v.bound.value.player in Named(cfg.env.key, db.players, v.goal.name);
    }
  }

  /** Session writes and their event, beside nothing else. */
  lemma SessionWrites(cfg: Config, db: Db, now: nat, txn: Txn, next: Txn)
    requires WritesOk(cfg, db, now, txn) && txn.shared <= next.shared && txn.excl <= next.excl
    requires next.writes == txn.writes.(sessions := next.writes.sessions, events := next.writes.events)
    requires txn.writes.issue.None? && txn.writes.events == []
    requires SessionsPart(db, now, next) && EventsPart(db, next)
    requires forall e | e in next.writes.events :: !e.Revoked?
    ensures WritesOk(cfg, db, now, next)
  {
    assert ViewIds(db, txn.writes) == ViewIds(db, next.writes);
  }

  lemma JoinWrites(cfg: Config, db: Db, now: nat, txn: Txn, ch: Choice)
    requires Running(cfg, db, now, txn, ch) && txn.prog.Access? && txn.prog.access.goal.Join?
    requires txn.prog.access.pc in {8, 9}
    requires AccessStep(cfg, db, now, txn, ch).Some?
    ensures TxnOk(cfg, db, now, AccessStep(cfg, db, now, txn, ch).value.(at := now))
  {
    hide LockedPart, SubjectsPart, IssuePart, IdsPart, IdentitiesOk, Live;
    var next := AccessStep(cfg, db, now, txn, ch).value.(at := now);
    JoinKnows(cfg, db, now, txn, ch);
    SessionWrites(cfg, db, now, txn, next);
    hide AccessKnows;
  }

  lemma JoinKnows(cfg: Config, db: Db, now: nat, txn: Txn, ch: Choice)
    requires Running(cfg, db, now, txn, ch) && txn.prog.Access? && txn.prog.access.goal.Join?
    requires txn.prog.access.pc in {8, 9}
    requires AccessStep(cfg, db, now, txn, ch).Some?
    ensures var next := AccessStep(cfg, db, now, txn, ch).value.(at := now);
            next.prog.Access? && AccessKnows(cfg, db, now, next, next.prog.access)
  {
    hide WritesOk, IdentitiesOk, WithinQuota, Live, Carries;
  }

  lemma AdmitWrites(cfg: Config, db: Db, now: nat, txn: Txn, ch: Choice)
    requires Running(cfg, db, now, txn, ch) && txn.prog.Access? && txn.prog.access.goal.Admit?
    requires txn.prog.access.pc == 9
    requires AccessStep(cfg, db, now, txn, ch).Some?
    ensures TxnOk(cfg, db, now, AccessStep(cfg, db, now, txn, ch).value.(at := now))
  {
    hide LockedPart, SubjectsPart, IssuePart, IdsPart;
    var next := AccessStep(cfg, db, now, txn, ch).value.(at := now);
    SessionWrites(cfg, db, now, txn, next);
  }

  /** Deleting one locked token, beside nothing else. */
  lemma KillWrites(cfg: Config, db: Db, now: nat, txn: Txn, next: Txn)
    requires WritesOk(cfg, db, now, txn) && txn.shared <= next.shared && txn.excl <= next.excl
    requires next.writes == txn.writes.(kills := next.writes.kills)
    requires txn.writes.issue.None?
    requires forall h | h in next.writes.kills :: TokenRow(h) in next.excl && h in db.tokens
    ensures WritesOk(cfg, db, now, next)
  {
    assert ViewIds(db, txn.writes) == ViewIds(db, next.writes);
  }

  lemma RefreshDeletes(cfg: Config, db: Db, now: nat, txn: Txn, ch: Choice)
    requires Running(cfg, db, now, txn, ch) && txn.prog.Access? && txn.prog.access.goal.Refresh?
    requires txn.prog.access.pc == 9
    requires AccessStep(cfg, db, now, txn, ch).Some?
    ensures TxnOk(cfg, db, now, AccessStep(cfg, db, now, txn, ch).value.(at := now))
  {
    hide LockedPart, SubjectsPart, IssuePart, IdsPart, SessionsPart, EventsPart;
    var next := AccessStep(cfg, db, now, txn, ch).value.(at := now);
    KillWrites(cfg, db, now, txn, next);
  }

  /** The pending row of a refresh. */
  lemma RefreshRow(cfg: Config, db: Db, now: nat, txn: Txn, ch: Choice)
    requires txn.prog.Access? && AccessKnows(cfg, db, now, txn, txn.prog.access) && txn.at <= ch.at <= now
    requires txn.prog.access.pc == 10 && AccessStep(cfg, db, now, txn, ch).Some?
    ensures IssuePart(cfg, db, now, AccessStep(cfg, db, now, txn, ch).value.(at := now))
  {
    hide Live, UserKnown;
    var v := txn.prog.access;
    var next := AccessStep(cfg, db, now, txn, ch).value.(at := now);
    assert v.hash in next.writes.kills && db.tokens[v.hash] == v.row;
    assert ViewIds(db, next.writes) == db.identities;
  }

  lemma RefreshIssues(cfg: Config, db: Db, now: nat, txn: Txn, ch: Choice)
    requires Running(cfg, db, now, txn, ch) && txn.prog.Access? && txn.prog.access.pc == 10
    requires AccessStep(cfg, db, now, txn, ch).Some?
    ensures TxnOk(cfg, db, now, AccessStep(cfg, db, now, txn, ch).value.(at := now))
  {
    hide WritesOk, IssuePart, IdentitiesOk, WithinQuota, Live, ViewIds, Carries;
    RefreshRow(cfg, db, now, txn, ch);
    IssueWrites(cfg, db, now, txn, AccessStep(cfg, db, now, txn, ch).value.(at := now));
  }

  lemma AccessKeeps(cfg: Config, db: Db, now: nat, txn: Txn, ch: Choice)
    requires Running(cfg, db, now, txn, ch) && txn.prog.Access?
    requires AccessStep(cfg, db, now, txn, ch).Some?
    ensures TxnOk(cfg, db, now, AccessStep(cfg, db, now, txn, ch).value.(at := now))
  {
    hide WritesOk, AccessKnows, WithinQuota, IdentitiesOk;
    var v := txn.prog.access;
    if v.pc == 10 {
      RefreshIssues(cfg, db, now, txn, ch);
    } else if v.pc in {8, 9} && v.goal.Join? {
      JoinWrites(cfg, db, now, txn, ch);
    } else if v.pc == 9 {
      if v.goal.Refresh? {
        RefreshDeletes(cfg, db, now, txn, ch);
      } else {
        AdmitWrites(cfg, db, now, txn, ch);
      }
    } else {
      if v.pc == 8 {
        AccessSelects(cfg, db, now, txn, ch);
      } else if v.pc >= 5 {
        AccessBinds(cfg, db, now, txn, ch);
      } else {
        AccessLocks(cfg, db, now, txn, ch);
      }
      WritesKept(cfg, db, now, txn, AccessStep(cfg, db, now, txn, ch).value.(at := now));
    }
  }

  // ---- Signout, Invalidate, EnsureIdentity, CleanupExpired, edits ----

  /** Bumping a locked subject with its revocation event, beside nothing that depends on subjects. */
  lemma BumpWrites(cfg: Config, db: Db, now: nat, txn: Txn, next: Txn, uid: nat, why: Change)
    requires WritesOk(cfg, db, now, txn) && txn.shared <= next.shared && txn.excl <= next.excl
    requires txn.writes.issue.None? && SubjectRow(uid) in next.excl
    requires var b := Bump(db, txn.writes, uid); next.writes == b.(events := b.events + [Revoked(uid, why)])
    ensures WritesOk(cfg, db, now, next)
  {
    assert ViewIds(db, txn.writes) == ViewIds(db, next.writes);
    var prior := txn.writes;
    var w := next.writes;
    forall u | u in w.subjects
      ensures SubjectRow(u) in next.excl && w.subjects[u] >= 1 && w.subjects[u] >= Base(db.subjects, u)
      ensures Revokes(w.events, u) ==> w.subjects[u] > Base(db.subjects, u)
    {
      if u != uid && Revokes(w.events, u) {
        assert Revokes(prior.events, u);
      }
    }
    assert SubjectsPart(db, next);
  }

  lemma LogoutKeeps(cfg: Config, db: Db, now: nat, txn: Txn, ch: Choice)
    requires Running(cfg, db, now, txn, ch) && txn.prog.Logout?
    requires LogoutStep(cfg, db, txn).Some?
    ensures TxnOk(cfg, db, now, LogoutStep(cfg, db, txn).value.(at := now))
  {
    hide WritesOk;
    var next := LogoutStep(cfg, db, txn).value.(at := now);
    if txn.prog.logout.pc == 2 {
      BumpWrites(cfg, db, now, txn, next, txn.prog.logout.cred.uid, SignedOut);
      assert db.subjects + map[] == db.subjects;
    } else {
      WritesKept(cfg, db, now, txn, next);
    }
  }

  lemma DropKeeps(cfg: Config, db: Db, now: nat, txn: Txn, ch: Choice)
    requires Running(cfg, db, now, txn, ch) && txn.prog.Drop?
    requires DropStep(db, txn).Some?
    ensures TxnOk(cfg, db, now, DropStep(db, txn).value.(at := now))
  {
    hide WritesOk;
    var next := DropStep(db, txn).value.(at := now);
    if txn.prog.drop.pc == 4 {
      KillWrites(cfg, db, now, txn, next);
    } else {
      WritesKept(cfg, db, now, txn, next);
    }
  }

  /** Publishing one identity that the transaction sees. */
  lemma ProvideWrites(cfg: Config, db: Db, now: nat, txn: Txn, next: Txn, x: Identity)
    requires WritesOk(cfg, db, now, txn) && Grows(txn, next.(writes := txn.writes))
    requires next.writes == txn.writes.(events := txn.writes.events + [Provided(x.player, x.id, x.uuid)])
    requires txn.writes.issue.None? && txn.writes.events == []
    requires Carries(ViewIds(db, txn.writes), x.id, x.player, x.uuid)
    ensures WritesOk(cfg, db, now, next)
  {
    assert ViewIds(db, txn.writes) == ViewIds(db, next.writes);
    assert next.writes.events == [Provided(x.player, x.id, x.uuid)];
  }

  lemma EnsureKeeps(cfg: Config, db: Db, now: nat, txn: Txn, ch: Choice)
    requires Running(cfg, db, now, txn, ch) && txn.prog.Ensure?
    requires EnsureStep(cfg, db, txn, ch).Some?
    ensures TxnOk(cfg, db, now, EnsureStep(cfg, db, txn, ch).value.(at := now))
  {
    hide LockedPart, SubjectsPart, IssuePart, SessionsPart, EventsPart, IdsPart, Allocate;
    var v := txn.prog.ensure;
    var next := EnsureStep(cfg, db, txn, ch).value.(at := now);
    ViewOk(cfg, db, txn);
    if next.prog.ensure.pc == 3 {
      var x := next.prog.ensure.found.value;
      if v.pc == 1 {
        ReadIdentityIff(ViewIds(db, txn.writes), v.pid, db.players[v.pid], x);
        ProvideWrites(cfg, db, now, txn, next, x);
      } else {
        AllocateOk(cfg, db, txn, v.pid, ch);
        var mid := if Allocate(db, txn, v.pid, ch).Allocated? then Allocate(db, txn, v.pid, ch).txn else txn;
        AllocationWrites(cfg, db, now, txn, mid);
        ProvideWrites(cfg, db, now, mid, next, x);
      }
    } else {
      WritesKept(cfg, db, now, txn, next);
    }
  }

  lemma SweepWrites(cfg: Config, db: Db, now: nat, txn: Txn, next: Txn)
    requires WritesOk(cfg, db, now, txn) && txn.shared <= next.shared && txn.excl <= next.excl
    requires next.writes == NO_WRITES.(kills := next.writes.kills, sessions := next.writes.sessions)
    requires IdentitiesOk(db.identities)
    requires forall h | h in next.writes.kills :: TokenRow(h) in next.excl && h in db.tokens
    requires SessionsPart(db, now, next)
    ensures WritesOk(cfg, db, now, next)
  {
    assert ViewIds(db, next.writes) == db.identities;
  }

  lemma SweepSteps(db: Db, now: nat, txn: Txn, ch: Choice)
    requires txn.prog.Sweep? && SweepKnows(db, now, txn, txn.prog.sweep) && ch.at <= now
    requires LockedPart(db, txn) && SweepStep(db, txn, ch).Some?
    ensures var next := SweepStep(db, txn, ch).value;
            && next.prog.Sweep? && SweepKnows(db, now, next, next.prog.sweep) && SessionsPart(db, now, next)
            && txn.shared <= next.shared && txn.excl <= next.excl
            && (forall h | h in next.writes.kills :: TokenRow(h) in next.excl && h in db.tokens)
  {
    var next := SweepStep(db, txn, ch).value;
    if txn.prog.sweep.pc == 1 {
      assert next.writes.sessions.Keys == ch.servers;
    }
  }

  lemma SweepKeeps(cfg: Config, db: Db, now: nat, txn: Txn, ch: Choice)
    requires Running(cfg, db, now, txn, ch) && txn.prog.Sweep?
    requires SweepStep(db, txn, ch).Some?
    ensures TxnOk(cfg, db, now, SweepStep(db, txn, ch).value.(at := now))
  {
    hide Running, TxnOk, WritesOk, LockedPart, IdentitiesOk, SweepStep, SweepKnows, SessionsPart;
    SweepRuns(cfg, db, now, txn, ch);
    SweepSteps(db, now, txn, ch);
    SweepAfter(cfg, db, now, txn, SweepStep(db, txn, ch).value);
  }

  lemma SweepRuns(cfg: Config, db: Db, now: nat, txn: Txn, ch: Choice)
    requires Running(cfg, db, now, txn, ch) && txn.prog.Sweep?
    ensures IdentitiesOk(db.identities) && WritesOk(cfg, db, now, txn) && LockedPart(db, txn)
    ensures SweepKnows(db, now, txn, txn.prog.sweep) && ch.at <= now
  {
    hide IdentitiesOk, WithinQuota, LockedPart, SubjectsPart, IssuePart, EventsPart, IdsPart, SessionsPart, SweepKnows;
  }

  lemma SweepAfter(cfg: Config, db: Db, now: nat, txn: Txn, next: Txn)
    requires IdentitiesOk(db.identities) && WritesOk(cfg, db, now, txn)
    requires next.prog.Sweep? && SweepKnows(db, now, next, next.prog.sweep) && SessionsPart(db, now, next)
    requires txn.shared <= next.shared && txn.excl <= next.excl
    requires forall h | h in next.writes.kills :: TokenRow(h) in next.excl && h in db.tokens
    ensures TxnOk(cfg, db, now, next.(at := now))
  {
    SweepWrites(cfg, db, now, txn, next);
    hide WritesOk;
    WritesKept(cfg, db, now, next, next.(at := now));
  }

  // ---- ResolveIdentityByName, ResolveIdentitiesByNames ----

  lemma {:induction false} InsertedNames(s: seq<Hit>, h: Hit, names: seq<string>)
    requires (forall x | x in s :: x.name in names) && h.name in names
    ensures forall x | x in InsertHit(s, h) :: x.name in names
    decreases |s|
  {
    if s != [] && h.pid >= s[0].pid {
      InsertedNames(s[1..], h, names);
    }
  }

  /** Statements that resolve nobody. */
  lemma LookupReads(cfg: Config, db: Db, now: nat, txn: Txn, ch: Choice)
    requires txn.prog.Names? && LookupKnows(cfg, db, txn, txn.prog.lookup) && txn.prog.lookup.pc < 3
    requires LookupStep(cfg, db, txn, ch).Some?
    ensures var next := LookupStep(cfg, db, txn, ch).value.(at := now);
            Grows(txn, next) && next.prog.Names? && LookupKnows(cfg, db, next, next.prog.lookup)
  {
    hide Carries, ViewIds;
    var v := txn.prog.lookup;
    if v.pc == 0 {
      FindsKnows(cfg, db, now, txn);
    } else if v.pc == 2 && v.hits[0].pid in db.players {
      assert UniquePlayerName(cfg.env, db.players, v.hits[0].name) == Ok(v.hits[0].pid) ==>
          v.hits[0].pid in Named(cfg.env.key, db.players, v.hits[0].name);
    }
  }

  lemma FindsKnows(cfg: Config, db: Db, now: nat, txn: Txn)
    requires txn.prog.Names? && LookupKnows(cfg, db, txn, txn.prog.lookup) && txn.prog.lookup.pc == 0
    requires LookupFinds(cfg, db, txn).Some?
    ensures var next := LookupFinds(cfg, db, txn).value.(at := now);
            Grows(txn, next) && next.prog.Names? && LookupKnows(cfg, db, next, next.prog.lookup)
  {
    hide Carries, ViewIds;
    var v := txn.prog.lookup;
    if v.read < |v.names| && UniquePlayerName(cfg.env, db.players, v.names[v.read]).Ok? {
      var pid := UniquePlayerName(cfg.env, db.players, v.names[v.read]).value;
      assert pid in Named(cfg.env.key, db.players, v.names[v.read]);
      InsertedNames(v.hits, Hit(v.names[v.read], pid, db.players[pid].owner), v.names);
    }
  }

  /** The player at the front gets its answer. */
  lemma ResolveKnows(cfg: Config, db: Db, now: nat, txn: Txn, mid: Txn, x: Identity)
    requires txn.prog.Names? && LookupKnows(cfg, db, txn, txn.prog.lookup) && txn.prog.lookup.pc in {3, 4}
    requires mid.prog == txn.prog && txn.shared <= mid.shared && txn.excl <= mid.excl
    requires mid.writes == txn.writes.(identities := mid.writes.identities)
    requires forall i | i in ViewIds(db, txn.writes) ::
               i in ViewIds(db, mid.writes) && ViewIds(db, mid.writes)[i] == ViewIds(db, txn.writes)[i]
    requires Carries(ViewIds(db, mid.writes), x.id, x.player, x.uuid)
    requires x.player == txn.prog.lookup.hits[0].pid && db.players[x.player] == Player(x.owner, x.name)
    requires Resolve(mid, x).Some?
    ensures var next := Resolve(mid, x).value.(at := now);
            next.prog.Names? && LookupKnows(cfg, db, next, next.prog.lookup)
  {
    var v := txn.prog.lookup;
    var k :| 0 <= k < |v.names| && v.names[k] == v.hits[0].name;
    assert Asked(cfg.env, v.names, x.name);
    var next := Resolve(mid, x).value.(at := now);
    assert ViewIds(db, next.writes) == ViewIds(db, mid.writes);
    assert Answerable(cfg.env, db, next, v.names, x);
    hide ViewIds, Carries, Answerable, Asked;
    forall p | p in v.resolved
      ensures Answerable(cfg.env, db, next, v.names, v.resolved[p])
    {
      StaysAnswerable(cfg.env, db, txn, next, v.names, v.resolved[p]);
    }
    AnswersKnow(cfg, db, txn, mid, x, next);
  }

  lemma AnswersKnow(cfg: Config, db: Db, txn: Txn, mid: Txn, x: Identity, next: Txn)
    requires txn.prog.Names? && LookupKnows(cfg, db, txn, txn.prog.lookup) && txn.prog.lookup.pc in {3, 4}
    requires mid.prog == txn.prog && mid.writes == txn.writes.(identities := mid.writes.identities)
    requires x.player == txn.prog.lookup.hits[0].pid && Resolve(mid, x) == Some(next.(at := mid.at))
    requires Answerable(cfg.env, db, next, txn.prog.lookup.names, x)
    requires forall p | p in txn.prog.lookup.resolved ::
               Answerable(cfg.env, db, next, txn.prog.lookup.names, txn.prog.lookup.resolved[p])
    ensures next.prog.Names? && LookupKnows(cfg, db, next, next.prog.lookup)
  {
    hide Answerable;
    if txn.prog.lookup.single {
      assert next.prog.lookup.answers == [x];
    } else {
      assert next.writes == mid.writes;
    }
  }

  lemma StaysAnswerable(env: Env, db: Db, txn: Txn, next: Txn, names: seq<string>, x: Identity)
    requires Answerable(env, db, txn, names, x) && txn.shared <= next.shared
    requires forall i | i in ViewIds(db, txn.writes) ::
               i in ViewIds(db, next.writes) && ViewIds(db, next.writes)[i] == ViewIds(db, txn.writes)[i]
    ensures Answerable(env, db, next, names, x)
  {
    hide ViewIds, Asked;
  }

  lemma ResolveWrites(cfg: Config, db: Db, now: nat, txn: Txn, x: Identity)
    requires txn.prog.Names? && WritesOk(cfg, db, now, txn) && txn.writes.issue.None? && txn.writes.events == []
    requires Carries(ViewIds(db, txn.writes), x.id, x.player, x.uuid) && Resolve(txn, x).Some?
    ensures WritesOk(cfg, db, now, Resolve(txn, x).value.(at := now))
  {
    hide LockedPart, SubjectsPart, IssuePart, SessionsPart, EventsPart, IdsPart, Carries, ViewIds;
    var next := Resolve(txn, x).value.(at := now);
    if txn.prog.lookup.single {
      assert Provisions([x]) == [Provided(x.player, x.id, x.uuid)];
      ProvideWrites(cfg, db, now, txn, next, x);
    } else {
      WritesKept(cfg, db, now, txn, next);
    }
  }

  lemma PassOverKnows(cfg: Config, db: Db, now: nat, txn: Txn)
    requires txn.prog.Names? && LookupKnows(cfg, db, txn, txn.prog.lookup) && txn.prog.lookup.pc in {3, 4}
    requires PassOver(txn).Some?
    ensures var next := PassOver(txn).value.(at := now);
            Grows(txn, next) && next.prog.Names? && LookupKnows(cfg, db, next, next.prog.lookup)
  {
    hide Carries, ViewIds;
  }

  /** Reading or allocating the identity of the locked player. */
  lemma LookupSettles(cfg: Config, db: Db, now: nat, txn: Txn, ch: Choice)
    requires Running(cfg, db, now, txn, ch) && txn.prog.Names? && txn.prog.lookup.pc in {3, 4}
    requires LookupStep(cfg, db, txn, ch).Some?
    ensures TxnOk(cfg, db, now, LookupStep(cfg, db, txn, ch).value.(at := now))
  {
    var v := txn.prog.lookup;
    var pid := v.hits[0].pid;
    ViewOk(cfg, db, txn);
    assert LookupKnows(cfg, db, txn, v);
    hide WritesOk, IdentitiesOk, WithinQuota;
    if v.pc == 3 {
      LookupReadsRow(cfg, db, now, txn, ch);
    } else {
      LookupAllocates(cfg, db, now, txn, ch);
    }
  }

  lemma LookupReadsRow(cfg: Config, db: Db, now: nat, txn: Txn, ch: Choice)
    requires IdentitiesOk(ViewIds(db, txn.writes)) && TxnOk(cfg, db, now, txn)
    requires txn.prog.Names? && txn.prog.lookup.pc == 3 && LookupStep(cfg, db, txn, ch).Some?
    ensures TxnOk(cfg, db, now, LookupStep(cfg, db, txn, ch).value.(at := now))
  {
    hide WritesOk, IdentitiesOk, ReadIdentity, ViewIds, PassOver, Resolve, Carries, LookupStep;
    RowReads(cfg, db, txn, ch);
    var pid := txn.prog.lookup.hits[0].pid;
    var next := LookupStep(cfg, db, txn, ch).value.(at := now);
    var read := ReadIdentity(ViewIds(db, txn.writes), pid, db.players[pid]);
    hide LookupKnows;
    if read.Ok? {
      ReadsProfile(ViewIds(db, txn.writes), pid, db.players[pid], read.value);
      ResolveKnows(cfg, db, now, txn, txn, read.value);
      ResolveWrites(cfg, db, now, txn, read.value);
    } else if read == Err(NotFound) && pid > cfg.watermark {
      LookupWaits(cfg, db, now, txn);
      WritesKept(cfg, db, now, txn, next);
    } else {
      PassOverKnows(cfg, db, now, txn);
      WritesKept(cfg, db, now, txn, next);
    }
  }

  /** What becomes of the candidate at the front, from the row that is read. */
  lemma RowReads(cfg: Config, db: Db, txn: Txn, ch: Choice)
    requires txn.prog.Names? && LookupKnows(cfg, db, txn, txn.prog.lookup) && txn.prog.lookup.pc == 3
    requires LookupStep(cfg, db, txn, ch).Some?
    ensures var v := txn.prog.lookup;
            && txn.writes.issue.None? && txn.writes.events == [] && v.hits != [] && v.hits[0].pid in db.players
            && match ReadIdentity(ViewIds(db, txn.writes), v.hits[0].pid, db.players[v.hits[0].pid])
               case Ok(x) => LookupStep(cfg, db, txn, ch) == Resolve(txn, x)
               case Err(e) =>
                 LookupStep(cfg, db, txn, ch) == if e == NotFound && v.hits[0].pid > cfg.watermark
                                                 then Some(txn.(prog := Names(v.(pc := 4, tries := 0))))
                                                 else PassOver(txn)
  {
    hide ReadIdentity, ViewIds, PassOver, Resolve, Carries;
  }

  lemma LookupWaits(cfg: Config, db: Db, now: nat, txn: Txn)
    requires txn.prog.Names? && LookupKnows(cfg, db, txn, txn.prog.lookup) && txn.prog.lookup.pc == 3
    requires txn.prog.lookup.hits[0].pid > cfg.watermark
    ensures var v := txn.prog.lookup.(pc := 4, tries := 0);
            LookupKnows(cfg, db, txn.(prog := Names(v), at := now), v)
  {
    hide Carries, ViewIds;
  }

  lemma LookupAllocates(cfg: Config, db: Db, now: nat, txn: Txn, ch: Choice)
    requires IdentitiesOk(db.identities) && TxnOk(cfg, db, now, txn)
    requires txn.prog.Names? && txn.prog.lookup.pc == 4 && LookupStep(cfg, db, txn, ch).Some?
    ensures TxnOk(cfg, db, now, LookupStep(cfg, db, txn, ch).value.(at := now))
  {
    hide WritesOk, IdsPart, IdentitiesOk, ReadIdentity, ViewIds, PassOver, Resolve, Carries, Allocate;
    assert LookupKnows(cfg, db, txn, txn.prog.lookup);
    var pid := txn.prog.lookup.hits[0].pid;
    if txn.prog.lookup.tries < 3 && Allocate(db, txn, pid, ch).Allocated? {
      LookupInserts(cfg, db, now, txn, pid, ch);
    } else if txn.prog.lookup.tries < 3 && Allocate(db, txn, pid, ch).Existing? {
      LookupMeets(cfg, db, now, txn, pid, ch);
    } else {
      LookupFails(cfg, db, now, txn, ch);
    }
  }

  /** What a lookup about to allocate knows of its player. */
  lemma LookupReady(cfg: Config, db: Db, txn: Txn, v: LookupVars)
    requires LookupKnows(cfg, db, txn, v) && v.pc == 4
    ensures v.hits != [] && v.hits[0].pid in db.players && v.hits[0].pid > cfg.watermark
    ensures txn.writes.issue.None? && txn.writes.events == []
  {
    hide Carries, ViewIds, Asked;
  }

  ghost predicate Settles(cfg: Config, db: Db, now: nat, next: Txn)
  {
    next.prog.Names? && WritesOk(cfg, db, now, next) && LookupKnows(cfg, db, next, next.prog.lookup)
  }

  lemma LookupInserts(cfg: Config, db: Db, now: nat, txn: Txn, pid: nat, ch: Choice)
    requires IdentitiesOk(db.identities) && WritesOk(cfg, db, now, txn) && txn.at <= now
    requires txn.prog.Names? && txn.prog.lookup.pc == 4 && LookupKnows(cfg, db, txn, txn.prog.lookup)
    requires pid == txn.prog.lookup.hits[0].pid && Allocate(db, txn, pid, ch).Allocated?
    requires Resolve(Allocate(db, txn, pid, ch).txn, Allocate(db, txn, pid, ch).made).Some?
    ensures Settles(cfg, db, now,
                    Resolve(Allocate(db, txn, pid, ch).txn, Allocate(db, txn, pid, ch).made).value.(at := now))
  {
    assert IdsPart(cfg, db, txn);
    hide WritesOk, IdsPart, IdentitiesOk, ReadIdentity, ViewIds, Resolve, Carries, Allocate, LookupKnows, Settles;
    LookupReady(cfg, db, txn, txn.prog.lookup);
    AllocateOk(cfg, db, txn, pid, ch);
    LookupInserted(cfg, db, now, txn, Allocate(db, txn, pid, ch).txn, Allocate(db, txn, pid, ch).made);
  }

  lemma LookupInserted(cfg: Config, db: Db, now: nat, txn: Txn, mid: Txn, x: Identity)
    requires WritesOk(cfg, db, now, txn) && IdsPart(cfg, db, mid)
    requires txn.prog.Names? && txn.prog.lookup.pc == 4 && LookupKnows(cfg, db, txn, txn.prog.lookup)
    requires mid.prog == txn.prog && txn.shared <= mid.shared && txn.excl <= mid.excl
    requires mid.writes == txn.writes.(identities := mid.writes.identities)
    requires forall i | i in ViewIds(db, txn.writes) ::
               i in ViewIds(db, mid.writes) && ViewIds(db, mid.writes)[i] == ViewIds(db, txn.writes)[i]
    requires Carries(ViewIds(db, mid.writes), x.id, x.player, x.uuid)
    requires x.player == txn.prog.lookup.hits[0].pid && db.players[x.player] == Player(x.owner, x.name)
    requires Resolve(mid, x).Some?
    ensures Settles(cfg, db, now, Resolve(mid, x).value.(at := now))
  {
    LookupReady(cfg, db, txn, txn.prog.lookup);
    hide WritesOk, IdsPart, ViewIds, Resolve, Carries, LookupKnows;
    AllocationWrites(cfg, db, now, txn, mid);
    ResolveKnows(cfg, db, now, txn, mid, x);
    ResolveWrites(cfg, db, now, mid, x);
  }

  lemma LookupMeets(cfg: Config, db: Db, now: nat, txn: Txn, pid: nat, ch: Choice)
    requires IdentitiesOk(db.identities) && WritesOk(cfg, db, now, txn) && txn.at <= now
    requires txn.prog.Names? && txn.prog.lookup.pc == 4 && LookupKnows(cfg, db, txn, txn.prog.lookup)
    requires pid == txn.prog.lookup.hits[0].pid && Allocate(db, txn, pid, ch).Existing?
    requires Resolve(txn, Allocate(db, txn, pid, ch).found).Some?
    ensures Settles(cfg, db, now, Resolve(txn, Allocate(db, txn, pid, ch).found).value.(at := now))
  {
    assert IdsPart(cfg, db, txn);
    hide WritesOk, IdsPart, IdentitiesOk, ReadIdentity, ViewIds, Resolve, Carries, Allocate, LookupKnows;
    LookupReady(cfg, db, txn, txn.prog.lookup);
    AllocateOk(cfg, db, txn, pid, ch);
    var x := Allocate(db, txn, pid, ch).found;
    ResolveKnows(cfg, db, now, txn, txn, x);
    ResolveWrites(cfg, db, now, txn, x);
  }

  lemma LookupFails(cfg: Config, db: Db, now: nat, txn: Txn, ch: Choice)
    requires WritesOk(cfg, db, now, txn) && txn.at <= now
    requires txn.prog.Names? && txn.prog.lookup.pc == 4 && LookupKnows(cfg, db, txn, txn.prog.lookup)
    requires LookupStep(cfg, db, txn, ch).Some?
    requires var a := Allocate(db, txn, txn.prog.lookup.hits[0].pid, ch);
             txn.prog.lookup.tries >= 3 || a.Collided? || a.Refused?
    ensures TxnOk(cfg, db, now, LookupStep(cfg, db, txn, ch).value.(at := now))
  {
    hide WritesOk, ReadIdentity, ViewIds, PassOver, Resolve, Carries, Allocate;
    var next := LookupStep(cfg, db, txn, ch).value.(at := now);
    if PassOver(txn).Some? {
      PassOverKnows(cfg, db, now, txn);
    }
    WritesKept(cfg, db, now, txn, next);
  }

  /** Publishing the answers. */
  lemma AnswerWrites(cfg: Config, db: Db, now: nat, txn: Txn, next: Txn, xs: seq<Identity>)
    requires WritesOk(cfg, db, now, txn) && Grows(txn, next.(writes := txn.writes))
    requires next.writes == txn.writes.(events := Provisions(xs)) && txn.writes.events == [] && txn.writes.issue.None?
    requires txn.writes.sessions == map[]
    requires forall x | x in xs :: Carries(ViewIds(db, txn.writes), x.id, x.player, x.uuid)
    ensures WritesOk(cfg, db, now, next)
  {
    assert ViewIds(db, txn.writes) == ViewIds(db, next.writes);
    assert EventsPart(db, next);
    assert SubjectsPart(db, next);
  }

  /** The next name's player, if it was resolved and has not been returned yet. */
  lemma LookupReturns(cfg: Config, db: Db, now: nat, txn: Txn, ch: Choice)
    requires txn.prog.Names? && txn.prog.lookup.pc == 5 && LookupKnows(cfg, db, txn, txn.prog.lookup)
    requires txn.prog.lookup.read < |txn.prog.lookup.names|
    requires LookupStep(cfg, db, txn, ch).Some?
    ensures var next := LookupStep(cfg, db, txn, ch).value.(at := now);
            Grows(txn, next) && next.prog.Names? && LookupKnows(cfg, db, next, next.prog.lookup)
  {
    hide Carries, UniquePlayerName, ViewIds, Asked;
  }

  lemma LookupAnswersKeep(cfg: Config, db: Db, now: nat, txn: Txn, ch: Choice)
    requires Running(cfg, db, now, txn, ch) && txn.prog.Names? && txn.prog.lookup.pc == 5
    requires LookupStep(cfg, db, txn, ch).Some?
    ensures TxnOk(cfg, db, now, LookupStep(cfg, db, txn, ch).value.(at := now))
  {
    hide WritesOk, IdentitiesOk, WithinQuota, Carries, UniquePlayerName, Asked;
    var v := txn.prog.lookup;
    var next := LookupStep(cfg, db, txn, ch).value.(at := now);
    if v.read >= |v.names| {
      assert ViewIds(db, txn.writes) == ViewIds(db, next.writes);
      assert next.writes.events == Provisions(v.answers);
      AnswerWrites(cfg, db, now, txn, next, v.answers);
    } else {
      LookupReturns(cfg, db, now, txn, ch);
      hide LookupStep, LookupKnows;
      WritesKept(cfg, db, now, txn, next);
    }
  }

  lemma LookupKeeps(cfg: Config, db: Db, now: nat, txn: Txn, ch: Choice)
    requires Running(cfg, db, now, txn, ch) && txn.prog.Names?
    requires LookupStep(cfg, db, txn, ch).Some?
    ensures TxnOk(cfg, db, now, LookupStep(cfg, db, txn, ch).value.(at := now))
  {
    hide WritesOk, LookupKnows, WithinQuota, IdentitiesOk;
    var pc := txn.prog.lookup.pc;
    if pc < 3 {
      LookupReads(cfg, db, now, txn, ch);
      WritesKept(cfg, db, now, txn, LookupStep(cfg, db, txn, ch).value.(at := now));
    } else if pc == 5 {
      LookupAnswersKeep(cfg, db, now, txn, ch);
    } else {
      LookupSettles(cfg, db, now, txn, ch);
    }
  }

  /** Writing user and player rows under their locks. */
  lemma RowWrites(cfg: Config, db: Db, now: nat, txn: Txn, next: Txn)
    requires WritesOk(cfg, db, now, txn) && txn.shared <= next.shared && txn.excl <= next.excl
    requires next.writes == txn.writes.(users := next.writes.users, players := next.writes.players)
    requires forall u | u in next.writes.users :: UserRow(u) in next.excl
    requires forall p | p in next.writes.players :: PlayerRow(p) in next.excl
    ensures WritesOk(cfg, db, now, next)
  {
    assert ViewIds(db, txn.writes) == ViewIds(db, next.writes);
  }

  /** The triggers see every step of a user row, so a change that is later undone has left its mark. */
  lemma EditRemembers(db: Db, txn: Txn, op: EditOp)
    requires EditKnows(db, txn)
    ensures EditKnows(db, EditStep(db, txn, op))
  {
    if op.PutUser? {
      var w := txn.writes;
      var w' := EditStep(db, txn, op).writes;
      forall u | u in w'.users && TriggerFires(Lookup(db.users, u), w'.users[u]).Some?
        ensures Revokes(w'.events, u)
      {
        if Revokes(w.events, u) {
          var k :| 0 <= k < |w.events| && w.events[k].Revoked? && w.events[k].uid == u;
          assert w'.events[k] == w.events[k];
        } else {
          assert Lookup(Merge(db.users, w.users), u) == (if u in w.users then w.users[u] else Lookup(db.users, u));
          assert w'.events[|w.events|].uid == u;
        }
      }
    }
  }

  lemma EditKeeps(cfg: Config, db: Db, now: nat, txn: Txn, op: EditOp)
    requires TxnOk(cfg, db, now, txn) && txn.prog.Editing?
    ensures TxnOk(cfg, db, now, EditStep(db, txn, op))
  {
    var next := EditStep(db, txn, op);
    EditRemembers(db, txn, op);
    assert LockedPart(db, txn);
    hide SubjectsPart, IssuePart, SessionsPart, EventsPart, IdsPart;
    match op
    case LockUser(_) =>
      WritesKept(cfg, db, now, txn, next);
    case PutPlayer(_, _) =>
      RowWrites(cfg, db, now, txn, next);
    case PutUser(uid, user) =>
      PutUserWrites(cfg, db, now, txn, uid, user);
  }

  lemma PutUserWrites(cfg: Config, db: Db, now: nat, txn: Txn, uid: nat, user: Option<User>)
    requires TxnOk(cfg, db, now, txn) && txn.prog.Editing?
    ensures WritesOk(cfg, db, now, EditStep(db, txn, PutUser(uid, user)))
  {
    assert LockedPart(db, txn) && EditKnows(db, txn);
    hide SubjectsPart, IssuePart, SessionsPart, EventsPart, IdsPart, Merge;
    var mid := Lock(txn, {UserRow(uid)}).(writes := txn.writes.(users := txn.writes.users[uid := user]));
    RowWrites(cfg, db, now, txn, mid);
    var fired := TriggerFires(Lookup(Merge(db.users, txn.writes.users), uid), user);
    hide WritesOk, TriggerFires;
    if fired.Some? {
      BumpWrites(cfg, db, now, mid, EditStep(db, txn, PutUser(uid, user)), uid, fired.value);
    }
  }

  lemma AdvanceKeeps(cfg: Config, db: Db, now: nat, txn: Txn, ch: Choice)
    requires Running(cfg, db, now, txn, ch) && Advance(cfg, db, now, txn, ch).Some?
    ensures TxnOk(cfg, db, now, Advance(cfg, db, now, txn, ch).value.(at := now))
  {
    match txn.prog
    case Login(_) => LoginKeeps(cfg, db, now, txn, ch);
    case Access(_) => AccessKeeps(cfg, db, now, txn, ch);
    case Logout(_) => LogoutKeeps(cfg, db, now, txn, ch);
    case Drop(_) => DropKeeps(cfg, db, now, txn, ch);
    case Ensure(_) => EnsureKeeps(cfg, db, now, txn, ch);
    case Sweep(_) => SweepKeeps(cfg, db, now, txn, ch);
    case Names(_) => LookupKeeps(cfg, db, now, txn, ch);
    case Editing =>
  }
}
