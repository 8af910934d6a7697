/** The service over time, with cleanups and without: nobody who asks it anything can tell the difference. */
module CleanupRuns {
  import opened Basics
  import opened Uuids
  import opened Tables
  import opened Directory
  import Database
  import opened Service
  import opened AccountProfiles
  import A = Auth
  import S = Sessions
  import L = Authenticate
  import P = Profiles
  import opened Cleanup
  import opened Invisible
  import M = Machine
  import MachineTheorems

  /** Every public request, with the random candidates it would draw. */
  datatype Request =
    | Validate(hash: Hash, client: string)
    | Refresh(hash: Hash, client: string, selected: string, coin: A.Coin)
    | Invalidate(hash: Hash, client: string)
    | Signout(username: string, password: string)
    | Join(hash: Hash, selected: string, server: string, ip: S.Address)
    | HasJoined(name: string, server: string, ip: S.Address)
    | Authenticate(username: string, password: string, given: string, drawn: string, limit: int, draw: Draw,
                   coin: A.Coin)
    | Ensure(pid: nat, draw: Draw)
    | ByUuid(raw: string)
    | ByName(name: string, draw: Draw)
    | ByNames(names: seq<string>, draw: Draw)

  datatype Reply =
    | OfToken(token: A.TokenResult)
    | OfLogin(login: L.LoginResult)
    | OfIdentity(identity: Identity)
    | OfIdentities(identities: seq<Identity>)
    | Done

  type Answer = Result<Reply, Error>

  function TokenAnswer(x: Result<A.TokenResult, Error>): Answer
  {
    if x.Ok? then Ok(OfToken(x.value)) else Err(x.error)
  }

  function LoginAnswer(x: Result<L.LoginResult, Error>): Answer
  {
    if x.Ok? then Ok(OfLogin(x.value)) else Err(x.error)
  }

  function IdentityAnswer(x: Result<Identity, Error>): Answer
  {
    if x.Ok? then Ok(OfIdentity(x.value)) else Err(x.error)
  }

  function IdentitiesAnswer(x: Result<seq<Identity>, Error>): Answer
  {
    if x.Ok? then Ok(OfIdentities(x.value)) else Err(x.error)
  }

  function DoneAnswer(x: Result<(), Error>): Answer
  {
    if x.Ok? then Ok(Done) else Err(x.error)
  }

  /** The transaction of a request, up to its end. */
  ghost predicate Body(env: Env, q: Request, before: Db, left: Db, now: nat, r: Answer)
  {
    match q
    case Validate(hash, client) =>
      left == before && exists x :: A.ValidateBody(env, before, left, hash, client, now, x) && r == TokenAnswer(x)
    case Refresh(hash, client, selected, coin) =>
      exists x :: A.RefreshBody(env, before, left, hash, client, selected, coin, now, x) && r == TokenAnswer(x)
    case Invalidate(hash, client) => exists x :: A.InvalidateBody(before, left, hash, client, x) && r == DoneAnswer(x)
    case Signout(username, password) =>
      exists x :: A.SignoutBody(env, before, left, username, password, x) && r == DoneAnswer(x)
    case Join(hash, selected, server, ip) =>
      exists x :: S.JoinBody(env, before, left, hash, selected, server, ip, now, x) && r == DoneAnswer(x)
    case HasJoined(name, server, ip) =>
      left == before && r == IdentityAnswer(S.Joined(env, before, name, server, ip, now))
    case Authenticate(username, password, given, drawn, limit, draw, coin) =>
      exists x :: L.AuthenticateBody(env, before, left, username, password, L.ClientToken(given, drawn), limit, draw,
                                     coin, now, x) && r == LoginAnswer(x)
    case Ensure(pid, draw) => exists x :: EnsureBody(before, left, pid, draw, x) && r == IdentityAnswer(x)
    case ByUuid(raw) => left == before && r == IdentityAnswer(P.ByUuid(before, raw))
    case ByName(name, draw) => exists x :: P.ByNameBody(env, before, left, name, draw, x) && r == IdentityAnswer(x)
    case ByNames(names, draw) => exists x :: P.BatchBody(env, before, left, names, draw, x) && r == IdentitiesAnswer(x)
  }

  /** The hashes a request may issue. */
  function Candidates(q: Request): set<Hash>
  {
    match q
    case Refresh(_, _, _, coin) => {coin(0), coin(1), coin(2)}
    case Authenticate(_, _, _, _, _, _, coin) => {coin(0), coin(1), coin(2)}
    case _ => {}
  }

  /** The same answer; except that an Invalidate with the wrong client token may find its token gone. */
  predicate AlikeFor(q: Request, r: Answer, s: Answer)
  {
    Alike(r, s) || q.Invalidate?
  }

  function Kept(before: Db, left: Db, r: Answer): Db
  {
    if r.Err? then before else left
  }

  /** One transaction on twins: it can end alike, and leave twins. */
  lemma BodyTwin(env: Env, q: Request, a: Db, a': Db, b: Db, now: nat, full: bool, r: Answer)
    returns (b': Db, s: Answer)
    requires Twins(a, b, now, full) && Body(env, q, a, a', now, r)
    requires forall h | h in Candidates(q) :: h !in a.tokens && h !in b.tokens
    ensures Body(env, q, b, b', now, s) && AlikeFor(q, r, s)
    ensures Twins(Kept(a, a', r), Kept(b, b', s), now, full)
    ensures !Alike(r, s) ==> Kept(a, a', r) == a && Kept(b, b', s) == b
  {
    hide Twins, A.ValidateBody, A.RefreshBody, A.InvalidateBody, A.SignoutBody, S.JoinBody, S.Joined,
      L.AuthenticateBody, EnsureBody, P.ByUuid, P.ByNameBody, P.BatchBody;
    match q
    case Validate(hash, client) =>
      var x :| A.ValidateBody(env, a, a', hash, client, now, x) && r == TokenAnswer(x);
      var y := ValidateTwin(env, a, b, hash, client, now, full, x);
      b', s := b, TokenAnswer(y);
    case Refresh(hash, client, selected, coin) =>
      var x :| A.RefreshBody(env, a, a', hash, client, selected, coin, now, x) && r == TokenAnswer(x);
      NewIsDrawn(a.tokens, b.tokens, coin);
      var c', y := RefreshTwin(env, a, a', b, hash, client, selected, coin, now, full, x);
      b', s := c', TokenAnswer(y);
    case Invalidate(hash, client) =>
      var x :| A.InvalidateBody(a, a', hash, client, x) && r == DoneAnswer(x);
      InvalidateKept(a, a', hash, client, x);
      var c', y := InvalidateTwin(a, Kept(a, a', r), b, hash, client, now, full, x);
      b', s := c', DoneAnswer(y);
    case Signout(username, password) =>
      var x :| A.SignoutBody(env, a, a', username, password, x) && r == DoneAnswer(x);
      b' := SignoutTwin(env, a, a', b, username, password, now, full, x);
      s := r;
    case Join(hash, selected, server, ip) =>
      var x :| S.JoinBody(env, a, a', hash, selected, server, ip, now, x) && r == DoneAnswer(x);
      var c', y := JoinTwin(env, a, a', b, hash, selected, server, ip, now, full, x);
      b', s := c', DoneAnswer(y);
    case HasJoined(name, server, ip) =>
      HasJoinedTwin(env, a, b, name, server, ip, now, full);
      b', s := b, IdentityAnswer(S.Joined(env, b, name, server, ip, now));
    case Authenticate(username, password, given, drawn, limit, draw, coin) =>
      var client := L.ClientToken(given, drawn);
      var x :| L.AuthenticateBody(env, a, a', username, password, client, limit, draw, coin, now, x)
          && r == LoginAnswer(x);
      NewIsDrawn(a.tokens, b.tokens, coin);
      b' := AuthenticateTwin(env, a, a', b, username, password, client, limit, draw, coin, now, full, x);
      s := r;
    case Ensure(pid, draw) =>
      var x :| EnsureBody(a, a', pid, draw, x) && r == IdentityAnswer(x);
      b' := EnsureTwin(a, a', b, pid, draw, now, full, x);
      s := r;
    case ByUuid(raw) =>
      SameByUuid(a, b, now, full, raw);
      b', s := b, r;
    case ByName(name, draw) =>
      var x :| P.ByNameBody(env, a, a', name, draw, x) && r == IdentityAnswer(x);
      b' := ByNameTwin(env, a, a', b, name, draw, now, full, x);
      s := r;
    case ByNames(names, draw) =>
      var x :| P.BatchBody(env, a, a', names, draw, x) && r == IdentitiesAnswer(x);
      b' := ByNamesTwin(env, a, a', b, names, draw, now, full, x);
      s := r;
  }

  lemma NewIsDrawn(a: map<Hash, Token>, b: map<Hash, Token>, coin: A.Coin)
    requires forall h | h in {coin(0), coin(1), coin(2)} :: h !in a && h !in b
    ensures Drawn(a, b, coin)
  {
    forall k: nat | k < 3
      ensures coin(k) in a <==> coin(k) in b
    {
      assert k == 0 || k == 1 || k == 2;
      assert coin(k) in {coin(0), coin(1), coin(2)};
    }
  }

  lemma InvalidateKept(a: Db, a': Db, hash: Hash, client: string, r: Result<(), Error>)
    requires A.InvalidateBody(a, a', hash, client, r)
    ensures A.InvalidateBody(a, if r.Err? then a else a', hash, client, r)
  {
  }

  lemma SameByUuid(a: Db, b: Db, now: nat, full: bool, raw: string)
    requires Twins(a, b, now, full)
    ensures P.ByUuid(a, raw) == P.ByUuid(b, raw)
  {
    TwinsShare(a, b, now, full, 0);
    hide Twins, Parse, LookupUuid;
    if Parse(raw).Some? {
      SameUuid(a, b, Parse(raw).value);
    }
  }

  /** A transaction issues no other hash. */
  lemma OnlyCandidates(env: Env, q: Request, a: Db, a': Db, now: nat, r: Answer)
    requires Body(env, q, a, a', now, r)
    ensures Kept(a, a', r).tokens.Keys <= a.tokens.Keys + Candidates(q)
  {
    hide Authorize, A.Selected, S.Joined, EnsureBody, P.ByUuid, L.AuthenticateBody, P.BatchBody, P.ByNameBody,
      A.SignoutBody, S.JoinBody;
    match q
    case Authenticate(username, password, given, drawn, limit, draw, coin) =>
      var client := L.ClientToken(given, drawn);
      var x :| L.AuthenticateBody(env, a, a', username, password, client, limit, draw, coin, now, x)
          && r == LoginAnswer(x);
      if x.Ok? {
        LoginIssues(env, a, a', username, password, client, limit, draw, coin, now, x.value);
      }
    case Refresh(hash, client, selected, coin) =>
    case Signout(username, password) =>
      var x :| A.SignoutBody(env, a, a', username, password, x) && r == DoneAnswer(x);
      SignoutTokens(env, a, a', username, password, x);
    case Join(hash, selected, server, ip) =>
      var x :| S.JoinBody(env, a, a', hash, selected, server, ip, now, x) && r == DoneAnswer(x);
      JoinTokens(env, a, a', hash, selected, server, ip, now, x);
    case Ensure(pid, draw) =>
      var x :| EnsureBody(a, a', pid, draw, x) && r == IdentityAnswer(x);
      EnsureTokens(a, a', pid, draw, x);
    case ByName(name, draw) =>
      var x :| P.ByNameBody(env, a, a', name, draw, x) && r == IdentityAnswer(x);
      ByNameTokens(env, a, a', name, draw, x);
    case ByNames(names, draw) =>
      var x :| P.BatchBody(env, a, a', names, draw, x) && r == IdentitiesAnswer(x);
      BatchTokens(env, a, a', names, draw, x);
    case _ =>
  }

  lemma SignoutTokens(env: Env, a: Db, a': Db, username: string, password: string, r: Result<(), Error>)
    requires A.SignoutBody(env, a, a', username, password, r)
    ensures r.Ok? ==> a'.tokens == a.tokens
  {
    hide A.Credentials;
  }

  lemma JoinTokens(env: Env, a: Db, a': Db, hash: Hash, selected: string, server: string, ip: S.Address, now: nat,
                   r: Result<(), Error>)
    requires S.JoinBody(env, a, a', hash, selected, server, ip, now, r)
    ensures r.Ok? ==> a'.tokens == a.tokens
  {
    hide Authorize, Parse;
  }

  lemma EnsureTokens(a: Db, a': Db, pid: nat, draw: Draw, r: Result<Identity, Error>)
    requires EnsureBody(a, a', pid, draw, r)
    ensures r.Ok? ==> a'.tokens == a.tokens
  {
    hide Provides;
  }

  lemma ByNameTokens(env: Env, a: Db, a': Db, name: string, draw: Draw, r: Result<Identity, Error>)
    requires P.ByNameBody(env, a, a', name, draw, r)
    ensures r.Ok? ==> a'.tokens == a.tokens
  {
    hide Provides, UniquePlayerName;
  }

  lemma BatchTokens(env: Env, a: Db, a': Db, names: seq<string>, draw: Draw, r: Result<seq<Identity>, Error>)
    requires P.BatchBody(env, a, a', names, draw, r)
    ensures r.Ok? ==> a'.tokens == a.tokens
  {
    hide P.Batch, P.Attended, P.Designated;
  }

  lemma LoginIssues(env: Env, a: Db, a': Db, username: string, password: string, client: string, limit: int, draw: Draw,
                    coin: A.Coin, now: nat, x: L.LoginResult)
    requires L.AuthenticateBody(env, a, a', username, password, client, limit, draw, coin, now, Ok(x))
    ensures a'.tokens.Keys <= a.tokens.Keys + {coin(0), coin(1), coin(2)}
  {
    hide A.Credentials, L.LoginEnds, Gathered, L.Chooses, IsEviction, Live, Owned, A.NextHash, A.IssuedRow;
    var uid := A.Credentials(env, a, username, password).value;
    var pids, victims := L.LoginEnded(env, a, a', uid, username, client, limit, draw, coin, now, x);
    hide L.AuthenticateBody;
    var subjects := L.FirstGeneration(a.subjects, uid);
    ReplacedKeys(a.tokens, victims, x.token.access.value,
                 A.IssuedRow(env, uid, subjects[uid], x.token.identity, client, now));
    DrawnFrom(a.tokens, coin);
  }

  lemma ReplacedKeys(tokens: map<Hash, Token>, gone: set<Hash>, h: Hash, row: Token)
    ensures (tokens - gone)[h := row].Keys <= tokens.Keys + {h}
  {
  }

  lemma DrawnFrom(tokens: map<Hash, Token>, coin: A.Coin)
    ensures A.NextHash(tokens, None, coin).Some? ==> A.NextHash(tokens, None, coin).value in {coin(0), coin(1), coin(2)}
  {
  }

  // ---- the service over time ----

  datatype What =
    | Ask(q: Request, outcome: Database.Outcome)
    | Clean(batch: int, outcome: Database.Outcome)
    | Accounts(users: map<nat, User>, players: map<nat, Player>, subjects: map<nat, nat>)

  datatype Moment = Moment(at: nat, what: What)

  /** One thing that happens. Without cleaning, the cleanups of the list do nothing. */
  ghost predicate Happens(env: Env, m: Moment, before: Db, after: Db, r: Option<Answer>, cleaning: bool)
  {
    match m.what
    case Ask(q, outcome) => r.Some? && Answered(env, q, before, after, m.at, outcome, r.value)
    case Clean(batch, outcome) =>
      r.None? && (if cleaning then Cleaned(before, after, batch, m.at, outcome) else after == before)
    case Accounts(users, players, subjects) =>
      r.None? && after == before.(users := users, players := players, subjects := subjects)
  }

  /** What the methods of the service promise of a request. */
  ghost predicate Answered(env: Env, q: Request, before: Db, after: Db, now: nat, outcome: Database.Outcome, r: Answer)
  {
    exists left, body :: Body(env, q, before, left, now, body) && Ended(before, after, left, body, outcome, r)
  }

  ghost predicate Cleaned(before: Db, after: Db, batch: int, now: nat, outcome: Database.Outcome)
  {
    exists left, body, r :: CleanupBody(before, left, batch, now, body) && Ended(before, after, left, body, outcome, r)
  }

  ghost predicate Runs(env: Env, before: Db, moments: seq<Moment>, answers: seq<Option<Answer>>, after: Db,
                       cleaning: bool)
    decreases |moments|
  {
    if moments == [] then answers == [] && after == before
    else
      && answers != []
      && exists mid ::
           && Happens(env, moments[0], before, mid, answers[0], cleaning)
           && Runs(env, mid, moments[1..], answers[1..], after, cleaning)
  }

  predicate Chronological(moments: seq<Moment>, from: nat)
    decreases |moments|
  {
    moments != [] ==> from <= moments[0].at && Chronological(moments[1..], moments[0].at)
  }

  function End(moments: seq<Moment>, from: nat): nat
  {
    if moments == [] then from else moments[|moments| - 1].at
  }

  /** No candidate was ever drawn before, or in the table at the start. */
  predicate NeverTwice(moments: seq<Moment>, seen: set<Hash>)
    decreases |moments|
  {
    moments != [] ==>
      var m := moments[0];
      var drawn := if m.what.Ask? then Candidates(m.what.q) else {};
      drawn !! seen && NeverTwice(moments[1..], seen + drawn)
  }

  /** Pointwise the same answers. */
  predicate SameAnswers(moments: seq<Moment>, answers: seq<Option<Answer>>, others: seq<Option<Answer>>)
  {
    && |answers| == |others| == |moments|
    && forall k :: 0 <= k < |moments| ==>
         match moments[k].what
         case Ask(q, _) => answers[k].Some? && others[k].Some? && AlikeFor(q, answers[k].value, others[k].value)
         case _ => answers[k].None? && others[k].None?
  }

  lemma AnsweredTwin(env: Env, q: Request, a: Db, a': Db, b: Db, now: nat, full: bool, outcome: Database.Outcome,
                     r: Answer)
    returns (b': Db, s: Answer)
    requires Twins(a, b, now, full) && Answered(env, q, a, a', now, outcome, r)
    requires forall h | h in Candidates(q) :: h !in a.tokens && h !in b.tokens
    ensures Answered(env, q, b, b', now, outcome, s) && AlikeFor(q, r, s) && Twins(a', b', now, full)
    ensures b'.tokens.Keys <= b.tokens.Keys + Candidates(q) && a'.tokens.Keys <= a.tokens.Keys + Candidates(q)
  {
    hide Twins, Body;
    var left, body :| Body(env, q, a, left, now, body) && Ended(a, a', left, body, outcome, r);
    var other, reply := BodyTwin(env, q, a, left, b, now, full, body);
    OnlyCandidates(env, q, a, left, now, body);
    OnlyCandidates(env, q, b, other, now, reply);
    s := if reply.Err? || outcome.Confirmed? then reply else Err(CommitUnknown);
    b' := if outcome.Lost? then b else Kept(b, other, reply);
    assert Ended(b, b', other, reply, outcome, s);
  }

  /** One moment, as it happens with cleanups, can happen without. */
  lemma MomentTwin(env: Env, m: Moment, b: Db, b': Db, a: Db, r: Option<Answer>) returns (a': Db, s: Option<Answer>)
    requires OnlyExpiredGone(a, b, m.at) && Happens(env, m, b, b', r, true)
    requires m.what.Ask? ==> forall h | h in Candidates(m.what.q) :: h !in a.tokens
    ensures Happens(env, m, a, a', s, false) && OnlyExpiredGone(a', b', m.at)
    ensures r.Some? == s.Some? == m.what.Ask? && (m.what.Ask? ==> AlikeFor(m.what.q, r.value, s.value))
    ensures a'.tokens.Keys <= a.tokens.Keys + (if m.what.Ask? then Candidates(m.what.q) else {})
  {
    assert b.tokens.Keys <= a.tokens.Keys;
    assert Twins(b, a, m.at, false);
    hide OnlyExpiredGone;
    match m.what
    case Ask(q, outcome) =>
      hide Answered;
      var c', y := AnsweredTwin(env, q, b, b', a, m.at, false, outcome, r.value);
      a', s := c', Some(y);
    case Clean(batch, outcome) =>
      CleanedMore(a, b, b', batch, m.at, outcome);
      a', s := a, None;
    case Accounts(users, players, subjects) =>
      a', s := a.(users := users, players := players, subjects := subjects), None;
      TwinsAccounts(b, a, m.at, false, users, players, subjects, a.identities);
      assert b' == b.(users := users, players := players, subjects := subjects, identities := a.identities) by {
        TwinsShare(b, a, m.at, false, 0);
      }
      assert a' == a.(users := users, players := players, subjects := subjects, identities := a.identities);
  }

  lemma CleanedMore(a: Db, b: Db, b': Db, batch: int, now: nat, outcome: Database.Outcome)
    requires OnlyExpiredGone(a, b, now) && Cleaned(b, b', batch, now, outcome)
    ensures OnlyExpiredGone(a, b', now)
  {
    hide CleanupBody;
    var left, body, r :| CleanupBody(b, left, batch, now, body) && Ended(b, b', left, body, outcome, r);
    if body.Ok? {
      CleanupRemovesExpired(b, left, batch, now, body);
    }
  }

  /** Whatever the service answers over time with cleanups of any size at any moments, failing or lost in any way,
      it can answer without a single one: every request gets the same answer at the same moment, and the tables
      differ in expired rows only. The candidates must never repeat; the one answer that may differ is to an
      Invalidate with the wrong client token. */
  lemma {:induction false} CleanupsAreInvisible(env: Env, b: Db, moments: seq<Moment>, answers: seq<Option<Answer>>,
                                                b': Db, a: Db, from: nat, seen: set<Hash>)
    returns (a': Db, others: seq<Option<Answer>>)
    requires Runs(env, b, moments, answers, b', true) && OnlyExpiredGone(a, b, from)
    requires Chronological(moments, from) && NeverTwice(moments, seen) && a.tokens.Keys <= seen
    ensures Runs(env, a, moments, others, a', false) && SameAnswers(moments, answers, others)
    ensures OnlyExpiredGone(a', b', End(moments, from))
    decreases |moments|
  {
    hide Happens, AlikeFor, Alike;
    if moments == [] {
      a', others := a, [];
    } else {
      var m := moments[0];
      var mid :| Happens(env, m, b, mid, answers[0], true) && Runs(env, mid, moments[1..], answers[1..], b', true);
      ExpiredLater(a, b, from, m.at);
      hide OnlyExpiredGone;
      var drawn := if m.what.Ask? then Candidates(m.what.q) else {};
      var next, answer := MomentTwin(env, m, b, mid, a, answers[0]);
      var rest;
      a', rest := CleanupsAreInvisible(env, mid, moments[1..], answers[1..], b', next, m.at, seen + drawn);
      others := [answer] + rest;
      assert others[1..] == rest && End(moments, from) == End(moments[1..], m.at);
      OneMoreAnswer(moments, answers, others);
    }
  }

  lemma ExpiredLater(a: Db, b: Db, now: nat, later: nat)
    requires OnlyExpiredGone(a, b, now) && now <= later
    ensures OnlyExpiredGone(a, b, later)
  {
  }

  lemma OneMoreAnswer(moments: seq<Moment>, answers: seq<Option<Answer>>, others: seq<Option<Answer>>)
    requires moments != [] && answers != [] && others != [] && SameAnswers(moments[1..], answers[1..], others[1..])
    requires answers[0].Some? == others[0].Some? == moments[0].what.Ask?
    requires moments[0].what.Ask? ==> AlikeFor(moments[0].what.q, answers[0].value, others[0].value)
    ensures SameAnswers(moments, answers, others)
  {
    hide AlikeFor;
    forall k | 1 <= k < |moments|
      ensures moments[k] == moments[1..][k - 1] && answers[k] == answers[1..][k - 1] && others[k] == others[1..][k - 1]
    {
    }
    assert SameAnswers(moments[1..], answers[1..], others[1..]);
  }

  /** At any later time a request is answered on tables without some expired rows as on those with them, and the
      other way round. */
  lemma GoneIsInvisible(env: Env, q: Request, a: Db, b: Db, gone: nat, now: nat, full: bool, left: Db, r: Answer)
    returns (other: Db, reply: Answer)
    requires OnlyExpiredGone(a, b, gone) && gone <= now && forall h | h in Candidates(q) :: h !in a.tokens
    requires Body(env, q, if full then a else b, left, now, r)
    ensures Body(env, q, if full then b else a, other, now, reply) && AlikeFor(q, r, reply)
    ensures Twins(Kept(if full then a else b, left, r), Kept(if full then b else a, other, reply), now, full)
  {
    hide Body, AlikeFor;
    ExpiredLater(a, b, gone, now);
    assert forall h | h in Candidates(q) :: h !in b.tokens;
    hide OnlyExpiredGone;
    other, reply := BodyTwin(env, q, if full then a else b, left, if full then b else a, now, full, r);
  }

  /** A cleanup that commits while anything else runs: from that instant on a request is answered on the tables it
      leaves as it would have been on the tables it found, and the other way round. */
  lemma SweepIsInvisible(cfg: M.Config, s: M.State, t: M.Tid, answered: bool, s': M.State, q: Request, now: nat,
                         full: bool, left: Db, r: Answer) returns (other: Db, reply: Answer)
    requires MachineTheorems.Reachable(cfg, s) && t in s.txns && s.txns[t].prog.Sweep?
    requires M.Enabled(cfg, s, M.Commit(t, answered)) && s' == M.Next(cfg, s, M.Commit(t, answered)) && s.now <= now
    requires forall h | h in Candidates(q) :: h !in s.db.tokens
    requires Body(cfg.env, q, if full then s.db else s'.db, left, now, r)
    ensures Body(cfg.env, q, if full then s'.db else s.db, other, now, reply) && AlikeFor(q, r, reply)
    ensures Twins(Kept(if full then s.db else s'.db, left, r), Kept(if full then s'.db else s.db, other, reply), now,
                  full)
  {
    hide MachineTheorems.Reachable;
    MachineTheorems.SweepRemovesExpired(cfg, s, t, answered);
    hide M.Next, M.Enabled, Body, AlikeFor, OnlyExpiredGone, Twins;
    other, reply := GoneIsInvisible(cfg.env, q, s.db, s'.db, s.now, now, full, left, r);
  }
}
