/** Bounded removal of expired tokens and sessions. */
module Cleanup {
  import opened Basics
  import opened Sorting
  import opened Tables
  import opened Directory
  import opened Database
  import opened Service
  import Auth
  import opened Sessions
  import opened Listing

  const MAX_BATCH: nat := 10_000

  datatype Removed = Removed(tokens: nat, sessions: nat)

  /** `gone` are the first of `expired` in this order, as many as there are but at most `batch`. */
  ghost predicate FirstOf<T(!new)>(less: (T, T) -> bool, expired: set<T>, batch: nat, gone: set<T>)
  {
    && gone <= expired && |gone| == (if |expired| < batch then |expired| else batch)
    && forall g, k | g in gone && k in expired - gone :: less(g, k)
  }

  function TokenExpiry(tokens: map<Hash, Token>): (Hash, Hash) -> bool
  {
    (a, b) => a in tokens && b in tokens
              && (tokens[a].expires < tokens[b].expires || (tokens[a].expires == tokens[b].expires && a < b))
  }

  function SessionExpiry(sessions: map<string, Session>): (string, string) -> bool
  {
    (a, b) => a in sessions && b in sessions
              && (sessions[a].expires < sessions[b].expires
                  || (sessions[a].expires == sessions[b].expires && TextLess(a, b)))
  }

  lemma TokenExpiryTotal(tokens: map<Hash, Token>)
    ensures TotalOn(TokenExpiry(tokens), tokens.Keys)
  {
  }

  lemma SessionExpiryTotal(sessions: map<string, Session>)
    ensures TotalOn(SessionExpiry(sessions), sessions.Keys)
  {
    var less := SessionExpiry(sessions);
    forall a | a in sessions
      ensures !less(a, a)
    {
      TextLessIrreflexive(a);
    }
    forall a, b | a in sessions && b in sessions
      ensures a == b || less(a, b) || less(b, a)
    {
      TextLessTotal(a, b);
    }
    forall a, b, c | a in sessions && b in sessions && c in sessions && less(a, b) && less(b, c)
      ensures less(a, c)
    {
      if TextLess(a, b) && TextLess(b, c) {
        TextLessTransitive(a, b, c);
      }
    }
  }

  /** `DELETE ... ORDER BY ... LIMIT batch`. */
  method TakeFirst<T(!new)>(less: (T, T) -> bool, expired: set<T>, batch: nat) returns (gone: set<T>)
    requires TotalOn(less, expired)
    ensures FirstOf(less, expired, batch, gone)
  {
    var listed := [];
    var rest := expired;
    while rest != {}
      invariant rest <= expired && Lists(listed, expired - rest)
    {
      var x :| x in rest;
      assert x !in listed by {
        assert x !in Elements(listed);
      }
      assert expired - (rest - {x}) == expired - rest + {x};
      rest := rest - {x};
      listed := listed + [x];
    }
    assert expired - rest == expired;
    var sorted := SortList(less, listed, expired);
    DistinctSize(sorted);
    var n := if |sorted| < batch then |sorted| else batch;
    SplitDistinct(sorted, n);
    PrefixIsFirst(less, sorted, n);
    DistinctSize(sorted[..n]);
    gone := set x | x in sorted[..n];
    assert gone == Elements(sorted[..n]);
  }

  lemma PrefixIsFirst<T(!new)>(less: (T, T) -> bool, sorted: seq<T>, n: nat)
    requires Distinct(sorted) && Ordered(less, sorted) && n <= |sorted|
    ensures forall g, k | g in Elements(sorted[..n]) && k in Elements(sorted) - Elements(sorted[..n]) :: less(g, k)
  {
    assert forall x :: 0 <= x < n ==> sorted[..n][x] == sorted[x];
    forall g, k | g in Elements(sorted[..n]) && k in Elements(sorted) - Elements(sorted[..n])
      ensures less(g, k)
    {
      var i :| 0 <= i < n && sorted[i] == g;
      var j :| 0 <= j < |sorted| && sorted[j] == k;
    }
  }

  /** The expired tokens to go now: the first by expiry and hash. */
  ghost predicate TokensDue(tokens: map<Hash, Token>, now: nat, batch: nat, gone: set<Hash>)
  {
    FirstOf(TokenExpiry(tokens), ExpiredTokens(tokens, now), batch, gone)
  }

  /** The expired sessions to go now: the first by expiry and server. */
  ghost predicate SessionsDue(sessions: map<string, Session>, now: nat, batch: nat, gone: set<string>)
  {
    FirstOf(SessionExpiry(sessions), ExpiredSessions(sessions, now), batch, gone)
  }

  ghost predicate CleanupBody(before: Db, after: Db, batch: int, now: nat, r: Result<Removed, Error>)
  {
    if batch <= 0 || batch > MAX_BATCH then r == Err(Invalid)
    else if !ServiceOpen(before.gate) then r == Err(NotReady)
    else exists tokens, sessions ::
      && TokensDue(before.tokens, now, batch, tokens)
      && SessionsDue(before.sessions, now, batch, sessions)
      && after == before.(tokens := before.tokens - tokens, sessions := before.sessions - sessions)
      && r == Ok(Removed(|tokens|, |sessions|))
  }

  method CleanupTransaction(d: Database, batch: int, now: nat) returns (r: Result<Removed, Error>)
    requires Ready(d)
    modifies d`tokens, d`sessions
    ensures Ready(d) && CleanupBody(old(d.Tables()), d.Tables(), batch, now, r)
  {
    hide Fits, TokensDue, SessionsDue, CleanupBody, Sound;
    ghost var before := d.Tables();
    if batch <= 0 || batch > MAX_BATCH {
      CleanupRefused(before, batch, now, Err(Invalid));
      return Err(Invalid);
    }
    if !ServiceOpen(d.gate) {
      CleanupRefused(before, batch, now, Err(NotReady));
      return Err(NotReady);
    }
    var tokens := FirstTokens(d.tokens, batch, now);
    var sessions := FirstSessions(d.sessions, batch, now);
    d.tokens := d.tokens - tokens;
    d.sessions := d.sessions - sessions;
    r := Ok(Removed(|tokens|, |sessions|));
    CleanupDone(before, d.Tables(), batch, now, tokens, sessions);
  }

  lemma CleanupRefused(db: Db, batch: int, now: nat, r: Result<Removed, Error>)
    requires r == (if batch <= 0 || batch > MAX_BATCH then Err(Invalid) else Err(NotReady))
    requires batch <= 0 || batch > MAX_BATCH || !ServiceOpen(db.gate)
    ensures CleanupBody(db, db, batch, now, r)
  {
  }

  lemma CleanupDone(before: Db, after: Db, batch: nat, now: nat, tokens: set<Hash>, sessions: set<string>)
    requires 0 < batch <= MAX_BATCH && ServiceOpen(before.gate) && Sound(before)
    requires TokensDue(before.tokens, now, batch, tokens)
    requires SessionsDue(before.sessions, now, batch, sessions)
    requires after == before.(tokens := before.tokens - tokens, sessions := before.sessions - sessions)
    ensures CleanupBody(before, after, batch, now, Ok(Removed(|tokens|, |sessions|))) && Sound(after)
  {
    hide TokensDue, SessionsDue, IdentitiesOk;
  }

  method FirstTokens(tokens: map<Hash, Token>, batch: nat, now: nat) returns (gone: set<Hash>)
    ensures TokensDue(tokens, now, batch, gone)
  {
    hide TokenExpiry, FirstOf;
    TokenExpiryTotal(tokens);
    TotalBelow(TokenExpiry(tokens), tokens.Keys, ExpiredTokens(tokens, now));
    gone := TakeFirst(TokenExpiry(tokens), ExpiredTokens(tokens, now), batch);
  }

  method FirstSessions(sessions: map<string, Session>, batch: nat, now: nat) returns (gone: set<string>)
    ensures SessionsDue(sessions, now, batch, gone)
  {
    hide SessionExpiry, FirstOf;
    SessionExpiryTotal(sessions);
    TotalBelow(SessionExpiry(sessions), sessions.Keys, ExpiredSessions(sessions, now));
    gone := TakeFirst(SessionExpiry(sessions), ExpiredSessions(sessions, now), batch);
  }

  lemma TotalBelow<T(!new)>(less: (T, T) -> bool, all: set<T>, some: set<T>)
    requires TotalOn(less, all) && some <= all
    ensures TotalOn(less, some)
  {
  }

  method CleanupExpired(d: Database, batch: int, now: nat, outcome: Outcome) returns (r: Result<Removed, Error>)
    requires Ready(d)
    modifies d
    ensures Ready(d) && d.schema == old(d.schema)
    ensures exists after, body ::
              && CleanupBody(old(d.Tables()), after, batch, now, body)
              && Ended(old(d.Tables()), d.Tables(), after, body, outcome, r)
  {
    hide Fits, CleanupBody, Sound;
    var saved := d.Tables();
    ghost var counter := d.nextId;
    var body := CleanupTransaction(d, batch, now);
    ghost var after := d.Tables();
    FitsLater(saved.identities, counter, d.nextId, d.schema);
    r := Finish(d, saved, body, outcome);
    assert Ended(saved, d.Tables(), after, body, outcome, r);
  }

  // ---- invisible ----

  /** Only expired rows are missing. */
  ghost predicate OnlyExpiredGone(before: Db, after: Db, now: nat)
  {
    && after == before.(tokens := after.tokens, sessions := after.sessions)
    && after.tokens.Keys <= before.tokens.Keys && after.sessions.Keys <= before.sessions.Keys
    && (forall h | h in after.tokens :: after.tokens[h] == before.tokens[h])
    && (forall v | v in after.sessions :: after.sessions[v] == before.sessions[v])
    && (forall h | h in before.tokens && h !in after.tokens :: before.tokens[h].expires <= now)
    && (forall v | v in before.sessions && v !in after.sessions :: before.sessions[v].expires <= now)
  }

  lemma CleanupRemovesExpired(before: Db, after: Db, batch: int, now: nat, r: Result<Removed, Error>)
    requires CleanupBody(before, after, batch, now, r) && r.Ok?
    ensures OnlyExpiredGone(before, after, now) && r.value.tokens <= batch && r.value.sessions <= batch
    ensures |ExpiredTokens(after.tokens, now)| == |ExpiredTokens(before.tokens, now)| - r.value.tokens
    ensures r.value.tokens == if |ExpiredTokens(before.tokens, now)| < batch then |ExpiredTokens(before.tokens, now)|
      else batch
    ensures |ExpiredSessions(after.sessions, now)| == |ExpiredSessions(before.sessions, now)| - r.value.sessions
    ensures r.value.sessions == if |ExpiredSessions(before.sessions, now)| < batch
      then |ExpiredSessions(before.sessions, now)| else batch
  {
    var tokens, sessions :|
      && TokensDue(before.tokens, now, batch, tokens)
      && SessionsDue(before.sessions, now, batch, sessions)
      && after == before.(tokens := before.tokens - tokens, sessions := before.sessions - sessions)
      && r == Ok(Removed(|tokens|, |sessions|));
    FewerTokens(before.tokens, tokens, batch, now);
    FewerSessions(before.sessions, sessions, batch, now);
    OnlyDueGone(before, now, tokens, sessions);
    hide TokensDue, SessionsDue, ExpiredTokens, ExpiredSessions, OnlyExpiredGone;
  }

  lemma OnlyDueGone(before: Db, now: nat, tokens: set<Hash>, sessions: set<string>)
    requires forall h | h in before.tokens && h in tokens :: before.tokens[h].expires <= now
    requires forall v | v in before.sessions && v in sessions :: before.sessions[v].expires <= now
    ensures OnlyExpiredGone(before, before.(tokens := before.tokens - tokens, sessions := before.sessions - sessions),
                            now)
  {
  }

  lemma FewerTokens(tokens: map<Hash, Token>, gone: set<Hash>, batch: nat, now: nat)
    requires TokensDue(tokens, now, batch, gone)
    ensures |ExpiredTokens(tokens - gone, now)| == |ExpiredTokens(tokens, now)| - |gone|
    ensures |gone| == if |ExpiredTokens(tokens, now)| < batch then |ExpiredTokens(tokens, now)| else batch
    ensures forall h | h in tokens && h in gone :: tokens[h].expires <= now
  {
    hide TokenExpiry;
    assert ExpiredTokens(tokens - gone, now) == ExpiredTokens(tokens, now) - gone;
  }

  lemma FewerSessions(sessions: map<string, Session>, gone: set<string>, batch: nat, now: nat)
    requires SessionsDue(sessions, now, batch, gone)
    ensures |ExpiredSessions(sessions - gone, now)| == |ExpiredSessions(sessions, now)| - |gone|
    ensures |gone| == if |ExpiredSessions(sessions, now)| < batch then |ExpiredSessions(sessions, now)| else batch
    ensures forall v | v in sessions && v in gone :: sessions[v].expires <= now
  {
    hide SessionExpiry;
    assert ExpiredSessions(sessions - gone, now) == ExpiredSessions(sessions, now) - gone;
  }

  /** At every later time, authorization succeeds for the same tokens with the same result, HasJoined for the same
      requests, and the same tokens count against every account's quota. */
  lemma CleanupIsInvisible(env: Env, before: Db, after: Db, now: nat, later: nat, hash: Hash, client: string,
                           name: string, server: string, ip: Address, uid: nat, generation: nat)
    requires OnlyExpiredGone(before, after, now) && now <= later
    ensures Authorize(env, before, hash, client, later).Ok? || Authorize(env, after, hash, client, later).Ok? ==>
              Authorize(env, before, hash, client, later) == Authorize(env, after, hash, client, later)
    ensures Joined(env, before, name, server, ip, later).Ok? || Joined(env, after, name, server, ip, later).Ok? ==>
              Joined(env, before, name, server, ip, later) == Joined(env, after, name, server, ip, later)
    ensures Live(before.tokens, uid, generation, later) == Live(after.tokens, uid, generation, later)
  {
    AuthorizeInvisible(env, before, after, now, later, hash, client);
    if server in before.sessions {
      AuthorizeInvisible(env, before, after, now, later, before.sessions[server].hash, "");
    }
    hide Authorize, UniquePlayerName;
  }

  lemma AuthorizeInvisible(env: Env, before: Db, after: Db, now: nat, later: nat, hash: Hash, client: string)
    requires OnlyExpiredGone(before, after, now) && now <= later
    ensures Authorize(env, before, hash, client, later).Ok? || Authorize(env, after, hash, client, later).Ok? ==>
              Authorize(env, before, hash, client, later) == Authorize(env, after, hash, client, later)
  {
    if hash in before.tokens && before.tokens[hash].identity.Some? {
      Auth.SameBinding(before, after, before.tokens[hash].owner, before.tokens[hash].identity.value);
    }
    hide BoundIdentity;
  }

  // ---- progress ----

  ghost predicate Call(before: Db, after: Db, batch: int, now: nat)
  {
    exists r :: CleanupBody(before, after, batch, now, r) && r.Ok?
  }

  /** A sequence of successful calls at one time, with nothing in between. */
  ghost predicate Swept(states: seq<Db>, batch: int, now: nat)
  {
    forall k :: 0 < k < |states| ==> Call(states[k - 1], states[k], batch, now)
  }

  function Left(n: nat, batch: nat, calls: nat): nat
  {
    if n < batch * calls then 0 else n - batch * calls
  }

  /** After k calls, k batches are gone, or everything that had expired. */
  lemma {:induction false} CallsRemoveBatches(states: seq<Db>, batch: int, now: nat)
    requires states != [] && Swept(states, batch, now) && 0 < batch
    ensures var last := states[|states| - 1];
            && |ExpiredTokens(last.tokens, now)| == Left(|ExpiredTokens(states[0].tokens, now)|, batch, |states| - 1)
            && |ExpiredSessions(last.sessions, now)|
              == Left(|ExpiredSessions(states[0].sessions, now)|, batch, |states| - 1)
  {
    hide CleanupBody, ExpiredTokens, ExpiredSessions;
    if |states| == 1 {
      assert batch * 0 == 0;
    } else {
      var n := |states| - 2;
      var earlier := states[..n + 1];
      assert forall k :: 0 < k < |earlier| ==> Call(states[k - 1], states[k], batch, now);
      CallsRemoveBatches(earlier, batch, now);
      assert Call(states[n], states[n + 1], batch, now);
      var r :| CleanupBody(states[n], states[n + 1], batch, now, r) && r.Ok?;
      CleanupRemovesExpired(states[n], states[n + 1], batch, now, r);
      assert batch * (n + 1) == batch * n + batch;
    }
  }

  /** With n expired rows in each table, n / batch calls, rounded up, leave none. */
  lemma CleanupEmpties(states: seq<Db>, batch: int, now: nat, n: nat)
    requires Swept(states, batch, now) && 0 < batch && |states| == (n + batch - 1) / batch + 1
    requires |ExpiredTokens(states[0].tokens, now)| <= n && |ExpiredSessions(states[0].sessions, now)| <= n
    ensures ExpiredTokens(states[|states| - 1].tokens, now) == {}
    ensures ExpiredSessions(states[|states| - 1].sessions, now) == {}
  {
    hide Swept, ExpiredTokens, ExpiredSessions;
    CallsRemoveBatches(states, batch, now);
    RoundedUp(n, batch);
  }

  lemma RoundedUp(n: nat, batch: nat)
    requires batch > 0
    ensures n <= batch * ((n + batch - 1) / batch)
  {
    var q, m := (n + batch - 1) / batch, (n + batch - 1) % batch;
    assert n + batch - 1 == batch * q + m;
  }
}
