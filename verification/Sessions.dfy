/** Joining a server and checking that a player has joined. */
module Sessions {
  import opened Basics
  import opened Uuids
  import opened Tables
  import opened Directory
  import opened Database
  import opened Service
  import opened Auth

  /** An address as its octets, with the zone a scoped IPv6 address may carry. No octets means no address. */
  datatype Address = Address(octets: seq<int>, zone: string)

  predicate IsAddress(a: Address)
  {
    (|a.octets| == 4 || |a.octets| == 16) && forall i :: 0 <= i < |a.octets| ==> 0 <= a.octets[i] < 256
  }

  const MAPPED_PREFIX: seq<int> := [0, 0, 0, 0, 0, 0, 0, 0, 0, 0, 255, 255]

  /** An IPv4-mapped IPv6 address (section 2.5.5.2 of RFC 4291) stands for its IPv4 address. */
  function Unmap(octets: seq<int>): seq<int>
  {
    if |octets| == 16 && octets[..12] == MAPPED_PREFIX then octets[12..] else octets
  }

  /** Two addresses normalise alike exactly when they are equal, or one is the IPv4-mapped form of the other. */
  lemma UnmapMeans(a: seq<int>, b: seq<int>)
    requires (|a| == 4 || |a| == 16) && (|b| == 4 || |b| == 16)
    ensures Unmap(a) == Unmap(b) <==> a == b || a == MAPPED_PREFIX + b || b == MAPPED_PREFIX + a
    ensures Unmap(Unmap(a)) == Unmap(a)
  {
    if |a| == 16 {
      assert a == a[..12] + a[12..];
    }
    if |b| == 16 {
      assert b == b[..12] + b[12..];
    }
    if |a| == 4 {
      assert (MAPPED_PREFIX + a)[..12] == MAPPED_PREFIX && (MAPPED_PREFIX + a)[12..] == a;
    }
    if |b| == 4 {
      assert (MAPPED_PREFIX + b)[..12] == MAPPED_PREFIX && (MAPPED_PREFIX + b)[12..] == b;
    }
  }

  predicate GoodServer(server: string)
  {
    server != "" && |server| <= 255
  }

  /** The session row a Join leaves: a row that has not expired stays as it is. */
  function SessionAfter(db: Db, server: string, hash: Hash, ip: seq<int>, now: nat): Session
  {
    if server in db.sessions && now < db.sessions[server].expires then db.sessions[server]
    else Session(hash, ip, now, now + SESSION_TTL)
  }

  ghost predicate JoinBody(env: Env, before: Db, after: Db, hash: Hash, selected: string, server: string, ip: Address,
                           now: nat, r: Result<(), Error>)
  {
    if !GoodServer(server) || !IsAddress(ip) || ip.zone != "" || Parse(selected).None? then r == Err(Invalid)
    else if !ServiceOpen(before.gate) then r == Err(NotReady)
    else match Authorize(env, before, hash, "", now)
      case Err(e) => r == Err(e)
      case Ok(g) =>
        if g.identity.None? || g.identity.value.uuid != Parse(selected).value then r == Err(Invalid)
        else
          var row := SessionAfter(before, server, hash, Unmap(ip.octets), now);
          if row.hash != hash || row.ip != Unmap(ip.octets) then r == Err(Invalid)
          else r == Ok(()) && after == before.(sessions := before.sessions[server := row])
  }

  method JoinTransaction(d: Database, env: Env, hash: Hash, selected: string, server: string, ip: Address,
                         now: nat) returns (r: Result<(), Error>)
    requires Ready(d)
    modifies d`sessions
    ensures Ready(d) && JoinBody(env, old(d.Tables()), d.Tables(), hash, selected, server, ip, now, r)
  {
    hide Fits, Sound, Authorize, Parse, SessionAfter, Unmap, IsAddress, GoodServer;
    if !GoodServer(server) || !IsAddress(ip) || ip.zone != "" {
      return Err(Invalid);
    }
    var parsed := Parse(selected);
    if parsed.None? {
      return Err(Invalid);
    }
    if !ServiceOpen(d.gate) {
      return Err(NotReady);
    }
    var g := CheckToken(d, env, hash, "", now);
    if g.Err? {
      return Err(g.error);
    }
    if g.value.identity.None? || g.value.identity.value.uuid != parsed.value {
      return Err(Invalid);
    }
    SoundIgnoresSessions(d.Tables());
    var stored := StoreSession(d, server, hash, Unmap(ip.octets), now);
    r := if stored then Ok(()) else Err(Invalid);
  }

  lemma SoundIgnoresSessions(db: Db)
    requires Sound(db)
    ensures forall sessions :: Sound(db.(sessions := sessions))
  {
    hide IdentitiesOk;
  }

  /** Delete an expired row, insert, and on a duplicate accept only the very same binding. */
  method StoreSession(d: Database, server: string, hash: Hash, octets: seq<int>, now: nat) returns (stored: bool)
    modifies d`sessions
    ensures var row := SessionAfter(old(d.Tables()), server, hash, octets, now);
            && (stored <==> row.hash == hash && row.ip == octets)
            && (stored ==> d.sessions == old(d.sessions)[server := row])
  {
    if server in d.sessions && d.sessions[server].expires <= now {
      d.sessions := d.sessions - {server};
    }
    if server !in d.sessions {
      d.sessions := d.sessions[server := Session(hash, octets, now, now + SESSION_TTL)];
      return true;
    }
    stored := d.sessions[server].hash == hash && d.sessions[server].ip == octets;
  }

  method Join(d: Database, env: Env, hash: Hash, selected: string, server: string, ip: Address, now: nat,
              outcome: Outcome) returns (r: Result<(), Error>)
    requires Ready(d)
    modifies d
    ensures Ready(d) && d.schema == old(d.schema)
    ensures exists after, body :: JoinBody(env, old(d.Tables()), after, hash, selected, server, ip, now, body)
                                  && Ended(old(d.Tables()), d.Tables(), after, body, outcome, r)
  {
    hide Fits, JoinBody, Sound;
    var saved := d.Tables();
    ghost var counter := d.nextId;
    var body := JoinTransaction(d, env, hash, selected, server, ip, now);
    ghost var after := d.Tables();
    FitsLater(saved.identities, counter, d.nextId, d.schema);
    r := Finish(d, saved, body, outcome);
    assert Ended(saved, d.Tables(), after, body, outcome, r);
  }

  /** What HasJoined answers; it changes nothing. */
  ghost function Joined(env: Env, db: Db, name: string, server: string, ip: Address, now: nat): Result<Identity, Error>
  {
    if !GoodServer(server) || name == "" || ip.zone != "" then Err(Invalid)
    else if !ServiceOpen(db.gate) then Err(NotReady)
    else if server !in db.sessions then Err(Invalid)
    else
      var row := db.sessions[server];
      match Authorize(env, db, row.hash, "", now)
      case Err(e) => Err(e)
      case Ok(g) =>
        if g.identity.None? then Err(Invalid)
        else match UniquePlayerName(env, db.players, name)
          case Err(e) => Err(InvalidIfMissing(e))
          case Ok(pid) =>
            if pid != g.identity.value.player || row.expires <= now || g.expires <= now
               || (IsAddress(ip) && row.ip != Unmap(ip.octets)) then Err(Invalid)
            else Ok(g.identity.value)
  }

  method HasJoined(d: Database, env: Env, name: string, server: string, ip: Address, now: nat,
                   outcome: Outcome) returns (r: Result<Identity, Error>)
    requires Ready(d) && d.key == env.key
    modifies d
    ensures Ready(d) && d.Tables() == old(d.Tables())
    ensures Ended(d.Tables(), d.Tables(), d.Tables(), Joined(env, d.Tables(), name, server, ip, now), outcome, r)
  {
    hide Fits, Authorize, Sound, Joined;
    var body := FindJoined(d, env, name, server, ip, now);
    r := Finish(d, d.Tables(), body, outcome);
  }

  method FindJoined(d: Database, env: Env, name: string, server: string, ip: Address, now: nat)
    returns (r: Result<Identity, Error>)
    requires Ready(d) && d.key == env.key
    ensures r == Joined(env, d.Tables(), name, server, ip, now)
  {
    hide Fits, Authorize, Sound;
    if !GoodServer(server) || name == "" || ip.zone != "" {
      return Err(Invalid);
    }
    if !ServiceOpen(d.gate) {
      return Err(NotReady);
    }
    if server !in d.sessions {
      return Err(Invalid);
    }
    var initial := d.sessions[server].hash;
    var g := CheckToken(d, env, initial, "", now);
    if g.Err? {
      return Err(g.error);
    }
    if g.value.identity.None? {
      return Err(Invalid);
    }
    var pid := UniqueName(d, env, name);
    if pid.Err? {
      return Err(InvalidIfMissing(pid.error));
    }
    if pid.value != g.value.identity.value.player {
      return Err(Invalid);
    }
    var current := d.sessions[server];
    if current.hash != initial || current.expires <= now || g.value.expires <= now
       || (IsAddress(ip) && current.ip != Unmap(ip.octets)) {
      return Err(Invalid);
    }
    r := Ok(g.value.identity.value);
  }

  /** A Join is seen by HasJoined for thirty seconds: while the token still authorizes and the player alone bears
      the name, any equivalent address, or none, is admitted, and a repeated Join does not extend the time. */
  lemma JoinIsSeen(env: Env, before: Db, after: Db, hash: Hash, selected: string, server: string, ip: Address, now: nat,
                   name: string, other: Address, later: nat)
    requires JoinBody(env, before, after, hash, selected, server, ip, now, Ok(()))
    requires server in after.sessions && now <= later < after.sessions[server].expires
    requires Authorize(env, before, hash, "", later).Ok?
    requires name != "" && other.zone == ""
    ensures var x := Authorize(env, before, hash, "", now).value.identity.value;
            && (after.sessions[server].expires == now + SESSION_TTL
                || (server in before.sessions && after.sessions[server] == before.sessions[server]))
            && (Joined(env, after, name, server, other, later) == Ok(x) <==>
                  && Named(env.key, before.players, name) == {x.player}
                  && (IsAddress(other) ==> Unmap(other.octets) == Unmap(ip.octets)))
  {
    hide Parse;
    SameAuthorization(env, before, after, hash, later);
    SameGrant(env, before, hash, now, later);
    hide Authorize;
    assert after.players == before.players;
  }

  lemma SameAuthorization(env: Env, a: Db, b: Db, hash: Hash, now: nat)
    requires b == a.(sessions := b.sessions)
    ensures Authorize(env, a, hash, "", now) == Authorize(env, b, hash, "", now)
  {
    if hash in a.tokens && a.tokens[hash].identity.Some? {
      SameBinding(a, b, a.tokens[hash].owner, a.tokens[hash].identity.value);
    }
    hide BoundIdentity;
  }

  /** Two successful authorizations of one token on the same tables grant the same. */
  lemma SameGrant(env: Env, db: Db, hash: Hash, s: nat, t: nat)
    requires Authorize(env, db, hash, "", s).Ok? && Authorize(env, db, hash, "", t).Ok?
    ensures Authorize(env, db, hash, "", s) == Authorize(env, db, hash, "", t)
    ensures t < Authorize(env, db, hash, "", t).value.expires
  {
    hide BoundIdentity;
  }
}
