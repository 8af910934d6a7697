/** The rows and tables of the shared database, and the constraints its schema declares on identities. */
module Tables {
  import opened Basics
  import opened Uuids

  /** A token is keyed by the digest of its secret; the digest itself stands for the secret.
      The order of hashes is the byte order of the column. */
  type Hash = nat

  datatype User = User(password: string, permission: int, verified: bool, email: string)

  datatype Player = Player(owner: nat, name: string)

  /** A row of the legacy table that maps names to UUID text. */
  datatype Mapping = Mapping(name: string, uuid: string)

  datatype IdState = Active | Retired | Reserved | Blocked | Resolved

  datatype IdRow = IdRow(player: Option<nat>, uuid: Option<Uuid>, state: IdState, legacy: Option<nat>,
                         target: Option<nat>)

  /** `serial` is a history variable: it numbers issued rows, so that a reissued equal hash is another row. */
  datatype Token = Token(owner: nat, generation: nat, identity: Option<nat>, client: string,
                         created: nat, expires: nat, serial: nat)

  datatype Session = Session(hash: Hash, ip: seq<int>, created: nat, expires: nat)

  datatype Phase = Staged | Open

  datatype Gate = Gate(version: int, phase: Phase, watermark: nat, migration: Uuid)

  datatype Db = Db(users: map<nat, User>, players: map<nat, Player>, mappings: map<nat, Mapping>,
                   identities: map<nat, IdRow>, subjects: map<nat, nat>, tokens: map<Hash, Token>,
                   sessions: map<string, Session>, gate: Option<Gate>)

  /** What the service publishes about a player. */
  datatype Identity = Identity(id: nat, player: nat, uuid: Uuid, name: string, owner: nat)

  /** Thirty seconds in microseconds. */
  const SESSION_TTL: nat := 30_000_000

  /** Functions the model leaves uninterpreted: the collation weight of a name, the account policy,
      and the lifetime of a token. */
  datatype Env = Env(key: string -> string, allowed: (int, bool) -> bool, verify: (string, string) -> bool, ttl: nat)

  /** The row of a newly allocated identity. */
  function NewRow(pid: nat, u: Uuid): IdRow
  {
    IdRow(Some(pid), Some(u), Active, None, None)
  }

  // ---- constraints on identity rows ----

  predicate PositiveIds(row: IdRow)
  {
    && (row.player.Some? ==> row.player.value > 0)
    && (row.legacy.Some? ==> row.legacy.value > 0)
  }

  /** The CHECK of the first schema version, which has no link column. */
  predicate CheckV1(row: IdRow)
  {
    && PositiveIds(row) && row.target.None?
    && match row.state
       case Active => row.player.Some? && row.uuid.Some?
       case Retired => row.player.Some? && row.uuid.Some?
       case Reserved => row.player.None? && row.uuid.Some?
       case Blocked => row.player.Some? && row.uuid.None?
       case Resolved => false
  }

  /** The CHECK of the second schema version. */
  predicate CheckV2(row: IdRow)
  {
    if row.state.Resolved? then
      row.player.None? && row.uuid.None? && row.legacy.None? && row.target.Some?
    else CheckV1(row)
  }

  /** The three UNIQUE keys; NULL never conflicts. */
  predicate Conflict(a: IdRow, b: IdRow)
  {
    || (a.player.Some? && a.player == b.player)
    || (a.uuid.Some? && a.uuid == b.uuid)
    || (a.legacy.Some? && a.legacy == b.legacy)
  }

  predicate Unique(ids: map<nat, IdRow>)
  {
    forall i, j | i in ids && j in ids && i != j :: !Conflict(ids[i], ids[j])
  }

  /** The self-referencing foreign key, and the trigger that forbids a row to resolve into itself. */
  predicate LinksOk(ids: map<nat, IdRow>)
  {
    forall i | i in ids && ids[i].target.Some? :: ids[i].target.value in ids && ids[i].target.value != i
  }

  predicate IdentitiesOk(ids: map<nat, IdRow>)
  {
    && Unique(ids) && LinksOk(ids)
    && forall i | i in ids :: CheckV2(ids[i])
  }
}
