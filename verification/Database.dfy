/** The shared database as one object: tables as fields, constrained statements, and transactions that commit or
    restore. */
module Database {
  import opened Basics
  import opened Tables

  /** Why a statement is refused: a duplicate key, or any other constraint. */
  datatype Refusal = Duplicate | Violation

  /** What becomes of COMMIT: acknowledged, applied although the answer was lost, or not applied. */
  datatype Outcome = Confirmed | Unheard | Lost

  /** What the catalog says about the two name columns. */
  datatype Catalog = Catalog(schema: string, playersCollation: string, mappingsCollation: string, pad: string,
                             size: nat)

  /** Which of the schema's objects are installed: the two triggers on users, the one ALTER that adds the link column
      with its index, foreign key and wider CHECK, and the two hooks against self-resolution. */
  datatype Schema = Schema(userHooks: bool, links: bool, insertHook: bool, updateHook: bool)

  /** What the verification of the resolution schema looks for. */
  predicate ResolutionInstalled(s: Schema)
  {
    s.links && s.insertHook && s.updateHook
  }

  /** The CHECK and the hook in force for an update, against the row's own key. */
  predicate RowAllowed(s: Schema, id: nat, row: IdRow)
  {
    (if s.links then CheckV2(row) else CheckV1(row)) && (s.updateHook ==> row.target != Some(id))
  }

  /** Identity rows that satisfy the schema in force, below the counter. */
  ghost predicate Fits(ids: map<nat, IdRow>, nextId: nat, schema: Schema)
  {
    && IdentitiesOk(ids)
    && (forall i | i in ids :: i < nextId)
    && (!schema.links ==> forall i | i in ids :: CheckV1(ids[i]))
  }

  lemma FitsIsOk(ids: map<nat, IdRow>, nextId: nat, schema: Schema)
    requires Fits(ids, nextId, schema)
    ensures IdentitiesOk(ids)
  {
    hide IdentitiesOk;
  }

  lemma FitsLater(ids: map<nat, IdRow>, nextId: nat, later: nat, schema: Schema)
    requires Fits(ids, nextId, schema) && nextId <= later
    ensures Fits(ids, later, schema)
  {
  }

  class Database {
    var users: map<nat, User>
    var players: map<nat, Player>
    var mappings: map<nat, Mapping>
    var identities: map<nat, IdRow>
    var subjects: map<nat, nat>
    var tokens: map<Hash, Token>
    var sessions: map<string, Session>
    var gate: Option<Gate>
    /** The AUTO_INCREMENT counter of identities. It survives rollbacks. */
    var nextId: nat
    var schema: Schema

    const catalog: Catalog
    const key: string -> string

    constructor (catalog: Catalog, key: string -> string)
      ensures this.catalog == catalog && this.key == key
      ensures Valid() && Tables() == Db(map[], map[], map[], map[], map[], map[], map[], None)
    {
      users, players, mappings, identities := map[], map[], map[], map[];
      subjects, tokens, sessions, gate := map[], map[], map[], None;
      nextId, schema := 1, Schema(true, false, false, false);
      this.catalog, this.key := catalog, key;
    }

    function Tables(): Db
      reads this
    {
      Db(users, players, mappings, identities, subjects, tokens, sessions, gate)
    }

    ghost predicate Valid()
      reads this
    {
      Fits(identities, nextId, schema)
    }

    /** ROLLBACK: every table as it was when the transaction began. */
    method Restore(saved: Db)
      modifies this
      ensures Tables() == saved && nextId == old(nextId) && schema == old(schema)
    {
      users, players, mappings, identities := saved.users, saved.players, saved.mappings, saved.identities;
      subjects, tokens, sessions, gate := saved.subjects, saved.tokens, saved.sessions, saved.gate;
    }

    method Commit(saved: Db, outcome: Outcome) returns (ok: bool)
      modifies this
      ensures ok <==> outcome.Confirmed?
      ensures Tables() == (if outcome.Lost? then saved else old(Tables()))
      ensures nextId == old(nextId) && schema == old(schema)
    {
      if outcome.Lost? {
        Restore(saved);
      }
      ok := outcome.Confirmed?;
    }

    /** `INSERT INTO identities`, which never names the link column: the CHECK first, then the three UNIQUE keys. The
        counter moves even on a duplicate. */
    method InsertIdentity(row: IdRow) returns (r: Result<nat, Refusal>)
      requires Valid() && row.target.None?
      modifies this`identities, this`nextId
      ensures Valid() && nextId >= old(nextId)
      ensures r.Ok? <==> CheckV1(row) && forall i | i in old(identities) :: !Conflict(row, old(identities)[i])
      ensures r.Err? ==> identities == old(identities) && r.error == (if CheckV1(row) then Duplicate else Violation)
      ensures r.Ok? ==> r.value !in old(identities) && identities == old(identities)[r.value := row]
    {
      if !CheckV1(row) {
        return Err(Violation);
      }
      var id := nextId;
      nextId := nextId + 1;
      if exists i :: i in identities && Conflict(row, identities[i]) {
        return Err(Duplicate);
      }
      InsertKeepsOk(identities, id, row);
      identities := identities[id := row];
      r := Ok(id);
    }

    /** `INSERT INTO tokens`. */
    method InsertToken(hash: Hash, row: Token) returns (refused: Option<Refusal>)
      modifies this`tokens
      ensures refused.None? <==> hash !in old(tokens) && TokenAllowed(subjects, identities, row)
      ensures tokens == if refused.None? then old(tokens)[hash := row] else old(tokens)
      ensures TokenAllowed(subjects, identities, row) && refused.Some? ==> refused == Some(Duplicate)
    {
      if !TokenAllowed(subjects, identities, row) {
        return Some(Violation);
      }
      if hash in tokens {
        return Some(Duplicate);
      }
      tokens := tokens[hash := row];
      refused := None;
    }

    /** `UPDATE identities` of one row by key: refused if the new row breaks the CHECK, a UNIQUE key, the
        self-referencing foreign key or the no-self-resolution hook. */
    method UpdateIdentity(id: nat, row: IdRow) returns (refused: Option<Refusal>)
      requires Valid() && id in identities && (schema.updateHook || row.target != Some(id))
      modifies this`identities
      ensures Valid()
      ensures refused.None? <==> Updatable(schema, old(identities), id, row)
      ensures identities == if refused.None? then old(identities)[id := row] else old(identities)
    {
      if !RowAllowed(schema, id, row) || (row.target.Some? && row.target.value !in identities) {
        return Some(Violation);
      }
      if exists i :: i in identities && i != id && Conflict(row, identities[i]) {
        return Some(Duplicate);
      }
      UpdateKeepsOk(schema, identities, id, row);
      identities := identities[id := row];
      refused := None;
    }
  }

  /** The CHECKs and foreign keys of the token table. */
  predicate TokenAllowed(subjects: map<nat, nat>, identities: map<nat, IdRow>, row: Token)
  {
    && row.generation >= 1 && row.created < row.expires && row.owner in subjects
    && (row.identity.Some? ==> row.identity.value in identities)
  }

  ghost predicate Updatable(schema: Schema, ids: map<nat, IdRow>, id: nat, row: IdRow)
  {
    && RowAllowed(schema, id, row)
    && (row.target.Some? ==> row.target.value in ids)
    && forall i | i in ids && i != id :: !Conflict(row, ids[i])
  }

  lemma ConflictSymmetric(a: IdRow, b: IdRow)
    ensures Conflict(a, b) == Conflict(b, a)
  {
  }

  /** A statement that the constraints let through leaves them all in force. */
  lemma UpdateKeepsOk(schema: Schema, ids: map<nat, IdRow>, id: nat, row: IdRow)
    requires IdentitiesOk(ids) && id in ids && Updatable(schema, ids, id, row) && row.target != Some(id)
    ensures IdentitiesOk(ids[id := row])
  {
    var next := ids[id := row];
    forall i, j | i in next && j in next && i != j
      ensures !Conflict(next[i], next[j])
    {
      ConflictSymmetric(next[i], next[j]);
    }
  }

  lemma InsertKeepsOk(ids: map<nat, IdRow>, id: nat, row: IdRow)
    requires IdentitiesOk(ids) && id !in ids && CheckV1(row)
    requires forall i | i in ids :: !Conflict(row, ids[i])
    ensures IdentitiesOk(ids[id := row])
  {
    var next := ids[id := row];
    forall i, j | i in next && j in next && i != j
      ensures !Conflict(next[i], next[j])
    {
      ConflictSymmetric(next[i], next[j]);
    }
  }
}
