/** The operator's schema commands as they run: checks, then statements that commit one by one. */
module SchemaCommands {
  import opened Basics
  import opened Tables
  import opened Database
  import Lifecycle

  /** The schema after the first `n` statements of a command. */
  function AfterStatements(s: Schema, command: Lifecycle.Command, n: nat): Schema
    requires n <= 3
  {
    if n == 0 then s
    else Lifecycle.AfterStatement(AfterStatements(s, command, n - 1), Lifecycle.Running(command, n - 1)).0
  }

  lemma StatementByStatement(s: Schema, command: Lifecycle.Command)
    ensures var a := AfterStatements(s, command, 1);
            var b := AfterStatements(s, command, 2);
            && a == (if command.Upgrade? then s.(links := true) else s.(updateHook := false))
            && b == (if command.Upgrade? then a.(insertHook := true) else a.(insertHook := false))
            && AfterStatements(s, command, 3)
              == (if command.Upgrade? then b.(updateHook := true) else b.(links := false))
  {
    assert AfterStatements(s, command, 0) == s;
  }

  /** How far a command gets when the statement numbered `fault`, if any, fails for outside reasons: a trigger that is
      already there cannot be created. */
  function Completed(s: Schema, command: Lifecycle.Command, fault: nat): (n: nat)
    ensures n <= 3
  {
    match command
    case Upgrade =>
      if fault == 0 then 0 else if fault == 1 || s.insertHook then 1 else if fault == 2 || s.updateHook then 2 else 3
    case Downgrade => if fault < 3 then fault else 3
  }

  /** Add the resolution objects: the ALTER, then the two hooks. The schema version stays 1. */
  method UpgradeResolutionSchema(d: Database, fault: nat) returns (ok: bool)
    requires d.Valid()
    modifies d`schema
    ensures d.Valid()
    ensures d.schema == if old(Lifecycle.VersionIs(d.Tables(), 1) && !d.schema.links)
                        then AfterStatements(old(d.schema), Lifecycle.Upgrade,
                                             Completed(old(d.schema), Lifecycle.Upgrade, fault))
                        else old(d.schema)
    ensures ok <==>
              && old(Lifecycle.VersionIs(d.Tables(), 1) && !d.schema.links)
              && Completed(old(d.schema), Lifecycle.Upgrade, fault) == 3
    ensures ok ==> ResolutionInstalled(d.schema)
  {
    hide IdentitiesOk;
    StatementByStatement(d.schema, Lifecycle.Upgrade);
    if d.gate.None? || d.gate.value.version != 1 || d.schema.links {
      return false;
    }
    if fault == 0 {
      return false;
    }
    d.schema := d.schema.(links := true);
    if fault == 1 || d.schema.insertHook {
      return false;
    }
    d.schema := d.schema.(insertHook := true);
    if fault == 2 || d.schema.updateHook {
      return false;
    }
    d.schema := d.schema.(updateHook := true);
    ok := ResolutionInstalled(d.schema);
  }

  /** Remove them again, hooks first; refused while version 2 is on or any row is resolved. The ALTER restores the
      narrower CHECK, and finds every row satisfying it. */
  method DowngradeResolutionSchema(d: Database, fault: nat) returns (ok: bool)
    requires d.Valid()
    modifies d`schema
    ensures d.Valid()
    ensures d.schema == if old(Removable(d.schema, d.Tables()))
                        then AfterStatements(old(d.schema), Lifecycle.Downgrade,
                                             Completed(old(d.schema), Lifecycle.Downgrade, fault))
                        else old(d.schema)
    ensures ok <==> old(Removable(d.schema, d.Tables())) && fault >= 3
    ensures ok ==> !d.schema.links
  {
    hide Unique, LinksOk;
    StatementByStatement(d.schema, Lifecycle.Downgrade);
    if !ResolutionInstalled(d.schema) || d.gate.None? || d.gate.value.version != 1 {
      return false;
    }
    if exists i :: i in d.identities && (d.identities[i].state == Resolved || d.identities[i].target.Some?) {
      return false;
    }
    if fault == 0 {
      return false;
    }
    d.schema := d.schema.(updateHook := false);
    if fault == 1 {
      return false;
    }
    d.schema := d.schema.(insertHook := false);
    if fault == 2 || exists i :: i in d.identities && !CheckV1(d.identities[i]) {
      return false;
    }
    d.schema := d.schema.(links := false);
    ok := !d.schema.links;
  }

  ghost predicate Removable(schema: Schema, db: Db)
  {
    ResolutionInstalled(schema) && Lifecycle.VersionIs(db, 1) && Lifecycle.NoLinks(db.identities)
  }

  /** Switch the state row to version 2 once the objects are verified. */
  method ActivateResolutionSchema(d: Database, outcome: Outcome) returns (ok: bool)
    requires d.Valid()
    modifies d
    ensures d.Valid() && d.schema == old(d.schema)
    ensures ok <==> old(ResolutionInstalled(d.schema) && Lifecycle.VersionIs(d.Tables(), 1)) && outcome.Confirmed?
    ensures d.Tables() == if !outcome.Lost? && old(ResolutionInstalled(d.schema) && Lifecycle.VersionIs(d.Tables(), 1))
                          then old(d.Tables()).(gate := Some(old(d.gate).value.(version := 2)))
                          else old(d.Tables())
  {
    hide IdentitiesOk, CheckV1;
    if !ResolutionInstalled(d.schema) || d.gate.None? || d.gate.value.version != 1 {
      return false;
    }
    var saved := d.Tables();
    d.gate := Some(d.gate.value.(version := 2));
    ok := d.Commit(saved, outcome);
  }

  /** Switch back to version 1, only while no row is resolved. */
  method DeactivateResolutionSchema(d: Database, outcome: Outcome) returns (ok: bool)
    requires d.Valid()
    modifies d
    ensures d.Valid() && d.schema == old(d.schema)
    ensures ok <==> old(Retirable(d.schema, d.Tables())) && outcome.Confirmed?
    ensures d.Tables() == if !outcome.Lost? && old(Retirable(d.schema, d.Tables()))
                          then old(d.Tables()).(gate := Some(old(d.gate).value.(version := 1)))
                          else old(d.Tables())
  {
    hide IdentitiesOk, CheckV1;
    if !ResolutionInstalled(d.schema) || d.gate.None? || d.gate.value.version != 2 {
      return false;
    }
    var saved := d.Tables();
    if exists i :: i in d.identities && (d.identities[i].state == Resolved || d.identities[i].target.Some?) {
      return false;
    }
    d.gate := Some(d.gate.value.(version := 1));
    ok := d.Commit(saved, outcome);
  }

  ghost predicate Retirable(schema: Schema, db: Db)
  {
    ResolutionInstalled(schema) && Lifecycle.VersionIs(db, 2) && Lifecycle.NoLinks(db.identities)
  }
}
