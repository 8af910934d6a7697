# Shared authentication: verified model

A Dafny 4.11 model of the shared authentication core of a Yggdrasil API server (`src/sharedauth`): accounts, tokens and
join sessions kept in a MySQL database that several servers share; the one-time migration of legacy name-to-UUID mappings
into identities; and the reversible resolution of the conflicts the migration left.

It is built at three levels that share one definition of the tables (`Tables`) and of what a name, an identifier or a
token means on them (`Directory`).

* **Requests as transactions.** `Database` is a class with the tables as fields; its methods are statements that enforce
  CHECK, UNIQUE and foreign keys, and transactions that commit, restore, or leave the caller in doubt. `Service`, `Auth`,
  `Sessions`, `AccountProfiles` and `Authenticate`, `Profiles` and `Cleanup` are the requests over it; `Invisible` and
  `CleanupRuns` compare their answers over time with and without cleanups. The operator's side is in `MigrationBuild`,
  `MigrationValidate`, `MigrationApply`, `ResolutionPlan`, `ResolutionApply` and `SchemaCommands`.
* **Requests as concurrent statements.** `Machine` interleaves the statements of any number of logins, validations,
  refreshes, joins, sign-outs, allocations, lookups by name and cleanups with edits by the account system, its two
  triggers and the clock, under READ COMMITTED with shared and exclusive row locks held to the end. A transaction may
  abort at any point; random hashes and identifiers come from an arbitrary oracle and may collide. `MachineInvariant`
  to `MachineRuns` prove its invariant; `MachineTheorems`, `MachineAdmissions` and `MachineLookups` state what follows.
  `MachineProgress`, `LoginProgress`, `LookupProgress`, `Opening` and `Playing` show that the runs these theorems speak
  of exist, and that a login or a lookup that runs alone does what the transaction does.
* **The life of an installation.** `Lifecycle` puts that machine, the migration and resolution transactions, and the schema
  commands, one DDL statement a step, into one transition system. Every theorem about the service holds in every state
  this system reaches; `LifecycleTheorems` adds those that span migration, service, resolution and schema
  (`MigrationLookup` and `ResolutionMeaning` hold what they need about lookups), and `Resolving` shows that their
  premises are met by real runs.

The plan of a snapshot is defined from sets of rows (`MigrationPlan`); the loops over indexes are proved to compute it.
Sorting (`Sorting`) promises no more than an unstable library sort.

The main results, hardest first: no token survives a change of its owner's password or permission, over any run
(`RevocationLaws.AuthorizedMeansUnaltered`, `ThereAndBackRevokes`); a token row is refreshed at most once
(`MachineTheorems.SingleWinnerAndLineage`) and no account exceeds its quota (`QuotaHolds`); the migration keeps exactly the
identifiers that the rows determine (`MigrationRules.MappedExactly` to `ReservedExactly`) and the lookups answer them from
then on (`Migrating.MigratedIsFound`, `LifecycleTheorems.LegacyUuidsSurvive`); a resolution completes it, can be taken back
row for row (`ResolutionCompletesMigration`, `RollbackRestores`) and is noticed by no token
(`ResolutionLaws.OperatorKeepsTokens`); an admission names the player who joined
(`MachineAdmissions.AdmissionNamesOneBearer`); logins and lookups that run statement by statement end as the transactions do
(`LoginProgress.LoginSucceeds`, `LookupProgress.LookupSucceeds`); and cleanups are invisible (`CleanupsAreInvisible`).

What each level promises is also said of the rows themselves, mostly in both directions, with every condition spelled out.
`RequestLaws`, `RequestConditions`, `RequestErrors` and `LoginLaws` say exactly when each request succeeds, what it leaves
and what it answers otherwise; `RevocationLaws` and `MachineLaws` what one statement, one transaction and a whole run do to
accounts, tokens and sign-outs; `MigrationRules` and `MigrationOutcomes` exactly which player and which identifier the plan
treats how, and `Migrating` what the lookups answer afterwards; `ResolutionLaws` and `InstallationLaws` what the operator's
transactions ask of the rows, leave in them, and leave alone.

Modelling decisions:

* The collation of names is one function from spelling to weight, used both for `name=?` and for the weights in a snapshot.
* Digests, password verification and the account policy are uninterpreted functions. A token is keyed by its digest.
  Theorems that need it assume that no other plan has the reviewed plan's digest (`OnlyPlanWithDigest`).
* Every issued token row carries a serial, the position of the event that issued it, as a history variable.
* Time is in microseconds. In `Machine` a statement takes its timestamp when it starts, possibly earlier than it ends.
* The machine takes fewer locks than the storage engine (no gap locks), so it has every behaviour the engine allows.
* An operator transaction commits only while no request is open, because it locks the state row that every open request
  holds. Operator commands run one at a time, as the documentation requires.
* The resolution methods take for granted that version 2 means an installed resolution schema;
  `LifecycleTheorems.SecondVersionIsWhole` proves it of every reachable state.
* The one `ALTER TABLE` of each direction is a single atomic statement; column, index, foreign key and CHECK come and go
  together.

Where code and documentation differ, the model follows the code. The design (`docs/shared-auth-design.md`, line 37) accepts
legacy identifiers as 32 hexadecimal digits or in dashed form, and so does the migration, capitals included. The resolution
step reads the same table but accepts only 32 lower-case digits. An identifier spelled otherwise can be migrated as reserved
and then never be resolved: `ResolutionPlan.OnlyPlainSpellingResolves` states exactly when it can, and
`ResolutionMeaning.ReservedBeyondResolution` that a player with two mappings in such a spelling is blocked and its
identifier reserved for good; `ResolutionMeaning.DashedTwiceMapped` is an instance.

HasJoined answers for the only player with a name, but finds that out without locking other players. So the player was alone
when the name was checked, and need not be alone any more when the answer commits: `Playing.TwoBearersAtCommit` reaches
such a state. `MachineAdmissions.AdmissionNamesOneBearer` states exactly when the player stays alone throughout, and
exactly when it is alone at the end.

`dafny verify dfyconfig.toml` checks the project.

## Model

| member | source | states |
|---|---|---|
| `MachineTheorems.NoAuthorizationAfterRevocation` | src/sharedauth/auth.go:288-344 | In every state reachable by any interleaving and any operator history: if a token authorizes, then since the login at the start of its refresh chain no revocation of its owner is recorded; that every password change, permission change, deletion and sign-out records one is SecurityChangesRevoke, RevocationLaws and MachineLaws.LogoutIsExact |
| `MachineTheorems.SecurityChangesRevoke` | src/sharedauth/migrations/006_user_update.sql:1-10 | For every step from a reachable state, on the rows: if an account that is there has another password or permission afterwards, or is gone, a revocation is recorded and its generation strictly rises; generations never fall and the history only grows |
| `MachineTheorems.SingleWinnerAndLineage` | src/sharedauth/auth.go:33-92 | Each issued token row is consumed by at most one committed Refresh; the consumed row was issued under its own serial and the successor inherits owner, generation, client token and identity |
| `MachineTheorems.BirthIsLogin` | src/sharedauth/auth.go:33-92 | Following a refresh chain back ends at a login with the same owner, generation and client token |
| `MachineTheorems.AuthorizationHoldsToTheEnd` | src/sharedauth/auth.go:288-344 | A transaction that passed authorization still authorizes on the committed tables at every later moment until it ends |
| `MachineTheorems.RefreshIsAtomic` | src/sharedauth/auth.go:33-61 | A committing Refresh has, on the tables of that instant, the effect of one atomic refresh, and nothing else |
| `MachineTheorems.RefreshAuthorizes` | src/sharedauth/auth.go:33-92 | From the instant a refresh commits the old token is refused and the new one authorizes, for the same account and client, with the bound or the selected profile |
| `MachineTheorems.QuotaHolds` | src/sharedauth/authenticate.go:119-142 | In every reachable state any set of unexpired token rows of one account and its present generation is no larger than the quota, at statement granularity |
| `MachineTheorems.LoginIsExact` | src/sharedauth/authenticate.go:92-114 | A committing login deletes exactly the oldest live tokens, inserts one whose hash was in no row, and at that instant the account is there, allowed, and has the password that was verified |
| `MachineTheorems.LoginAuthorizes` | src/sharedauth/authenticate.go:53-114 | From the instant a login commits until its token expires, the token authorizes, for its client, with exactly the profile chosen: the only one, or one of a player with the given name |
| `MachineTheorems.EvictionCountNeverChanges` | src/sharedauth/authenticate.go:97-114 | The error "locked token eviction count changed" is unreachable |
| `MachineTheorems.IdentitiesConverge` | src/sharedauth/service.go:198-232 | All identities published for one player since operators last changed a row are the same row and UUID, despite colliding candidates, and that row is still active for the player |
| `MachineLookups.LookupIsCurrent` | src/sharedauth/profiles.go:47-141 | A lookup by name or names that commits, with renames and changes of account between its statements: every player returned once, still with that name, account and identity, under a name that was asked for; it writes only rows of new players |
| `MachineLookups.AnswersWereAlone` | src/sharedauth/profiles.go:73-141 | Whoever a lookup returns was, at one moment since it opened, the only player with one of the names asked for |
| `MachineTheorems.BindingsAreForever` | src/sharedauth/service.go:198-232 | No step of the service alters an identity row; every row it adds is active, for a player above the watermark |
| `MachineTheorems.EnsureIsBound` | src/sharedauth/service.go:80-91 | A committed EnsureIdentity leaves an active row that binds its player to the identity it reports, and touches no other table |
| `MachineTheorems.UnexpiredSessionsStay` | src/sharedauth/auth.go:180-188 | No step replaces, rebinds, extends or removes an unexpired session row |
| `MachineTheorems.AdmissionIsJustified` | src/sharedauth/auth.go:202-248 | A successful HasJoined changes nothing; when it commits its token authorizes and its player bears the name (that it did so alone when the name was checked is AdmissionNamesOneBearer), and a Join for that server, token and address committed less than thirty seconds before |
| `MachineAdmissions.AdmissionNamesOneBearer` | src/sharedauth/auth.go:225-231 | In every run: a HasJoined past its name check was checked at one moment since it opened, when its player alone bore the name and its token authorized; from then the player stays alone throughout if and only if no transaction commits an equivalent name for somebody else, and is alone at the end if and only if everybody who was given one has lost it by a later commit |
| `MachineAdmissions.RivalByCommit` | src/sharedauth/auth.go:388-412 | A commit makes the player share the name exactly when it writes an equivalent name to another player |
| `Playing.RivalCanAppear` | src/sharedauth/auth.go:225-247 | In every state in which a HasJoined is ready, the account system can commit an equivalent name for any player nobody has locked; the request stays ready and then two players bear the name |
| `Playing.TwoBearersAtCommit` | src/sharedauth/auth.go:225-247 | Such a state is reached from an empty installation, with no premise left open: the uniqueness of the name is a fact about the check, not about the answer |
| `Playing.NewcomerIsAdmitted` | src/sharedauth/auth.go:202-248 | From every reachable state with an open gate and no open request a new account can be created, get its identity, log in by player name, join, and have its HasJoined become ready |
| `MachineTheorems.JoinIsBound` | src/sharedauth/auth.go:162-200 | A committed Join leaves a session with its own token and address, and its token authorizes |
| `MachineTheorems.SweepRemovesExpired` | src/sharedauth/cleanup.go:19-44 | A committed cleanup, interleaved with anything, removes only rows that have expired, at most a batch from each table, and changes no other row |
| `MachineTheorems.OnlyAnsweredIsPublished` | src/sharedauth/service.go:126-131 | A step tells callers exactly what it commits, and only if the answer of its COMMIT arrives; the history only grows |
| `MachineTheorems.LostAnswerPublishesNothing` | src/sharedauth/service.go:126-131 | Whatever a commit with a lost answer has committed is in the history for good, and no caller is told of it in any later state |
| `MachineTheorems.PublishedIsCommitted` | src/sharedauth/service.go:126-131 | Everything a caller was ever told is committed history: the token row of that serial, the identity its player still has unless operators moved rows, an admission that had its Join |
| `MachineTheorems.ReachableOk` | src/sharedauth/auth.go:288-344 | The invariant holds in every reachable state |
| `MachineSteps.AdvanceKeeps` | src/sharedauth/auth.go:288-344 | One statement of any request keeps what the transaction knows about the tables and its own pending writes |
| `MachineStable.TxnStable` | src/sharedauth/auth.go:269-344 | What a transaction knows survives every change that its locks allow others to make |
| `MachineCommit.CommitEvolves` | src/sharedauth/service.go:127-130 | A commit shows every other open transaction only changes its locks allow |
| `MachineCommit.CommitKeepsTables` | src/sharedauth/authenticate.go:53-114 | A commit keeps log, lineage, revocation, quota and session invariants of the tables |
| `MachineRuns.StepOk` | src/sharedauth/service.go:93-131 | Every step of the machine keeps the whole invariant |
| `MachineProgress.ValidateSucceeds` | src/sharedauth/auth.go:25-31 | A token that authorizes is validated by a transaction running alone |
| `MachineProgress.RefreshSucceeds` | src/sharedauth/auth.go:33-92 | A token that authorizes, with any profile its owner may select, is refreshed by a transaction running alone, to exactly the expected row |
| `MachineProgress.EnsureSucceeds` | src/sharedauth/service.go:80-91 | A player with an identity, or a new one with unused candidates, is given its identity by a transaction running alone |
| `MachineProgress.JoinSucceeds` | src/sharedauth/auth.go:162-200 | A token bound to the profile joins a server whose id nobody else holds, by a transaction running alone |
| `MachineProgress.AdmitSucceeds` | src/sharedauth/auth.go:202-248 | A HasJoined that meets its conditions gets ready when it runs alone, and has then locked no player but its own |
| `LoginProgress.LoginSucceeds` | src/sharedauth/authenticate.go:19-117 | Whenever the transaction can succeed (LoginNeeds), its statements run alone, with the candidates drawn in order and retried on collision, reach their end: every new player gets its first free identifier, and the tables and the result are such as the specification of the transaction allows |
| `LoginProgress.LoginNeeds` | src/sharedauth/authenticate.go:64-97 | A login that succeeds met the conditions of LoginSucceeds: an allotment for every new player of the account, a free token candidate, a profile for a player that is named |
| `LoginProgress.EvictionExists` | src/sharedauth/authenticate.go:119-142 | There is always a choice of victims |
| `Opening.FreshInstallationOpens` | src/sharedauth/migrationplan/apply.go:104-217 | Whatever the source tables hold, if they can be read and are accepted then the plan Build makes of them can be staged in a fresh installation and its gate opened |
| `Opening.EmptyInstallationOpens` | src/sharedauth/migrationplan/apply.go:104-217 | An installation without accounts is opened under a plan whose digest no other plan has: the premises of the theorems on opening are met |
| `LifecycleTheorems.MigrationPreservesMeaning` | src/sharedauth/migrationplan/apply.go:200-217 | From the moment the gate opens under a reviewed plan, through any run without player edits or resolutions: each name and each identifier answers what the plan decided: the planned identity, IdentityConflict for a blocked player, NotFound for a reserved identifier |
| `LifecycleTheorems.ResolutionCompletesMigration` | src/sharedauth/resolutionplan/apply.go:16-66 | Gate opened under a reviewed plan, any run, a resolution, any run: each decided player's name, in every equivalent spelling, and the approved identifier find each other from then on; every other name and identifier the migration covered still means what the plan decided |
| `LifecycleTheorems.OpeningMeansPlan` | src/sharedauth/migrationplan/apply.go:250-287 | At that moment the identity rows are the plan of the present source rows and the watermark is the plan's |
| `LifecycleTheorems.LegacyUuidsSurvive` | src/sharedauth/migrationplan/plan.go:98-156 | Every legacy identifier that parses is in exactly one row after the first Apply, and after any run whatever it is in that row and no other |
| `LifecycleTheorems.StepKeepsRows` | src/sharedauth/resolutionplan/apply.go:39-61 | Every step of every kind keeps each row's identifier and legacy mapping; only a resolution or its rollback changes anything else in a row |
| `LifecycleTheorems.RunKeepsRows` | src/sharedauth/resolutionplan/apply.go:39-61 | The same over any run: no row disappears, no identifier moves |
| `LifecycleTheorems.ResolutionMovesPlayersOnly` | src/sharedauth/resolutionplan/apply.go:39-61 | A resolution and a rollback keep row ids, row count, identifiers and mappings |
| `LifecycleTheorems.RollbackRestores` | src/sharedauth/resolutionplan/apply.go:160-207 | After Apply, any run of the whole system, and Rollback of the same plan, every planned row is exactly as before Apply and every other row as before Rollback |
| `Resolving.FreshInstallationResolves` | src/sharedauth/resolutionplan/apply.go:16-66 | In a fresh installation any valid resolution pending on the rows of the plan can be reached after opening the gate, closing it, installing the second schema statement by statement and turning it on; it can be applied, and taken back |
| `Resolving.ConflictIsResolved` | src/sharedauth/resolutionplan/apply.go:16-66 | With no premise left open: one player with two mappings to one identifier is blocked by the migration, and its resolution and rollback are both reached |
| `LifecycleTheorems.SecondVersionIsWhole` | src/sharedauth/migrations/migrations.go:227-252 | In every reachable state version 2 means the whole resolution schema is installed and no schema command is under way; a resolved row means version 2 |
| `LifecycleTheorems.LinkColumnOutlivesLinks` | src/sharedauth/migrations/migrations.go:293-333 | No step, wherever a command is interrupted, drops the link column or a hook while a resolved row exists |
| `Lifecycle.RuntimeFrame` | src/sharedauth/service.go:198-232 | A runtime step leaves the gate and every existing identity row alone; added rows are fresh active rows above the watermark |
| `Lifecycle.RowsTxFits` | src/sharedauth/resolutionplan/apply.go:39-61 | The rows a permitted Apply or Rollback leaves satisfy every constraint |
| `Lifecycle.RebindOk` | src/sharedauth/resolutionplan/apply.go:23-66 | Changing identity rows while no request is open keeps the invariant of the running service |
| `Lifecycle.WorldStepOk` | src/sharedauth/migrations/migrations.go:111-148 | Every step of service, account system, operator transaction or single DDL statement keeps the invariant of the whole installation |
| `RequestLaws.AuthorizesExactly` | src/sharedauth/auth.go:288-348 | A token authorizes exactly if its row is there and unexpired, the client token is none or the row's, the owner is there and allowed, the generation is the owner's, and the bound identity is an active row of a player of the owner; the grant is what those rows say |
| `RequestLaws.WrongClientIsRefused` | src/sharedauth/auth.go:346-348 | Another client token than the one stored is refused as Invalid, whatever else is right |
| `RequestLaws.WrongClientDoesNothing` | src/sharedauth/auth.go:94-127 | With it Validate, Refresh and Invalidate of an issued token all answer Invalid |
| `RequestLaws.InvalidatesExactly` | src/sharedauth/auth.go:94-127 | Invalidate succeeds exactly for an unknown token, or under no client token or the right one for an account with an anchor; then that row is gone and only that row |
| `RequestLaws.RefreshesInRows` | src/sharedauth/auth.go:33-92 | A refresh that succeeds had a current row under no or the right client token, and leaves one row for it with that owner, generation and client token, a new hash and a full lifetime, under the bound identity or the selected one |
| `RequestLaws.FindsUuidExactly` | src/sharedauth/profiles.go:11-32 | An identifier is found exactly if an active row carries it for a player that is there |
| `RequestLaws.FindsNameExactly` | src/sharedauth/profiles.go:122-141 | A name is found exactly if one player has it, up to the collation, and that player has an active row |
| `RequestLaws.OwnerExactly` | src/sharedauth/auth.go:414-443 | A login name designates exactly the only account with that e-mail address, or the owner of the only player so named |
| `RequestLaws.DesignatesExactly` | src/sharedauth/auth.go:129-141 | Name and password designate an account exactly if both are given, the name stands for it, the policy allows it and the password is its own |
| `RequestLaws.LoginProves` | src/sharedauth/authenticate.go:19-62 | Whoever logs in has named one account that is allowed, with that account's password, through an open gate |
| `RequestLaws.SignoutProves` | src/sharedauth/auth.go:129-160 | Whoever signs out has proved the same; that account's generation rises by one and nothing else changes |
| `RequestLaws.WrongPasswordIsRefused` | src/sharedauth/auth.go:129-141 | With a password that is not the account's both requests answer Invalid |
| `RequestLaws.JoinsInRows` | src/sharedauth/auth.go:162-200 | A Join that succeeds leaves a session with its token and normalised address for thirty seconds, unless an unexpired one with the very same two was there; nothing else changes |
| `RequestLaws.AdmitsExactly` | src/sharedauth/auth.go:202-248 | HasJoined answers exactly for an unexpired session of a token that authorizes, whose player alone has the name, from the session's address or from none |
| `RequestLaws.CleansInRows` | src/sharedauth/cleanup.go:19-44 | What a cleanup removes has expired, no later than what it leaves; if it removes less than a batch, nothing expired is left |
| `RequestLaws.EnsuresExactly` | src/sharedauth/service.go:80-91 | EnsureIdentity succeeds exactly for a player with an active row, or a new one without a row that finds one of three candidates in no row |
| `RequestLaws.ClosedGateRefuses` | src/sharedauth/service.go:93-124 | No request succeeds unless the gate is there and open in a known version |
| `RequestConditions.EndsExactly` | src/sharedauth/service.go:93-131 | A caller is told a result only on a confirmed COMMIT, and then the tables hold its effect; a failed body leaves nothing |
| `RequestConditions.ValidatesExactly` | src/sharedauth/auth.go:25-31 | Validate succeeds exactly with an open gate for a token that is current |
| `RequestConditions.RefreshesExactly` | src/sharedauth/auth.go:33-92 | Refresh succeeds exactly with an open gate, for a current token, an allowed selection, and one new candidate of three |
| `RequestConditions.SignsOutExactly` | src/sharedauth/auth.go:129-160 | Signout succeeds exactly with an open gate for a name that stands for an allowed account, with its password |
| `RequestConditions.WrongPasswordLeavesTables` | src/sharedauth/auth.go:129-160 | A login or sign-out with a wrong password answers Invalid and leaves every table as it was |
| `RequestConditions.JoinsExactly` | src/sharedauth/auth.go:162-200 | Join succeeds exactly with an open gate, a good server id and address, a current token bound to the profile, and a server id nobody else holds |
| `RequestConditions.LooksUpExactly` | src/sharedauth/profiles.go:11-32 | A lookup by text finds exactly the identifier that the text writes, in either form and either case |
| `RequestConditions.NamesExactly` | src/sharedauth/profiles.go:36-43 | A lookup by name succeeds exactly if one player bears it and that player has an active row or can be given one |
| `RequestConditions.BatchesExactly` | src/sharedauth/profiles.go:47-56 | A lookup of many names succeeds exactly with an open gate and at most ten names |
| `RequestConditions.CleansExactly` | src/sharedauth/cleanup.go:19-30 | Cleanup succeeds exactly with an open gate and a batch of 1 to 10000 |
| `RequestConditions.AnswersAreInOrder` | src/sharedauth/profiles.go:102-118 | The answers to many names come in the order in which the first name of each player stands in the request |
| `RequestErrors.TokenErrors` | src/sharedauth/auth.go:288-344 | A token that does not authorize is Invalid, except when it stands but its row is not active (IdentityConflict) or has no player (a driver error) |
| `RequestErrors.RefreshErrors` | src/sharedauth/auth.go:33-92 | Which error a refresh answers: NotReady exactly with a closed gate, exhaustion exactly when only the three candidates are wanting |
| `RequestErrors.CredentialErrors` | src/sharedauth/auth.go:388-443 | Missing or wrong credentials are Invalid; a player name that several players have is IdentityConflict, exactly |
| `RequestErrors.NameErrors` | src/sharedauth/profiles.go:122-141 | A name without identity is NotFound exactly if nobody has it or its only bearer is new and has no row; otherwise IdentityConflict |
| `RequestErrors.UuidErrors` | src/sharedauth/profiles.go:11-32 | An identifier without identity is NotFound |
| `RequestErrors.ValidateErrors` | src/sharedauth/auth.go:25-31 | A closed gate is NotReady whatever the token; otherwise the error is the token's own |
| `RequestErrors.SignoutErrors` | src/sharedauth/auth.go:129-160 | Signout looks at the credentials before the gate |
| `RequestErrors.HasJoinedErrors` | src/sharedauth/auth.go:202-248 | Which errors HasJoined answers, and when one is a conflict |
| `RequestErrors.LookupErrors` | src/sharedauth/profiles.go:36-56 | Too many names are Invalid, an empty name NotFound, a closed gate NotReady |
| `RequestErrors.JoinErrors` | src/sharedauth/auth.go:162-200 | Which errors a Join answers |
| `RequestErrors.LoginErrors` | src/sharedauth/authenticate.go:19-37 | The order of the first failures of a login: limit, credentials, gate |
| `LoginLaws.LoginLeavesRows` | src/sharedauth/authenticate.go:92-114 | A login adds one row of the account's present generation under a hash that was in none; the rows it removes counted against the quota, are the oldest, and exactly as many as the limit demands |
| `LoginLaws.ProfilesInRows` | src/sharedauth/authenticate.go:144-179 | The profiles a login answers are exactly the active rows of the account's players, in their order, and every new player has a row |
| `LoginLaws.ChoiceInRows` | src/sharedauth/authenticate.go:69-91 | With an e-mail address the token carries the only profile or none, with a player name the profile of the only player so named |
| `LoginLaws.LogsInExactly` | src/sharedauth/authenticate.go:19-117 | A login succeeds exactly with a positive limit, an open gate, right credentials of an allowed account, and if its players, its token and its choice can be provided for |
| `RevocationLaws.AccountWriteIsExact` | src/sharedauth/migrations/006_user_update.sql:1-10 | One UPDATE or DELETE of an account row: exactly if the transaction itself saw another password or permission, or deletes the row, a revocation is noted and the pending generation rises by one |
| `RevocationLaws.ThereAndBackRevokes` | src/sharedauth/migrations/006_user_update.sql:1-10 | A transaction that changes password or permission and changes them back, with anything beside it: when it commits the generation rises and no token that was there authorizes any more |
| `RevocationLaws.AlterationIsRecorded` | src/sharedauth/migrations/007_user_delete.sql:1-7 | Over any run of the installation: an account left with another password or permission, or gone, was revoked on the way |
| `RevocationLaws.AuthorizedMeansUnaltered` | src/sharedauth/auth.go:288-344 | End to end: a token that authorizes after a run, and descends from a login before it, belongs to an account that had the same password and permission in every state of the run in which it existed |
| `MachineLaws.OpenRequestsMeanOpenGate` | src/sharedauth/service.go:93-124 | While a request is open the gate is open, in a known version |
| `MachineLaws.OperatorSpares` | src/sharedauth/migrationplan/apply.go:104-165 | A step of the operator leaves accounts, players, mappings, generations, tokens, sessions, open transactions and the history alone |
| `MachineLaws.AccessMatchesClient` | src/sharedauth/auth.go:316-318 | A request that has locked its token row has named no client token, or the row's |
| `MachineLaws.DropIsExact` | src/sharedauth/auth.go:94-127 | A committed Invalidate removes at most its own row, and that only under no client token or the row's |
| `MachineLaws.DropRemoves` | src/sharedauth/auth.go:94-127 | A committed Invalidate, whatever ran beside it, leaves no row under its hash, unless one was issued after it had opened |
| `MachineLaws.LogoutIsExact` | src/sharedauth/auth.go:129-160 | A committed sign-out held the account's password, raises the generation by one, records it, and no token of the account authorizes any more |
| `MachineLaws.LoginLeavesRows` | src/sharedauth/authenticate.go:92-114 | The rows of a committed login at statement granularity: its own, and all others but the oldest that made way |
| `MachineLaws.NameStoodFor` | src/sharedauth/auth.go:445-454 | A login or sign-out past its second check of the name found, at one moment since it opened, that the name stands for its account |
| `MachineProgress.DropSucceeds` | src/sharedauth/auth.go:94-127 | An Invalidate under no or the right client token runs to its end alone and the token is gone |
| `MachineProgress.LogoutSucceeds` | src/sharedauth/auth.go:129-160 | A sign-out with right credentials runs to its end alone and raises the generation |
| `MachineProgress.SweepSucceeds` | src/sharedauth/cleanup.go:19-44 | A cleanup removes any expired rows it picks, up to a batch of each table, when it runs alone |
| `LookupProgress.LookupSucceeds` | src/sharedauth/profiles.go:47-120 | A statement-level lookup of up to ten names that runs alone ends with the answers and tables of the transaction: each player once, and exactly those a single lookup of one of the names finds |
| `LookupProgress.NameSucceeds` | src/sharedauth/profiles.go:36-43 | The same for one name that designates a player who has an identity or can be given one |
| `LookupProgress.NameNeeds` | src/sharedauth/profiles.go:122-141 | A lookup of one name that succeeds met these conditions |
| `MigrationRules.MappedExactly` | src/sharedauth/migrationplan/plan.go:249-270 | A player keeps a legacy identifier exactly if nobody shares its name under the collation, it has one mapping, and the mapping's text is read as that identifier and no other mapping's is |
| `MigrationRules.GeneratedExactly` | src/sharedauth/migrationplan/plan.go:110-131 | A player gets a generated identifier exactly if it is alone in its name, has no mapping, and the identifier is in no mapping and generated for nobody else |
| `MigrationRules.BlockedExactly` | src/sharedauth/migrationplan/plan.go:249-270 | Every other player is blocked, with exactly the first reason that applies to its rows |
| `MigrationRules.ReservedExactly` | src/sharedauth/migrationplan/plan.go:144-156 | A legacy identifier is reserved exactly if no player keeps it, under the lowest mapping that spells it, with the reason its rows give |
| `MigrationRules.PlanDecidesPlayer` | src/sharedauth/migrationplan/plan.go:110-142 | Every plan built from a source holds the active action of a mapped player exactly under those premises on the rows |
| `MigrationRules.PlanGenerates` | src/sharedauth/migrationplan/plan.go:110-131 | And the generated one exactly under its premises |
| `MigrationRules.PlanCoversPlayers` | src/sharedauth/migrationplan/plan.go:118-142 | Each player of the source has exactly one action |
| `MigrationRules.PlanHeader` | src/sharedauth/migrationplan/plan.go:170-175 | The header of a plan: the digest of the source with both tables in id order, and the greatest player id |
| `MigrationRules.PlanSummary` | src/sharedauth/migrationplan/plan.go:159-169 | Its summary counts the rows of the source and the actions in each state |
| `MigrationRules.PlanOrder` | src/sharedauth/migrationplan/plan.go:282-293 | Its actions are active ones, blocked ones, reserved ones, the first two by player and the last by identifier |
| `MigrationRules.OfflineUuidIs` | src/sharedauth/migrationplan/plan.go:177-182 | The generated identifier, octet by octet |
| `MigrationOutcomes.PlannedExactly` | src/sharedauth/migrationplan/plan.go:249-270 | From the two tables: the plan gives a player the identifier of its one mapping or the one generated for its name, exactly under the premises on the rows |
| `Migrating.MigratedIsFound` | src/sharedauth/migrationplan/apply.go:200-217 | Once the gate is open and whatever else runs without player edits or resolutions: a player that keeps or draws an identifier is found under every equivalent name and under the identifier, as the same identity |
| `Migrating.UnmigratedNeedsReview` | src/sharedauth/migrationplan/apply.go:200-217 | Any other player of the source needs review under every equivalent name |
| `Migrating.MappedPlayerIsMigrated` | src/sharedauth/migrationplan/plan.go:133-141 | With no premise left open: for any name and any text of an RFC 4122 identifier, an installation with one player and that mapping opens, and the player is found by name and by identifier |
| `ResolutionLaws.PendingExactly` | src/sharedauth/resolutionplan/plan.go:342-449 | A decision is pending exactly if player, name, both rows and the whole set of mappings of the name are as reviewed, text for text |
| `ResolutionLaws.AppliesInRows` | src/sharedauth/resolutionplan/apply.go:16-38 | Apply asks version 2, a closed gate, the reviewed digest, rows as reviewed, and that no token refers to them |
| `ResolutionLaws.RollsBackInRows` | src/sharedauth/resolutionplan/apply.go:160-207 | After a rollback every decision is pending again, and no token referred to its rows |
| `ResolutionLaws.ResolutionInRows` | src/sharedauth/resolutionplan/apply.go:39-61 | The rows a resolution leaves: the blocked row nothing but a link, the reserved row active for the player with its identifier and mapping, every other row as it was |
| `ResolutionLaws.RollbackInRows` | src/sharedauth/resolutionplan/apply.go:178-201 | The rows a rollback leaves, likewise |
| `ResolutionLaws.ResolutionsKeepTokens` | src/sharedauth/resolutionplan/apply.go:209-256 | A resolution or rollback changes the answer of no token, at any time, for any client |
| `ResolutionLaws.OperatorKeepsTokens` | src/sharedauth/resolutionplan/apply.go:209-256 | The same of every resolution and rollback committed in the life of an installation |
| `ResolutionLaws.AlteredPlanIsInvalid` | src/sharedauth/resolutionplan/plan.go:75-138 | If no two lists of decisions have one digest, a plan altered after its review is refused |
| `InstallationLaws.OperatesAlone` | src/sharedauth/migrationplan/apply.go:250-287 | No operator transaction commits beside an open request |
| `InstallationLaws.RowsObeySchema` | src/sharedauth/migrations/001_identities.sql:1-20 | Whatever has happened, no two identity rows share a player, an identifier or a mapping, and each row has what its state asks for |
| `InstallationLaws.StagesExactly` | src/sharedauth/migrationplan/apply.go:104-165 | Staging finds no state row and empty tables, or exactly the plan's closed state row, which it leaves alone |
| `InstallationLaws.OpensExactly` | src/sharedauth/migrationplan/apply.go:250-287 | The gate opens only over a closed state row that names the plan, with the triggers and hooks installed; only the phase changes |
| `InstallationLaws.ClosesExactly` | src/sharedauth/migrationplan/apply.go:221-248 | It closes only over an open state row that names the plan |
| `InstallationLaws.ResolvedGateExactly` | src/sharedauth/resolutionplan/apply.go:94-156 | Under a resolution it opens only with every object, link and binding in place |
| `InstallationLaws.VersionsExactly` | src/sharedauth/migrations/migrations.go:227-289 | Version 2 is turned on only over all objects, and off only without resolved or linked rows |
| `InstallationLaws.PlanIsInRows` | src/sharedauth/migrationplan/apply.go:372-427 | The rows that are staged, and those over which the gate opens, are the actions of the plan, both ways |
| `InstallationLaws.PlansAreSound` | src/sharedauth/migrationplan/apply.go:14-99 | A plan that is staged, or opens or closes the gate, is well formed: spelled out for its actions |
| `InstallationLaws.SourceIsSound` | src/sharedauth/migrationplan/plan.go:207-229 | The source rows and the catalog are well formed whenever a plan is staged or the gate opens under it |
| `InstallationLaws.DecisionsAreSound` | src/sharedauth/resolutionplan/plan.go:75-138 | A resolution that is used is well formed: spelled out for its decisions |
| `InstallationLaws.CommandsExactly` | src/sharedauth/migrations/migrations.go:111-148 | When a schema command may start; no table changes at any of its statements or when it fails |
| `Uuids.ParseMeans` | src/sharedauth/auth.go:365-370 | Text is read as an identifier exactly if, in lower case, it is the plain or the dashed form of it |
| `Uuids.ParseLegacyMeans` | src/sharedauth/migrationplan/plan.go:238-247 | Legacy text likewise, and only for the RFC 4122 variant |
| `MigrationBuild.Build` | src/sharedauth/migrationplan/plan.go:71-175 | Succeeds exactly on a non-nil migration id and an accepted snapshot; the result is the plan of the snapshot, whose actions MigrationRules characterises from the rows in both directions, with watermark, digest, counts and order (PlanHeader, PlanSummary, PlanOrder) |
| `MigrationBuild.IndexSnapshot` | src/sharedauth/migrationplan/plan.go:86-108 | The filled maps describe the sets of players and mappings exactly, and the watermark is the greatest player id |
| `MigrationBuild.ReasonAgrees` | src/sharedauth/migrationplan/plan.go:249-270 | Reading the indexes gives the reason that the sets of rows give |
| `MigrationBuild.CountGenerated` | src/sharedauth/migrationplan/plan.go:112-117 | Counts, for every UUID, the players whose generated identifier it is |
| `MigrationBuild.DecidePlayer` | src/sharedauth/migrationplan/plan.go:118-142 | The action and identifier of one player, equal to the set definition |
| `MigrationBuild.DecidePlayers` | src/sharedauth/migrationplan/plan.go:110-142 | The list of player actions without repetition, and the set of identifiers taken |
| `MigrationBuild.Untaken` | src/sharedauth/migrationplan/plan.go:144-150 | The identifiers nobody took, each once, whatever order the map is iterated in |
| `MigrationBuild.Reserve` | src/sharedauth/migrationplan/plan.go:151-156 | The reservation of one identifier: the lowest mapping id and the reason |
| `MigrationBuild.ReserveRest` | src/sharedauth/migrationplan/plan.go:144-156 | One reservation for each untaken identifier |
| `MigrationBuild.CountStates` | src/sharedauth/migrationplan/plan.go:159-169 | The summary counts are the sizes of the three classes |
| `MigrationBuild.ValidateRows` | src/sharedauth/migrationplan/plan.go:207-229 | Accepts exactly rows with positive ids, non-empty texts and no repeated id |
| `MigrationBuild.SnapshotDigest` | src/sharedauth/migrationplan/plan.go:184-196 | The digest of the snapshot with both tables in id order |
| `MigrationPlan.ActionOrderIsTotal` | src/sharedauth/migrationplan/plan.go:282-293 | On plan actions the comparison is a strict total order, so an unstable sort has no freedom |
| `MigrationMeaning.PlanDependsOnContentOnly` | src/sharedauth/migrationplan/plan.go:71-175 | Two plans of snapshots that differ only in row order are equal, action for action |
| `MigrationMeaning.EveryLegacyUuidOnce` | src/sharedauth/migrationplan/plan.go:98-156 | Every legacy identifier that parses is in exactly one action, with one of its own mappings |
| `MigrationMeaning.PlanIsUnique` | src/sharedauth/migrationplan/plan.go:118-156 | Players, identifiers and mapping ids of a plan are pairwise distinct |
| `MigrationMeaning.PlannedOnce` | src/sharedauth/migrationplan/plan.go:124-141 | No identifier is planned for two players |
| `MigrationMeaning.PlannedFrom` | src/sharedauth/migrationplan/plan.go:249-270 | Why a player gets an identifier: a name nobody shares under the collation, and one mapping nobody shares, or none and no clash |
| `MigrationMeaning.ActionSource` | src/sharedauth/migrationplan/plan.go:110-157 | Which player or identifier an action of the plan stands for, and its state |
| `MigrationMeaning.CanonicalUnique` | src/sharedauth/migrationplan/plan.go:184-196 | Snapshots of equal content have the same hashed form |
| `MigrationValidate.Validate` | src/sharedauth/migrationplan/apply.go:14-99 | Accepts exactly well-formed plans: metadata, per-action rules, pairwise distinct players, identifiers and mappings, and the watermark |
| `MigrationValidate.BuiltPlanIsValid` | src/sharedauth/migrationplan/apply.go:14-99 | Whatever Build returns for a non-zero creation time passes Validate |
| `MigrationValidate.PlanActionWellFormed` | src/sharedauth/migrationplan/apply.go:33-94 | Every action of a plan obeys the per-action rules, canonical RFC 4122 text included |
| `MigrationValidate.PlanCounts` | src/sharedauth/migrationplan/apply.go:25-28 | Active and blocked actions add up to the players, and all three classes to the actions |
| `MigrationApply.ReadSnapshot` | src/sharedauth/migrationplan/snapshot.go:35-132 | Reads exactly the rows of the two source tables, within the row limit |
| `MigrationApply.RequireSnapshot` | src/sharedauth/migrationplan/apply.go:289-321 | Accepts exactly when the plan has the digests of the plan of the present source rows |
| `MigrationApply.VerifyIdentities` | src/sharedauth/migrationplan/apply.go:372-427 | For a validated plan, accepts exactly when the identity table equals the plan's actions as a multiset, reasons and row order aside |
| `MigrationApply.RowFits` | src/sharedauth/migrationplan/apply.go:143-155 | The row inserted for a sound action satisfies the CHECK and reads back as the action |
| `MigrationApply.InsertActions` | src/sharedauth/migrationplan/apply.go:143-155 | The insert loop never meets a constraint; the table is then the plan |
| `MigrationApply.StagedRowsOk` | src/sharedauth/migrations/001_identities.sql:10-19 | The rows of a validated plan satisfy every CHECK and UNIQUE key |
| `MigrationApply.Apply` | src/sharedauth/migrationplan/apply.go:104-166 | Succeeds exactly when plan, source and target tables allow it and COMMIT is confirmed; states every table afterwards, also when the answer is lost |
| `MigrationApply.SecondApplyFindsPlan` | src/sharedauth/migrationplan/apply.go:119-131 | After a first Apply, a second one finds the plan in place and so changes nothing |
| `MigrationApply.Verify` | src/sharedauth/migrationplan/apply.go:169-198 | Reports the phase exactly when source, state row and identity rows are the plan's |
| `MigrationApply.Activate` | src/sharedauth/migrationplan/apply.go:201-217 | Opens the gate exactly when hooks, schema, source, state row and identity rows are right; changes nothing else |
| `MigrationApply.Deactivate` | src/sharedauth/migrationplan/apply.go:221-248 | Closes an open gate of this plan, under either schema version; changes nothing else |
| `MigrationLookup.NameMeansPlan` | src/sharedauth/profiles.go:122-141 | On migrated tables, every name lookup answers what the plan decided |
| `MigrationLookup.UuidMeansPlan` | src/sharedauth/profiles.go:11-32 | An identifier is found exactly when the plan gave it to a player, and as that player |
| `MigrationLookup.PlannedIsNamedAlone` | src/sharedauth/auth.go:388-412 | A player the plan made active is the only one the collation gives its name |
| `MigrationLookup.ActivationMeansPlan` | src/sharedauth/migrationplan/apply.go:250-287 | When a gate may open under a plan whose digest is unique, the tables are migrated |
| `MigrationLookup.MeaningLasts` | src/sharedauth/service.go:198-232 | Rows added later change no answer about a name or an identifier the plan placed |
| `ResolutionPlan.ValidateApprovals` | src/sharedauth/resolutionplan/plan.go:273-310 | Accepts exactly approvals with positive ids, no repeated player, row or mapping |
| `ResolutionPlan.Validate` | src/sharedauth/resolutionplan/plan.go:75-138 | Accepts exactly well-formed plans with matching digest; blocked rows are compared only with blocked rows |
| `ResolutionPlan.ReadDecision` | src/sharedauth/resolutionplan/plan.go:342-449 | Succeeds exactly when player, name, both rows and the whole set of legacy mappings are as approved; returns what it read |
| `ResolutionPlan.CheckCalled` | src/sharedauth/resolutionplan/plan.go:401-446 | The approved mappings are all the mappings of the name and spell the reserved identifier |
| `ResolutionPlan.OnlyPlainSpellingResolves` | src/sharedauth/resolutionplan/plan.go:451-460 | With everything else in order, an approval is readable exactly when every mapping of the name spells the identifier as 32 lower-case digits |
| `ResolutionPlan.DashedIsMigratedOnly` | src/sharedauth/migrationplan/plan.go:238-247 | A concrete dashed identifier that the migration accepts and the resolution refuses |
| `ResolutionMeaning.ReservedBeyondResolution` | src/sharedauth/resolutionplan/plan.go:430-460 | A player with two mappings of one identifier, spelled otherwise than plainly: the plan blocks the player and reserves the identifier, and no approval of the player is ever readable while the mapping keeps its text |
| `ResolutionMeaning.DashedTwiceMapped` | src/sharedauth/migrationplan/plan.go:238-247 | There is such a source: one player with two equal dashed mappings |
| `ResolutionPlan.EnsureNoLiveReferences` | src/sharedauth/resolutionplan/apply.go:209-256 | Passes exactly when no token, and no token of a session, refers to the rows; what that protects is ResolutionLaws.ResolutionsKeepTokens |
| `ResolutionPlan.VerifyRows` | src/sharedauth/resolutionplan/apply.go:258-302 | Before: every decision's source rows are unchanged; after: every link and binding is in place |
| `ResolutionMeaning.DecisionMeans` | src/sharedauth/resolutionplan/apply.go:39-61 | Before: the name needs review and the identifier is nobody's; after, while the rows stay: both give the decided identity |
| `ResolutionMeaning.OtherNameKept` | src/sharedauth/resolutionplan/apply.go:39-61 | A resolution changes the answer to no other name whose bearer has a row |
| `ResolutionMeaning.OtherUuidKept` | src/sharedauth/resolutionplan/apply.go:39-61 | A resolution changes the answer to no other identifier that some row carries |
| `ResolutionApply.Apply` | src/sharedauth/resolutionplan/apply.go:16-66 | Succeeds exactly when its checks do, for any plan size: the "changed concurrently" errors are unreachable; carries out every decision and touches no other row |
| `ResolutionApply.PendingRowsApart` | src/sharedauth/resolutionplan/plan.go:83-111 | The checks imply that no row takes part in two decisions in any role |
| `ResolutionApply.ResolveOne` | src/sharedauth/resolutionplan/apply.go:40-60 | "changed concurrently" is reported exactly when a row is not in the state the two WHERE clauses ask for; both rows, the blocked row alone, or none are written, as the code does before it rolls back |
| `ResolutionApply.BindingFits` | src/sharedauth/migrations/008_identity_resolution_v2.up.sql:1-17 | Once the blocked row is a link, the player is free for the reserved row under every constraint |
| `ResolutionApply.ResolvedOk` | src/sharedauth/migrations/008_identity_resolution_v2.up.sql:1-17 | Carrying out pending decisions keeps CHECK, UNIQUE, foreign key and no-self-resolution |
| `ResolutionApply.Rollback` | src/sharedauth/resolutionplan/apply.go:160-207 | Succeeds exactly when links, bindings, references and source rows allow it; takes every decision back and touches no other row; no token refers to the rows (ResolutionLaws.RollsBackInRows) or notices (OperatorKeepsTokens) |
| `ResolutionApply.UnresolveOne` | src/sharedauth/resolutionplan/apply.go:182-201 | The same for the two UPDATE statements of a rollback |
| `ResolutionApply.TakeBack` | src/sharedauth/resolutionplan/apply.go:178-201 | One turn of the rollback loop: both UPDATE statements succeed exactly when nothing refers to the rows |
| `ResolutionApply.ReturnedOk` | src/sharedauth/migrations/008_identity_resolution_v2.up.sql:1-17 | Taking settled decisions back keeps every constraint |
| `ResolutionApply.ReturnedIsPending` | src/sharedauth/resolutionplan/apply.go:203-206 | After a rollback the final check passes exactly when name and mappings still agree |
| `ResolutionApply.Verify` | src/sharedauth/resolutionplan/apply.go:71-90 | Passes exactly when the plan is valid, version 2 is on and every link and binding is in place |
| `ResolutionApply.Activate` | src/sharedauth/resolutionplan/apply.go:94-127 | Opens the gate exactly when hooks, schema, state row and resolved rows are right |
| `ResolutionApply.Deactivate` | src/sharedauth/resolutionplan/apply.go:132-156 | Closes an open version 2 gate |
| `ResolutionApply.Build` | src/sharedauth/resolutionplan/plan.go:230-271 | Succeeds exactly on readable approvals; what it returns is in player order and passes Validate and the row checks of Apply on the same tables |
| `SchemaCommands.UpgradeResolutionSchema` | src/sharedauth/migrations/migrations.go:111-148 | The schema left by any failing statement is that of the completed prefix; success means all objects are installed |
| `SchemaCommands.DowngradeResolutionSchema` | src/sharedauth/migrations/migrations.go:293-333 | Refused while version 2 is on or a row is resolved; otherwise the schema is that of the completed statements |
| `SchemaCommands.ActivateResolutionSchema` | src/sharedauth/migrations/migrations.go:227-252 | Switches to version 2 exactly when every object is installed and version 1 is on |
| `SchemaCommands.DeactivateResolutionSchema` | src/sharedauth/migrations/migrations.go:256-289 | Switches back exactly when no row is resolved |
| `Database.Database.InsertIdentity` | src/sharedauth/migrations/001_identities.sql:1-20 | Succeeds exactly when CHECK and UNIQUE keys allow the row; adds that row under a new id |
| `Database.Database.UpdateIdentity` | src/sharedauth/migrations/010_identity_resolution_update.sql:1-9 | Succeeds exactly when CHECK, UNIQUE keys, foreign key and hook allow the new row; all constraints stay in force |
| `Database.Database.InsertToken` | src/sharedauth/migrations/003_tokens.sql:1-19 | Succeeds exactly when the hash is new and CHECKs and foreign keys allow the row |
| `Database.Database.Commit` | src/sharedauth/service.go:127-130 | An acknowledged commit keeps the tables, a lost one restores them, an unheard one keeps them without saying so |
| `Database.Database.Restore` | src/sharedauth/service.go:101 | Rollback: every table as when the transaction began |
| `Service.Finish` | src/sharedauth/service.go:93-131 | A failed body is rolled back; a result is published only on a confirmed commit |
| `Service.Provide` | src/sharedauth/service.go:198-232 | The identity a player has, or a new one with the first free of three candidates if it is newer than the watermark, or IdentityConflict |
| `Service.ProvidedIsRead` | src/sharedauth/service.go:198-232 | A provided identity is what a plain read then gives; a refusal changed nothing |
| `Service.EnsureIdentity` | src/sharedauth/service.go:80-91 | EnsureIdentity as a transaction, with every error case |
| `Auth.CheckToken` | src/sharedauth/auth.go:288-344 | The statements of authorization compute the authorization decision |
| `Auth.Validate` | src/sharedauth/auth.go:25-31 | Answers the authorization decision and changes nothing; when it succeeds is RequestConditions.ValidatesExactly |
| `Auth.IssueToken` | src/sharedauth/auth.go:63-92 | Inserts exactly the first of three candidates that is new and not the replaced token, or reports exhaustion |
| `Auth.Refresh` | src/sharedauth/auth.go:33-61 | Replaces exactly the old row by one new row, or fails with exactly the stated error and no change; on the rows: RequestLaws.RefreshesInRows and RequestConditions.RefreshesExactly |
| `Auth.RefreshHandsOver` | src/sharedauth/auth.go:33-92 | The new token authorizes at once as the same owner with the same client token and the selected identity; the old one never again |
| `Auth.Invalidate` | src/sharedauth/auth.go:94-127 | Deletes exactly that token, also for a deleted account; an unknown token is no error; on the rows: RequestLaws.InvalidatesExactly |
| `Auth.InvalidateIsExact` | src/sharedauth/auth.go:94-127 | That token stops authorizing, every other token keeps its answer |
| `Auth.UniqueName` | src/sharedauth/auth.go:388-412 | NotFound, the only player of the name, or IdentityConflict |
| `Auth.Signout` | src/sharedauth/auth.go:129-160 | Raises exactly that account's generation by one; which account, and that the password is its own: RequestLaws.SignoutProves and RequestConditions.SignsOutExactly |
| `Auth.SignoutRevokesAll` | src/sharedauth/auth.go:142-158 | Every token of the account stops authorizing, no other account's does |
| `Sessions.UnmapMeans` | src/sharedauth/auth.go:179 | Addresses normalise alike exactly when equal or IPv4-mapped forms of each other (section 2.5.5.2 of RFC 4291) |
| `Sessions.StoreSession` | src/sharedauth/auth.go:180-197 | An unexpired row is never overwritten; success means the stored row has this token and address |
| `Sessions.Join` | src/sharedauth/auth.go:162-200 | Join as a transaction, with every error case |
| `Sessions.HasJoined` | src/sharedauth/auth.go:202-248 | Answers the stated decision and changes nothing |
| `Sessions.JoinIsSeen` | src/sharedauth/auth.go:162-248 | After a Join and until it expires, HasJoined admits exactly the lone bearer of the name from an equivalent address; a repeated Join does not extend the time |
| `Authenticate.LockEvictionCandidates` | src/sharedauth/authenticate.go:119-142 | Chooses exactly the oldest live tokens by creation time and hash that must go for one more to fit |
| `AccountProfiles.ProfileTurn` | src/sharedauth/authenticate.go:165-176 | One player of the profile loop: its identity, nothing, or an allocation failure |
| `AccountProfiles.LoginProfiles` | src/sharedauth/authenticate.go:144-179 | The usable identities of the account in player order; each new player gets the first of its three candidates that is free, after those before it; fails exactly when one finds none |
| `AccountProfiles.GatheredOneMore` | src/sharedauth/authenticate.go:165-176 | One turn of the loop extends rows, profiles and the identifiers given out, or shows that there is none to give |
| `Authenticate.Choose` | src/sharedauth/authenticate.go:69-91 | The identity the token is bound to |
| `Authenticate.IssueAndEvict` | src/sharedauth/authenticate.go:92-114 | Inserts one token and deletes exactly the victims |
| `Authenticate.Authenticate` | src/sharedauth/authenticate.go:19-117 | Login as a transaction: the first failure in the order credentials, gate, allocation, choice, token, exactly; otherwise exactly the tables and the reply, under the given client token or, if it is empty, the drawn one; on the rows: RequestLaws.LoginProves and LoginLaws |
| `Authenticate.LoginLeavesNewest` | src/sharedauth/authenticate.go:92-114 | After a login with limit L the account has the new token and exactly the L-1 newest it had, or all if fewer |
| `Authenticate.LoginAuthorizes` | src/sharedauth/authenticate.go:53-114 | The token a login returns authorizes until it expires, for its client, as exactly the profile returned with it; every profile returned is one a plain read gives |
| `Profiles.ResolveIdentityByName` | src/sharedauth/profiles.go:36-43 | The named player's identity, allocated if it is new |
| `Profiles.AllocationIsLookup` | src/sharedauth/profiles.go:122-141 | Succeeds exactly when a plain lookup does afterwards, with the same answer |
| `Profiles.FindCandidates` | src/sharedauth/profiles.go:57-72 | One candidate for each player some name designates alone |
| `Profiles.ResolveCandidates` | src/sharedauth/profiles.go:73-101 | Locks players in increasing order; resolves exactly those the rows then give an identity |
| `Profiles.Answer` | src/sharedauth/profiles.go:102-118 | Answers in request order, each player once |
| `Profiles.ResolveIdentitiesByNames` | src/sharedauth/profiles.go:47-120 | The result is the sequence of single lookups on the tables it leaves, each player once; locks are strictly increasing; new players are attended to |
| `Profiles.BatchMeans` | src/sharedauth/profiles.go:47-120 | Nobody twice, and exactly the players a single lookup of one of the names finds |
| `Cleanup.CleanupExpired` | src/sharedauth/cleanup.go:19-44 | Removes exactly the first expired rows of each table, at most a batch |
| `Cleanup.CleanupRemovesExpired` | src/sharedauth/cleanup.go:19-44 | Counts: how many go and how many expired rows are left |
| `Cleanup.CleanupIsInvisible` | src/sharedauth/cleanup.go:24-28 | At every later time authorization and HasJoined succeed alike with the same results on the tables before and after a cleanup, and the same tokens count for quotas |
| `Invisible.InvalidateTwin` | src/sharedauth/auth.go:94-127 | The one visible difference, exactly: Invalidate answers differently exactly when the wrong client token is given for an expired token that only one of the two tables still has |
| `Invisible.AuthenticateTwin` | src/sharedauth/authenticate.go:19-117 | A login on tables without some expired rows answers the same and leaves the same but for those rows |
| `CleanupRuns.BodyTwin` | src/sharedauth/cleanup.go:19-44 | Every public request, on tables that differ in expired rows only, can end alike and leave tables that differ in expired rows only, in both directions |
| `CleanupRuns.CleanupsAreInvisible` | src/sharedauth/cleanup.go:19-44 | Over any sequence of requests, account changes and cleanups with any outcome: what the service answers with the cleanups it can answer, request by request, without any of them |
| `CleanupRuns.SweepIsInvisible` | src/sharedauth/cleanup.go:19-44 | A cleanup that commits between the statements of other requests: from then on every request is answered on the tables it leaves as on the tables it found |
| `Cleanup.CleanupEmpties` | src/sharedauth/cleanup.go:19-44 | With n expired rows, n / batch calls rounded up leave none |
| `Directory.UniquePlayerName` | src/sharedauth/auth.go:388-412 | Ok exactly for the only player of the name, NotFound exactly when there is none |
| `Directory.LoginOwner` | src/sharedauth/auth.go:437-443 | By e-mail or by player name, exactly the single match |
| `Directory.ReadIdentityIff` | src/sharedauth/service.go:177-196 | Reading gives an identity exactly when the player has an active row with it |
| `Directory.EvictionUnique` | src/sharedauth/authenticate.go:119-142 | The choice of victims is forced |
| `Uuids.ParseFormat` | src/sharedauth/auth.go:365-370 | Reading the formatted identifier gives it back |
| `Uuids.FormatInjective` | src/sharedauth/service.go:40-42 | Distinct identifiers have distinct texts |
| `Uuids.FromDigest` | src/sharedauth/migrationplan/plan.go:177-182 | The generated identifier has the RFC 4122 variant and version 3 (sections 4.1.1 and 4.1.3) and keeps every other bit |
| `Uuids.CanonicalIsFormat` | src/sharedauth/resolutionplan/plan.go:140-149 | The strict reader accepts exactly formatted text |

## Left out

- HTTP handlers, configuration, TLS, logging, metrics, command-line tools, and saving and loading plan files.
- Cryptography and encodings: SHA-256, MD5, bcrypt, base64, JSON. Also the textual form of migration ids and digests, which Validate parses.
- The `read_only` check and the missing-policy case of every request, which refuse with NotReady.
- Driver errors in the middle of a transaction: each leads to the same rollback as the errors that are modelled.
- `Ready`, and the base schema's `Upgrade` and `Downgrade`; the life of an installation begins with the five empty tables.
- SQL text, `information_schema` comparison and trigger bodies: an object is installed as reviewed or not at all.
- Deadlocks, lock waits, timeouts and gap locks; a statement that must wait is not enabled, and a transaction may always abort.
- Concurrent operator commands; `DowngradeResolutionSchema` reads the state row without a lock.
- Changes to `users.uid` itself, and a clock that runs backwards.
- The 64-bit width of ids and generations: overflow of a generation is not modelled.
- Which of several errors a failing Validate reports: success is characterised exactly, failure has no kind.
- The legacy token, session and name caches, file storage, textures and profile signing.
- Profiles.ResolveIdentitiesByNames: as a transaction it runs at one instant, so its branches for a player renamed or moved between its statements are not taken; they are in the statement-level lookup of `Machine` (`MachineLookups`).
- CleanupRuns.CleanupsAreInvisible: compares success and results, not the kind of a refusal (an expired token bound to an inactive identity reports IdentityConflict before cleanup and Invalid after), and leaves the answers to Invalidate to Invisible.InvalidateTwin; candidates are assumed never to repeat.
