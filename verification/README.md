# A verified model of the MySQL DBA operator

The operator provisions MySQL databases and accounts from Kubernetes objects. This project models its two
reconcilers, the ledger that records what they made, and the parts around them that carry logic of their own:
the statement text, the charset index with the webhook that searches it, the connection cache, the password
generator and one watch. Dafny proves the properties below. Nothing here executes the operator.

## The model in brief

A `World` holds three stores: the server (schemas with character set and collation, accounts with credential,
TLS flag and privileges, the two ledger tables), the Database and DatabaseUser objects (specification, status,
finalizer, deletion mark), and the secrets. Every schema and account on the server carries its creator: somebody
else, or the operator for one UID. The server also keeps a log of every writing statement it read in a text the
operator sent, with the creators of the existing objects that statement named or, for a GRANT, covered.

Each reconciler is written twice. `DatabaseReconciler.Reconciler` and `UserReconciler.Reconciler` follow the
source statement by statement, with fields that change as the source's in-memory object does and with the texts
the source concatenates. Functions of the stored world (`DatabaseReconciler.Pass`, `UserPasses.UserPass`) say what
one pass does, and every method is proved equal to its function. The theorems are about the functions and so about
the methods.

Every statement is a text (`SqlTexts`), and the server acts on what it reads in it. The reader is part of the
environment; what the theorems ask of it is `SqlTexts.Literate`: account statements are read as meant, and a
database statement or a GRANT is read as one of its kind, about the named database if and only if the name holds
no back-tick. `SqlStatements.Parse` is a reader with literals, quoted identifiers and comments, and
`GrantReader.ParseIsLiterate` proves that it is literate.

A run (`Runs.Run`) is any sequence of passes of both reconcilers, objects created, edited and deleted, secrets
written, and other people creating, altering and dropping things on the server. An `Env` decides, for each call
of a pass, lookups included, whether it fails.

| files | subject |
|---|---|
| Basics, Model, Ownership | the stores, the effect of each statement, the two ownership decisions |
| SqlText, SqlStatements, SqlTexts | escaping, tokens, statements and their parser, the texts the source concatenates |
| SqlPhrases, SqlReader, GrantReader | what the parser reads in each of those texts |
| DatabaseReconciler, UserPasses, UserReconciler | the passes |
| Safety, DatabaseSafety, UserSafety, Runs, GrantSafety, IssuedLog, OwnershipTheorems, QuotableRuns, NameReading | the invariant and ownership over all runs |
| Correspondence, AccountCorrespondence | no leaked schemas, no leaked accounts |
| EarlyExits, Secrets, Reports, OnePass | what a pass leaves alone, who may send a credential, what the status says, what one pass achieves |
| Recovery, LostStatus | repair, hand-over, stranded accounts |
| Grants, GrantConvergence, Descent, UserConvergence, DatabaseConvergence, SpecChanges, Admission | convergence |
| Scenarios, Exceptions, Misreadings, Assumptions, Shortfalls, Leftovers | runs from a fresh start in which a promise fails |
| Charsets, Webhook, Connections, Passwords, Watches | the parts around the reconcilers |

## What the theorems assume

- A pass is atomic with respect to other writers on the server: each controller has one worker
  (controllers/databaseuser_controller.go:587-603, controllers/database_controller.go:293-302).
- The server reads the texts as the language defines them (`SqlTexts.Literate`).
- A ledger write that follows a RENAME or a DROP succeeds; the code ignores or only logs its failure
  (controllers/databaseuser_controller.go:331-336 and :581, controllers/database_controller.go:287). A failed
  insert after a CREATE is allowed. `Assumptions.LostRowRun` and `Assumptions.LostRenameRun` show what a lost
  write allows, `LostRowDrops`, `LostUserRowDrops` and `RenameRowLost` exactly when.
- Existence lookups answer correctly. The code takes a failed lookup for a missing object (orm/model.go:82-100):
  `Assumptions.MissedSchemaRun` and `Assumptions.MissedAccountRun` end with somebody else's schema or account
  dropped, `MissedSchemaDropped` and `MissedAccountDropped` say exactly when. Lookups in the ledger may fail.
- Nobody else drops what the operator made, except in the recovery lemmas. `Assumptions.RecreatedOutside` shows
  why: the ledger cannot tell a schema that was dropped and made again.
- UIDs are never reused, and there is one server.
- The password of an `Env` is the one the generator makes of some random choices (`UserReconciler.Generates`).
- A deletion pass without an admin connection dereferences nil (controllers/database_controller.go:113-115,
  controllers/databaseuser_controller.go:119-121), and an identification without an auth string dereferences a
  nil secret (controllers/databaseuser_controller.go:445). Both are modelled as a pass that breaks off, not
  excluded by a precondition.

## Where the code does not meet its promise

README.md:45-48 of the operator promises that what others made is not overridden, commandeered or removed.
`OwnershipTheorems.OwnershipSafety` says for every run exactly when each statement keeps to that: no pass may
drop somebody's anonymous account, and none may send a text that is read as a statement about what is not its
object's. `QuotableRuns.QuotableRunsExactly` and `NameReading.NamedRunsExactly` give that condition in terms of names
and stores. These are the ways in which it happens, each with a run from a fresh start:

- A DatabaseUser object that never claimed a name and is deleted sends `DROP USER IF EXISTS ''`
  (controllers/databaseuser_controller.go:574), which removes somebody's anonymous account
  (`Exceptions.AnonymousAccountDropped`).
- Database names are put between back-ticks as they are (controllers/database_controller.go:211, :243 and :281),
  and the webhook's pattern (api/v1alpha1/database_webhook.go:32) lets back-ticks through. The DROP for such a
  name can be one of another schema (`Misreadings.CommentedNameDrops`); an object with such a name is never
  served (`SpecChanges.NewDatabaseConverges`), and what its CREATE makes is not found again
  (`Correspondence.CreateLeaksExactly`). `NameReading.DropReadsAs` gives the form of a name whose DROP is that of
  another schema, `DeletionMisplacedIff` and `LiveMisplacedIff` when a pass is misled by one.
- Privilege words are upper-cased and otherwise put into the GRANT as they are
  (controllers/databaseuser_controller.go:486-504), so a word can bring its own scope
  (`Misreadings.ScopedWordReachesOthers`).
- The database name of a GRANT is a pattern in which `_` stands for any byte
  (`GrantSafety.UnderscoreCovers`, `Misreadings.UnderscoreReachesOthers`). `GrantSafety.GrantStraysExactly` says when
  a GRANT of plain words reaches others, `QuotableRuns.MisplacedIff` when a grant loop does.

With plain names and plain privilege words only the anonymous drop is left (`OwnershipTheorems.PlainRunsAreSafe`).
If the names only lack the back-tick, it is that and the GRANTs on a covering name, exactly
(`QuotableRuns.QuotableRunsExactly`).

Other promises that fail, with the exact condition and a run:

- TLS is never sent for an object without an identification (controllers/databaseuser_controller.go:385-442):
  every convergence theorem says so with an if-and-only-if, `Shortfalls.TlsIgnoredRun` is a run. An account made
  anew after an outside drop does not require TLS when the status says it already does (`Recovery.CreatedTls`,
  `Shortfalls.TlsLostRun`).
- What an account holds on all schemas is shown in the first line of SHOW GRANTS, which the code drops
  (controllers/databaseuser_controller.go:541-546). With nothing else held it sends no REVOKE (:366), so the words stay
  (`Grants.ClearedHoldsNothingIff`), whatever the specification says (`Leftovers.EmptiedListKeepsEverywhere`). Every
  convergence theorem has that in its if-and-only-if; `SpecChanges.EditedObjectConverges` says which edits get rid of
  them, `Grants.AppliesExactlyIff` what applies to the existing schemas in the end.
- A status write that fails after a RENAME ends with two accounts of one object that no later run updates or drops,
  the object deleted or not (`LostStatus.RenamedThenMine`, `LostStatus.StrandedForever`, `Shortfalls.LostStatusRun`).
- `userCreate` makes the account in the status and records the name in the specification
  (controllers/databaseuser_controller.go:271 and :296). The object passes the ownership decision afterwards
  exactly when the two are equal (`Recovery.FreeNameCreated`); otherwise no pass serves it any more and its
  deletion leaves the account behind (`Shortfalls.EarlyEditDeadlocks`, `Shortfalls.EarlyEditLeaks`).
- A deletion leaves the account behind exactly when the specification was edited to a name that is taken
  (`AccountCorrespondence.DeletionLeaksExactly`); over runs `AccountCorrespondence.NoAccountLeak`.
- An edit of `clearText` or of the secret key alone is never sent (`SpecChanges.IdentificationEdit`,
  `Shortfalls.OtherKeyRun`).
- A collation of another character set never settles: every pass sends one more ALTER
  (`DatabaseConvergence.IncompatibleNeverSettles`). The webhook keeps such a pair out as long as the index it
  searches lists the server's own rows (`Admission.RunCompatible`), which is published once for an admin
  connection; an index of other rows lets one through (`Admission.StaleIndexRun`, `Admission.StaleIndexAdmits`).
- A user with two listed databases on one schema, with one that is not under management, or for whom a GRANT was
  lost, has everything revoked and granted anew in the next pass (`GrantConvergence.PermissionsSettleIff`).
- While a listed Database object is missing the grant loop breaks off at it and the list is never recorded, so the
  permissions stay pending and each pass starts over with them (`EarlyExits.LoopStopsAt`,
  `EarlyExits.MissingStaysPending`).
- Two objects that name one secret: only the one that controls it is ever served (`Secrets.WithheldForever`). The
  password put into a secret that is made is text, but without `clearText` it goes into the statement as a hash
  (`Secrets.NewSecretServes`).
- A specification that gives only a character set, or only a collation, is refused unless that is of the server's own
  character set, although the server would carry it out (`Webhook.CompatibleAdmittedIff`).
- Pools are lost on a failed ping and on a failed first ping, and in no other way (`Connections.LostExactly`).

## Model

| member | source | states |
|---|---|---|
| SqlText.Escape | api/v1alpha1/common.go:82-121 | the byte loop computes the bytewise escape, for every byte string |
| SqlText.EscapedExactly | api/v1alpha1/common.go:82-121 | each byte is written on its own: one of the seven special bytes as a backslash and the letter that stands for it, any other as itself |
| SqlText.ReadEscaped | api/v1alpha1/common.go:82-121 | the MySQL literal reader undoes the escape and stops exactly at the closing quote, for every value and every rest not starting with a quote |
| SqlText.ReadEscapedThenQuote | api/v1alpha1/common.go:82-121 | with a quote right after the closing one the reader runs on into the rest: the side condition of the previous row is needed |
| SqlStatements.PrintParse | controllers/databaseuser_controller.go:271-280 | parsing a printed CREATE, ALTER, RENAME, DROP or REVOKE gives back the statement: names, plugin, auth string, BY or AS or PASSWORD, TLS clause |
| SqlStatements.PrintInjective | controllers/databaseuser_controller.go:412-442 | different statements have different texts |
| SqlPhrases.CreateText | controllers/databaseuser_controller.go:271-280 | the concatenated CREATE USER text is read as that statement |
| SqlPhrases.AlterText | controllers/databaseuser_controller.go:347 | the concatenated ALTER USER text is read as that statement |
| SqlPhrases.RenameText | controllers/databaseuser_controller.go:313-314 | the RENAME USER text recovers both names |
| SqlPhrases.RevokeAllText | controllers/databaseuser_controller.go:456 | the REVOKE text is read as revoking everything from that account |
| SqlPhrases.DropText | controllers/databaseuser_controller.go:574 | the DROP USER text is read as dropping that account |
| SqlPhrases.DetailText | controllers/databaseuser_controller.go:412-442 | the fragment is the authentication clause followed by the TLS clause, and it is empty exactly when there is nothing to send |
| SqlText.ReadBareName | controllers/database_controller.go:211 | between bare back-ticks a name is read back if and only if it holds no back-tick, whatever follows |
| SqlReader.CreateReads | controllers/database_controller.go:240-255 | the CREATE DATABASE text is read as a CREATE or not at all, about the named database if and only if the name holds no back-tick, and with plain options as exactly that statement |
| SqlReader.AlterReads | controllers/database_controller.go:206-222 | the same for ALTER DATABASE with at least one option |
| SqlReader.DropReads | controllers/database_controller.go:281 | the DROP DATABASE text is read as dropping the named database if and only if the name holds no back-tick |
| GrantReader.GrantReads | controllers/databaseuser_controller.go:486-504 | the GRANT text is read as a GRANT or not at all; with plain privilege words as granting exactly them on the named pattern to the account, if and only if the name holds no back-tick |
| GrantReader.ParseIsLiterate | controllers/databaseuser_controller.go:561-569 | the parser is a reader of the kind all theorems about passes assume |
| Ownership.IsUserMine | api/v1alpha1/adminconnection_types.go:344-368 | the loop over the two names decides that every one it finds is the ledger's name under this UID, object name and namespace; failed lookups find nothing |
| Ownership.IsDatabaseMine | api/v1alpha1/adminconnection_types.go:325-342 | true exactly when the lookup finds no schema or the ledger row it finds matches in all three parts |
| Ownership.DecidesTruly | api/v1alpha1/adminconnection_types.go:344-368 | with working existence lookups a positive decision is the real one; with working ledger lookups so is a negative one |
| Ownership.MineNamesOneAccount | api/v1alpha1/adminconnection_types.go:347-367 | a positive decision means at most one of the two names exists, and it is the ledger's |
| DatabaseReconciler.Reconciler.DatabaseExists | controllers/database_controller.go:188-204 | what the lookup finds, and the status takes over the schema's character set and collation |
| DatabaseReconciler.Reconciler.DatabaseUpdate | controllers/database_controller.go:206-237 | server and object after the server has read the ALTER text with exactly the clauses that differ, and what it reports in each case |
| DatabaseReconciler.Reconciler.DatabaseCreate | controllers/database_controller.go:239-276 | server and object after the server has read the CREATE text, and after the insert, which fails on an existing row without harm |
| DatabaseReconciler.Reconciler.FinalizeDatabase | controllers/database_controller.go:279-290 | the server after reading the DROP text, and the row gone even when the DROP failed |
| DatabaseReconciler.Reconciler.Reconcile | controllers/database_controller.go:68-186 | a whole pass equals its specification for every store and every pattern of failing calls; the rows on DatabaseConvergence, OnePass and EarlyExits say what such a pass achieves, records and leaves alone |
| UserReconciler.Contains | controllers/databaseuser_controller.go:657-664 | membership in the tracked list |
| UserReconciler.IdentifiedClause | controllers/databaseuser_controller.go:412-434 | the fragment is the text of the authentication clause the identification asks for |
| UserReconciler.Reconciler.RunStmt | controllers/databaseuser_controller.go:561-569 | the server carries out what it reads in the text, for every text |
| UserReconciler.Reconciler.RefreshGrants | controllers/databaseuser_controller.go:520-559 | the tracked list is refreshed with the lines after the first, and the result tells whether it changed |
| UserReconciler.Reconciler.UserDetailString | controllers/databaseuser_controller.go:376-451 | the fragment and the recorded status for each combination of plugin, auth string, clear text, TLS and secret version |
| UserReconciler.Reconciler.GrantPermissions | controllers/databaseuser_controller.go:469-511 | the grant loop over the concatenated texts: owned databases of the namespace only, a failed GRANT skipped, a failed fetch ends it; which words it sends is the row on Grants.WordsAsked |
| UserReconciler.Reconciler.RevokePermissions | controllers/databaseuser_controller.go:453-467 | REVOKE, then the emptied lists refreshed from the server |
| UserReconciler.Reconciler.CreateAccount | controllers/databaseuser_controller.go:269-307 | creates the status name, grants, and records the name in the specification even when the grants failed |
| UserReconciler.Reconciler.UpdateAccount | controllers/databaseuser_controller.go:309-374 | rename, else alter, else permissions, one of them in a pass |
| UserReconciler.Reconciler.RenameAccount | controllers/databaseuser_controller.go:311-338 | RENAME, status name and ledger row |
| UserReconciler.Reconciler.SynchronizePermissions | controllers/databaseuser_controller.go:359-373 | refresh, revoke unless nothing is tracked, grant |
| UserReconciler.Reconciler.DropAccount | controllers/databaseuser_controller.go:572-584 | the DROP by status name, and the row gone even when the DROP failed |
| UserReconciler.Reconciler.UserExists | controllers/databaseuser_controller.go:251-267 | existence, and the status takes over the plugin |
| UserReconciler.Reconciler.GetOrCreateSecret | controllers/databaseuser_controller.go:147-162 | the secret found, or made with the password the generator makes of the random choices, or the pass ends |
| UserReconciler.Reconciler.TakeOwnership | controllers/databaseuser_controller.go:168-179 | the controller reference is set unless somebody else's is there |
| UserReconciler.Reconciler.ReconcileDeletion | controllers/databaseuser_controller.go:109-134 | drop when ours, then remove the finalizer |
| UserReconciler.Reconciler.ReconcileServer | controllers/databaseuser_controller.go:188-209 | create, update or leave alone, and the status stored only without an error |
| UserReconciler.Reconciler.Reconcile | controllers/databaseuser_controller.go:74-215 | a whole pass equals its specification for every world, every pattern of failing calls and every outcome of the random choices; the rows on Secrets, EarlyExits, Reports and OnePass say what such a pass sends, leaves alone, records and achieves |
| UserSafety.MineIsOwned | api/v1alpha1/adminconnection_types.go:344-368 | under the invariant a positive decision means the existing account was made for this object |
| DatabaseSafety.MineIsOwned | api/v1alpha1/adminconnection_types.go:325-342 | the same for schemas |
| UserSafety.ConvergeKept | controllers/databaseuser_controller.go:188-209 | the server part of a pass whose GRANT texts do not stray touches no account of anybody else and keeps the invariant |
| UserSafety.FinalizeKept | controllers/databaseuser_controller.go:572-584 | so does the deletion, the anonymous account aside |
| DatabaseSafety.ConvergeSafe | controllers/database_controller.go:149-177 | the server part of a database pass whose text does not stray touches no schema of anybody else and keeps the invariant |
| DatabaseSafety.FinalizeSafe | controllers/database_controller.go:279-290 | a deletion whose text does not stray drops nothing of others; when its statements succeed and the name can be quoted nothing of the object is left |
| DatabaseSafety.QuotableStays | controllers/database_controller.go:206-290 | under the invariant no text of a pass about a name without back-tick strays |
| GrantSafety.GrantStraysExactly | controllers/databaseuser_controller.go:486-504 | a GRANT of plain words to the object's own account strays if and only if the database name, as a pattern, covers an existing schema made by others or for another namespace |
| GrantSafety.LiteralStays | controllers/databaseuser_controller.go:486-504 | on a name without `%`, `_` and backslash it never does |
| Runs.NextInv | controllers/databaseuser_controller.go:107-213 | every step of a run that sends no stray text keeps the invariant that ties status, ledger row and creator together |
| Runs.RunInv | controllers/databaseuser_controller.go:107-213 | so does every run |
| OwnershipTheorems.OwnershipSafety | README.md:45-48 | over every run, every statement named only existing objects made for its own custom resource (a GRANT: covered only schemas made for its namespace) if and only if no pass dropped somebody's anonymous account and none sent a text read as concerning others, which the rows on QuotableRuns and NameReading below turn into conditions on names; without such texts the anonymous drop is the only exception |
| OwnershipTheorems.RunAuthorised | README.md:45-48 | the same equivalence from any state the invariant allows |
| OwnershipTheorems.PlainRunsAreSafe | README.md:45-48 | if the objects hold only names without back-tick and pattern bytes and privilege words of capital letters, every statement of every run is authorised, the anonymous drop aside |
| QuotableRuns.MisplacedIff | controllers/databaseuser_controller.go:469-511 | with names without back-tick and words of capital letters, a pass sends a text read as concerning others if and only if its grant loop starts and reaches an entry it may grant whose name, as a pattern, covers an existing schema not made for the namespace |
| QuotableRuns.QuotableRunsExactly | README.md:45-48 | over every run in which users write such names and words, all statements are authorised if and only if no pass drops somebody's anonymous account and no grant loop comes to such an entry |
| NameReading.DropReadsAs | controllers/database_controller.go:281 | for every name, the DROP text is read as the drop of `v` if and only if the name is `v` with its back-ticks doubled, or that, a single back-tick and then only blanks and comments up to the closing back-tick |
| NameReading.DeletionMisplacedIff | controllers/database_controller.go:110-131 | for every name, a deletion pass concerns others if and only if it decides to drop and the name reads as that of an existing schema not made for its object |
| NameReading.LiveMisplacedIff | controllers/database_controller.go:149-177 | for every name, a live pass concerns others if and only if it sends a text that is a statement and the name before its first single back-tick is that of an existing schema not made for its object |
| NameReading.NamedRunsExactly | README.md:45-48 | over every run with this reader, for all database names: authorised if and only if no pass drops somebody's anonymous account, none is misled by its name in these ways and no grant loop covers a schema of others; granted words plain and granted names without back-tick |
| OwnershipTheorems.PassLeavesOthersAlone | README.md:45-48 | accounts and schemas of others come out of a pass unchanged, and nothing appears in their name |
| OwnershipTheorems.ExclusiveAccount | api/v1alpha1/adminconnection_types.go:344-368 | in every reachable state at most one object passes the decision for an existing account, and it is the one it was made for |
| OwnershipTheorems.ExclusiveSchema | api/v1alpha1/adminconnection_types.go:325-342 | the same for schemas |
| OwnershipTheorems.RenameIsSound | controllers/databaseuser_controller.go:311-338 | in a reachable state a rename never finds its target taken, carries the account over, and leaves ledger, status and server in agreement |
| Correspondence.NoLeak | controllers/database_controller.go:103-151 | at every point of a run each schema made for an object has its row, and each row its schema and its object with finalizer, so an object that is gone leaves neither |
| Correspondence.CreateLeaksExactly | controllers/database_controller.go:239-276 | a CREATE that goes through makes a schema the object and its row name if and only if the name holds no back-tick |
| AccountCorrespondence.NoAccountLeak | controllers/databaseuser_controller.go:572-584 | over runs in which rows are found and saved, drops carried out, the status follows a rename and names agree when an account is made: each account has its row, and each row its account and its live object, if and only if no deletion ended while the specification named another account that existed; then an object that is gone leaves neither |
| AccountCorrespondence.DeletionLeaksExactly | controllers/databaseuser_controller.go:109-134 | a deletion of an object with a row leaves the account if and only if the specification was edited to another name that exists |
| Recovery.DatabaseRecovers | controllers/database_controller.go:239-276 | an owned schema dropped by somebody is made again by the next pass, and ownership and invariant hold |
| Recovery.SchemaHandedOver | controllers/database_controller.go:142-183 | two objects ask for one schema: when the owner is finalized, the other's next pass makes the schema and owns it |
| Recovery.AccountRecovers | controllers/databaseuser_controller.go:269-307 | the same for accounts; ours again exactly when status and specification name agree |
| Recovery.FreeNameCreated | controllers/databaseuser_controller.go:269-307 | a free claimed name becomes this object's account; the decision afterwards is positive exactly when the two names agree |
| Recovery.NameHandedOver | controllers/databaseuser_controller.go:164-203 | two objects claim a name: when the owner is deleted, the other's next pass makes the account and owns it |
| Recovery.CreatedTls | controllers/databaseuser_controller.go:436-442 | the account made requires TLS as specified if and only if TLS is not wanted, or there is an identification and the status does not already say so |
| EarlyExits.Disconnected | controllers/databaseuser_controller.go:136-145 | without a connection a pass of either reconciler changes nothing, nor does any pass over a Database object that names none |
| EarlyExits.AccountLeftAlone | controllers/databaseuser_controller.go:192-204 | a pass over an object whose claimed account exists sends nothing while one of its two names is an account the ledger does not have under its UID, name and namespace |
| EarlyExits.DeletionLeavesAlone | controllers/databaseuser_controller.go:109-134 | nor does its deletion, and the object goes all the same |
| EarlyExits.SchemaDeletionLeavesAlone | controllers/database_controller.go:104-130 | the same for schemas |
| EarlyExits.SchemaDeletionClears | controllers/database_controller.go:279-290 | the deletion of an object whose schema is gone already clears its ledger row |
| EarlyExits.DeletionClears | controllers/databaseuser_controller.go:572-584 | so does that of an object neither of whose accounts is there |
| EarlyExits.NeverClaimed | controllers/databaseuser_controller.go:164-168 | a name somebody else has is never claimed, however many passes follow, and nothing is sent |
| EarlyExits.UnreadableBlocks | controllers/databaseuser_controller.go:387-407 | while the auth string is missing from the specification or the secret, or cannot be read, a pass with nothing to rename sends nothing |
| EarlyExits.LoopStopsAt | controllers/databaseuser_controller.go:478-484 | at the first Database object that cannot be read the grant loop ends in an error, with the entries before it granted and no other |
| EarlyExits.ListRecorded | controllers/databaseuser_controller.go:509-510 | a pass records another list only if it is the specified one and each of its Database objects was read |
| EarlyExits.MissingStaysPending | controllers/databaseuser_controller.go:478-484 | as long as a listed Database object is missing the list stays unrecorded, after any number of passes with whatever calls failing |
| Secrets.WithheldForever | controllers/databaseuser_controller.go:168-179 | while another UID controls the secret an object names, any number of passes over it leave server and secrets as they are and do not set the finalizer |
| Secrets.ControllerChanges | controllers/databaseuser_controller.go:234-248 | in every step only the pass of a live object that names the secret sets its controller, to the UID of that object, and only where none is set |
| Secrets.ControllerStays | controllers/databaseuser_controller.go:168-179 | over every run a controller that is set stays until the secret is deleted |
| Secrets.CredentialsRightlySent | controllers/databaseuser_controller.go:168-179 | over every run from any state, with whatever calls failing: each CREATE USER and ALTER USER in the log was sent in a pass of an object whose UID, at that time, controlled the secret it names, for the account it claimed, and a credential in it was what that secret held under the named key, not empty |
| Secrets.MakesSecret | controllers/databaseuser_controller.go:217-232 | a secret that is made holds the generated password under the referenced key and nothing else, and no statement is sent in that pass |
| Secrets.GeneratedMeets | controllers/databaseuser_controller.go:229 | that password has 24 characters, among them at least one special, one digit and one capital, all of the alphabet, for every outcome of the random choices |
| Secrets.NewSecretServes | controllers/databaseuser_controller.go:217-232 | a new object whose secret is not there is served within seven passes with exactly that password as credential, as a hash unless clear text is asked for |
| Reports.PassReports | controllers/databaseuser_controller.go:444-449 | another status that a pass over an owned account stores has the specified identification, TLS and the version of the secret; without an identification the plugin found and the rest as before |
| Reports.CreationReports | controllers/databaseuser_controller.go:283-296 | after an account is made the tracked list is what the server lists for it, whatever an earlier account left there |
| OnePass.DatabaseServedAtOnce | controllers/database_controller.go:149-177 | with the finalizer set, one pass from any well-formed state leaves the schema as specified, in the ledger and in the status |
| OnePass.AccountMadeComplete | controllers/databaseuser_controller.go:269-307 | the pass that makes the account leaves nothing to alter and nothing to grant |
| LostStatus.RenamedThenMine | controllers/databaseuser_controller.go:311-338 | after a rename and one more pass the object is its own if and only if the status write succeeded; otherwise both accounts are stranded |
| LostStatus.StrandedForever | controllers/databaseuser_controller.go:311-338 | stranded accounts stay and their object sends nothing, however the run goes on, the object edited or deleted |
| Exceptions.AnonymousAccountDropped | controllers/databaseuser_controller.go:572-584 | a run with every call succeeding that removes somebody's anonymous account |
| Misreadings.CommentedNameDrops | controllers/database_controller.go:279-290 | for every schema name without back-tick: an admitted object whose name closes the quotes after it and adds a comment sign ends with that schema of somebody else dropped |
| Misreadings.CommentedNameOk | api/v1alpha1/database_webhook.go:32 | the webhook's pattern admits such a name |
| Misreadings.ScopedWordReachesOthers | controllers/databaseuser_controller.go:486-504 | a run in which a privilege word with its own scope is read as a GRANT on every schema, somebody else's included |
| Misreadings.UnderscoreReachesOthers | controllers/databaseuser_controller.go:486-504 | a run in which the default privileges on a name that covers another one reach somebody else's schema |
| Assumptions.MissedSchemaDropped | api/v1alpha1/adminconnection_types.go:328-331 | a deletion pass drops a schema that is not its object's if and only if its lookup fails |
| Assumptions.MissedAccountDropped | api/v1alpha1/adminconnection_types.go:350-356 | the same for the claimed account, with the condition on the other name |
| Assumptions.MissedSchemaRun | orm/model.go:82-100 | a run in which a failed lookup costs somebody a schema |
| Assumptions.MissedAccountRun | orm/model.go:82-100 | a run in which two failed lookups cost somebody an account |
| Assumptions.LostRowDrops | controllers/database_controller.go:279-290 | a deletion pass that is tried again drops the schema somebody made in between if and only if the row was not removed the first time |
| Assumptions.LostUserRowDrops | controllers/databaseuser_controller.go:572-584 | the same for accounts |
| Assumptions.LostRowRun | controllers/database_controller.go:279-290 | a run in which that happens |
| Assumptions.RecreatedOutside | api/v1alpha1/adminconnection_types.go:334-340 | a schema dropped and made again by others passes for ours |
| Assumptions.RecreatedAccountOutside | api/v1alpha1/adminconnection_types.go:344-368 | so does an account |
| Assumptions.RenameRowLost | controllers/databaseuser_controller.go:331-336 | after a rename with its status write lost, and the old name taken by somebody: that account passes for ours if and only if the ledger write was lost, too |
| Assumptions.LostRenameRun | controllers/databaseuser_controller.go:331-336 | a run in which somebody's account is renamed for that reason |
| Grants.RefreshTracks | controllers/databaseuser_controller.go:541-556 | old list as prefix, no duplicates, exactly the union, changed if and only if some line was new |
| Grants.WordsAsked | controllers/databaseuser_controller.go:488-498 | the words of a GRANT are ALL when none is listed, else the listed ones in order, each letter replaced by the capital at its place in the alphabet and every other byte kept |
| Grants.ClearedHoldsNothingIff | controllers/databaseuser_controller.go:360-368 | what the grant loop starts from holds nothing by name, and nothing at all if and only if the refreshed list was not empty, so that a REVOKE was sent, or nothing was held on all schemas |
| Grants.GrantsExact | controllers/databaseuser_controller.go:359-373 | after a completed permission pass with plain words and names and no GRANT lost, the account was granted a word on a name if and only if the specification asks for that word, spelled out by alphabet, on a database of the namespace that is under management and has recorded the name; what it held on all schemas is gone if and only if a REVOKE was sent or there was nothing |
| Grants.AppliesExactlyIff | controllers/databaseuser_controller.go:486-504 | what applies to the existing schemas, by the pattern rules and from what is held on all schemas, is what the specification gives if and only if no listed name covers a schema on which it does not give the same and it gives what is held on all schemas on each of them |
| GrantConvergence.PermissionsSettleIff | controllers/databaseuser_controller.go:359-373 | from any state, after a permission pass in which only GRANTs may fail: the next one has nothing to do if and only if every listed database is under management, no two are on one schema and no GRANT was lost, or there was nothing to do before |
| UserConvergence.StageFalls | controllers/databaseuser_controller.go:164-213 | a successful pass over a well-formed object that is not settled lowers the stage: claim, secret, finalizer, create, rename, authentication, grants |
| UserConvergence.Settled | controllers/databaseuser_controller.go:309-374 | a settled object's pass sends nothing and stays settled |
| UserConvergence.SettledMatches | controllers/databaseuser_controller.go:309-374 | settled means name, ledger, plugin, credential and the privileges granted by name are as specified; the specification is met in full if and only if TLS is served, by an identification or because it is as specified anyway, and the account holds nothing on all schemas |
| UserConvergence.Converges | controllers/databaseuser_controller.go:164-213 | at most seven quiet passes lead from any well-formed state to the specification, in full if and only if TLS is served as above and nothing was held on all schemas or a REVOKE was due; no later pass writes to the server |
| SpecChanges.NewObjectConverges | controllers/databaseuser_controller.go:164-213 | a new object that asks for a free name is served within seven passes, TLS if and only if there is an identification or TLS is not asked for |
| SpecChanges.EditedObjectConverges | controllers/databaseuser_controller.go:309-374 | a settled object whose name, databases, plugin, TLS, secret or identification is edited settles on the new specification within seven passes, in full if and only if TLS is served and nothing was held on all schemas or the edit of name or list makes a pass revoke |
| SpecChanges.RotatedSecretConverges | controllers/databaseuser_controller.go:387-412 | a rewritten secret reaches the account within seven passes; in full as specified if and only if nothing was held on all schemas |
| SpecChanges.IdentificationEdit | controllers/databaseuser_controller.go:387-412 | an edit of key or clear text alone is reached, after any number of passes, if and only if it makes no difference to the credential, in terms of the secret's values, and nothing was held on all schemas |
| SpecChanges.NewDatabaseConverges | controllers/database_controller.go:142-183 | a Database object the webhook admits against the server's rows is served within three passes if and only if its name holds no back-tick |
| SpecChanges.ServedIsGrantable | controllers/databaseuser_controller.go:486-499 | a permission that names a served Database object of its namespace gives exactly the words it asks for, on the specified name and no other |
| DatabaseConvergence.AdmittedIsCompatible | api/v1alpha1/database_webhook.go:119-150 | what the webhook admits, the server can carry out, for each presence of character set and collation; what it admits is the rows on Webhook |
| DatabaseConvergence.OnePassAfterAdmission | controllers/database_controller.go:206-237 | after admission one successful pass makes the schema as specified and every later pass silent |
| DatabaseConvergence.SettlesIffCompatible | controllers/database_controller.go:206-237 | without admission a successful pass silences the next if and only if the collation belongs to the character set |
| DatabaseConvergence.PassRecordsName | controllers/database_controller.go:157 | every pass over a live, finalized and connected object whose status can be stored records the specified name, whatever it does with the schema and whatever earlier passes recorded |
| DatabaseConvergence.LeftAlone | controllers/database_controller.go:149-177 | a schema without the ledger row of its object is left alone, and its attributes and the name are recorded |
| DatabaseConvergence.IncompatibleNeverSettles | controllers/database_controller.go:206-237 | an incompatible pair makes every pass send one more ALTER |
| DatabaseConvergence.Converges | controllers/database_controller.go:142-183 | at most three quiet passes make the schema, the row, the attributes and the status as specified, also when earlier status writes were lost; nothing is sent afterwards |
| Admission.RunCompatible | api/v1alpha1/database_webhook.go:93-151 | over every run in which the webhook is asked with indexes of the server's rows, every stored specification that names a connection can be carried out |
| Admission.StaleIndexRun | api/v1alpha1/database_webhook.go:93-151 | with an index of other rows an edit is admitted after which every pass sends one more ALTER and the schema is never as specified |
| Shortfalls.TlsIgnoredRun | controllers/databaseuser_controller.go:385-442 | a new object without identification that asks for TLS never gets it |
| Shortfalls.TlsLostRun | controllers/databaseuser_controller.go:436-442 | an account with TLS that somebody dropped comes back without |
| Shortfalls.EarlyEditDeadlocks | controllers/databaseuser_controller.go:269-307 | a name edited between claim and creation: the account keeps the claimed name for good and the specified one is never made |
| Shortfalls.EarlyEditLeaks | controllers/databaseuser_controller.go:269-307 | and the deletion of the object leaves it behind |
| Shortfalls.OtherKeyRun | controllers/databaseuser_controller.go:387-412 | an edit to another key of the same secret with another value is never taken up |
| Shortfalls.LostStatusRun | controllers/databaseuser_controller.go:311-338 | a rename with the status write lost strands two accounts, whatever follows |
| Leftovers.EmptiedListKeepsEverywhere | controllers/databaseuser_controller.go:541-546 | a run in which a privilege word gives the object's own account SELECT on all schemas and the list is emptied afterwards: after any number of passes the account still holds it |
| Charsets.SortRows | controllers/adminconnection_controller.go:134-150 | the map holds, for exactly the character sets of the rows, their collations in row order |
| Charsets.GetCharSets | controllers/adminconnection_controller.go:123-160 | whatever the iteration order: one entry per character set holding its whole group in row order; empty with an error when the query fails |
| Charsets.IndexKeepsRows | controllers/adminconnection_controller.go:134-157 | every such index holds the rows with their multiplicity |
| Charsets.SearchAgrees | api/v1alpha1/database_webhook.go:130-150 | the search admits a pair if and only if some row holds it, and warns if and only if the first such row is not a default |
| Webhook.CombinationExactly | api/v1alpha1/database_webhook.go:119-150 | for every index of the rows and each of the four presences: admitted if and only if some row holds the character set given, or else the server's, with the collation given, or else the server's; warned if and only if the first such row is not a default |
| Webhook.WithoutStatus | api/v1alpha1/database_webhook.go:93-117 | without a connection any combination is admitted, with one that cannot be fetched none |
| Webhook.CompatibleAdmittedIff | api/v1alpha1/database_webhook.go:119-150 | of what the server could carry out, everything that gives both or neither is admitted, and one alone if and only if it is of the server's own character set |
| Webhook.NamesAdmittedExactly | api/v1alpha1/database_webhook.go:32 | a name in UTF-8 is refused if and only if it is not of 1 to 64 characters without any of the eleven that are kept out |
| Webhook.EditsAdmittedExactly | api/v1alpha1/database_webhook.go:71-83 | an edit is refused for its name if and only if that changes |
| Connections.ConnectionCache.CreateFreshConnection | api/v1alpha1/adminconnection_types.go:239-289 | which pools are left open or closed for each way the attempt can end |
| Connections.ConnectionCache.GetDatabaseConnection | api/v1alpha1/adminconnection_types.go:185-237 | pools, cache and result after one call; when a pool is reused is the next row |
| Connections.ReturnsCachedExactly | api/v1alpha1/adminconnection_types.go:201-235 | the cached pool is returned if and only if its configuration is the current one and handle and ping work, and then nothing changes; otherwise a pool is returned if and only if a new one was set up, and it is that one |
| Connections.OnePoolServes | api/v1alpha1/adminconnection_types.go:201-235 | after a first success, as long as configuration and pool stay good, every call for that admin connection returns the same pool and changes nothing, whatever happens for others |
| Connections.NoMorePools | api/v1alpha1/adminconnection_types.go:201-235 | over any number of such calls no pool is opened, closed or forgotten |
| Connections.CallsSound | api/v1alpha1/adminconnection_types.go:185-237 | over any calls and credential changes: a returned pool is open, was opened with the configuration current at the call and is the cached one; no closed pool is cached; no pool is shared |
| Connections.GetMonotonic | api/v1alpha1/adminconnection_types.go:213-219 | a closed pool stays closed and no pool changes its configuration |
| Connections.LostExactly | api/v1alpha1/adminconnection_types.go:201-237 | the pools that become unreachable while open are exactly the cached one whose handle or ping failed, or that changed its configuration without a handle to close it by, and the new one whose first ping failed |
| Passwords.Draw | api/v1alpha1/common.go:127-148 | each filling loop writes exactly the picked characters |
| Passwords.Shuffle | api/v1alpha1/common.go:150-155 | the in-place swaps, for every list of random positions |
| Passwords.GeneratePassword | api/v1alpha1/common.go:124-158 | the password is the drawn characters arranged by the swaps |
| Passwords.EveryPasswordMeets | api/v1alpha1/common.go:124-158 | length the requested one or the sum of the minimums, each minimum met, only listed characters, for every random choice |
| Passwords.AlphabetExactly | api/v1alpha1/common.go:30-36 | the alphabet is the seven special characters, the digits, the capitals and the small letters up to `t` |
| Passwords.EveryArrangement | api/v1alpha1/common.go:150-155 | the shuffle can produce every arrangement of the characters |
| Passwords.ExactlyTheMeeting | api/v1alpha1/common.go:124-158 | the strings that can come out are exactly those that meet the request, for every request including negative numbers |
| Watches.FindObjectsForDatabase | controllers/databaseuser_controller.go:605-630 | enqueued are exactly the objects whose grant loop looks the Database up, each once; none when the list fails |
| Watches.NotEnqueuedNotAffected | controllers/databaseuser_controller.go:469-511 | the grant loop of an object that is not enqueued does not depend on the Database object |
| Watches.EnqueuedIsAffected | controllers/databaseuser_controller.go:605-630 | where everything listed is there, taking one Database object away makes the grant loop fail if and only if the object is enqueued for it |

## Left out

- The host part of accounts: every account is `'name'@'%'`, as the statements name it, so one name is one account.
- Messages, timestamps, host and port in the status, logging, events and requeue times.
- The reader: keywords in the spelling the operator uses, one grantee in a GRANT, the two options of a database statement, comments to the end of the line; `/* */` comments and other statements are read as none.
- The order in which the server consults several patterns that cover one schema: `Grants.Applies` takes the union of theirs and of what is held on all schemas.
- SHOW GRANTS: one line per granted name after the first line; the exact wording of a line is not modelled, nor that a server may show what is held on all schemas, dynamic privileges for instance, in more than the first line.
- Privilege words are compared as written after upper-casing ASCII letters; that ALL stands for every other word is not modelled.
- MySQL's own rules beyond the modelled statements: case folding of identifiers, charset aliases, multi-byte escapes, the NO_BACKSLASH_ESCAPES mode, grants that outlive a dropped schema.
- UserConvergence.Converges: starts from states in which the listed databases are owned and distinct, the secret can be controlled and read, and the status tells the truth about authentication and grants; `SpecChanges` derives the last for new and for edited objects.
- NameReading.NamedRunsExactly: grant loops that may grant a word that is not plain or a name with a back-tick are left to `OwnershipTheorems.OwnershipSafety`.
- UserConvergence.Converges: an identification without an auth string makes the pass break off (controllers/databaseuser_controller.go:445), so it never converges and is not covered.
- Grants.GrantsExact: for passes in which no GRANT is lost; the code logs a lost one and the pass stays pending (`GrantConvergence.PermissionsSettleIff`).
- Privileges removed outside are not noticed by the code (controllers/databaseuser_controller.go:541-556), so no repair of them is claimed.
- Correspondence.NoLeak: for objects whose name holds no back-tick; `Correspondence.CreateLeaksExactly` says why.
- AccountCorrespondence.NoAccountLeak: under the conditions listed in `Steady`, on failing calls and on names edited before the account is made; `Shortfalls.LostStatusRun` and `Shortfalls.EarlyEditLeaks` show accounts left behind without them.
- Owner references other than the controller's on a secret, conflicts between API writers, finalizers of others, statuses edited by hand.
- Empty and missing lists are the same value, as they are after a round trip through the API server.
- Changing the admin connection of an object, several servers, `AllowedNamespace`, `getDbConfig` and the DSN.
- `findObjectsForAdminConnection`: a filter on two fields; it misses references whose namespace is defaulted (controllers/databaseuser_controller.go:644-651).
- Reading the server defaults in the AdminConnection reconciler (controllers/adminconnection_controller.go:54-121): they are inputs of the webhook here.
- Set-up of the manager, certificates and the webhook server in main.go.
