# Verified model of the database controller

The db-controller reconciles `DatabaseClaim` objects: it provisions a Postgres server for a claim, rotates its
credentials, and moves its data to another server when the specification asks for one.  This project models the
parts of it that are hard to get right, and proves what they keep.

* **The migration protocol** (`Stages`, `Claim`, `Protocol`).  One claim, its persisted status, the application and
  temp secrets, the servers with their publication, subscription, grants, logins, row counts and sequences, the
  crossplane resources and the finalizer.  Every write to the API server or a database is one step.  A session is one
  reconcile with its in-memory copy of the status; it can be cut off between any two steps, and on every error path it
  first persists whatever is in memory.  The environment (applications writing and drawing identifiers, the first copy and the
  replication that follows it, deletion of the claim) moves at any time.
* **What holds over all runs** (`ClaimInvariants`, `ClaimProperties`, `DataInvariants`, `MigrationSafety`, `CutOver`,
  `RerouteWindow`, `Schema`, `Progress`, `Deletion`).  The invariants are inductive over the steps; the properties are
  statements about every finite run from a claim at rest.
* **What can be reached** (`Reachability`, `Resets`, `MistakenRun`, `Completion`, `Stuck`, `FromRest`).  Runs are
  constructed from any claim at rest to the handover, to a handover that loses rows and to states that are never left;
  from a running migration the handover can be reached if and only if a session can still log in.
* **Identifiers over runs** (`Sequences`, `SequenceRuns`, `Identifiers`, `Repeats`).  The reset of the sequences and what is drawn
  from source and target, however often the reset is repeated.
* **The reconciler** (`Controller`, `ControllerSafety`).  The Go methods as methods of a class that changes its fields in
  place, with any call failing at any point.  Each write is recorded, and the record is proved to be a run of the protocol, so that
  all properties of runs hold of it.
* **Host parameters and names** (`Strings`, `HostParams`, `Naming`, `Upgrades`).  The concrete planning and naming, with
  a proof that they obey the laws (`Lawful`, `NamingLaws`) which the run properties assume of a `Config`, and two
  claims under them: one that asks for an upgrade, and one that is to leave an existing database.
* **Smaller cores**: credential rotation (`Rotation`), role claims (`RoleClaim`), connection URIs (`Uri`),
  keyword/value connection strings (`KeywordValue`) and the concurrent `dsnexec` handler (`DsnExec`).

## Standing hypotheses

* The specification of the claim is fixed during a run and `useExistingSource` is false (`Lawful`).
* A run starts idle and at rest (`Quiescent`): no migration under way, nothing to clean up, a ready database at the
  address its parameters name, and no active existing database together with a completed migration.
* Where data is concerned, the application secret at the start belongs to the active database (`SourceKnown`), and
  nobody but the controller touches publications and subscriptions.
* The configured wait for a host is at least a minute, so a host that is not ready always ends the reconcile.
* A run is *clean* (`CleanUpTo`) as long as no session has resumed at `reset_target_sequence` with the application
  secret already holding the target.  `RerouteWindow.CleanIffUninterrupted` shows that a migration that cuts over has been
  clean exactly if no session was cut off between writing the application secret and persisting `reroute_target_secret`.
  A migration from an existing database that is cut off later, before `wait_to_disable_source` is persisted, goes on;
  an upgrade that is cut off anywhere between the two writes does not (`Stuck.HandoverReachableIff`).
* Where a run is said to exist, the two servers are there, their sequences have room for two resets, and the login that
  the application secret held at the start still works.

## Findings

* An interrupted rerouting of a migration from an existing database can lose data.  `FromRest.HandoverCanLoseRows` gives,
  for every such claim at rest whose database someone may write to, a run that persists the handover while the target
  lacks rows written to the source after the first copy; the claim of `Upgrades.SomeExistingAsks` is one.
  `RerouteWindow.CheckedIffClean` shows that the check against the source was skipped exactly in the runs that are not
  clean.
* An interrupted rerouting of an upgrade is stuck for good.  Until `wait_to_disable_source` is persisted the source is
  read from the application secret, which then names the target, and the administrator of the old server cannot log in
  there.  `FromRest.UpgradeCanLockItselfOut` gives the two runs, before and after `reroute_target_secret` is persisted,
  for every claim that asks for an upgrade; `Upgrades.SomeClaimAsks` is one.
* An error after the user of a new database has been created loses its password: the user is persisted, the password is
  not, and the next reconcile generates none.  `FromRest.LostPasswordBlocks` gives the run.
* `Stuck.HandoverReachableIff` shows that these, and equal addresses, are all the ways to get stuck in a clean run with a
  source that stays available (`Supported`), and `Stuck.BlockedForever` that they are permanent.
  `Deletion.MarkedClaimIsLetGoIff`: a stuck claim cannot be deleted.
* The repair of a user's password in pkg/databaseclaim/creds.go:57-66 is not reached by a wrong password:
  `dbclient.New` has already failed to log in with it (pkg/dbclient/client.go:125-128).
* A session that takes the target for the source resets the sequences of a target in use.  `Repeats.RerouteCanRepeat`
  shows that an identifier can then be handed out twice, and `Identifiers.TargetIdsGrow` that it takes more than 5000
  draws.
* Deleting a claim need not delete its database.  The deleted names are computed from the specification, so
  `Upgrades.DeletedUpgradeLeavesServer` lets a claim go with everything of its active database in place, and a database
  whose cleanup is pending is always left.  `Deletion.DeletionIsCompleteIff` and `Upgrades.DeletionIsCompleteIffNoUpgrade`
  give the exact condition.
* The order of the stage constants is not the order of execution, and the choice of the secret goes by the constants;
  `MigrationSafety.RecoveryIsExact` shows when that is right.
* pkg/dbuser/dbuser.go:54-56 documents that `NextUser` returns user B for invalid users; the code returns user A, and
  so does the model.  pkg/databaseclaim/databaseclaim.go:883 says that the rerouting case is no longer called; it is.
* A base user name ending in `_b` makes a rotation away from user A look like a change of the user name
  (`Rotation.UsersAreRecognised`).

## Model

| member | source | states |
|---|---|---|
| Stages.NameRoundTrip | pkg/pgctl/stateEnum.go:30-103 | a persisted stage name resolves to exactly the stage that wrote it; no other text resolves, except the empty one to the initial stage |
| ClaimInvariants.RunningFixesMode | pkg/databaseclaim/modeenum.go:31-134 | while a migration is running, the mode is the in-progress mode of the active database and the choice changes nothing in the status |
| ClaimInvariants.RunKeepsInv | pkg/databaseclaim/databaseclaim.go:122-933 | the invariant on status and session holds in every state of every run, with crashes, failed writes and error paths |
| ClaimProperties.ModeIsStable | pkg/databaseclaim/modeenum.go:75-134 | in every state of a running migration the next reconcile selects the same mode without a reset, and the new database has a host |
| ClaimProperties.MigrationKeepsCourse | pkg/databaseclaim/databaseclaim.go:820-918 | between any two states of one migration the mode, the active, the new and the old database are the same and the pipeline position has not moved back |
| ClaimProperties.HandoverIsAtomic | pkg/databaseclaim/databaseclaim.go:903-923 | every persisted status of a running migration is followed by the same, the next stage, or the whole switch; a pending cleanup is only ever cleared |
| ClaimProperties.CleanupIsSupported | pkg/databaseclaim/modeenum.go:36-45 | a pending cleanup always selects the post-migration mode; the unsupported branch is unreachable |
| ClaimProperties.ServersAreConserved | pkg/databaseclaim/databaseclaim.go:251-301 | no recorded server leaves the status except when post-migration cleanup clears the old database |
| ClaimProperties.PlanIsStable | pkg/databaseclaim/databaseclaim.go:396-402 | the planned host parameters are the same in all statuses of a run, and a database that became active asks for no upgrade |
| ClaimProperties.CleanupSparesActive | pkg/databaseclaim/databaseclaim.go:251-286 | in every run, cleanup deletes only names of the old database, these include everything it was provisioned with, and nothing of the active database is deleted |
| ClaimProperties.DeletionIsSafe | pkg/databaseclaim/databaseclaim.go:170-212 | external resources are deleted and the finalizer is removed only if the claim is marked and its migration state is empty or completed |
| Deletion.DeletionKeepsMigrating | pkg/databaseclaim/databaseclaim.go:180-188 | while a migration is running, every step of a run is a step of the same claim marked for deletion as well |
| Deletion.MarkedClaimIsLetGoIff | pkg/databaseclaim/databaseclaim.go:170-212 | a claim marked in the middle of a migration can be let go if and only if the two servers differ, the login of the target was saved and the administrator is not locked out |
| Deletion.RunMarkedIsLetGoIff | pkg/databaseclaim/databaseclaim.go:170-212 | the same for every idle state of every clean run |
| Deletion.DeletionIsExact | pkg/databaseclaim/awsprovider.go:724-830 | when a claim is let go, exactly the names of the planned server have been deleted since the session was opened, or none with the retain policy |
| Deletion.DeletionIsCompleteIff | pkg/databaseclaim/awsprovider.go:724-741 | a claim is let go with nothing left of the active and the old database if and only if the names computed from the specification are the active ones and no cleanup was pending |
| Deletion.NothingIsDeleted | pkg/databaseclaim/databaseclaim.go:170-212 | a marked claim at rest whose planned server does not exist is let go in one session that deletes nothing |
| Upgrades.PlanIsActiveIffNoUpgrade | pkg/hostparams/hostparams.go:113-117 | for the controller's own names, the planned names are the active ones if and only if no upgrade is requested |
| Upgrades.DeletionIsCompleteIffNoUpgrade | pkg/databaseclaim/databaseclaim.go:170-212 | a ready claim is let go with nothing left of its databases if and only if no upgrade was requested and no cleanup was pending |
| Upgrades.DeletedUpgradeLeavesServer | pkg/databaseclaim/awsprovider.go:724-741 | a claim at version 14 that asks for 15 and is deleted first leaves its instance and its parameter group |
| ClaimProperties.PurgePrecedesFinalizer | pkg/databaseclaim/databaseclaim.go:190-209 | a session that may remove the finalizer has completed the external deletion before, and with the delete policy nothing of the planned server was left then |
| MigrationSafety.ReplicationArtefacts | pkg/pgctl/pgctl.go:212-508 | in clean runs publication and subscription exist at every persisted position strictly between their creation and deletion, and the superuser grant is absent after copy_schema |
| MigrationSafety.ArtefactsAreGone | pkg/pgctl/pgctl.go:842-971 | when the switch is persisted in a clean run, publication, subscription and superuser grant are absent |
| MigrationSafety.SourceIsKept | pkg/databaseclaim/secrets.go:161-170 | in clean runs the source connection in the temp secret is the same throughout a migration |
| MigrationSafety.RecoveryIsExact | pkg/databaseclaim/secrets.go:276-305 | the connection recovered as source is the one the application secret held when the migration was persisted, if and only if not both the secret holds the target and the stage is reset_target_sequence or reroute_target_secret |
| CutOver.CutOverIsChecked | pkg/pgctl/pgctl.go:699-924 | in clean runs, whenever the subscription is disabled or dropped or the active database is switched, the writes on the real source were revoked earlier and a later comparison found every table reached, with publication and subscription in place; the compared rows are still the rows of a source nobody else writes to |
| CutOver.FrozenRowsStay | pkg/pgctl/pgctl.go:716-733 | a source without writers and without an enabled subscription keeps its rows as long as the migration is running |
| RerouteWindow.UninterruptedIsClean | pkg/databaseclaim/databaseclaim.go:882-893 | if no session is cut off between the write of the application secret and the persisted stage, no session ever reads the rerouted secret as its source |
| RerouteWindow.CleanIffUninterrupted | pkg/databaseclaim/databaseclaim.go:1316-1329 | a migration that cuts over has been clean if and only if no session before was cut off between the write of the application secret and the persisted stage |
| RerouteWindow.MistakeStays | pkg/databaseclaim/databaseclaim.go:1316-1329 | a rerouted secret that was read as the source is taken for the source until the end of the migration |
| RerouteWindow.CheckedIffClean | pkg/databaseclaim/databaseclaim.go:820-918 | a cut-over was preceded by a comparison with the database that is still active if and only if the run is clean |
| MistakenRun.InterruptedRerouteSkipsCheck | pkg/databaseclaim/databaseclaim.go:882-893 | from every interrupted rerouting whose administrator can still log in to what is taken for the source, as with an existing database, a run leads to the switch of the active database with the target compared only with itself, no row of any server changing |
| Progress.ExecutedStagesExist | pkg/pgctl/pgctl.go:77-127 | a session executes only stages that have a replicator state, and it is the one of the persisted stage |
| Progress.TwoReconcilesAndRetries | pkg/databaseclaim/databaseclaim.go:820-902 | a migration without crashes, returned errors and failed restores completes in exactly two reconciles more than it has retries |
| Stuck.BlockedForever | pkg/databaseclaim/databaseclaim.go:708-817 | in every run, clean or not, a migration that no session can resume keeps its status in all later states |
| Stuck.HandoverReachableIff | pkg/databaseclaim/databaseclaim.go:682-933 | from an idle state of a running migration the whole handover can be reached if and only if the two servers differ, the login of the target was saved, and it is not an upgrade, with another administrator on the new server, whose secret holds the target at reset_target_sequence or reroute_target_secret |
| Stuck.RunHandoverReachableIff | pkg/databaseclaim/databaseclaim.go:682-933 | the same for every idle state of every clean run |
| Schema.RunSchema | pkg/pgctl/pgctl.go:316-403 | in clean runs the target has every sequence of the source from the restored schema on |
| Resets.ResetsAll | pkg/pgctl/pgctl.go:603-666 | whenever the target has the sequences that are read and no value overflows, the reset can be executed to its end; exactly those sequences are then at their reset values and nothing else has changed |
| Completion.RunsThrough | pkg/databaseclaim/databaseclaim.go:820-902 | from any stage that is about to be executed the remaining stages can be executed, past a populated target, the wait and the row comparison |
| Completion.ReachesReroute | pkg/databaseclaim/databaseclaim.go:820-893 | a migration that has just been started can get to the rerouted application secret, through the first copy, the readiness check and the reset of the sequences, without a change of anyone's right to write |
| Completion.EveryRerouteCanGoWrong | pkg/databaseclaim/databaseclaim.go:882-893 | every clean migration from an existing database that has just rerouted the secret has a continuation that switches the database without the comparison with the real source |
| FromRest.CanStart | pkg/databaseclaim/databaseclaim.go:638-680 | from every claim at rest that asks for a database on another server, the started migration with that server recorded can be reached |
| FromRest.CanComplete | pkg/databaseclaim/databaseclaim.go:304-933 | from every such claim a run leads to the new server being active and, after an upgrade, the previous database being recorded for cleanup |
| FromRest.HandoverCanLoseRows | pkg/databaseclaim/databaseclaim.go:665-933 | every such claim that uses an existing database, to which some role may write, has a run, not clean, that persists the handover with rows of the source missing in the target |
| FromRest.UpgradeCanLockItselfOut | pkg/databaseclaim/databaseclaim.go:774-817 | every such claim that asks for an upgrade, with another administrator on the new server, can be cut off at reset_target_sequence and at reroute_target_secret in states that no session can resume |
| FromRest.LostPasswordBlocks | pkg/databaseclaim/databaseclaim.go:576-662 | every such claim without a saved password has a run in which the password of the new user is lost with a failed session and no session can resume the migration |
| Upgrades.SomeClaimAsks | pkg/databaseclaim/modeenum.go:115-131 | there is such a claim under the controller's own planning and naming: one served by version 14 that asks for version 15, with another administrator on the new server |
| Upgrades.SomeExistingAsks | pkg/databaseclaim/modeenum.go:75-96 | there is such a claim that uses an existing database, with a role that may write to it |
| Controller.Reconciler.UpdateStatus | pkg/databaseclaim/claimstatus.go:44-46 | the persisted status becomes the one in memory, or nothing happens |
| Controller.Reconciler.SetError | pkg/databaseclaim/claimstatus.go:48-87 | an error ends the session with either the old status or the whole in-memory one persisted |
| Controller.CompareCounts | pkg/pgctl/pgctl.go:790-832 | the comparison fails exactly if a table cannot be counted in the target, and otherwise says whether every source count is reached |
| Controller.Reconciler.PassStage | pkg/pgctl/pgctl.go:129-202 | a stage without effect on the databases fails, or returns its successor |
| Controller.Reconciler.CreatePublicationStage | pkg/pgctl/pgctl.go:212-287 | afterwards the source has the publication, whether it existed or not, and nothing else has changed on any server |
| Controller.Reconciler.RestoreSchema | pkg/pgctl/pgctl.go:373-390 | the restore succeeds only on an unpopulated target, which is populated then and has the sequences of the source, not yet drawn from; a failure drops the schema with its sequences or leaves the target as it was |
| Controller.Reconciler.CopySchemaStage | pkg/pgctl/pgctl.go:316-403 | the next stage is returned only when the superuser grant is taken back |
| Controller.Reconciler.CreateSubscriptionStage | pkg/pgctl/pgctl.go:417-459 | afterwards the target has the subscription, disabled and not synchronised if it was created and as it was found if it existed, and nothing else has changed |
| Controller.Reconciler.EnableSubscriptionStage | pkg/pgctl/pgctl.go:467-508 | afterwards the subscription is enabled and nothing else has changed; a missing one is an error |
| Controller.Reconciler.CutOverReadinessStage | pkg/pgctl/pgctl.go:516-595 | the session goes on to the sequences only if the tables of the target are synchronised, and else asks for a retry |
| Controller.Reconciler.ApplyResets | pkg/pgctl/pgctl.go:655-661 | the values are set in order up to the first that the target refuses, and nothing else has changed on any server |
| Controller.Reconciler.ResetSequences | pkg/pgctl/pgctl.go:631-665 | it succeeds exactly if every sequence of the source can be read and set; the target has been changed by a prefix of the resets, and nothing else has changed |
| Controller.Reconciler.ResetTargetSequenceStage | pkg/pgctl/pgctl.go:603-666 | the next stage is returned only with every sequence of the source at its reset value in the target |
| Controller.Reconciler.DisableSourceAccessStage | pkg/pgctl/pgctl.go:699-734 | the parent role of the source user, and no other, cannot write to the source any more |
| Controller.Reconciler.ValidateMigrationStage | pkg/pgctl/pgctl.go:742-833 | the next stage is disable_subscription only if every table of the source is reached in the target, and retry only if not |
| Controller.Reconciler.DisableSubscriptionStage | pkg/pgctl/pgctl.go:842-880 | afterwards the subscription is disabled, or missing as before, and nothing else has changed |
| Controller.Reconciler.DeleteSubscriptionStage | pkg/pgctl/pgctl.go:888-924 | afterwards there is no subscription and nothing else has changed |
| Controller.Reconciler.DeletePublicationStage | pkg/pgctl/pgctl.go:932-971 | afterwards there is no publication and nothing else has changed |
| Controller.Reconciler.SourceFromSecret | pkg/databaseclaim/secrets.go:276-305 | the source is read from the secret that the number of the stage selects |
| Controller.Reconciler.RerouteSecrets | pkg/databaseclaim/databaseclaim.go:1316-1329 | the application secret holds the target only after the temp secret holds the source |
| Controller.Reconciler.SwitchToNew | pkg/databaseclaim/databaseclaim.go:903-918 | the field-by-field switch amounts to the whole handover |
| Controller.Reconciler.Prepare | pkg/databaseclaim/databaseclaim.go:718-817 | a stage is resumed only if the users of source and target and the administrator of the source can log in |
| Controller.Reconciler.RunStages | pkg/databaseclaim/databaseclaim.go:820-902 | the stage loop terminates by the pipeline position; it is a run of the protocol, and it leaves either the old databases with some stage or the whole handover |
| Controller.Reconciler.ReconcileMigrationInProgress | pkg/databaseclaim/databaseclaim.go:682-933 | success means the whole handover is persisted; any other end leaves all of it or none |
| Controller.Reconciler.RecordNewHost | pkg/databaseclaim/claimstatus.go:170-203 | the new database is recorded at the planned address with the planned parameters, and nothing else changes |
| Controller.Reconciler.ManageUser | pkg/databaseclaim/databaseclaim.go:1176-1261 | on success the role of the application may write, and a password that is returned is the one of the recorded user |
| Controller.Reconciler.ReconcileNewDB | pkg/databaseclaim/databaseclaim.go:505-600 | provisioning is a run of the protocol and ends the session unless the new database is ready for use |
| Controller.Reconciler.ReconcileMigrateToNewDB | pkg/databaseclaim/databaseclaim.go:638-680 | a migration is reported as started only with migration_in_progress persisted and the temp secret holding the application's connection |
| Controller.Reconciler.ReconcilePostMigration | pkg/databaseclaim/databaseclaim.go:251-301 | the status changes by forgetting the old database or not at all, and only resources derived from it are deleted |
| Controller.Reconciler.DeleteExternalResources | pkg/databaseclaim/awsprovider.go:724-830 | success with the delete policy means that exactly the names of the planned server are gone, and with the retain policy that nothing is |
| Controller.Reconciler.ChooseMode | pkg/databaseclaim/modeenum.go:31-134 | the nested decisions and their in-place changes compute the mode function |
| Controller.Reconciler.ExecuteClaimRequest | pkg/databaseclaim/databaseclaim.go:304-410 | every mode is a run of the protocol and ends the session |
| Controller.Reconciler.ReconcileUseExistingDB | pkg/databaseclaim/databaseclaim.go:414-503 | success means that the source of the specification is the active database, at its own address, and nothing else of the status has changed |
| Controller.Reconciler.Reconcile | pkg/databaseclaim/databaseclaim.go:122-235 | a reconcile with arbitrary failures extends the record by a run of the protocol, and lets the claim go only if marked and without a migration under way, having deleted exactly the resources of the planned server if the policy is to delete |
| ControllerSafety.RecordIsRun | pkg/databaseclaim/databaseclaim.go:122-235 | whatever the reconciler has done since a claim at rest is a run, and the invariant holds of its present state |
| ControllerSafety.RecordedCutOverIsChecked | pkg/pgctl/pgctl.go:699-924 | in the record of the reconciler, every cut-over without an interruption in the window before was preceded by the revocation and the comparison with the real source |
| HostParams.ProvisionedIsStable | pkg/hostparams/hostparams.go:119-219 | after a database was provisioned with the computed parameters, the computation succeeds again, names the same server and requests no upgrade |
| HostParams.HostStringIsInjective | pkg/hostparams/hostparams.go:61-63 | engine, instance class and version can be read back from the text that names a server, for the two engines and dash-free versions |
| HostParams.UpgradeRenames | pkg/hostparams/hostparams.go:79-117 | every requested upgrade has a different text from the active one |
| HostParams.DashedVersionsCollide | pkg/hostparams/hostparams.go:61-63 | with a dash in the active version an upgrade can be requested whose text is the active one |
| Naming.PlanningIsLawful | pkg/hostparams/hostparams.go:119-219 | planning for any specification obeys the laws assumed of runs |
| Naming.NameIsReadBack | pkg/databaseclaim/databaseclaim.go:255-255 | the name read from an endpoint is the one the server was created with |
| Naming.NamingIsLawful | pkg/databaseclaim/databaseclaim.go:1114-1135 | cleanup derives the names used for provisioning, and no instance or group name of a server is one of another server, the second instance included |
| Naming.ServerIsTheSame | pkg/hostparams/hostparams.go:61-63 | for a fixed specification all statuses of a run lead to the same server text, and a database that became active requests no upgrade |
| Sequences.ResetIsAhead | pkg/pgctl/pgctl.go:632-632 | the reset value is a multiple of 10000 between 5000 and 15000 ahead of the last value |
| Sequences.CollectResets | pkg/pgctl/pgctl.go:634-648 | the values of all sequences are read, unless one cannot be read or overflows |
| Sequences.ResetIsExact | pkg/pgctl/pgctl.go:634-661 | a complete reset moves every sequence of the source to its reset value and no other |
| Sequences.NoCollision | pkg/pgctl/pgctl.go:632-661 | in every interleaving, identifiers drawn from source and target after one reset are pairwise different while the source draws at most 5000 |
| Sequences.OneMoreDrawCollides | pkg/pgctl/pgctl.go:632-632 | with 5001 draws there is a sequence that collides |
| Identifiers.NoCollisionInRun | pkg/pgctl/pgctl.go:603-666 | in every run, with resets repeated after crashes or taken from the target itself: each identifier drawn from the target is ahead of every one drawn from the source in the whole migration, up to 5000 draws after a reading of the sequence from the source that preceded the rerouting |
| Identifiers.TargetIdsGrow | pkg/pgctl/pgctl.go:655-661 | the identifiers drawn from the target grow strictly if no session has taken the target for the source, and otherwise as long as at most 5000 have been drawn from it |
| Repeats.RerouteCanRepeat | pkg/databaseclaim/databaseclaim.go:882-893 | every clean migration from an existing database that has just rerouted the secret has a continuation in which an identifier is drawn from the target twice |
| Rotation.UsersAlternate | pkg/dbuser/dbuser.go:54-64 | the two users follow each other, starting with the first |
| Rotation.NextUserIsAnother | pkg/dbuser/dbuser.go:54-64 | the next user is never the current one, whoever that is |
| Rotation.UsersAreRecognised | pkg/dbuser/dbuser.go:28-42 | the second user is always recognised, the first one exactly if the base name does not end in _b |
| Rotation.RotationGrace | pkg/databaseclaim/databaseclaim.go:1234-1261 | over all sequences of completed rotations the users alternate, the published pair is accepted and belongs to the active database, and the pair before is still accepted |
| Rotation.RotationsAreRecognised | pkg/databaseclaim/databaseclaim.go:1204-1210 | no rotation with a fixed base name not ending in _b is taken for a change of the user name |
| Rotation.Rotator.ManageUser | pkg/databaseclaim/databaseclaim.go:1204-1261 | only the next user's password changes, exactly when a rotation is due |
| Rotation.Rotator.Reconcile | pkg/databaseclaim/databaseclaim.go:380-405 | a completed reconcile is a rotation; a failed one leaves the published pair accepted |
| RoleClaim.RoleReconciler.HasEmptyParam | pkg/roleclaim/roleclaim.go:122-134 | an entry with an empty schema or role is found exactly if there is one |
| RoleClaim.RoleReconciler.CreateSchemasAndRoles | pkg/roleclaim/roleclaim.go:163-184 | every schema of the map exists and every schema and role is marked valid |
| RoleClaim.RoleReconciler.RevokeAll | pkg/roleclaim/roleclaim.go:207-219 | the user has no membership left, whatever it had directly or through others, and no other user changed |
| RoleClaim.RoleReconciler.AssignAll | pkg/roleclaim/roleclaim.go:221-231 | the memberships are exactly the lower-cased role names of the map, in any order of iteration |
| RoleClaim.RoleReconciler.Rotate | pkg/roleclaim/roleclaim.go:118-245 | after success the next user has the published password, exactly the memberships of the map and valid status entries; the other user is untouched in any case |
| RoleClaim.RoleTable.Closure | pkg/dbclient/client.go:923-927 | following the memberships finds exactly the roles that a chain of memberships leads to |
| RoleClaim.RoleTable.GetUserRoles | pkg/dbclient/client.go:923-945 | exactly the roles a user has directly or through others are returned, without the user itself |
| Uri.UnescapeEscaped | api/v1/databaseclaim_types.go:371-377 | escaped text comes back, except that outside a query a space comes back as a plus sign |
| Uri.ParsePrinted | api/v1/databaseclaim_types.go:371-404 | what the parser makes of any printed connection |
| Uri.RoundTrip | api/v1/databaseclaim_types.go:371-404 | a connection survives printing and parsing if and only if user, password and database have no space and the database has no slash |
| Uri.GeneratedPasswordSurvives | pkg/basefunctions/basefunctions.go:99-101 | every password over the generator's alphabet survives |
| KeywordValue.EscapeValue | pkg/dbclient/client.go:979-1007 | the loop computes the escaped text |
| KeywordValue.ValueComesBackIff | pkg/dbclient/client.go:979-1007 | an escaped value before another setting is read back if and only if it is not empty and has no whitespace but the space |
| KeywordValue.RoundTrip | pkg/dbclient/client.go:140-143 | reading a printed connection string gives the six fields |
| DsnExec.Handler.BuildContext | dsnexec/pkg/dsnexec/dsnexec.go:79-95 | the arguments hold the parsed options and the raw text of every source, unless a driver is unknown or a text does not parse |
| DsnExec.Handler.UpdateDsn | dsnexec/pkg/dsnexec/dsnexec.go:59-75 | the source has the new text and its old driver |
| DsnExec.RunKeepsInv | dsnexec/pkg/dsnexec/dsnexec.go:52-75 | the invariant of lock, writes and readers holds in every interleaving of any number of calls |
| DsnExec.OneUnchangingMap | dsnexec/pkg/dsnexec/dsnexec.go:52-75 | the commands of one call see one unchanging map of sources |
| DsnExec.OwnValueOrLater | dsnexec/pkg/dsnexec/dsnexec.go:59-75 | the commands of an update see its own value or one written later to the same path |
| DsnExec.DriversStay | dsnexec/pkg/dsnexec/dsnexec.go:62-65 | the driver of an existing path never changes |
| DsnExec.FinalMapIsSeen | dsnexec/pkg/dsnexec/dsnexec.go:59-75 | once all calls have returned, the commands of the last update have seen the final map |

## Left out

- The run properties are for `useExistingSource: false`; the reconciler itself is modelled for both. The branch that first adopts an existing database inside a migration is not: a run starts with the existing database already adopted.
- The shared host branch of the mode choice: no request ever sets it.
- SQL text, pg_dump and psql, TLS, IAM tokens, networking and time: each is a fallible atomic effect on the modelled state, and a wait is the end of a session.
- Secrets hold connections, not their printed form; an application secret without a URI is not modelled. `Uri.RoundTrip` says for which connections the printed form loses nothing.
- A nil and an empty connection in the status are one; status conditions, errors and timestamps are not modelled.
- The administrator of a provisioned server has one password per address, fixed over a run, and the administrators of existing databases and of the target can always log in; the repair of a user's password before the stages is not modelled.
- Sequences count up by one and are in the public schema; their own limits are the refusals in `Controller.Reconciler.ResetSequences`.
- The role whose writes are revoked always exists on the source: the claim's user name is the same on both databases.
- Copying role claims when a migration completes, operational tagging, the contents of parameter groups, the construction of crossplane objects, GCP, metrics and the exporter: field plumbing.
- A cluster and its first instance share a name and are one entry of the resource table; a resource being deleted counts as gone.
- The CRC32 checksum is an arbitrary function with results of eight characters without a dot; nothing is assumed about collisions.
- Controller.Reconciler.Reconcile: the environment moves between calls of its methods; that it may move between any two writes is part of the protocol, not of the method.
- Controller.Reconciler.CutOverReadinessStage: the temporary slots and the states of the single tables are one mark of the target server.
- Controller.Reconciler.ExecuteClaimRequest: adopting an existing database inside a migration is left out, as said above.
- Identifiers.TargetIdsGrow: the bound of 5000 draws is sufficient; the exact one depends on the value that was read.
- Identifiers.NoCollisionInRun: for a migration up to its handover; afterwards nothing uses the source.
- Rotation.Rotator.ManageUser: the branch that renames users after a change of the base name ends in an error, since the role it renames to has just been created.
- Rotation.Rotator.Reconcile: grace across failed rotations is not claimed.
- RoleClaim.RoleReconciler.Rotate: the privileges of the created roles are not modelled, lower-casing is an arbitrary function, and no role is a member of itself, as Postgres guarantees.
- HostParams: deletion policy, master user name and snapshot settings are copied without a decision; lower-casing of the storage type is exact for comparison with ASCII text only.
- Uri.RoundTrip: hosts in brackets are not parsed, and host, port and mode are plain: unreserved characters, and digits for the port.
- KeywordValue.RoundTrip: texts have no null character; host, port and mode have nothing to escape.
- DsnExec.Handler.UpdateDsn: templates, the destination and the execution of the commands are one call that may fail.
- The dbproxy, webhooks, command line entry points and generated code.
