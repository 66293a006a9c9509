# Two MongoDB controllers, modelled and verified

Two Kubernetes reconcilers manage MongoDB databases. The **schema manager** gives applications a
database on a shared server: it registers an ownership entry `{UID: name}` in `kubedb-system`, adds
a finalizer, walks a gated chain of child objects, and on deletion drops the database only if it
finds its own entry. The **MongoDB operator** turns a MongoDB object into StatefulSets, secrets and
a status, next to a concurrent health checker that writes the same status.

Both are modelled twice. A *step system* has one step per API call or Mongo command; between two
steps anything may happen: other workers, users, outside writers, stale caches, failing calls, a
crash. Properties of whole runs are proved on it, for every sequence of events. An *imperative
model* has the controllers' own methods, early returns and loops as a class. It is driven by a script:
what others do before each call, and how the call goes. `Attempted` says where the step system ends on a
script. Each method promises that the attempt under way still ends there (`Continues`) and what is stored
when it succeeds, and the top-level methods promise that it has ended there; so the properties hold of that
code.

| files | what they hold |
|---|---|
| Common, Conditions | condition lists as the vendored client library keeps them: generation-gated `SetCondition`, first match wins |
| SchemaStatus | the generation counter behind the schema manager's `SetCondition`, and the phase read off a condition list |
| SchemaProtocol, SchemaSafety, SchemaTheorems | the schema manager's step system, its invariants, and what they mean for every run |
| SchemaDeletion | deletion under policy Delete finishes after a crash anywhere, and without one exactly unless a failed look-up is about to orphan the entry |
| SchemaProgress | a resource that is not being deleted is provided with all it asks for, once its calls go well |
| SchemaReconciler | `Reconcile` and everything below it as methods, refining the step system |
| Operator, OperatorSafety, OperatorOrder | worker, health checker and other status writers as one step system; conditions, generations and the order of bring-up |
| OperatorConvergence | a measure every write lowers; repeated runs come to rest |
| OperatorRest | what is true at rest: halted or up, as the spec asks, and provisioned |
| OperatorWorker | `runMongoDB`, `create`, `halt` and the StatefulSet loop as methods, refining the step system |
| HealthRound, HealthRounds | one goroutine's round with clients on the heap; all goroutines under the wait group |
| Upserts, StatefulSetTransform | the list upserts and the StatefulSet transform built from them |
| StatefulSetResult | what the transformed StatefulSet holds, told without the functions it is made of |
| ShardLoop | the shard loop over one shared pod template |
| Offshoots, OffshootSafety, OffshootWorker | secrets and claims from creation to garbage collection |
| OffshootProgress | the secrets get created and referenced, a deleted object gets released |
| WipeOut | which secrets a WipeOut targets |
| TLSUsers, Halt | user creation over all shards; what a halt deletes and keeps |

Three results differ from what the repository's comments suggest, and are stated exactly:

- The look-up on deletion (`doExternalThingsBeforeDelete`) takes every error of `FindOne` for "no
  entry". The finalizer then goes and the entry stays, exactly when that attempt's look-up failed
  for another reason on an entry that existed (`SchemaTheorems.EntryLeftExactlyOnFailedLookup`).
- The StatefulSet transform applied to its own result changes nothing if and only if no container it
  has just appended keeps a pod-field reference without an API version: the vendored
  `UpsertContainer` fills the version in when it merges and forgets to when it appends
  (`StatefulSetTransform.TransformedTwice`; from the second application on it is always final).
- `Ready` implies `AcceptingConnection` in every stored status even when a halt falls between the two
  writes of a health round, because `SetCondition` drops writes of an older generation
  (`OperatorSafety.ReadyImpliesAccepting`). A failed ping, on the other hand, leaves an earlier
  `Ready` standing (`HealthRound.RoundTellsTheTruth`).

## Model

| member | source | states |
|---|---|---|
| Conditions.GetCondition | vendor/kmodules.xyz/client-go/api/v1/conditions.go:95-103 | the index returned is the first condition of that kind, or -1 exactly if there is none |
| Conditions.SetCondition | vendor/kmodules.xyz/client-go/api/v1/conditions.go:107-127 | the list grows by one exactly if the kind was absent |
| Conditions.RemoveCondition | vendor/kmodules.xyz/client-go/api/v1/conditions.go:130-137 | one entry less if the kind was present, otherwise the list as it was |
| Conditions.SetKeepsUniqueKinds | vendor/kmodules.xyz/client-go/api/v1/conditions.go:107-127 | a list with one condition per kind stays one |
| Conditions.RemoveKeepsUniqueKinds | vendor/kmodules.xyz/client-go/api/v1/conditions.go:130-137 | a removal keeps kinds unique, and the kind is gone |
| Conditions.SetInstalls | vendor/kmodules.xyz/client-go/api/v1/conditions.go:107-127 | a write not older than the stored condition is what the list then holds |
| Conditions.SetFramesOtherKinds | vendor/kmodules.xyz/client-go/api/v1/conditions.go:107-127 | other kinds keep presence, truth, position and content |
| Conditions.RemoveFramesOtherKinds | vendor/kmodules.xyz/client-go/api/v1/conditions.go:130-137 | other kinds keep presence and truth |
| Conditions.SetTrueIsMonotone | vendor/kmodules.xyz/client-go/api/v1/conditions.go:107-149 | writing true never makes any condition false |
| SchemaStatus.DatabaseStatus.Record | schema-manager-related/mongodbdatabase_helpers.go:49-68 | the scan for the generation and the assignment yield the specified list |
| SchemaStatus.NextGenerationIsLocal | schema-manager-related/mongodbdatabase_helpers.go:50-59 | with unique kinds the generation is the stored one, plus one on a status flip, or 1 |
| SchemaStatus.ConditionHistory | schema-manager-related/mongodbdatabase_helpers.go:49-68 | after any calls on an empty list each kind occurs once, with the last call's status and reason and generation 1 + flips |
| SchemaStatus.FlipParity | schema-manager-related/mongodbdatabase_helpers.go:49-68 | with true and false only, an even number of flips means "as first set" |
| SchemaStatus.GenerationParity | schema-manager-related/mongodbdatabase_helpers.go:49-68 | hence an odd generation tells that the status is the first one set |
| SchemaStatus.VerdictIsMembership | schema-manager-related/helpers.go:58-67 | on unique kinds the final scan says Failed exactly if the failed restore reason is in the list |
| SchemaStatus.PhaseIgnoresOrder | schema-manager-related/helpers.go:27-68 | the phase depends on which conditions are in the list, not on their order |
| SchemaStatus.TrueNeverLowersRank | schema-manager-related/helpers.go:27-68 | setting any condition true never moves the phase back |
| SchemaStatus.PhaseThresholds | schema-manager-related/helpers.go:27-56 | each rank is reached exactly when its conditions are true |
| SchemaStatus.FailedExactlyWhenRestoreFailed | schema-manager-related/helpers.go:27-68 | in restore mode Failed means all eight conditions true and the failed reason; Succeeded the same without it |
| SchemaStatus.FinalPhaseNeedsTheJob | schema-manager-related/helpers.go:52-68 | outside restore mode a final phase means five conditions true and a recorded job done |
| SchemaSafety.RunKeepsInv | schema-manager-related/mongodbdatabase_controller.go:75-103 | every run keeps the invariant tying versions, entry, finalizer, children and conditions of every resource |
| SchemaSafety.ActKeepsInv | schema-manager-related/mongodbdatabase_controller.go:75-297 | one step of one worker keeps it for all resources |
| SchemaSafety.StepKeepsShape | schema-manager-related/mongodbdatabase_controller.go:75-297 | deletion never clears, and the worker's copy fits the place in the code |
| SchemaSafety.RegisterKeepsOwned | schema-manager-related/mongodbdatabase_controller.go:405-474 | registering keeps entry, finalizer and the right to drop in step |
| SchemaSafety.DeleteKeepsOwned | schema-manager-related/mongodbdatabase_controller.go:371-398 | so does every step of the deletion |
| SchemaSafety.StepKeepsParented | schema-manager-related/mongodbdatabase_controller.go:186-272 | no step makes a child before the ones it presupposes |
| SchemaTheorems.DropSafety | schema-manager-related/mongodbdatabase_controller.go:371-444 | in every run a drop goes back to a listing by the same resource that saw no collections, its entry not deleted since |
| SchemaTheorems.PopulatedIsNeverDropped | schema-manager-related/mongodbdatabase_controller.go:371-444 | a resource that only ever saw collections never causes a drop |
| SchemaTheorems.DropPrecedesEntryRemoval | schema-manager-related/mongodbdatabase_controller.go:382-396 | the drop comes right before the entry's removal, nothing of that resource in between |
| SchemaTheorems.NoDropAfterEntryRemoval | schema-manager-related/mongodbdatabase_controller.go:371-398 | once its entry is gone a resource never drops again |
| SchemaTheorems.UndroppedDataStays | schema-manager-related/mongodbdatabase_controller.go:371-444 | a database nobody drops and no outsider writes holds what it held at the start |
| SchemaTheorems.FinalizerImpliesEntry | schema-manager-related/mongodbdatabase_controller.go:453-474 | finalizer on and not being deleted: the entry is there |
| SchemaTheorems.EntryLeftExactlyOnFailedLookup | schema-manager-related/mongodbdatabase_controller.go:379-398 | the finalizer goes with the entry left behind if and only if that attempt's look-up failed on an existing entry |
| SchemaTheorems.ChildChain | schema-manager-related/mongodbdatabase_controller.go:186-272 | job or restore session imply account and request, those imply engine and role, those imply finalizer or deletion; the account is a subject exactly once |
| SchemaTheorems.RestoreRunsMakeNoJob | schema-manager-related/mongodbdatabase_controller.go:221-243 | a run with restore set never creates the job |
| SchemaTheorems.ConcludedPhase | schema-manager-related/mongodbdatabase_controller.go:95-103 | what the phase written at the end of a run means, with and without restore |
| SchemaDeletion.BothReadyIsIdempotent | schema-manager-related/mongodbdatabase_controller.go:150-180 | looking at both healthy servers twice records what looking once does |
| SchemaDeletion.StepCloser | schema-manager-related/mongodbdatabase_controller.go:105-147 | a fault-free step of a pending deletion strictly shortens the distance to its end |
| SchemaDeletion.OthersLeaveItAlone | schema-manager-related/mongodbdatabase_controller.go:371-444 | no step of another resource and no outside writer touches a resource or its entry |
| SchemaDeletion.CalmRunFinishes | schema-manager-related/mongodbdatabase_controller.go:453-490 | interleaved with anything else, n fault-free steps bring a deletion n steps closer |
| SchemaDeletion.DeletionCompletes | schema-manager-related/mongodbdatabase_controller.go:453-490 | after a crash anywhere in any run, sixteen fault-free worker steps end with entry absent and finalizer removed |
| SchemaDeletion.UnderWayGoesWell | schema-manager-related/mongodbdatabase_controller.go:75-103 | a fault-free step of an attempt under way ends it or brings its end closer, and does not bring it to the brink |
| SchemaDeletion.DeletionCompletesExactly | schema-manager-related/mongodbdatabase_controller.go:453-490 | without a crash, from the middle of any attempt: twenty-four fault-free steps finish a pending deletion if and only if that attempt's look-up has not failed on an existing entry with its update about to go through |
| SchemaDeletion.FailedLookupOrphansTheEntry | schema-manager-related/mongodbdatabase_controller.go:379-398 | wherever the look-up is due on a current version, an error there and a successful update leave the entry behind |
| SchemaDeletion.FailedLookupHappens | schema-manager-related/mongodbdatabase_controller.go:379-398 | for every empty database and every spec with policy Delete a run from the start that gets there |
| SchemaProgress.StepOnward | schema-manager-related/mongodbdatabase_controller.go:75-297 | a step that goes well completes what was asked for, or brings it strictly closer; the specification stays |
| SchemaProgress.ProvisioningCompletes | schema-manager-related/mongodbdatabase_controller.go:75-297 | from any reachable point between two attempts, twenty-seven steps that go well end with the finalizer, the five restore children or the init job, all conditions true and a final phase, whatever other resources and writers do meanwhile |
| SchemaReconciler.Reconciler.GetMongoDBAndVaultServer | schema-manager-related/mongodbdatabase_controller.go:105-147 | goes on exactly to where the copy routes it, with conditions and phase stored; the attempt still ends where the step system ends it |
| SchemaReconciler.Reconciler.Get | schema-manager-related/mongodbdatabase_controller.go:77-84 | the copy is a stored version, not older than the one read before, and the cache moves up to it |
| SchemaReconciler.Reconciler.CheckServers | schema-manager-related/mongodbdatabase_controller.go:113-141 | goes on exactly if both servers were found and ready; then the two conditions tell how healthy they are |
| SchemaReconciler.Reconciler.NoteServers | schema-manager-related/mongodbdatabase_controller.go:113-141 | both conditions as true as the servers were healthy, ready exactly if both were found and ready |
| SchemaReconciler.RecordedTells | schema-manager-related/mongodbdatabase_helpers.go:49-68 | a recorded condition is what the list then says of its kind, and of no other |
| SchemaReconciler.Reconciler.StatusFor | schema-manager-related/mongodbdatabase_controller.go:150-180 | the kind becomes true exactly if the object was found and healthy; every other kind keeps presence and truth, kinds stay unique |
| SchemaReconciler.Reconciler.StatusForRestoreSession | schema-manager-related/mongodbdatabase_controller.go:1144-1163 | the restore condition is true exactly if the session failed or succeeded, the failed reason stands exactly for failed; other kinds keep theirs |
| SchemaReconciler.Reconciler.Patched | schema-manager-related/mongodbdatabase_controller.go:285-292 | the last version carries the given status and its old spec, finalizer and deletion mark; a new version is made exactly if the status differs |
| SchemaReconciler.Reconciler.UpdateSchemaMongoDBDatabaseStatus | schema-manager-related/mongodbdatabase_controller.go:274-297 | on success the stored status is the copy's, its phase computed from those conditions or Ignored; the attempt still ends where the step system ends it |
| SchemaReconciler.Reconciler.DoExternalThingsBeforeDelete | schema-manager-related/mongodbdatabase_controller.go:371-398 | on success the entry is gone, unless the look-up failed; the attempt still ends where find, drop, delete in this order end it |
| SchemaReconciler.Reconciler.FindEntry | schema-manager-related/mongodbdatabase_controller.go:379-382 | found exactly if the look-up had no error and the entry is on the server |
| SchemaReconciler.Reconciler.DropDatabase | schema-manager-related/mongodbdatabase_controller.go:384-388 | on success the database is gone and the drop is noted, otherwise the attempt is over where the step system ends it |
| SchemaReconciler.Reconciler.DeleteEntry | schema-manager-related/mongodbdatabase_controller.go:389-396 | on success the entry is gone and that is noted |
| SchemaReconciler.Reconciler.EnsureEntryIntoDatabase | schema-manager-related/mongodbdatabase_controller.go:405-444 | on success the entry is on the server and the copy unchanged; otherwise the attempt is over, marked Ignored where the step system marks it |
| SchemaReconciler.Reconciler.ListCollections | schema-manager-related/mongodbdatabase_controller.go:415-425 | empty exactly if the server holds no collection in that database, and that is noted |
| SchemaReconciler.Reconciler.UpsertEntry | schema-manager-related/mongodbdatabase_controller.go:427-443 | on success the entry is on the server |
| SchemaReconciler.Reconciler.EnsureOrDeleteFinalizer | schema-manager-related/mongodbdatabase_controller.go:453-490 | goes forward only with the finalizer on the copy, or under deletion with a policy other than Delete |
| SchemaReconciler.Reconciler.UpdateAddingFinalizer | schema-manager-related/mongodbdatabase_controller.go:464-469 | on success the version read was the last, the next one carries the finalizer and is the copy |
| SchemaReconciler.Reconciler.UpdateRemovingFinalizer | schema-manager-related/mongodbdatabase_controller.go:480-485 | on success the version read was the last, the next one has no finalizer, the object goes unless others hold it, and the release is noted |
| SchemaReconciler.Reconciler.EnsureSecretEngine | schema-manager-related/mongodbdatabase_controller.go:493-541 | on success the engine is among the children and its condition as true as it was found healthy |
| SchemaReconciler.Reconciler.EnsureMongoDBRole | schema-manager-related/mongodbdatabase_controller.go:543-582 | the role is among the children and its condition tells its health; goes on only if engine and role both succeeded |
| SchemaReconciler.Reconciler.EnsureServiceAccount | schema-manager-related/mongodbdatabase_controller.go:585-603 | the account is added to the children exactly on success |
| SchemaReconciler.Reconciler.UpsertSubject | schema-manager-related/mongodbdatabase_controller.go:623-637 | the account is a subject afterwards, exactly once if it was at most once, and no subject is lost |
| SchemaReconciler.Reconciler.EnsureSecretAccessRequest | schema-manager-related/mongodbdatabase_controller.go:610-673 | approved exactly if the process lives and the answer is a request that succeeded; then the request is among the children, the account among its subjects, and the condition tells its health; with granting replies it is approved |
| SchemaReconciler.Reconciler.PutAccessRequest | schema-manager-related/mongodbdatabase_controller.go:610-650 | on success the request is among the children and the account among its subjects; without auto-approval its condition is recorded from the same read |
| SchemaReconciler.Reconciler.AutoApprove | schema-manager-related/mongodbdatabase_controller.go:651-672 | approved exactly if the process lives and the fresh read says so, recorded as a condition; nothing else of the resource changes |
| SchemaReconciler.Reconciler.GetSingleCredential | schema-manager-related/mongodbdatabase_controller.go:207-221 | goes on exactly if the credential was read, to restore or init as the spec says |
| SchemaReconciler.Reconciler.EnsureAccess | schema-manager-related/mongodbdatabase_controller.go:186-221 | goes on only with engine, role, account and request among the children and the account a subject, and does go on whenever the replies grant all of it |
| SchemaReconciler.Reconciler.CopyRepositoryAndSecret | schema-manager-related/mongodbdatabase_controller.go:910-983 | both children and the condition on success; the secret never without the repository, the condition never without both |
| SchemaReconciler.Reconciler.EnsureAppBinding | schema-manager-related/mongodbdatabase_controller.go:985-1056 | the binding and its condition on success, whether or not the auth secret was copied |
| SchemaReconciler.Reconciler.EnsureRestoreSession | schema-manager-related/mongodbdatabase_controller.go:1093-1142 | the session is among the children and its condition true exactly if it is over |
| SchemaReconciler.Reconciler.ReadInitJob | schema-manager-related/mongodbdatabase_controller.go:241-250 | the job is recorded as seen, its condition as true as it was healthy; ends exactly on an initialized spec |
| SchemaReconciler.Reconciler.MakeTheInitJob | schema-manager-related/mongodbdatabase_controller.go:251-270 | a job is made exactly if there is a script and the call went through, noted and its condition recorded |
| SchemaReconciler.Reconciler.RunMongoSchema | schema-manager-related/mongodbdatabase_controller.go:186-272 | ends at the last status patch unless the process dies, and the attempt still ends where the step system ends it |
| SchemaReconciler.Reconciler.Reconcile | schema-manager-related/mongodbdatabase_controller.go:75-103 | for every script of replies and outside events the cluster afterwards is exactly the one the step system comes to, so its invariant holds |
| OperatorSafety.LookSet | vendor/kmodules.xyz/client-go/api/v1/conditions.go:107-127 | what a set makes of every single kind |
| OperatorSafety.BothFalseIsGood | mongodb-pkg-controller-related/health.go:267-296 | taking both conditions down keeps Ready no newer than AcceptingConnection, and down with it |
| OperatorSafety.ReadyIsGood | mongodb-pkg-controller-related/health.go:301-322 | writing Ready true after AcceptingConnection keeps that too, a newer halt in between included |
| OperatorSafety.HaltIsNoRound | mongodb-pkg-controller-related/health.go:97-99 | a halt and a health round never share a generation, because rounds skip halted versions |
| OperatorSafety.HaltShows | mongodb-pkg-controller-related/mongodb.go:264-296 | a halt shows as halted, not accepting, not ready, Provisioned kept, if none of these three kinds is stored with a newer generation |
| OperatorSafety.HaltIsAllowed | mongodb-pkg-controller-related/mongodb.go:252-300 | in every run a worker step takes a StatefulSet away, or makes the status say halted, only on a copy with halted set and termination policy Halt |
| OperatorSafety.RunKeepsStored | mongodb-pkg-controller-related/workqueue.go:72-199 | every run keeps the invariant of versions, generations and conditions |
| OperatorSafety.ReadyImpliesAccepting | mongodb-pkg-controller-related/health.go:113-322 | Ready implies AcceptingConnection in every status any run stores |
| OperatorOrder.RunKeepsOrder | mongodb-pkg-controller-related/mongodb.go:59-246 | every run keeps the invariant about the order of things |
| OperatorOrder.BringUpOrder | mongodb-pkg-controller-related/statefulset.go:107-138 | for every number of shards, the first time mongos is touched that same call of create had seen config servers and all shards ready |
| OperatorOrder.ProvisionedIsEarned | mongodb-pkg-controller-related/mongodb.go:144-213 | Provisioned is written only on a copy with ReplicaReady, AcceptingConnection and Ready true and, if it waits for a restore, DataRestored true; mongos was up; the first write is the first |
| OperatorOrder.ProvisionedExactlyWhenWritten | mongodb-pkg-controller-related/mongodb.go:189-213 | the condition is stored exactly if some run wrote it |
| OperatorOrder.InitializedAfterProvisioned | mongodb-pkg-controller-related/mongodb.go:228-242 | the init is marked done only on a provisioned copy, after the condition was first written |
| OperatorConvergence.HaltedTwice | mongodb-pkg-controller-related/mongodb.go:264-296 | writing the halted conditions again changes nothing |
| OperatorConvergence.StepProgress | mongodb-pkg-controller-related/workqueue.go:99-196 | a step of an undisturbed worker changes nothing stored or lowers the measure |
| OperatorConvergence.RunLowersMeasure | mongodb-pkg-controller-related/workqueue.go:99-196 | so does a whole run, whatever calls succeed |
| OperatorConvergence.SameStoredSameRun | mongodb-pkg-controller-related/workqueue.go:72-199 | a run depends on nothing but what is stored |
| OperatorConvergence.ComesToRest | mongodb-pkg-controller-related/workqueue.go:99-196 | after as many runs as the measure says no further run changes object or StatefulSets |
| OperatorConvergence.EveryRunCanRest | mongodb-pkg-controller-related/workqueue.go:72-199 | from every reachable state between two runs |
| OperatorConvergence.MeasureIsBounded | mongodb-pkg-controller-related/statefulset.go:366-379 | rest is at most shards + 257 changing runs away |
| OperatorRest.RunKeepsRestInv | mongodb-pkg-controller-related/workqueue.go:72-199 | every run keeps the invariant that no condition a halt writes is stored with a generation newer than the object's |
| OperatorRest.RestMeansDone | mongodb-pkg-controller-related/workqueue.go:72-199 | calls that go through and a run that changes nothing: everything the object asks for has been done |
| OperatorRest.EverythingGetsDone | mongodb-pkg-controller-related/workqueue.go:72-199 | from every reachable state, after as many runs as the measure says, with calls that go through and StatefulSets that come back ready: finalizer and phase; halted with policy Halt: no StatefulSet left and HALTED true; not halted: HALTED gone, secrets referenced, all StatefulSets there, Provisioned once it has shown ready, init done |
| OperatorWorker.Controller.AddFinalizer | mongodb-pkg-controller-related/workqueue.go:100-106 | on success the copy carries the finalizer: untouched if it did, else the last stored version |
| OperatorWorker.Controller.UpdatePhase | mongodb-pkg-controller-related/workqueue.go:111-131 | on success the last version is a stored one with that phase, and the run ends |
| OperatorWorker.Controller.StartProvisioning | mongodb-pkg-controller-related/workqueue.go:133-157 | on success the stored conditions hold ProvisioningStarted, and the run ends |
| OperatorWorker.Controller.RemoveHalted | mongodb-pkg-controller-related/workqueue.go:172-188 | on success the last version is a stored one with the Halted condition removed, and the run ends |
| OperatorWorker.Controller.Process | mongodb-pkg-controller-related/workqueue.go:111-194 | phase, first condition, pause, halt, un-halt or create: a paused copy, or a halted one whose policy is not Halt, changes nothing and makes no call; a halted one with policy Halt and two good replies leaves no StatefulSet and the halted conditions; otherwise create is entered; the attempt still ends where the step system ends it |
| OperatorWorker.Controller.Halt | mongodb-pkg-controller-related/mongodb.go:252-300 | succeeds exactly if both calls do; then no StatefulSet is left and the halted conditions are written with the copy's generation; a deletion that fails partly has taken what it took |
| OperatorWorker.Controller.UpdateHaltedStatus | mongodb-pkg-controller-related/mongodb.go:264-299 | on success the last version is a stored one with the three halted conditions of the copy's generation |
| OperatorWorker.Controller.EnsureAuthSecret | mongodb-pkg-controller-related/secret.go:43-59 | on success the copy has the reference; nothing is written if it had, otherwise the stored spec has it too |
| OperatorWorker.Controller.PatchAuthSecret | mongodb-pkg-controller-related/secret.go:43-59 | succeeds exactly if the call does; then copy and stored spec have the reference |
| OperatorWorker.Controller.EnsureKeyFileSecret | mongodb-pkg-controller-related/secret.go:142-191 | nothing happens where none is required; otherwise copy and stored spec have the reference |
| OperatorWorker.Controller.EnsureStatefulSet | mongodb-pkg-controller-related/statefulset.go:107-118 | on success the StatefulSet exists, made if it was missing, and counts as ready exactly if the call returned it ready |
| OperatorWorker.Controller.EnsureLastStatefulSet | mongodb-pkg-controller-related/statefulset.go:134-155 | on success it exists, and was ready if it was made or changed |
| OperatorWorker.Controller.EnsureShardNode | mongodb-pkg-controller-related/statefulset.go:366-379 | succeeds exactly if every shard's call returns; then one StatefulSet per shard was ensured, in order, and all of them count as ready exactly if each was |
| OperatorWorker.Controller.EnsureTopologyCluster | mongodb-pkg-controller-related/statefulset.go:107-162 | on success config servers, every shard and mongos were ensured in this order, and the first two kinds were all ready unless the copy was provisioned; with good replies it succeeds |
| OperatorWorker.Controller.Reconcile | mongodb-pkg-controller-related/statefulset.go:84-97 | on success mongos or the single StatefulSet exists, by topology |
| OperatorWorker.Controller.EnsureAppBinding | mongodb-pkg-controller-related/mongodb.go:136-158 | goes on only if the copy does not wait for a restore |
| OperatorWorker.Controller.UpdateProvisioned | mongodb-pkg-controller-related/mongodb.go:189-213 | nothing is written unless the copy shows ready and is not provisioned; then the condition is stored and noted with that copy |
| OperatorWorker.Controller.UpdateInitialized | mongodb-pkg-controller-related/mongodb.go:228-242 | written only on a provisioned, uninitialized copy, and then the stored spec says initialized |
| OperatorWorker.Controller.Create | mongodb-pkg-controller-related/mongodb.go:59-246 | wherever create stops, the attempt ends where the step system ends it on the same script |
| OperatorWorker.Controller.RunMongoDB | mongodb-pkg-controller-related/workqueue.go:72-199 | for every script of replies and outside events the cluster afterwards is exactly the one the step system comes to, so the order invariant of every reachable cluster is kept |
| HealthRound.CheckDatabase | mongodb-pkg-controller-related/health.go:102-260 | AcceptingConnection exactly if all N+2 targets (or the one) connect, Ready exactly if all pings succeed as well, otherwise both false and nothing more; every client entered in the ledger meanwhile is closed exactly once |
| HealthRound.CheckShards | mongodb-pkg-controller-related/health.go:132-193 | the same behind the config server's deferred close, returns from inside the shard loop included |
| HealthRound.GetMongoClient | mongodb-pkg-controller-related/health.go:115-119 | a new open client, entered in the ledger, exactly if the target connects |
| HealthRound.PingAndClose | mongodb-pkg-controller-related/health.go:164-174 | the client is closed once, whatever the ping says |
| HealthRound.UpdateErrorAcceptingConnections | mongodb-pkg-controller-related/health.go:267-296 | after a failed connection what reaches the status is right for that round: both down in one write, or nothing |
| HealthRound.UpdateDatabaseReady | mongodb-pkg-controller-related/health.go:301-322 | with all connections and pings standing, what reaches the status is right for that round |
| HealthRound.ReportShards | mongodb-pkg-controller-related/health.go:198-258 | Ready needs every recorded shard ping, the config servers' and mongos' |
| HealthRound.RoundTellsTheTruth | mongodb-pkg-controller-related/health.go:102-260 | an undisturbed round leaves AcceptingConnection as the connections were; Ready goes down with a connection, up with all pings, and otherwise stays |
| HealthRound.RoundRests | mongodb-pkg-controller-related/health.go:102-260 | whatever connects, pings and is stored, the goroutine is through with its round afterwards |
| HealthRounds.WaitMeansAllDone | mongodb-pkg-controller-related/health.go:93-262 | Wait returns exactly when the loop is through and nothing runs; the goroutines of that round are then exactly those of the databases neither halted nor being deleted, all finished, and the next round starts afresh |
| HealthRounds.SkippedAreNotStarted | mongodb-pkg-controller-related/health.go:97-101 | in no run is a goroutine started for a database that is halted or being deleted |
| HealthRounds.RoundEnds | mongodb-pkg-controller-related/health.go:93-262 | from any reachable state the round can come to its end |
| HealthRounds.NoOverlap | mongodb-pkg-controller-related/health.go:93-262 | no two goroutines ever look at the same database at once |
| HealthRounds.FinishedStaysFinished | mongodb-pkg-controller-related/health.go:103-106 | a finished goroutine never runs again |
| Upserts.UpsertEach | vendor/kmodules.xyz/client-go/core/v1/kubernetes.go:111-202 | the loop over entries and additions computes the specified list |
| Upserts.UpsertAllLook | vendor/kmodules.xyz/client-go/core/v1/kubernetes.go:111-252 | what a series of upserts makes of each single name |
| Upserts.UpsertAllSpares | vendor/kmodules.xyz/client-go/core/v1/kubernetes.go:111-252 | other names, places and second entries of a name are left alone |
| Upserts.UpsertAllTwice | vendor/kmodules.xyz/client-go/core/v1/kubernetes.go:111-252 | any series of upserts applied twice equals itself applied once, duplicates on either side included |
| Upserts.UpsertArgumentList | vendor/kmodules.xyz/client-go/meta/arguments.go:28-73 | the two loops with the index map compute the specified list |
| Upserts.PlacesStay | vendor/kmodules.xyz/client-go/meta/arguments.go:28-73 | base arguments keep their places, plain ones their text |
| Upserts.OverridesWin | vendor/kmodules.xyz/client-go/meta/arguments.go:28-73 | every flag ends with the overriding value if there is one, else with the base value |
| StatefulSetTransform.UpsertContainerList | vendor/kmodules.xyz/client-go/core/v1/kubernetes.go:73-109 | container upserts: leaves merged, command, arguments, environment and mounts replaced, versions filled in on merge only |
| StatefulSetTransform.NormalCommutes | vendor/kmodules.xyz/client-go/core/v1/kubernetes.go:232-252 | filling in versions before or after an environment upsert is the same |
| StatefulSetTransform.PassTwice | vendor/kmodules.xyz/client-go/core/v1/kubernetes.go:73-109 | container upserts and the loops after them settle in one pass exactly if what was only appended has its versions |
| StatefulSetTransform.TransformedTwice | mongodb-pkg-controller-related/statefulset.go:895-1001 | the whole transform, any object and any options: twice equals once if and only if the versions are filled in |
| StatefulSetTransform.SecondTimeIsFinal | mongodb-pkg-controller-related/statefulset.go:895-1001 | from the second application on nothing changes, unconditionally |
| StatefulSetTransform.VersionedOptionsSettleAtOnce | mongodb-pkg-controller-related/statefulset.go:895-1001 | options whose references all carry a version settle at once on any object |
| StatefulSetTransform.UnversionedReferenceTakesTwo | mongodb-pkg-controller-related/statefulset.go:911-914 | any options and any object: an init container that only one entry gives, not in the object yet, with an unversioned reference, needs a second application |
| StatefulSetTransform.InstallerDoesNotHelp | mongodb-pkg-controller-related/statefulset.go:911-914 | one such case with the operator's own installer present |
| StatefulSetTransform.UnmanagedIsUntouched | mongodb-pkg-controller-related/statefulset.go:895-1001 | containers, init containers, volumes, claims, owners and fields not managed stay as they are, where they are |
| StatefulSetTransform.StatefulSetObject.UpsertEnv | mongodb-pkg-controller-related/statefulset.go:1281-1321 | the loop changes the environment of exactly the operator's containers |
| StatefulSetTransform.StatefulSetObject.UpsertDataVolume | mongodb-pkg-controller-related/statefulset.go:1194-1275 | mounts on the first database container, volumes or claim by storage type, a panic exactly on durable storage without a claim spec when that container is there; nothing at all without it |
| StatefulSetTransform.StatefulSetObject.UpsertConfigSecretVolume | mongodb-pkg-controller-related/configsource.go:36-69 | argument, installer mount and volume |
| StatefulSetTransform.StatefulSetObject.UpsertOurContainers | mongodb-pkg-controller-related/statefulset.go:911-964 | the container upserts in their order; a database container is there afterwards |
| StatefulSetTransform.StatefulSetObject.EditPodTemplate | mongodb-pkg-controller-related/statefulset.go:966-977 | volumes, environment, data volume and config secret together, a panic exactly on a missing claim spec |
| StatefulSetTransform.StatefulSetObject.Transform | mongodb-pkg-controller-related/statefulset.go:895-1001 | the whole sequence of updates computes the specified object; it panics exactly if durable storage of something other than mongos has no claim spec |
| StatefulSetResult.PassedContainer | vendor/kmodules.xyz/client-go/core/v1/kubernetes.go:73-109 | the first container of a name is the last one asked for of that name, its leaves carried over, then edited |
| StatefulSetResult.DatabaseContainerIsThere | mongodb-pkg-controller-related/statefulset.go:895-1001 | any object, any options: the first database container has the command asked for, each data, configuration and init-script mount unless it is mongos, the config secret's path in --config, for every other flag the user's value before the operator's, every credential variable and the user's environment |
| StatefulSetResult.LaterContainersKeepMounts | mongodb-pkg-controller-related/statefulset.go:1194-1222 | a second container of that name in the object keeps its mounts |
| StatefulSetResult.SidecarsAreThere | mongodb-pkg-controller-related/statefulset.go:920-964 | detector and exporter are there, each as asked for |
| StatefulSetResult.CredentialsAreThere | mongodb-pkg-controller-related/statefulset.go:1281-1321 | every container of ours, second ones of a name included, has each credential variable, versioned |
| StatefulSetResult.ConfigFileIsNamedEverywhere | mongodb-pkg-controller-related/configsource.go:36-69 | with a config secret every database container reads its file |
| StatefulSetResult.InstallersMountTheSecret | mongodb-pkg-controller-related/configsource.go:36-69 | with a config secret every installer mounts it |
| StatefulSetResult.InitContainersAreThere | mongodb-pkg-controller-related/statefulset.go:911-914 | the last init container asked for of each name is there as asked for, the installer with the config secret mounted |
| StatefulSetResult.VolumesAreThere | mongodb-pkg-controller-related/statefulset.go:966-977 | the last volume asked for of each name is there: the pod template's, the configuration directory, the ephemeral data volume, the config secret's |
| StatefulSetResult.ClaimOwnerAndFieldsAreThere | mongodb-pkg-controller-related/statefulset.go:895-1001 | the claim of durable storage, the owner, the scheduler name and all fields written as they are |
| ShardLoop.ParseAffinityTemplate | mongodb-pkg-controller-related/statefulset.go:575-597 | with an affinity the whole template is resolved in place, without one nothing happens, on an error it stays as it was |
| ShardLoop.EnsureShardNode | mongodb-pkg-controller-related/statefulset.go:171-379 | StatefulSet k is built from the user's template with shard k's hook and index; the shared template keeps affinity and the rest, only its hook is the last one written |
| ShardLoop.NoLeakage | mongodb-pkg-controller-related/statefulset.go:275-285 | shard k's hook is its own and no other shard's, its affinity the user's with index k |
| ShardLoop.ResolvesPieceByPiece | mongodb-pkg-controller-related/statefulset.go:575-597 | a template resolves exactly if every variable in it has a value, each piece by itself: SHARD_INDEX to the index, everything else as it was |
| ShardLoop.HookIsInjective | vendor/kubedb.dev/apimachinery/apis/kubedb/v1alpha2/mongodb_helpers.go:68-73 | different shards have different node names and hooks |
| ShardLoop.DefaultAffinityNamesTheShard | vendor/kubedb.dev/apimachinery/apis/kubedb/v1alpha2/mongodb_helpers.go:75-80 | the node template resolved for shard k is shard k's node name |
| OffshootSafety.RunKeepsInv | mongodb-pkg-controller-related/mongodb.go:308-398 | every run keeps the invariant of owner references and program places |
| OffshootSafety.ReleaseOutcome | mongodb-pkg-controller-related/mongodb.go:308-398 | when the finalizer goes: under Halt claims and persistent secrets are free of the object, under other policies secrets are free and claims owned, under WipeOut claims owned and every secret left of those the attempt wiped out, which are exactly the existing, own, managed ones no listed peer uses; after any crashes, retries and policy changes |
| OffshootSafety.WipeOutIsComplete | mongodb-pkg-controller-related/util.go:42-73 | if nobody deletes it, every secret the wipe-out means is owned by the object when the finalizer goes |
| OffshootSafety.OthersKeepTheirs | mongodb-pkg-controller-related/mongodb.go:308-398 | whatever happens, a secret or claim that stays keeps its other owners, and a claim not selected stays as it is |
| OffshootSafety.PersistentSecretsSurvive | mongodb-pkg-controller-related/mongodb.go:340-398 | released without WipeOut, persistent secrets outlive the object, whatever follows |
| OffshootSafety.ClaimsSurviveHalt | mongodb-pkg-controller-related/mongodb.go:375-398 | under Halt so do the claims |
| OffshootSafety.CollectorTakesClaims | mongodb-pkg-controller-related/mongodb.go:362-370 | released without Halt: after anything that follows the collector leaves a handled claim exactly if somebody else owned it too |
| OffshootSafety.PeersAreSpared | mongodb-pkg-controller-related/util.go:42-92 | in every run a worker step gives the object to an existing secret only in a wipe-out, only if the secret is its own and managed, and never if a peer in the listing that step read uses it |
| OffshootSafety.ContentNeverRewritten | mongodb-pkg-controller-related/secret.go:67-95 | no event changes content or labels of a secret that stays |
| OffshootSafety.SecretsAreMadeOnce | mongodb-pkg-controller-related/secret.go:43-191 | over any attempts and crashes each secret is made at most once and keeps its content, if nobody deletes secrets |
| OffshootSafety.ForeignIsNeverAdopted | mongodb-pkg-controller-related/secret.go:101-113 | a reference is written only right after the secret was found with our labels or made |
| OffshootSafety.ForeignEndsTheRun | mongodb-pkg-controller-related/secret.go:101-113 | in no run does the first thing noted after a foreign secret, auth or key file, make or reference anything |
| OffshootSafety.ForeignIsNoticed | mongodb-pkg-controller-related/secret.go:101-113 | both checks notice a foreign secret, note it and leave everything stored as it is |
| OffshootProgress.TerminationCompletes | mongodb-pkg-controller-related/mongodb.go:308-398 | under every policy five steps of a worker that is not killed and whose calls go through release a deleted object, whatever others do |
| OffshootProgress.CreationCompletes | mongodb-pkg-controller-related/secret.go:43-191 | eight such steps leave a live object with its finalizer and references to its secrets, which are there and ours, if no foreign secret has their names |
| OffshootWorker.PatchSecretOwners | mongodb-pkg-controller-related/mongodb.go:351-361 | owner references patched item by item, up to the first failure |
| OffshootWorker.PatchClaimOwners | mongodb-pkg-controller-related/mongodb.go:363-387 | the same by selector, on claims |
| OffshootWorker.Controller.CheckSecret | mongodb-pkg-controller-related/secret.go:101-113 | found exactly if a secret of that name with our labels is there; a foreign one ends the attempt and is noted |
| OffshootWorker.Controller.CreateSecret | mongodb-pkg-controller-related/secret.go:75-95 | on success the secret is there, ours, managed, owned by the object alone, and noted with its content; it fails only if the call does or the name is taken |
| OffshootWorker.Controller.EnsureAuthSecret | mongodb-pkg-controller-related/secret.go:43-95 | on success the copy and the stored spec refer to the auth secret; nothing happens if the copy did |
| OffshootWorker.Controller.EnsureKeyFileSecret | mongodb-pkg-controller-related/secret.go:142-191 | on success the stored spec refers to the key file secret; nothing happens where none is required |
| OffshootWorker.Controller.RemoveOwnerFromClaims | mongodb-pkg-controller-related/mongodb.go:375-387 | on success no matching claim is owned by the object |
| OffshootWorker.Controller.RemoveOwnerFromSecrets | mongodb-pkg-controller-related/mongodb.go:351-361 | on success no persistent secret is owned by the object |
| OffshootWorker.Controller.EnsureOwnerOfClaims | mongodb-pkg-controller-related/mongodb.go:362-370 | on success every matching claim is owned by the object, and is remembered as handled |
| OffshootWorker.Controller.WipeOutSecrets | mongodb-pkg-controller-related/util.go:42-73 | on success exactly the secrets meant over the peers just listed were given the owner, noted with that listing, and are owned by the object |
| OffshootWorker.Controller.Terminate | mongodb-pkg-controller-related/mongodb.go:308-398 | on success what the copy's policy asks of claims and secrets is done, under WipeOut with the secrets just wiped out |
| OffshootWorker.Controller.RunMongoDB | mongodb-pkg-controller-related/workqueue.go:85-98 | for every script the cluster afterwards is one the step system may come to on it, and the invariant holds |
| WipeOut.SecretsUsedByPeers | mongodb-pkg-controller-related/util.go:79-91 | exactly the secrets other-named databases refer to |
| WipeOut.UnusedSecrets | mongodb-pkg-controller-related/util.go:42-65 | exactly the own secrets no peer uses, minus existing unmanaged ones; names without a secret stay in; an error exactly when a candidate cannot be read |
| WipeOut.WipeOutDatabase | mongodb-pkg-controller-related/util.go:42-73 | among existing secrets exactly those get the owner, and no peer's |
| TLSUsers.Servers.CreateTLSUser | mongodb-pkg-controller-related/client.go:94-141 | one target: the user is added only if usersInfo found nobody |
| TLSUsers.Servers.CreateTLSUsers | mongodb-pkg-controller-related/client.go:68-87 | mongos, then every shard, up to the first error |
| TLSUsers.RetriesOnlyAdd | mongodb-pkg-controller-related/client.go:94-141 | over any attempts an existing user is never changed and at most one is added per target |
| TLSUsers.PassingLeavesTheUser | mongodb-pkg-controller-related/client.go:108-138 | a target passed has the user exactly if it had it or usersInfo gave an array |
| TLSUsers.FailedAttemptLeavesAPrefix | mongodb-pkg-controller-related/client.go:68-87 | a failed attempt has the user on every target before the failing one and touches nothing behind it |
| TLSUsers.SuccessCoversAll | mongodb-pkg-controller-related/client.go:68-141 | a successful attempt leaves the user on all N+1 targets exactly unless usersInfo gave no array for one that lacked it |
| TLSUsers.RerunCompletes | mongodb-pkg-controller-related/client.go:68-87 | a fault-free rerun after any failures covers everything |
| Halt.Namespace.DeleteServices | mongodb-pkg-controller-related/dormant.go:176-192 | labelled services go one by one up to the first error |
| Halt.Namespace.DeleteCollections | mongodb-pkg-controller-related/dormant.go:88-173 | seven kinds in their order; a failure leaves exactly a prefix done, and the kind that follows it is the one that failed |
| Halt.Namespace.HaltDatabase | mongodb-pkg-controller-related/dormant.go:83-202 | success leaves exactly what is not labelled or not of the eight kinds; every attempt keeps claims and secrets; it succeeds exactly if none of the eight kinds and no service fails |

## Left out

- Libraries not part of the vendored sources are assumptions: `UpdateMongoDBStatus` and `PatchStatus` are atomic changes of the stored status, `PatchMongoDB` with an empty patch makes no call, `CreateOrPatch` applies the transform to the stored object or an empty one, the dynamic owner-reference helpers patch item by item and pass over missing objects, envsubst replaces variable references in text and nothing else.
- `PhaseFromCondition` is any function of the condition list.
- `metadata.generation` changes exactly with the spec, as the API server keeps it; nobody but the operator writes the conditions ProvisioningStarted, Provisioned, AcceptingConnection, Ready and Halted.
- Condition messages, transition times and the status's observed generation: nothing here reads them.
- Caches: the schema manager and the secrets model read versions that never go back; the operator model reads any earlier version at all.
- `spec.databaseSchema.name` does not change and is not `kubedb-system`; nobody else writes `kubedb-system`. Two resources may both register the same still-empty database.
- Whether a topology is sharded does not change; the number of shards may.
- Children of the schema manager are keyed by resource; deleting them by hand, and their collection after the resource is gone, are not modelled.
- A process that panics (a nil Mongo client closed, a nil `spec.init`), exits (`klog.Fatalf`) or is killed is a crash.
- `Spec.Init.Initialized` set inside `runMongoSchema` is not persisted by the code and not modelled.
- Conditions.SetCondition: the contract gives the length only; what the list then holds is stated by the lemmas beside it.
- SchemaTheorems.ConcludedPhase: for a run that died before looking at the job nothing is said about the job.
- OperatorOrder.BringUpOrder: re-creation of mongos after a halt may bypass the wait, as in the code, and is not covered.
- OperatorConvergence.ComesToRest: the environment is frozen, so every call site keeps answering the same way, and the cache has caught up at the start of each run.
- OperatorRest.EverythingGetsDone: the environment is frozen here too, and nothing is said of an object that is paused, or halted under a policy other than Halt, beyond its finalizer and phase.
- SchemaProgress.ProvisioningCompletes: a spec without restore and without `init` ends the process, as in the code, and is not covered.
- StatefulSetTransform.TransformedTwice: objects are values, so pointers shared between options and result, and the access mode that `upsertDataVolume` writes back into the spec, are not captured; a claim comes with its access mode filled in.
- StatefulSetTransform.UpsertContainerList: merging works on non-empty leaves, one by one; structural corner cases of the merge library are not modelled.
- ShardLoop.EnsureShardNode: arguments, environment and volumes that differ by shard name only are not part of the template, and a template is resolved as text, not through JSON.
- OffshootSafety.ReleaseOutcome: under WipeOut it says nothing about owner references a peer-used secret carried before; the code leaves those.
- WipeOut.WipeOutDatabase: the ownership patches are one step here; item by item they are in OffshootWorker.
- Finalizers of others on the MongoDB object, and a deletion of a MongoDB object while the operator model runs (the Offshoots modules cover deletion).
- Protected flags of `UpsertArgumentList`: no caller passes any.
- Monitoring, RBAC, services, app bindings, certificates, replica set configuration: one fallible step each, no content.
- Passwords, tokens, X.509 and JSON contents: opaque values.
- The loop around a health round never stops on its channel; only single rounds and their sequence are modelled.
- Event handlers and queues: which objects are enqueued when.
