# Verified model of the RHBK operator's realm-import logic

The operator runs Keycloak instances on Kubernetes and imports realms into them. Two controllers
share one cluster. The import controller turns a `KeycloakImport` into a Secret with the expanded
realm document, runs a Job that imports it, and then records the Secret's version as an annotation
on the pod template of the Keycloak StatefulSet, so that the pods restart. The Keycloak controller
rewrites the same StatefulSet. This project models that logic and proves what it keeps under every
interleaving, together with the document pipeline, the environment pipeline and the CPU sizing.

## How the model is built

| file | content |
|---|---|
| `Names.dfy` | keys, labels and annotation keys |
| `Cluster.dfy` | the shared objects and the API-server rules (versioned updates, unique names, finalizers, foreground deletion) |
| `Passes.dfy` | one reconcile pass of each controller as a machine that makes one API call per step |
| `System.dfy` | whole runs: both controllers, users, the Job and StatefulSet controllers and garbage collection, interleaved |
| `Coherence.dfy`, `Rollouts.dfy`, `History.dfy`, `Cleanup.dfy`, `Isolation.dfy`, `Once.dfy`, `Readiness.dfy` | invariants of every reachable state and the safety theorems |
| `QuietPasses.dfy`, `Deletions.dfy`, `Convergence.dfy` | uninterrupted passes in closed form, what a deletion pass achieves, and how far an import is from its final state |
| `Schedules.dfy` | convergence over whole schedules in which everybody else acts, too |
| `Requests.dfy` | the API server as a function from requests to responses, and the pass machines as its clients |
| `ApiServer.dfy`, `Controller.dfy`, `KeycloakController.dfy` | the two controllers as imperative programs against an API server that others change between any two requests; the server knows nothing of the pass it serves, the programs compute every request, and they are proved to make those of the pass machine in that order, so that the theorems about runs are theorems about them |
| `FirstSteps.dfy`, `MovedImports.dfy`, `SharedSecrets.dfy` | runs and inputs that show where the operator falls short |
| `Wakeup.dfy` | event handlers and update filters |
| `RealmDocument.dfy` | JSON escaping (section 7 of RFC 8259) and template expansion |
| `Environment.dfy` | container environment and its rewriting for the import Job |
| `Float64.dfy`, `Sizing.dfy`, `SizingLaws.dfy` | round-to-nearest binary64 (section 4.3.1 of IEEE 754-2019) and the sizing arithmetic |

A run is a sequence of actions; `System.Exec(run)` is the state it leads to from the empty cluster.
Everything that is not determined by the code is part of the actions: the order in which list
entries are handled, whether a call fails, when a controller crashes, what users and the other
controllers do. A reachable state is `Exec(run)` for some run, and the safety theorems quantify over
all runs.

Assumptions: there is at most one pass per import and per Keycloak at a time; reads see the current
store; object names contain no slash; users never remove the operator's finalizer; a Secret or Job
that somebody else writes carries an owner label only when it replaces a Secret that had the same
labels; every substitution names a Secret; a completed Job stays completed; others change a
StatefulSet only in its status, or delete it; no import is named like a version that a reserved
import (see below) writes over one of its owner labels. Convergence assumes in addition that no
substitution of the import reads the import Secret itself and that its Job does not fail.

## What the code does not do

Each of these is a lemma about all inputs of its kind. Where the expected property holds under a
condition, the theorem that states it has that condition.

- The import named `realm.stakater.com` in namespace `owner` or `namepsace` overwrites one of the
  owner labels of its own Jobs with the version (`Names.JobLabelsOwned`, `Names.ReservedImports`).
  Its Job then wakes not this import but the one whose name or namespace is spelt like the version
  (`Wakeup.JobWakesItsImport`).
- A value with a PEM marker is placed unescaped. It survives exactly when it consists of characters
  that need no escape (`RealmDocument.EscapeRoundTrip`); no value with a marker and a line break does
  (`RealmDocument.PemWithLineBreak`, and `RealmDocument.PemLineIsLost` for keys and certificates).
- A StatefulSet that has just been created counts as ready, with no pod at all
  (`FirstSteps.NewSetCountsAsReady`). A Keycloak turns ready only on a StatefulSet whose ready
  replicas equal its replicas, so a pod is ready exactly if there are replicas
  (`Readiness.KeycloakReadyHasEvidence`).
- An import is reported ready while its Job is running or has failed
  (`Convergence.UnfinishedJobReportedReady`, `Convergence.FailedJobReportedReady`, and `FirstSteps.ReadyWhileRunning` for such a run). The
  version is then recorded exactly if the Job had completed or it was recorded before
  (`Readiness.ReadyHasEvidence`). A failed Job is not replaced until the expansion changes.
- Imports of the same name that target one namespace delete each other's Jobs as stale
  (`Isolation.NamesakeJobs`) and take turns in rewriting the Secret they share
  (`SharedSecrets.NamesakeSecrets`, `SharedSecrets.NamesakesTakeTurns`).
- An import whose substitution reads the realm document of its own Secret embeds that document in
  itself: every pass writes a new and longer version (`SharedSecrets.NeverFresh`,
  `SharedSecrets.EveryPassWrites`).
- Deletion only looks at the present target namespace, so an import whose target was edited leaves
  its Secrets and Jobs in the old one (`Deletions.OldNamespaceIsForgotten`); `Cleanup.NoOrphans`
  assumes that the namespace is not edited. If it is edited while the import is being deleted, a
  version can get a second Job (`MovedImports.SecondJobForOneVersion`); other edits do no harm there
  (`Once.AtMostOneJobPerVersion`).
- A Secret that sits at the place of the import Secret without naming the import as its owner can be
  exchanged for another such Secret, appear or disappear without waking the import
  (`Wakeup.SquattersGoUnnoticed`).
- The CPU request can be one millicore below the exact floor, but only when the exact share is a
  whole number of millicores (`Sizing.FloatError`, `SizingLaws.OneShort`).

## Model

| member | source | states |
|---|---|---|
| `Names.AnnotationKeyInjective` | internal/resources/realm/realm_import_job.go:31-33 | on slash-free names, `name/namespace` identifies the import |
| `Names.VersionLabelInjective` | internal/resources/realm/realm_import_job.go:31-43 | different imports record their versions under different labels, none of which is the `app` label |
| `Names.JobLabelsOwned` | internal/resources/realm/realm_import_job.go:40-43 | a Job always keeps its version label, and it carries both owner labels exactly when its import is not one of the reserved ones; versions and names kept apart, it matches no other import's owner selector or version |
| `Names.ReservedImports` | internal/constants/labels.go:4-5 | exactly two imports have an annotation key equal to an owner label key |
| `Cluster.CompletedExactly` | internal/resources/utils.go:34-42 | a Job counts as completed exactly if some condition is a true Complete with no Complete before it; a Job that has only failed does not |
| `Passes.StepHolds` | internal/controller/keycloakimport_controller.go:120-188 | whatever version and Jobs a pass holds after a call, it held before or has just read or written |
| `Passes.ImportWrite` | internal/controller/keycloakimport_controller.go:90-103 | finalizer and status calls only store or drop the import itself |
| `Coherence.ReachableCoherent` | internal/controller/keycloakimport_controller.go:66-188 | in every reachable state: versions never run ahead of the counter; what a pass has read is current or older; a working pass has its finalizer stored, a cleaning pass works on a deleting import |
| `Rollouts.ReachableVersions` | internal/controller/keycloakimport_controller.go:130-198 | in every reachable state the recorded version is at most the version of any pass at work, which is at most the Secret's |
| `Rollouts.NoLostRollout` | internal/controller/keycloakimport_controller.go:190-198 | no call of anybody drops a recorded annotation or lowers its version while the StatefulSet exists |
| `Rollouts.NoLostRolloutOverRuns` | internal/resources/rhbk/statefulset.go:193-197 | the same over whole runs, through every interleaving with the Keycloak controller's rebuilds |
| `Rollouts.KeycloakUnrecorded` | internal/resources/rhbk/statefulset.go:363-372 | a step of the Keycloak controller neither records, drops nor changes an import's annotation |
| `Rollouts.StaleJobNeverRolledOut` | internal/controller/keycloakimport_controller.go:150-185 | a pass that began after the Secret reached a version never rolls out an older one |
| `History.ReachableHistory` | internal/controller/keycloakimport_controller.go:105-187 | everything a pass holds it saw since it began, and everything recorded was imported by a completed Job |
| `History.RolloutSafety` | internal/controller/keycloakimport_controller.go:178-185 | if the template carries version v for an import, a Job of that import labelled v had a true Complete condition, the first of its kind, in that namespace |
| `Cleanup.ReachableClean` | internal/controller/keycloakimport_controller.go:79-103 | Secrets and live Jobs with the owner labels exist only while the finalizer is stored, and only in the target namespace; cleanup progress is exact at each stage |
| `Cleanup.NoOrphans` | internal/controller/keycloakimport_controller.go:200-231 | once the import is gone, no Secret carries its owner labels and every Job that does is terminating |
| `Cleanup.DeletionIsTerminal` | internal/controller/keycloakimport_controller.go:80-103 | a pass that read a deleting import creates and changes no Secret, creates no Job, leaves StatefulSets alone, and its attempt to add the finalizer back fails and ends it |
| `Isolation.ReachableSeparate` | internal/controller/keycloakimport_controller.go:139-161 | in every reachable state an owner label tells the name of its object, and what a pass has listed is its own Secret or Job name |
| `Isolation.StepConfined` | internal/controller/keycloakimport_controller.go:130-231 | one step changes at most the one Secret, the one Job, the import itself and its own annotation |
| `Isolation.StepsAreIsolated` | internal/controller/keycloakimport_controller.go:195-228 | in every reachable state, a step of one import leaves the import, Secrets, Jobs and annotations of every differently named import as they were |
| `Isolation.NamesakeJobs` | internal/controller/keycloakimport_controller.go:139-161 | a pass lists another import's Job exactly when the names agree, and then always deletes it |
| `Isolation.JobNameInjective` | internal/resources/realm/realm_import_job.go:19-21 | Job names identify import names |
| `Once.ReachableSound` | internal/controller/keycloakimport_controller.go:139-176 | while the target namespace is not edited during deletion, no namesake works there and nobody else deletes the Job: no Job is ahead of the Secret or of the pass, listed Jobs carry the labels of the stored ones, and a deletion pass does not miss the import Secret |
| `Once.HeldIsSpent` | internal/controller/keycloakimport_controller.go:150-176 | a version recorded on a Job is spent: the Job is there and live, or Secret and passes are past it, or the import is being deleted |
| `Once.AtMostOneJobPerVersion` | internal/controller/keycloakimport_controller.go:163-176 | over any such run, a version for which the Job was created once never gets a second one, wherever the import is moved in the meantime |
| `MovedImports.SecondJobForOneVersion` | internal/controller/keycloakimport_controller.go:79-103 | a run from the empty cluster, for every import and Keycloak, in which the target is edited during deletion, nobody deletes a Job, no other import is around, and a version gets a second Job |
| `Readiness.ReachableReady` | internal/controller/keycloakimport_controller.go:178-187 | while a pass is in progress nobody else changes what its StatefulSet records for its import |
| `Readiness.ReadyHasEvidence` | internal/controller/keycloakimport_controller.go:116-187 | a pass that reports ready saw a ready Keycloak, the Secret at a version and a Job labelled with that version; the annotation on the StatefulSet equals that version if and only if the Job was complete or it equalled it when the StatefulSet was read |
| `Readiness.CompletedMeansRecorded` | internal/controller/keycloakimport_controller.go:178-187 | a pass that reports ready on a completed Job leaves its very version as the annotation of the StatefulSet it read |
| `Readiness.OnlyReportsMakeReady` | api/v1alpha1/condition.go:34-45 | nothing but such a report turns an import ready |
| `Readiness.KeycloakReadyHasEvidence` | internal/controller/keycloak_controller.go:95-120 | whenever a Keycloak turns ready, a pass of it saw, since it began, the StatefulSet built for the spec it read with readyReplicas equal to replicas, so with a ready pod if and only if it has replicas |
| `FirstSteps.NewSetCountsAsReady` | internal/resources/utils.go:44-50 | the five actions after which every new Keycloak is reported ready with no pod |
| `FirstSteps.ReadyWhileRunning` | internal/controller/keycloakimport_controller.go:150-187 | a run from the empty cluster that reports an import ready with its Job unfinished and nothing recorded |
| `FirstSteps.FirstArtefactsSpelt` | internal/resources/realm/realm_import_job.go:112-122 | names, labels and content of the Secret and the Job that the first pass of an import leaves, spelt out |
| `Convergence.UnfinishedJobReportedReady` | internal/controller/keycloakimport_controller.go:150-187 | a Job of the current version that has not completed, even a failed one, is left alone by every pass, which reports ready and changes nothing else |
| `Convergence.FailedJobReportedReady` | internal/controller/keycloakimport_controller.go:150-187 | in particular for a Job with a true Failed condition and no Complete condition |
| `QuietPasses.RunPassIsRun` | internal/controller/keycloakimport_controller.go:66-188 | an uninterrupted pass ends, and its outcome is the outcome of a run of the system |
| `QuietPasses.RunWork` | internal/controller/keycloakimport_controller.go:105-188 | its effect in closed form when the inputs are there and no foreign Job is in the way: settle the Secret, then create, delete, roll out or report |
| `QuietPasses.RunBlocked` | internal/controller/keycloakimport_controller.go:105-137 | when an input is missing or does not expand, the pass reports the reason and does nothing else; otherwise it has all inputs |
| `QuietPasses.FetchedExactly` | internal/resources/realm/realm_import_secret.go:45-64 | every variable has the escaped value of its Secret key in the import's namespace, the last mention of a name winning and a missing key counting as empty |
| `Deletions.DeletionCompletes` | internal/controller/keycloakimport_controller.go:79-103 | an undisturbed deletion pass removes exactly the owned Secrets of the present target namespace, marks exactly the owned Jobs there, and removes the finalizer, and the import if that was its last |
| `Deletions.OldNamespaceIsForgotten` | internal/resources/realm/realm_import_secret.go:87-95 | a Secret or Job in any other namespace outlives the import, whatever its labels |
| `Convergence.RankZeroIsFinal` | internal/controller/keycloakimport_controller.go:97-188 | the rank is zero exactly in the final state (finalizer, Secret equal to the expansion, Job with a true Complete condition labelled with its version, annotation equal to its version, status ready), and at most fifteen |
| `Convergence.PassProgress` | internal/controller/keycloakimport_controller.go:97-188 | a pass stores the finalizer, makes the Secret equal to the expansion, advances a stale, missing or completed Job by one stage, reports ready as soon as the Job is there, and after a completed current Job leaves the annotation equal to the Secret's version, whatever it was before |
| `Convergence.FinalIsStable` | internal/controller/keycloakimport_controller.go:178-187 | once nothing is left to do, a further pass reports ready and rewrites nothing but the status |
| `Convergence.UnchangedExpansion` | internal/resources/realm/realm_import_secret.go:66-85 | a pass with an unchanged expansion writes no new version and leaves a Job of that version alone |
| `Schedules.BystanderKeeps` | internal/controller/keycloakimport_controller.go:97-188 | any action of somebody else (steps of other imports' passes and of the Keycloak controller, crashes, users, cluster controllers) that leaves the import, its Secret, its Job and its inputs alone keeps it settled at the same rank |
| `Schedules.RoundProgress` | internal/controller/keycloakimport_controller.go:97-188 | the rank never rises; the awaited round (pass, collection of the Job, success of the Job) lowers it, and it stays awaited until it happens |
| `Schedules.FailedStays` | internal/controller/keycloakimport_controller.go:150-187 | the round in which a Job succeeds leaves a failed one alone |
| `Schedules.Converges` | internal/controller/keycloakimport_controller.go:97-188 | every fair schedule, with any such actions of others in between, reaches the final state, status ready included |
| `Schedules.PlayBlocksIsRun` | internal/controller/keycloakimport_controller.go:66-188 | every schedule is a run of the system |
| `Schedules.ReachableSettled` | internal/controller/keycloakimport_controller.go:97-188 | every state an orderly run reaches is settled as soon as the inputs are provided |
| `Schedules.ReachableConverges` | internal/controller/keycloakimport_controller.go:97-188 | from every such state, every fair schedule continues the run into the final state |
| `SharedSecrets.NeverFresh` | internal/resources/realm/realm_import_secret.go:45-85 | an import that embeds its own document finds its Secret out of date in every cluster |
| `SharedSecrets.EveryPassWrites` | internal/resources/realm/realm_import_secret.go:45-85 | each of its passes writes a new version with a longer document |
| `SharedSecrets.NamesakeSecrets` | internal/resources/realm/realm_import_secret.go:37-43 | namesakes with one target namespace share one Secret, which is out of date for at least one of them |
| `SharedSecrets.NamesakesTakeTurns` | internal/resources/realm/realm_import_secret.go:66-85 | each of them rewrites and relabels what the other has settled |
| `ApiServer.World.Yield` | internal/controller/keycloakimport_controller.go:66-188 | between two requests others may do anything except move this pass, which they do not see |
| `Requests.StepIsRequest` | internal/controller/keycloakimport_controller.go:66-246 | each step of the pass machine does to the cluster exactly what the API server does with one request made from what the pass holds |
| `Requests.StepLearnsFromResponse` | internal/controller/keycloakimport_controller.go:66-246 | the pass goes on from the response alone |
| `Requests.KeycloakStepIsRequest` | internal/controller/keycloak_controller.go:57-134 | the same for the Keycloak controller |
| `Requests.KeycloakLearnsFromResponse` | internal/controller/keycloak_controller.go:57-134 | and its pass goes on from the response alone, too |
| `ApiServer.World.Send` | internal/controller/keycloakimport_controller.go:66-246 | a request is served from its arguments; if it is the one the machine makes, the run goes on by that step of the machine |
| `ApiServer.World.GetImport` | internal/controller/keycloakimport_controller.go:70-83 | the import read is the stored one, and begins the pass in the branch it calls for |
| `ApiServer.World.UpdateImport` | internal/controller/keycloakimport_controller.go:90-103 | an accepted finalizer update stores the import with exactly those finalizers, or removes it when it was the last one of a deleting import; a refused one ends the pass |
| `ApiServer.World.PutSecret` | internal/resources/realm/realm_import_secret.go:66-85 | an accepted write stores exactly these labels and this content at the version returned |
| `ApiServer.World.PostJob` | internal/controller/keycloakimport_controller.go:164-176 | an accepted Job is stored with exactly these labels, unfinished; a refused one ends the pass |
| `ApiServer.World.UpdateStatefulSet` | internal/controller/keycloakimport_controller.go:190-198 | an accepted update stores exactly these annotations; a refused one ends the pass |
| `ApiServer.World.UpdateImportStatus` | internal/controller/keycloakimport_controller.go:233-246 | a status write ends the pass, and if it is accepted the import has that status |
| `Controller.ImportRealmSecret.CreateOrUpdate` | internal/resources/realm/realm_import_secret.go:37-85 | on success the Secret had, at a moment of this very pass, the returned version, the two owner labels, the watched label, and the expansion of the template with the escaped values as its one file |
| `Controller.FindJob` | internal/controller/keycloakimport_controller.go:150-161 | the requests of the loop are deletions of exactly the Jobs before the first match, in list order; the match is kept, and failure is told from absence |
| `Controller.CleanupExternalResources` | internal/controller/keycloakimport_controller.go:200-231 | on success the requests were: list the Jobs, delete each of those the import owned in its target namespace then, list the Secrets, delete each of those it owned then |
| `Controller.RolloutChanges` | internal/controller/keycloakimport_controller.go:190-198 | on success the StatefulSet has the annotations it was read with, updated with the version under the import's key |
| `Controller.HandleError` | internal/controller/keycloakimport_controller.go:233-241 | ends the pass, with that reason stored if the write succeeds |
| `Controller.HandleSuccess` | internal/controller/keycloakimport_controller.go:243-246 | ends the pass, with the import ready if the write succeeds |
| `Controller.Work` | internal/controller/keycloakimport_controller.go:105-137 | from the Keycloak lookup on, the program computes the machine's requests to the end of the pass |
| `Controller.ImportAndRollOut` | internal/controller/keycloakimport_controller.go:139-188 | from the Job list on, the program computes the machine's requests to the end of the pass |
| `Controller.RollOutIfDue` | internal/controller/keycloakimport_controller.go:178-187 | from the Job it found on, likewise; if the Job has completed and the status write is accepted, the annotation equals the version, since it was read or since a moment of this pass |
| `Controller.Reconcile` | internal/controller/keycloakimport_controller.go:66-188 | whatever others do meanwhile, the program, which has no access to the machine, makes the requests of exactly one pass, begun once, not cut off, and over when it returns |
| `KeycloakController.KeycloakStatefulSet.CreateOrUpdate` | internal/resources/rhbk/statefulset.go:363-372 | on success the stored StatefulSet is the returned one, has the desired workload, and has exactly the annotations it had just before the last request |
| `KeycloakController.Send` | internal/controller/keycloak_controller.go:57-134 | a request is served from its arguments; if it is the one the machine makes, the run goes on by that step of the machine |
| `KeycloakController.HandleError` | internal/controller/keycloak_controller.go:122-129 | ends the pass, with the Keycloak not ready if the write succeeds |
| `KeycloakController.HandleSuccess` | internal/controller/keycloak_controller.go:131-134 | ends the pass, with the Keycloak ready if the write succeeds |
| `KeycloakController.Reconcile` | internal/controller/keycloak_controller.go:57-120 | the program, which has no access to the machine, makes the requests of one full pass; it ends with a status write if the Keycloak is there, and if that is accepted the Keycloak is ready if and only if Service, Route, discovery Service and ServiceMonitor were set up, the StatefulSet request was not refused, and the StatefulSet had readyReplicas equal to replicas at a moment of this pass |
| `KeycloakController.Conclude` | internal/controller/keycloak_controller.go:95-120 | the same from the StatefulSet's response on |
| `Wakeup.FindReference` | api/v1alpha1/keycloakimport_types.go:44-52 | the search loop finds a reference exactly when there is one |
| `Wakeup.HandleSecretChanged` | internal/controller/keycloakimport_controller.go:271-295 | the requests are those of the imports that the owner label names or whose substitutions mention the Secret, and of no others, in list order |
| `Wakeup.HandleKeycloakChanged` | internal/controller/keycloakimport_controller.go:297-319 | the requests are those of the imports whose target is the Keycloak, and of no others, in list order |
| `Wakeup.HandleJobChanged` | internal/controller/keycloakimport_controller.go:321-343 | the requests are those of the imports that both owner labels name, and of no others, in list order |
| `Wakeup.RequestsExact` | internal/controller/keycloakimport_controller.go:280-294 | an import is requested exactly when some listed import of that key is selected |
| `Wakeup.SecretChangeRequested` | internal/controller/keycloakimport_controller.go:271-295 | a Secret change that alters what a pass of an import reads puts the import into the handler's result, for any list of imports, unless ownerless Secrets replace each other at the import Secret's place |
| `Wakeup.SquattersGoUnnoticed` | internal/controller/keycloakimport_controller.go:282-284 | in that case the import is woken exactly when a substitution mentions the name |
| `Wakeup.SquatterAltersReading` | internal/resources/realm/realm_import_secret.go:66-68 | such a change does alter what a pass reads |
| `Wakeup.KeycloakChangeRequested` | internal/controller/keycloakimport_controller.go:297-319 | a Keycloak change that alters what a pass reads puts the import into the handler's result |
| `Wakeup.JobWakesItsImport` | internal/controller/keycloakimport_controller.go:321-343 | the Job of an import wakes exactly the import it names as its owner, compared as text: itself, or for a reserved import the one spelt like the version |
| `Wakeup.ReservedOwner` | internal/resources/realm/realm_import_job.go:40-43 | version 123 of a reserved import names the import `123` |
| `Wakeup.FiltersExact` | internal/controller/keycloakimport_controller.go:259-264 | exactly the rising edges pass the two update filters; an update from done to done is refused |
| `Wakeup.CompletionIsSeen` | internal/resources/utils.go:34-50 | however states are coalesced, a history from not done to done shows an accepted update, and everything seen after the last one is done |
| `Wakeup.JobCompletionIsSeen` | internal/controller/keycloakimport_controller.go:259-264 | no Job completion is missed |
| `Wakeup.SetReadinessIsSeen` | internal/controller/keycloak_controller.go:150-155 | no StatefulSet readiness is missed |
| `RealmDocument.EscapeDecodes` | internal/resources/utils.go:98-104 | decoding an escaped value gives the value back |
| `RealmDocument.EscapeExactly` | internal/resources/utils.go:92-105 | values in which a slice is one of the two markers are placed as they are, all others decode to themselves |
| `RealmDocument.EscapeSamples` | internal/resources/utils.go:98-104 | a quote and a backslash |
| `RealmDocument.MoreEscapeSamples` | internal/resources/utils.go:98-104 | a line break and the HTML characters |
| `RealmDocument.EscapeRoundTrip` | internal/resources/utils.go:92-105 | the escape round-trips exactly for values without PEM marker and for those that need no escape |
| `RealmDocument.PemWithLineBreak` | internal/resources/utils.go:94-96 | no value with a PEM marker and a line break round-trips |
| `RealmDocument.PemLineIsLost` | internal/resources/utils.go:94-96 | keys and certificates are such values, from their first or their last line on |
| `RealmDocument.PlainDenotesItself` | internal/resources/utils.go:94-96 | an unescaped value denotes itself exactly when all its characters are plain |
| `RealmDocument.DecodeConcat` | internal/resources/realm/realm_import_secret.go:104-116 | a decodable text decodes the same in front of any other text |
| `RealmDocument.LiteralEnds` | internal/resources/realm/realm_import_secret.go:104-116 | a decodable text cannot close the literal it stands in |
| `RealmDocument.ParseRender` | internal/resources/realm/realm_import_secret.go:104-108 | parsing inverts rendering |
| `RealmDocument.RenderParse` | internal/resources/realm/realm_import_secret.go:104-108 | rendering inverts parsing, and parsing yields the normal form |
| `RealmDocument.FillDecodes` | internal/resources/realm/realm_import_secret.go:45-64 | escaping commutes with substitution |
| `RealmDocument.LiteralReadsBack` | internal/resources/realm/realm_import_secret.go:45-116 | reading a string literal of the expanded document gives the decoded text with the raw values in place, and it ends where the expansion ends |
| `RealmDocument.HoleTakesValueVerbatim` | internal/resources/realm/realm_import_secret.go:104-116 | between any two templates, a hole is replaced by its value verbatim, which is never expanded again |
| `RealmDocument.FillConcat` | internal/resources/realm/realm_import_secret.go:110-115 | filling goes node by node |
| `RealmDocument.FillExactly` | internal/resources/realm/realm_import_secret.go:104-116 | a parsed template expands exactly when every hole has a value |
| `RealmDocument.NameCharsExactly` | internal/resources/realm/realm_import_secret.go:104-108 | the characters of a hole's name |
| `RealmDocument.SampleHole` | config/samples/sso_v1alpha1_keycloakimport.yaml:13-21 | the hole of the sample takes its value |
| `Environment.EnvList.AddOrReplace` | internal/resources/utils.go:73-88 | the in-place loop computes replacement of the first variable of that name, or appending |
| `Environment.ReplacedLookup` | internal/resources/utils.go:73-88 | afterwards that name has the new variable and every other name its old one |
| `Environment.ReplacedNames` | internal/resources/utils.go:73-88 | names keep their places, and a new name comes last |
| `Environment.AppliedLookup` | internal/resources/rhbk/statefulset.go:107-123 | applying options one by one is overriding a map, the last option winning |
| `Environment.DefaultsDistinct` | internal/resources/rhbk/statefulset.go:222-273 | the defaults never repeat a name, with or without database and proxy |
| `Environment.DecorateEnv` | internal/resources/rhbk/statefulset.go:53-126 | for every spec: no repeated names, lookup equal to defaults overridden by options, order of first mention; the last option of a name gives its value, or else its Secret; credentials, host and port stand under their own names unless an option mentions them |
| `Environment.JobEnv` | internal/resources/realm/realm_import_job.go:49-70 | the loop rewrites the list variable by variable |
| `Environment.JobLookup` | internal/resources/realm/realm_import_job.go:49-70 | for any list, the Job's list is the same map with the three settings rewritten or dropped |
| `Environment.JobOrder` | internal/resources/realm/realm_import_job.go:55-70 | the remaining order is kept |
| `Environment.ImportJobEnv` | internal/resources/realm/realm_import_job.go:49-88 | whatever the user set: KC_CACHE is local, KC_HEALTH_ENABLED is false, KC_CACHE_STACK is absent, all other names as in the StatefulSet |
| `Float64.FlNearest` | api/v1alpha1/sizing.go:45-65 | the rounding used picks a representable number that no representable number beats |
| `Float64.FlRepresentable` | api/v1alpha1/sizing.go:45-65 | its result has at most 53 significant bits |
| `Float64.FlError` | api/v1alpha1/sizing.go:45-65 | one rounding moves a number by at most one part in 2^53 |
| `Float64.FlMonotone` | api/v1alpha1/sizing.go:45-65 | rounding preserves order |
| `Float64.IntegersExact` | api/v1alpha1/sizing.go:49-59 | integers up to 2^53 are held exactly |
| `Sizing.FloatError` | api/v1alpha1/sizing.go:44-65 | for all int32 loads and instance counts, request and limit are the exact floors of 25T/(3n) and 125T/(6n), or one less when that quotient is whole |
| `Sizing.RequestWithinLimit` | api/v1alpha1/sizing.go:62-65 | the request never exceeds the limit |
| `Sizing.CalculateResourceLimits` | api/v1alpha1/sizing.go:32-83 | the same for the program and the instances as given, missing or non-positive ones counting as one, with figures within int64 and a limit exactly when it is not disabled |
| `SizingLaws.CapacityConserved` | api/v1alpha1/sizing.go:44-63 | n requests never exceed the total needed, and one more millicore each would cover it |
| `SizingLaws.LimitFollowsRequest` | api/v1alpha1/sizing.go:62-65 | floor(2.5 request) <= limit < 2.5 (request + 1) |
| `SizingLaws.ExactMonotone` | api/v1alpha1/sizing.go:44-65 | the exact figures rise with the load and fall with the instances |
| `SizingLaws.ComputedMonotone` | api/v1alpha1/sizing.go:44-65 | so do the figures computed with rounding, in each load separately |
| `SizingLaws.OneShort` | api/v1alpha1/sizing.go:62-63 | 969 logins on one instance get 64599 millicores instead of 64600 |
| `SizingLaws.ValuesStayNormal` | api/v1alpha1/sizing.go:45-65 | no value on the way overflows or becomes subnormal |
| `SizingLaws.SumSizing` | api/v1alpha1/sizing.go:86-104 | every field is the mathematical sum wrapped to 32 bits, and a missing entry may be replaced by the default without changing it |
| `SizingLaws.SingleSizing` | api/v1alpha1/sizing.go:86-104 | a single sizing is its own sum, field by field, and without a default a missing one adds nothing |
| `SizingLaws.WrapCongruent` | api/v1alpha1/sizing.go:91-100 | wrapping changes a sum by a multiple of 2^32 |
| `SizingLaws.SummedConcat` | api/v1alpha1/sizing.go:86-104 | summing distributes over concatenation, wrap-around included |
| `SizingLaws.RequestOfSum` | api/v1alpha1/sizing.go:86-104 | without overflow, the request for a sum of k sizings is at least the sum of their requests and at most k-1 more |

## Left out

- Controller.Reconcile: the returned retry decision is not specified, only the run that the pass makes.
- KeycloakController.Reconcile: the Service, Route, discovery Service and ServiceMonitor calls appear only as success or failure.
- Schedules.Converges: the passes of the import itself run through with succeeding calls, and its Job does not fail, as the property presupposes; others act between its passes, not within them.
- Names.JobLabelsOwned: label values that are versions are kept apart from text, so that the match of a reserved import's version with a name spelt like it appears only in Wakeup.JobWakesItsImport.
- Cleanup.NoOrphans: speaks of the objects that carry both owner labels, which the Jobs of the two reserved imports do not.
- Watches and caches: informer caches, their label selector and the work queue; reads see the current store.
- Resource versions are numbers from one counter.
- Conditions: the list with its timestamps and messages is reduced to unset, ready, or not ready with a reason.
- StatefulSet and Job pod templates: the pod template is a Keycloak revision and a host name besides its annotations; volumes, probes, ports, images and commands, and the API server's defaulting, are left out.
- Changes of template annotations by anybody other than the two controllers.
- Templates other than literal text with `%.NAME%` actions, names of ASCII letters, digits and underscores, which count as errors; text that is not valid Unicode.
- JSON beyond string literals: the realm document is not parsed as a whole.
- Memory figures and `decorateSizing` without a sizing: constants.
- VersionedStatus, hashes, formatting helpers, owner references, logging, RBAC and manager wiring.
- What Keycloak does inside the import Job: a cluster step that completes the Job or not.
