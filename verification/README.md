# Verification of the auth-registration operator

The operator keeps two stores in step: the Kubernetes API server, which holds AuthRegistrations and credentials Secrets,
and the CAS service registry. Every call it makes to either of them can be answered, fail without effect, or take effect
with its answer lost, and others change both stores between any two of its calls. This project models the operator at
that granularity and proves what it keeps in every run, where it converges, and which promises of its code and
documentation hold only under a condition.

## How the model is built

- **Stores and faults.** `World` holds the two stores, the global `fqdn`, one operation per API call (`Perform`), the three
  outcomes of a call (`Serve`) and what others may do (`Apply`, `LegalUser`).
- **The reconcile as a machine.** `Worker` gives each call site of the code a program point with the local variables that
  are live there. One step is one call: `RequestAt` says which, `Resume` where the code goes on with the answer. A run is any
  sequence of events: calls with any outcome, acts of others, the start of a reconcile, a crash of the process.
- **The code itself.** `Client`, `Objects`, `StatusPatcher`, `SecretReconciler`, `ServiceMapper`, `CasBackend`, `Reconciler` and
  `Controller` are the code in its own form: classes whose methods change objects in place and call a client whose answers
  they do not control. `Client.At(pc)` says that what has happened so far is a legal run of the machine and that the machine
  is now at `pc`. Each method is proved to lead from the machine's point at its first call to the point after its last. So
  every execution of the code is a run of the machine, and the theorems about runs are theorems about the code
  (`Controller.Controller.Process` draws the conclusion for the stores).
- **Theorems about runs.** `Invariant` proves the inductive invariant; `Safety`, `SecretSafety`, `SecretData`,
  `Credentials`, `Accounting` and `StatusSafety` the safety properties, and `Start` that they hold from an installation on;
  `Attempts`, `Finalizers`, `Deletion`, `FixedPoint`, `Success`, `Contents`, `FreshSecret`, `Health`, `Footprint`, `Quiescence`
  and `Coverage` what one reconcile achieves, what is then in the stores, and that the work queue misses nothing and runs
  empty; `Reports`, `Hindrance`, `Failures`, `Obsolete`, `Reach` and `Counterexamples` where and how promises fail and what the
  status then says. `Steps` spells out the machine's steps for the proofs.
- **Codecs and grammars.** `CasTypes`, `ServiceList`, `Wire`, `ServicePattern`, `Mapper`, `Domain`, `Base64` and `GoStrings`
  are functions over values. The loops of the source among them are methods.

## Hypotheses

They are stated in contracts (`LegalUser`, `LegalDraw`, `WorldOk`, `Undisturbed`, `Sound`), not assumed silently.

- One worker runs at a time and reads are linearizable.
- `managed` holds the consumers that registrations may name. A registration keeps its consumer, which is blank or in
  `managed`; nobody else registers services for a managed consumer. Without this nothing in the operator remembers an old
  consumer.
- Nobody else takes the operator's finalizer away, and nobody else makes a registration the controller of a Secret. Others
  may take an owner reference off a Secret or replace it by one to an object of another kind; such objects have negative
  uids in the model, so that they differ from those of registrations. Registration names have no white space around them.
- Nobody else writes the status of a registration.
- CAS stores what it is sent, gives a new record a fresh non-zero id, and answers with the record or an empty body.
  Deleting a missing id succeeds.
- An update of an object fails unless the stored object is the one that was read (this is the resource-version check), and an
  update of a Secret fails if it changes the type. A status patch is a merge patch of the fields that differ. Nobody can add
  the finalizer to an object that is being deleted.
- SHA-256 and `path.Join` are parameters of the model about which nothing is assumed. The random source gives any 32 bytes.
- Credential agreement and switching back need that no other registration has the same consumer or generates the name of the
  Secret; others may use the Secret through `spec.secretRef`. Quiescence, and that the queue misses
  nothing, need consumers that are not shared, and quiescence Secret names that are not shared.

## Results that qualify what code or documentation say

- **The service-id pattern** escapes dots of the fqdn only. A dot in the consumer stands for any character, so the pattern
  also accepts URLs of other consumers; it accepts the URLs of its own consumer and no others if and only if the consumer
  has no dot (`ServicePattern.PatternExact`).
- **Obsolete Secrets** are deleted without a precondition on what was read. If between the two calls somebody puts
  another Secret in the place of the old one, or takes the owner reference off the old one to keep it, that Secret is deleted
  (`SecretSafety.DeleteRace`, `SecretSafety.StripRace`, `Counterexamples.RaceHappens`, `Counterexamples.StripHappens`); if
  nobody puts a Secret there that the registration does not control, what is deleted is the registration's
  (`SecretSafety.DeletedIsOwnIffNoRace`). And the delete goes by the spec that was loaded: if the
  last edit since asks for the old name again, the Secret the registration now resolves to is deleted, and with it the client
  secret; otherwise it is not (`Obsolete.DeletesWantedIffAskedBack`, `Counterexamples.AskedBackHappens`).
- **Generated Secrets can be left behind**: while the registration controls the Secret in question, an invalid spec clears
  `status.resolvedSecretRef`, or a reconcile ends between moving that pointer and the end of the cleanup. These steps leave a
  Secret behind and no others do (`Accounting.LeftBehindIffLeak`, `Counterexamples.LeakHappens`).
- **Completed without CredentialsPublished** can remain when the patches that withdraw the two conditions are cut apart: the
  first one's answer is lost while Completed is true, or the second one does not take effect. These steps have that result and
  no others do (`StatusSafety.UnsteadyIffFault`, `Counterexamples.FaultHappens`).
- **The fqdn is not watched.** A change of it unsettles every registration and wakes none. Nothing is missed if and only if
  every live registration is queued or under a reconcile that has yet to use the fqdn (`Coverage.FqdnAttendsIff`).
- **A registration is settled if and only if nothing is in its way**: the fqdn is known, the spec is valid, an existing Secret
  of the name has the type the operator writes, and a Secret of the generated name is not controlled by another object
  (`Hindrance.SucceedsIffHealthy`). No reconcile removes such an obstacle, whatever the outcomes of its calls
  (`Hindrance.ObstacleFails`), and the status tells which kind it is (`Failures.FailureReported`). In particular, no reconcile fills a Secret of another type that `spec.secretRef` names, because
  the API server refuses to change its type.
- **A registration with a blank consumer** cannot be deleted: it keeps its finalizer (`Deletion.BlankConsumerStuck`).
- **A plain JSON array of two strings** is not read as a string collection (`CasTypes.PlainArrayReadsAsItself`).
- The architecture overview speaks of a generated-secret annotation, and of Secrets without owner reference when
  `spec.secretRef` is set. The code writes no such annotation, and it sets the owner reference on every Secret that it
  creates. The model follows the code.

## Model

| member | source | states |
|---|---|---|
| `Quiescence.Quiesces` | internal/controller/authregistration_controller.go:114-147 | With nobody interfering and no faults, every schedule of reconciles and garbage collections that keeps moving comes to a state with an empty queue, no orphaned Secret, no pending deletion, and every live registration settled |
| `Quiescence.NoEndlessSchedule` | internal/controller/authregistration_reconciler.go:37-88 | No schedule of possible moves, in any order and with any choices of the outside, goes on for ever; the lexicographic measure (deletions, orphans, wrong status pointers, unsettled registrations, queue) bounds it |
| `Quiescence.MoveFalls` | internal/controller/authregistration_reconciler.go:75-77 | Every possible move keeps the loop sound, keeps all that needs work queued, and makes the measure smaller, also when deleting one registration's old Secret wakes another that resolves to that name |
| `Quiescence.UnsettledMove` | internal/controller/secret_reconciler.go:79-83 | A reconcile of an unsettled registration makes the measure smaller although its Secret writes wake registrations |
| `Quiescence.LiveCovered` | internal/controller/authregistration_controller.go:163-187 | A registration that somebody else's reconcile unsettles is woken by the event of its Secret |
| `Quiescence.StartIsCovered` | internal/controller/authregistration_controller.go:129-146 | The create events that the informers report at the start queue everything that needs work |
| `Coverage.EventAttends` | internal/controller/authregistration_controller.go:129-146 | Calls with any outcome, acts of others, failed reconciles and crashes keep all that needs work in the queue or being worked on, if and only if they are no change of the fqdn that goes unnoticed |
| `Coverage.RunAttends` | internal/controller/authregistration_controller.go:129-146 | The same over whole runs: while every change of the fqdn finds each live registration queued or not yet past its use of the fqdn, nothing that needs work is missed |
| `Start.NothingMissed` | internal/controller/authregistration_controller.go:114-147 | From an installation on, in every state of every run without shared consumers and without an unnoticed change of the fqdn, all that needs work is in the queue or being worked on |
| `Coverage.FqdnAttendsIff` | internal/controller/authregistration_controller.go:129-146 | No watch sees the fqdn: at every point of a reconcile or between them, a change of it leaves nothing unattended if and only if each live registration is queued, or under a reconcile that has not used the fqdn or only reports an error |
| `Coverage.QuiescesAfterFaults` | internal/controller/authregistration_controller.go:114-147 | From any state that a run with faults, crashes and users has come to, once these stop and nothing stands in the way, the queue runs empty with every live registration settled |
| `Footprint.AttemptSettles` | internal/controller/authregistration_reconciler.go:37-88 | A reconcile of a healthy registration whose calls are answered ends without error, settles the registration, changes nothing outside its footprint, and wakes every other registration whose Secret it changed |
| `Footprint.CallWithin` | internal/controller/authregistration_reconciler.go:110-143 | One call changes no other registration, no service of another consumer, and no Secret but the target and an own obsolete one |
| `Health.CallSmooth` | internal/controller/authregistration_reconciler.go:37-88 | For a healthy registration no answered call leads to a failure branch |
| `Invariant.RunKeepsInv` | internal/controller/authregistration_reconciler.go:37-168 | In every reachable state service ids are distinct and non-zero, no managed consumer has two services, uids are distinct, conditions are well formed, and the locals of the running reconcile match the stores |
| `Invariant.RegAfterInv` | internal/controller/authregistration_controller.go:99-103 | The only changes calls make to a stored registration are its finalizer and its status, each at its own call site |
| `Start.EveryState` | internal/controller/authregistration_controller.go:87-111 | From an installation on, in every state of every run: the invariant, one service at most per consumer, a finalizer behind each, well-formed conditions |
| `Safety.AtMostOneService` | internal/registration/cas/cas_service_registration_backend.go:61-92 | At most one service per managed consumer in every reachable state, also after a create whose answer was lost and any retries, so the lookup never fails |
| `Safety.OtherConsumersUntouched` | internal/registration/cas/cas_service_registration_backend.go:79-92 | No call changes the services of a consumer other than the one under reconcile |
| `Safety.FinalizerGuardsService` | internal/controller/authregistration_controller.go:99-103 | In every reachable state a service of a managed consumer has a stored registration with that consumer and the finalizer |
| `Safety.GoneLeavesNoService` | internal/controller/authregistration_reconciler.go:149-168 | When no registration names a consumer any more, no service of it is left, whatever was interrupted |
| `SecretSafety.DeletesOnlyOwnObsolete` | internal/controller/authregistration_reconciler.go:124-143 | In a run in which nobody, before the delete call, puts a Secret under the obsolete name that the registration does not control (a new one, or the old one with its owner reference taken off or replaced), a Secret that a call makes disappear is controlled by the registration and is not the one that this reconcile resolved it to |
| `SecretSafety.DeletedIsOwnIffNoRace` | internal/controller/authregistration_reconciler.go:124-143 | Between the read that found the Secret and the delete call, what is about to be deleted is the registration's if and only if nobody put a Secret there that the registration does not control, be it a new one or the old one with its owner reference taken off or replaced |
| `SecretSafety.OwnStoredIffNoRace` | internal/controller/authregistration_reconciler.go:124-143 | At every step of every run that act, putting another Secret there or taking off or replacing the owner reference, is what makes the stored Secret another's, and nothing else does |
| `Obsolete.DeletesWantedIffAskedBack` | internal/controller/authregistration_reconciler.go:48-77 | The Secret that a reconcile comes to delete is the one the stored registration now resolves to if and only if the last edit since the object was loaded asks for it |
| `Obsolete.AskedBackIsDeleted` | internal/controller/authregistration_reconciler.go:110-143 | An edit that takes the reference back just before the delete call: the Secret the registration asks for is deleted |
| `Counterexamples.AskedBackHappens` | internal/controller/authregistration_reconciler.go:110-143 | A run from an installation in which that happens |
| `Counterexamples.RaceHappens` | internal/controller/authregistration_reconciler.go:134-140 | A run from an installation in which a user's Secret, put in the place of the old one, is deleted |
| `Counterexamples.StripHappens` | internal/controller/authregistration_reconciler.go:134-140 | A run from an installation in which a user takes the owner reference off the old Secret to keep it, and it is deleted |
| `SecretSafety.DeleteRace` | internal/controller/authregistration_reconciler.go:134-140 | The delete carries no precondition: a Secret put in place between read and delete is deleted though nothing controls it |
| `SecretSafety.StripRace` | internal/controller/authregistration_reconciler.go:134-140 | So is the old Secret itself if its owner reference was taken off between read and delete |
| `SecretSafety.ForeignSecretSafe` | internal/controller/secret_reconciler.go:73-83 | Over whole runs, a Secret controlled by another kind of object, or by nothing and generated for no registration, keeps its controller and is never deleted by the operator |
| `SecretSafety.OwnerAfterCall` | internal/controller/secret_reconciler.go:73-77 | An existing Secret gets a new controller only if the operator manages it under the generated name and no object of another kind or name controls it |
| `SecretSafety.CreatedIsOwned` | internal/controller/secret_reconciler.go:41-49 | A Secret that a call creates is opaque and controlled by the registration under reconcile, also if spec.secretRef names it |
| `SecretSafety.CallClaims` | internal/controller/authregistration_controller.go:189-200 | A reconcile manages no Secret whose name no registration without spec.secretRef generates |
| `SecretData.SecretOnlyGrows` | internal/controller/secret_reconciler.go:56-71 | A surviving Secret loses no label, annotation or data key; only the name label and the keys of one protocol are new or get other values |
| `SecretData.OnlyLoadedProtocol` | internal/domain/registration.go:65-87 | That protocol is the one of the object the reconcile has loaded, whatever users edit meanwhile; a Secret it creates has keys of that protocol only |
| `SecretData.ClientSecretStays` | internal/domain/registration.go:27-36 | A client secret, once in a Secret, stays there through any reconciles of any protocols and any failures |
| `Domain.SecretKeysSeparate` | internal/domain/registration.go:65-87 | Data of one protocol never contains the client-secret key of the other |
| `Credentials.AgreementForever` | internal/registration/cas/cas_service_registration_backend.go:71-94 | Once CAS and Secret hold the same non-blank client secret they do so at every later point of every run, whatever fails, while protocol and Secret name stay |
| `Credentials.SuccessAgrees` | internal/controller/authregistration_reconciler.go:49-73 | A reconcile that returns without error leaves CAS with the hash of the trimmed client secret in the Secret |
| `Credentials.SwitchBackRestores` | internal/domain/registration.go:65-87 | After any reconciles under other protocols, switching back and succeeding leaves both stores with the original client secret |
| `Accounting.LeftBehindIffLeak` | internal/controller/authregistration_reconciler.go:63-77 | A step leaves a Secret of a registration behind, controlled by it but known neither to its status nor to the running reconcile, if and only if it is a leak: the patch that clears the pointer for an invalid spec; or, between moving the pointer and having dealt with the old Secret, a crash, a call that is refused or whose answer is lost, or a Secret that another controls, has appeared, is gone, has changed or is of another type |
| `Accounting.OwnedSecretsAccounted` | internal/controller/authregistration_reconciler.go:63-77 | In a run without a leak of a registration, whatever happens to others, every Secret it controls is the one its status points to or is about to be cleaned up |
| `Accounting.BetweenReconciles` | internal/controller/authregistration_reconciler.go:110-143 | Between reconciles of such a run, a registration controls no Secret but the one its status names |
| `Accounting.StepLeaks` | internal/controller/authregistration_reconciler.go:40-47 | At every point and for every kind of leak, a cleared pointer, a lost answer, a failed call, a crash, it is the Secret at stake that stays behind |
| `Counterexamples.LeakHappens` | internal/controller/authregistration_reconciler.go:63-77 | A run from an installation that leaves a Secret behind |
| `StatusSafety.UnsteadyIffFault` | internal/controller/authregistration_status_patcher.go:40-56 | A step leaves a registration with Completed, without CredentialsPublished and with no correcting patch under way, if and only if it is a status fault of that registration |
| `StatusSafety.CompletedIsPublished` | internal/controller/authregistration_status_patcher.go:40-56 | Between reconciles of a run without a status fault of a registration, its Completed implies its CredentialsPublished |
| `StatusSafety.StatusFaultShows` | internal/controller/authregistration_status_patcher.go:40-56 | Every status fault ends the reconcile with Completed true and CredentialsPublished false |
| `Counterexamples.FaultHappens` | internal/controller/authregistration_status_patcher.go:40-56 | A run from an installation in which the answer to the patch that withdraws CredentialsPublished is lost |
| `StatusSafety.ConditionsAlwaysOk` | internal/controller/authregistration_status_patcher.go:91-100 | In every reachable state each condition type occurs once and observes no generation the object has not reached |
| `StatusSafety.GenerationsNeverFall` | internal/controller/authregistration_status_patcher.go:91-100 | At no step of any run does a stored registration lose a condition or report an older generation than before |
| `Attempts.CallsBounded` | internal/controller/authregistration_reconciler.go:37-88 | A reconcile is over after at most 17 calls, whatever happens to them |
| `Deletion.AttemptDeletes` | internal/controller/authregistration_reconciler.go:149-168 | One reconcile with answered calls removes the consumer's service and the operator's finalizer; the registration stays exactly if it has finalizers of others, with those as often and in the order they were, and nothing else changes |
| `Finalizers.CallKeepsOthers` | internal/controller/authregistration_reconciler.go:161-164 | Whatever the outcome of a call, the finalizers of others stay, as often and in the same order; the object goes only if it was being deleted and there are none; the operator's own is appended |
| `Deletion.DeletionConverges` | internal/registration/cas/cas_service_registration_backend.go:97-125 | From every reachable state in which a registration with a non-blank consumer is being deleted, the next reconcile with answered calls completes the deletion |
| `Deletion.DeletionNeverBack` | internal/controller/authregistration_reconciler.go:149-168 | Whatever happens to the calls of a deletion, services and finalizer left to remove never grow, and a repeated or lost call does no harm |
| `Deletion.BlankConsumerStuck` | internal/registration/cas/cas_service_registration_backend.go:98-100 | With a blank consumer the reconcile of a deletion fails and changes nothing, every time |
| `Deletion.NothingToDelete` | internal/controller/authregistration_reconciler.go:149-152 | A registration that is gone, or deleted without the operator's finalizer, costs one read and changes nothing |
| `Deletion.SeveralStuck` | internal/registration/cas/cas_service_registration_backend.go:107-143 | With several services of its consumer the reconcile of a deleted registration ends with an error and changes nothing |
| `Success.SuccessSettles` | internal/controller/authregistration_reconciler.go:37-88 | A reconcile that returns without error, whichever calls failed on the way, leaves a settled registration |
| `Success.SuccessIsIdempotent` | internal/controller/authregistration_reconciler.go:37-88 | The reconcile after a successful one makes exactly seven calls, six reads and one update that sends CAS the stored record, and changes nothing |
| `FixedPoint.SettledIsFixedPoint` | internal/controller/authregistration_reconciler.go:37-88 | On a settled registration a reconcile writes no Secret and no status, sends CAS its own record, and wakes nobody |
| `FixedPoint.MergeHeld` | internal/controller/secret_reconciler.go:54-83 | Merging credentials that a Secret already holds, and setting its owner again, changes nothing |
| `Success.WrittenIsSettled` | internal/registration/cas/cas_service_registration_backend.go:79-92 | What the create or update leaves in CAS is what the next reconcile would send |
| `Hindrance.ObstacleFails` | internal/controller/secret_reconciler.go:45-83 | While the fqdn is missing, the Secret name is blank, the consumer is blank, the protocol is none of CAS, OIDC and OAUTH, the Secret is of another type, or another object controls the generated one, no reconcile returns without error, whatever its calls, and the obstacle stays |
| `Hindrance.SucceedsIffHealthy` | internal/controller/authregistration_reconciler.go:37-88 | With nobody interfering, a reconcile of a live registration can return without error if and only if none of these is in its way, and then it does so, and settles the registration, whenever its calls are answered |
| `Failures.FailureReported` | internal/controller/authregistration_reconciler.go:37-73 | The reconcile of a registration with an obstacle, its calls answered, ends with an error and a status that tells it: a blank Secret name clears the pointer and withdraws both conditions (InvalidSpec); a bad spec or a missing fqdn withdraws Completed (RegistrationFailed); an obstacle at the Secret withdraws both (SecretReconcileFailed, Blocked). No Secret and no other registration changes |
| `Reports.FailedServiceCallReported` | internal/controller/authregistration_reconciler.go:54-61 | At every call of the upsert, one that is refused or whose answer is lost leads to Completed false with that error, and the reconcile returns it |
| `Reports.FailedSecretCallReported` | internal/controller/authregistration_status_patcher.go:40-58 | At every call of the Secret step, the same leads to CredentialsPublished false with that error and Completed false (Blocked) |
| `Reports.InvalidSpecEnds` | internal/controller/authregistration_status_patcher.go:18-38 | The report of an invalid spec, its calls answered, leaves the pointer empty and both conditions false in the stored object, and changes nothing else |
| `Success.SetTwice` | internal/controller/authregistration_status_patcher.go:91-100 | Setting a condition again changes nothing |
| `Success.SetConditionSays` | internal/controller/authregistration_status_patcher.go:91-100 | Setting a condition replaces the first one of its type, or appends it, and leaves all others as they are |
| `Watch.OwnUpdatesFiltered` | internal/controller/authregistration_controller.go:131-143 | What the operator writes to a registration never passes the event filter |
| `Watch.UserChangesPass` | internal/controller/deletion_timestamp_changed_predicate.go:13-25 | An edit passes the filter if and only if it changes spec, labels or annotations; the wish to delete a registration that a finalizer holds passes |
| `SecretIndex.LookupIsScan` | internal/controller/authregistration_controller.go:149-161 | Over any history of creates, edits and deletes, the indexed lookup equals a scan by namespace and resolved name |
| `SecretIndex.WokenIsIndexed` | internal/controller/authregistration_controller.go:163-187 | A change of a Secret wakes exactly the registrations that the lookup for it finds |
| `SecretIndex.MapSecretToAuthRegistrations` | internal/controller/authregistration_controller.go:163-187 | Requests each registration that resolves to the Secret once, and none if the list call fails |
| `Client.Client.Call` | internal/registration/cas/client.go:68-143 | A call is answered, fails or loses its answer; the machine goes on with the response |
| `Controller.Controller.Reconcile` | internal/controller/authregistration_controller.go:87-111 | Starts where the machine loads the object and ends where the machine is idle with the error returned; the finalizer is stored before anything else |
| `Controller.Controller.Process` | internal/controller/authregistration_controller.go:114-147 | Worked off request after request, sound stores stay sound, with one service per consumer and a finalizer behind each |
| `Controller.ClientIsSafe` | internal/controller/authregistration_controller.go:87-111 | The run theorems hold of the stores behind a client at any of its points |
| `Reconciler.Reconciler.HandleReconcile` | internal/controller/authregistration_reconciler.go:37-88 | Follows the machine from the resolved Secret name to its end, in the order read, upsert, pointer, Secret, cleanup, conditions |
| `Reconciler.Reconciler.Publicize` | internal/controller/authregistration_reconciler.go:63-88 | The part after the upsert: pointer, Secret, cleanup, conditions, each failure with its status report |
| `Reconciler.Reconciler.ReadRegistrationData` | internal/controller/authregistration_reconciler.go:90-108 | Returns a copy of the Secret's data, empty if there is no Secret |
| `Reconciler.Reconciler.CleanupObsoleteGeneratedSecret` | internal/controller/authregistration_reconciler.go:110-143 | Reads and deletes the previous Secret only if its name differs and the registration controls it |
| `Reconciler.Reconciler.HandleDeletion` | internal/controller/authregistration_reconciler.go:149-168 | Removes the backend registration before the finalizer |
| `SecretReconciler.SecretReconciler.Reconcile` | internal/controller/secret_reconciler.go:29-84 | Creates with owner, or merges in place, adopts if managed, and updates only if that changed something |
| `SecretReconciler.SecretReconciler.BuildDesiredSecret` | internal/controller/secret_reconciler.go:86-104 | The fresh object holds the name label, the type and the credentials |
| `SecretReconciler.SecretReconciler.Overlay` | internal/controller/secret_reconciler.go:56-71 | Copies type, labels, annotations and data over those of the current Secret |
| `StatusPatcher.StatusPatcher.PatchStatus` | internal/controller/authregistration_status_patcher.go:102-111 | Sends a merge patch only if the status changed, and reads the answer into the object |
| `StatusPatcher.StatusPatcher.PatchCondition` | internal/controller/authregistration_status_patcher.go:91-100 | Refuses an empty type without a call; else stamps the generation in memory and patches |
| `StatusPatcher.StatusPatcher.PatchResolvedSecretRef` | internal/controller/authregistration_status_patcher.go:85-89 | Patches the pointer |
| `StatusPatcher.StatusPatcher.PatchInvalidSpec` | internal/controller/authregistration_status_patcher.go:18-38 | Clears the pointer, then withdraws both conditions, and stops at the first failure |
| `StatusPatcher.StatusPatcher.PatchSecretReconcileFailed` | internal/controller/authregistration_status_patcher.go:40-56 | Withdraws CredentialsPublished, then Completed, and stops at the first failure |
| `StatusPatcher.StatusPatcher.PatchRegistrationFailed` | internal/controller/authregistration_status_patcher.go:67-74 | Withdraws Completed |
| `StatusPatcher.StatusPatcher.PatchCredentialsPublished` | internal/controller/authregistration_status_patcher.go:58-65 | Sets CredentialsPublished |
| `StatusPatcher.StatusPatcher.PatchRegistrationSucceeded` | internal/controller/authregistration_status_patcher.go:76-83 | Sets Completed |
| `CasBackend.CasBackend.Upsert` | internal/registration/cas/cas_service_registration_backend.go:56-77 | Validates, lists, looks the consumer up, and goes on to create or update |
| `CasBackend.CasBackend.Store` | internal/registration/cas/cas_service_registration_backend.go:71-95 | Resolves the client secret before it builds and writes the record |
| `CasBackend.CasBackend.Delete` | internal/registration/cas/cas_service_registration_backend.go:97-125 | Deletes the consumer's service by id; a blank consumer, several services or a zero id are errors, no service is none |
| `CasBackend.FindService` | internal/registration/cas/cas_service_registration_backend.go:127-143 | The loop returns the one service of the consumer, none, or an error if there are several |
| `CasBackend.CasBackend.ResolveClientSecret` | internal/registration/cas/cas_service_registration_backend.go:145-159 | None for CAS, the stored one if it is not blank, else a generated one |
| `CasBackend.CasBackend.GenerateClientSecret` | internal/registration/cas/cas_service_registration_backend.go:161-168 | 43 characters without surrounding white space, from a buffer of 32 random bytes |
| `CasBackend.CasBackend.RandomRead` | internal/registration/cas/cas_service_registration_backend.go:15 | Fills the buffer from the random source or reports its error |
| `ServiceMapper.ServiceMapper.GetFqdn` | internal/registration/cas/mapper.go:202-214 | The fqdn, or an error if the configuration cannot be read or lacks it |
| `ServiceMapper.ServiceMapper.BuildServicePayload` | internal/registration/cas/mapper.go:41-45 | Reads the fqdn before it builds the record |
| `ServiceMapper.ServiceMapper.Assemble` | internal/registration/cas/mapper.go:47-74 | The record assembled field by field is the one the theorems about records speak of |
| `ServiceMapper.ServiceMapper.BuildRegistrationResult` | internal/registration/cas/mapper.go:76-110 | Reads the fqdn again and derives the credentials from the stored record |
| `ServiceMapper.RegisteredService.AddOidcFields` | internal/registration/cas/mapper.go:142-148 | Sets client id, hashed secret and the three set parameters, and no other field |
| `ServiceMapper.RegisteredService.AddOAuthFields` | internal/registration/cas/mapper.go:150-153 | The same and the audience |
| `Mapper.TemplatesSay` | internal/registration/cas/mapper.go:112-127 | CAS reads back from the comma list: the base templates first, the proxy policy for CAS only, the logout template only with a logout URL, the OAuth template for both OAuth protocols |
| `Mapper.NewSetParam` | internal/registration/cas/mapper.go:155-175 | The loop computes the items of the parameter, or none |
| `Mapper.ItemsOfParam` | internal/registration/cas/mapper.go:155-175 | Items are trimmed, non-empty and comma-free, hold all solid characters of the input in order, and there are none exactly when the input holds only commas and white space |
| `Mapper.ItemsOfParts` | internal/registration/cas/mapper.go:155-175 | The list is cut at its commas and nowhere else; each part that is more than white space is one item, trimmed, in order |
| `Mapper.ReparseItems` | internal/registration/cas/mapper.go:155-175 | Joining the items with commas and parsing again gives the same items |
| `Contents.PayloadIsRecord` | internal/registration/cas/mapper.go:41-74 | The record sent for a registration, field by field and whatever record was there before: the id of the old record, class, name, an address pattern that accepts exactly the described URLs, the templates, the four properties with their values, client id and parameter sets |
| `Contents.SettledHolds` | internal/registration/cas/mapper.go:41-110 | A settled registration has its record in CAS and no other, and the Secret named in its status holds what belongs to that record: the pattern, or the client id, a client secret whose hash CAS has, and the endpoints below the base path |
| `Mapper.CredentialsSay` | internal/registration/cas/mapper.go:76-110 | The credentials have exactly the keys of the protocol, the client id CAS stored and the client secret as given; the issuer is the base path with only slashes cut off its end, and the endpoints are below host and base path with only slashes cut off both its ends |
| `Mapper.PayloadFixedPoint` | internal/registration/cas/mapper.go:190-200 | A stored record is what the next reconcile of the same registration builds from it, client id included |
| `Mapper.PayloadSurvivesJson` | internal/registration/cas/mapper.go:41-74 | A record of the operator comes back from JSON unchanged and is found under its consumer |
| `Registry.CreateEffect` | internal/registration/cas/client.go:87-89 | A create adds one service to its own consumer and none to others |
| `Registry.ReplaceEffect` | internal/registration/cas/client.go:91-93 | An update replaces the record with its id and leaves other consumers alone |
| `Registry.RemoveEffect` | internal/registration/cas/client.go:95-114 | A delete removes the one record with the id and leaves other consumers alone |
| `CasTypes.CollectionRoundTrip` | internal/registration/cas/types.go:151-180 | Decoding an encoded collection gives it back, an empty class becoming HashSet |
| `CasTypes.PlainArrayReadsAsItself` | internal/registration/cas/types.go:158-180 | A plain array of strings reads as itself if and only if its length is not 2 |
| `CasTypes.PropertiesRoundTrip` | internal/registration/cas/types.go:73-111 | Decoding encoded properties gives them back if and only if no entry is named @class |
| `CasTypes.ServiceRoundTrip` | internal/registration/cas/types.go:27-59 | Decoding an encoded record gives it back |
| `Wire.RecordOnWire` | internal/registration/cas/types.go:27-59 | Each member of a record is written under the name of its JSON tag, and left out exactly if it is empty; the class is always written |
| `Wire.RecordOffWire` | internal/registration/cas/types.go:27-59 | An object decodes to a record if and only if each member is the value of its tag; null is as good as missing, and other names do not matter |
| `Wire.PropertiesOffWire` | internal/registration/cas/types.go:83-111 | Properties are read entry by entry, the class from "@class"; one entry that is none makes all fail |
| `Wire.CollectionOffWire` | internal/registration/cas/types.go:158-220 | Which arrays are read as a class with its values, which as plain values, and which not at all |
| `ServiceList.ListShapesAgree` | internal/registration/cas/types.go:184-255 | Direct array, wrapper and object encodings of a service list decode to the same list for every length, two included |
| `Wire.ListOffWire` | internal/registration/cas/types.go:184-255 | For any JSON value, from which of the four shapes a list is read, or that it is refused |
| `ServiceList.ConsumerSurvives` | internal/registration/cas/types.go:113-124 | The consumer of a record survives the round trip |
| `ServiceList.MarshalProperties` | internal/registration/cas/types.go:73-81 | The loop over the entries computes the encoding |
| `ServiceList.UnmarshalProperties` | internal/registration/cas/types.go:83-111 | The loop over the fields computes the decoding, errors included |
| `ServicePattern.UnescapeEscape` | internal/registration/cas/mapper.go:229-231 | Escaping dots can be undone |
| `ServicePattern.EscapeDotsInjective` | internal/registration/cas/mapper.go:229-231 | Escaping dots is injective |
| `ServicePattern.PatternParses` | internal/registration/cas/mapper.go:182-188 | For a plain host and consumer the pattern text parses to the intended expression |
| `ServicePattern.PatternAccepts` | internal/registration/cas/mapper.go:182-188 | The pattern accepts https, the fqdn ignoring case, an optional :443, /consumer with a dot matching any character, and an optional path without line terminator; nothing else |
| `ServicePattern.PatternExact` | internal/registration/cas/mapper.go:182-188 | The pattern accepts exactly the URLs with the consumer itself if and only if the consumer has no dot |
| `ServicePattern.DistinctConsumersDisjoint` | internal/registration/cas/mapper.go:182-188 | No URL of the exact form belongs to two consumers |
| `Base64.RoundTrip` | internal/registration/cas/cas_service_registration_backend.go:167 | Unpadded base64url (sections 3.2 and 5 of RFC 4648) of any bytes decodes to them |
| `Base64.GeneratedSecretSurvives` | internal/registration/cas/cas_service_registration_backend.go:161-168 | 32 bytes give 43 characters that decode back and that trimming leaves alone, so the next run reuses the secret as it is |
| `FreshSecret.FreshSecretIsDrawn` | internal/registration/cas/cas_service_registration_backend.go:145-168 | Where no client secret is stored, an answered reconcile leaves one in the Secret that decodes to the 32 random bytes, and the registration settled |
| `Base64.Injective` | internal/registration/cas/cas_service_registration_backend.go:167 | Different bytes give different secrets |
| `Base64.GroupsSay` | internal/registration/cas/cas_service_registration_backend.go:167 | Three bytes and their four groups are the same number, most significant first; a short end is filled up with zero bits (section 4 of RFC 4648) |
| `Base64.EncodeSays` | internal/registration/cas/cas_service_registration_backend.go:167 | Each group is written as its character of the URL-safe alphabet (section 5 of RFC 4648) |
| `GoStrings.SplitJoin` | internal/registration/cas/mapper.go:161 | Splitting joined comma-free items gives the items |
| `GoStrings.TrimCutsEnds` | internal/domain/registration.go:27-36 | Trimming cuts off white space only, and only at the ends |
| `Objects.AuthRegistration.AddFinalizer` | internal/controller/authregistration_controller.go:99 | Appends the finalizer unless it is there, and says which |
| `Objects.AuthRegistration.RemoveFinalizer` | internal/controller/authregistration_reconciler.go:161 | Removes every occurrence of the finalizer and keeps the rest in order |
| `Objects.SecretObject.SetControllerReference` | internal/controller/secret_reconciler.go:50-52 | Refuses to take over from an object of another kind or name, else becomes the controller |

## Left out

- `SecretSafety.ForeignSecretSafe`: does not speak of Secrets that an AuthRegistration controls, because that registration may
  delete them; that no other takes them over is in `SecretSafety.OwnerAfterCall`.
- `ServicePattern.PatternAccepts`: is stated for hosts and consumers without metacharacters other than the dot; any others become
  operators of the expression. Case folding covers ASCII letters.
- `Quiescence.Quiesces`: a move is a whole reconcile, so the garbage collector does not act between two of its calls there; the
  theorems about runs allow that.
- `Controller.Controller.Process`: takes the order of the requests as given; rate limiting and backoff are not part of this model.
- HTTP transport, authentication and status codes of the CAS client: only the contract of each call is modelled.
- JSON text: lexing, numbers with fractions or exponents and case-insensitive field names; the codecs start from value trees.
- SHA-256, `path.Join` and the quality of the random source.
- Error texts are not wrapped with context, so condition messages hold the inner error only.
- Transition times of conditions, resource versions as such, and owner references other than the controller.
- Secret data that is not valid text: values are strings.
- Stale informer caches, leader election and several replicas.
- Parsing of the CAS base URL, configuration, flags, TLS, logging, metrics, graceful shutdown and the Helm chart.
