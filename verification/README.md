# Verification of the heat-operator

This project models the logic of the OpenStack heat-operator in Dafny and proves properties of
the model. `dafny verify dfyconfig.toml` checks all of it.

## What is modelled

**Credential rotation.** One `Heat` controller and three child controllers (engine, API, CFN API)
move running pods from one set of credential secrets to the next through a shared store, and a
secret's consumer finalizer must not be released while a pod still uses the secret.

| file | content |
|---|---|
| `Names.dfy` | the rotating tuple of secret names and the hash published over it |
| `Cluster.dfy` | the state machine: every read or write of a controller is one action, and between any two of them a pass may return early or crash, and the other controllers, the kubelet and the environment may act |
| `Cleanup.dfy` | no finalizer outlives the Heat object |
| `Confirmation.dfy`, `Exactness.dfy`, `Tightness.dfy`, `Ordering.dfy` | what a child's applied hash says about its pods; when exactly it can be wrong, for one child and for the whole system; what it says about hashes that are no longer current |
| `Counting.dfy` | when exactly a child can be counted as confirmed while it needs a secret of another tuple |
| `Protection.dfy`, `History.dfy`, `Guarantees.dfy` | the safety invariant, its hypothesis on rotation, and the safety results over whole runs |
| `Exposure.dfy` | exactly which configuration writes can cost a finalizer, and protection for all others |
| `Rotation.dfy`, `Teardown.dfy` | what a pass does to finalizers and tracked names; when a disabled notifications bus is really gone |
| `CredentialGap.dfy` | the exact condition under which credentials of running pods are protected |
| `Schedule.dfy`, `Convergence.dfy`, `Progress.dfy` | fair rounds, convergence in six of them, stability afterwards, and existence of fair rounds |
| `Counterexamples.dfy` | concrete runs in which a property fails without its condition |
| `Reconcilers.dfy`, `ChildReconciler.dfy` | the passes as imperative code over a mutable store, proved to be runs of the state machine |

**The rest.** `Stages.dfy` (ordered gates and the condition vector), `Topology.dfy` (hand-over of a
topology finalizer), `WakeUp.dfy` (index lookups against a direct scan), `Routes.dfy` (ownership of
the HAProxy timeout annotation), `Admission.dfy` (update validation), `Volumes.dfy` (volumes and
mounts of the pod template).

## Hypotheses

- Reads see the latest write to the store. There is one Heat per namespace.
- Transport, notification and application credential secrets have disjoint names (`SecretName`
  carries its kind), and the object hash is injective (a hash is the list it is made from).
- Library calls behave as follows. `ManageSecretConsumerFinalizer` adds idempotently and fails on a
  missing secret; `RemoveSecretConsumerFinalizer` tolerates a missing one; `FinalizeSecretRotation`
  tracks the current name at once if nothing was tracked, keeps a tracked name until every service is
  confirmed, and then takes this finalizer from its secret and tracks the current one;
  `PruneSecretConsumerFinalizers` removes a finalizer from every
  secret outside the kept names, one at a time; `IsReadyForInput` looks at the hash every pod
  carries; `Mirror` gives True only for a child that is Ready; `EnsureServiceTopology` releases the
  last reference and adds the new one.
- Protection and confirmation need one hypothesis on rotation, `Protection.Careful`: when a
  configuration is written, no child can be misled about its tuple. Every run whose rendered tuples
  never return to an earlier value is careful (`History.NeverReturningIsCareful`); so is going back to an
  earlier tuple once all children have settled (`History.AnyTupleIsSafeAfterSettling`); and the
  condition is exact: a write meets it if and only if no continuation of the whole system in which
  the tuple stays makes a child misreport it (`Tightness.WriteIsSafeIff`). Protection alone needs less,
  `Exposure.SafeWrites`: when a configuration is written, no child can be counted for its tuple while it
  needs a transport or notification secret of another (`Exposure.SafeWritesProtect`). That condition on
  the children at the write is exact too: a write meets it if and only if no continuation of the whole
  system in which the tuple stays leaves a secret in use unprotected (`Exposure.WriteCostsNothingIff`).
  Without any condition protection can be lost from every state of an adopted Heat
  (`Counterexamples.ReturningTupleCosts`, `Counterexamples.ReturningTupleBreaksProtection`).
  Cleanup, no leak, monotone holding, teardown and convergence do not need it.

## Where the code does less than one might expect

- A tuple that returns before every child has settled can be confirmed falsely, because the
  annotation hashes names only and a pass may stop between the configuration write and the
  annotation.
- The configuration names a new application credential before the credential's finalizer is added.
  A child that copies the configuration in between runs it unprotected, and exactly such copies do
  (`CredentialGap.PodsStayProtectedIff`, `CredentialGap.CredentialsAreHeldIff`,
  `Counterexamples.CredentialOfARunningPodIsUnprotected`). The comment in the code says the
  finalizer is added early, before deployment; that holds for child specs only.
- A notifications TransportURL that never got a secret is never deleted once the bus is turned off
  (`Counterexamples.UntrackedBusIsLeftBehind`, `Teardown.BusIsGoneIff`).
- The HeatCfnAPI wake-up lists HeatAPI objects: a HeatCfnAPI is enqueued exactly when a HeatAPI of the
  same key is hit, and as the parent names them that is never (`WakeUp.CfnApiIsWokenIff`,
  `WakeUp.ParentsCfnApiIsNeverWoken`, `WakeUp.CfnApiMissesItsSecret`). The index on the transport
  secret asks whether the password secret is set (`WakeUp.MissedIff`).
- A child pass lost between moving its topology finalizer and patching its status strands the
  finalizer if no pass completes at that reference any more (`Topology.HandOver`,
  `Topology.LostPatchStrandsAFinalizer`).

## Model

| member | source | states |
|---|---|---|
| Names.ExpectedHashIsInjective | internal/controller/heat_controller.go:1002-1013 | two tuples have the same published hash if and only if they are the same tuple, although absent names are dropped from the list |
| Names.HashNamesTheTuple | internal/controller/heat_controller.go:1002-1013 | the hashed list has the transport first, the notification second if there is one and the credential last if there is one, and nothing else |
| Cleanup.NoFinalizerOutlivesHeat | internal/controller/heat_controller.go:454-531 | in every run, with crashes and early returns anywhere, once the Heat object is gone no secret carries either consumer finalizer |
| Cleanup.ConsumerFinalizersNeedHeatsOwn | internal/controller/heat_controller.go:232-247 | a secret carries a consumer finalizer only while Heat exists with its own finalizer persisted |
| Cleanup.OwnershipInvStep | internal/controller/heat_controller.go:232-247 | every action keeps the invariant that ties the kind of pass in flight to Heat's finalizer and to what is already released |
| Protection.SafetyInvStep | internal/controller/heat_controller.go:533-1210 | every action of any controller, the kubelet or the environment keeps the protection invariant, unless it counts a child as confirmed that still needs a secret of another tuple |
| Protection.SafetyInvRun | internal/controller/heat_controller.go:179-253 | so does every run that counts no such child |
| Protection.TruthfulStep | internal/controller/heatapi_controller.go:592-919 | every careful action keeps it true that no child can misreport the rendered tuple and that a confirmed one runs it |
| Protection.CarefulIsHonest | internal/controller/heat_controller.go:1101-1109 | a careful run counts no such child |
| Protection.ReleaseKeepsWorkAndUse | internal/controller/heat_controller.go:1101-1185 | with all three services confirmed, releasing any secret that is not one of the pass's current ones leaves everything in use protected |
| Protection.SafetyInvProtect | internal/controller/heat_controller.go:712-715 | adding a consumer finalizer, or failing to, keeps the protection invariant |
| Protection.SafetyInvPublish | internal/controller/heat_controller.go:1316-1326 | publishing one child keeps the invariant, if a child it counts as confirmed needs only the pass's secrets |
| Protection.SafetyInvPrune | internal/controller/heat_controller.go:1186-1205 | releasing one stray keeps the invariant |
| Guarantees.SecretsInUseAreProtected | internal/controller/heat_controller.go:705-715 | while Heat is live, every transport or notification secret named by the rendered configuration, a child spec, a child's own configuration or a running pod carries the consumer finalizer, and every credential named by a child spec carries its own |
| Guarantees.PodsKeepTheirSecrets | internal/controller/heat_controller.go:1176-1185 | the transport and notification secrets of a running pod of a live Heat exist and cannot be deleted by the next action |
| Guarantees.ConfirmationIsTrue | internal/controller/heatapi_controller.go:878-910 | a child whose applied hash is the hash of the rendered tuple runs exactly that tuple in every pod |
| Guarantees.ReadyMeansRolledOut | internal/controller/heat_controller.go:1123-1128 | when a pass marks Heat Ready, all three services are confirmed, the rendered configuration is at the pass's names, and so is every child's own configuration and every pod |
| Exposure.WriteCostsNothingIff | internal/controller/heat_controller.go:875 | at a configuration write, no continuation of all controllers, kubelet and environment in which the tuple stays leaves a secret in use unprotected before a deletion is asked for if and only if no child, as it is at the write, can be counted for the tuple while it needs a secret of another |
| Exposure.UnsafeCountCosts | internal/controller/heat_controller.go:1186-1205 | the necessary half: a run of the whole system that keeps the tuple and ends with a secret in use unprotected |
| Exposure.SafeWritesProtect | internal/controller/heat_controller.go:875 | over whole runs: if no write could have a child counted wrongly, everything a live Heat's configuration, children and pods need is protected |
| Exposure.SafeWriteIsSafeToCount | internal/controller/heatapi_controller.go:677-684 | a write that no child can misreport meets that condition |
| Exposure.ProtectionIff | internal/controller/heat_controller.go:1101-1205 | while a tuple is rendered, no continuation that keeps it leaves something in use unprotected if and only if none counts a child as confirmed while it needs a secret of another tuple |
| Exposure.WrongCountCostsAFinalizer | internal/controller/heat_controller.go:1186-1205 | from a settled state with one such child a settled run, which renders the same tuple only, leads the other two to confirm and prunes the finalizer of a secret in use |
| Exposure.HonestRunProtects | internal/controller/heat_controller.go:1101-1154 | the sufficient half, over every run |
| Guarantees.BusIsDeletedOnlyWhenUnused | internal/controller/heat_controller.go:1155-1169 | the notifications TransportURL is deleted only when no pod, child configuration or rendered configuration refers to a notification secret |
| Guarantees.TeardownIsRepaired | internal/controller/heat_controller.go:1155-1169 | after a completed, confirmed pass with the bus off over a tracked notification secret, no TransportURL, tracked name or finalizer of it is left, wherever earlier passes were interrupted |
| Confirmation.SoundnessStep | internal/controller/heatengine_controller.go:431-617 | while the configuration refers to a tuple, no child step, crash, early return or pod event lets the child misreport it |
| Confirmation.RunsStep | internal/controller/heatapi_controller.go:985-1048 | a child that runs a tuple in every pod keeps doing so while the configuration refers to it |
| Confirmation.PublishKeepsSoundness | internal/controller/heat_controller.go:1316-1326 | publishing changes no pod, stamp or confirmation of a child |
| Exactness.CannotMisreportIsExact | internal/controller/heatapi_controller.go:677-684 | a tuple may be written with no continuation ever misreporting it if and only if the child cannot misreport it at that moment |
| Exactness.NeverMisreports | internal/controller/heatapi_controller.go:878-910 | the sufficient half, over every continuation of child steps, pod events, re-renderings and publications |
| Exactness.SomeContinuationMisreports | internal/controller/heatapi_controller.go:878-910 | the necessary half: a continuation that ends in a false confirmation |
| Counting.CannotBeMiscountedIsExact | internal/controller/heat_controller.go:1026-1041 | no continuation of a child for a tuple ends with the child counted for it while needing a secret of another if and only if the child cannot be miscounted at that moment |
| Counting.NeverMiscounted | internal/controller/heat_controller.go:1026-1041 | the sufficient half, over every continuation of child steps, pod events, re-renderings and publications |
| Counting.SomeContinuationMiscounts | internal/controller/heatapi_controller.go:878-910 | the necessary half: a continuation after which the child is counted wrongly |
| Counting.MisreportNeedNotCount | internal/controller/heat_controller.go:1026-1041 | the condition is strictly weaker than being unable to misreport: a false confirmation under an older spec is not counted |
| Tightness.WriteIsSafeIff | internal/controller/heat_controller.go:875 | at a configuration write, no continuation of all controllers, kubelet and environment in which the tuple stays makes a child misreport it if and only if the write is safe |
| Tightness.UnsafeWriteGoesWrong | internal/controller/heat_controller.go:875 | the necessary half: after an unsafe write there is a run of the whole system that keeps the tuple and ends in a false confirmation |
| Ordering.NoPodIsOlderThanConfirmed | internal/controller/heatcfnapi_controller.go:683-913 | whatever tuple a child's applied hash stands for, current or not, every pod runs that tuple or one rendered later |
| Ordering.OrderInvStep | internal/controller/heatcfnapi_controller.go:683-913 | every action keeps the order of annotations, copies, stamps and pods by version |
| History.NeverReturningIsCareful | internal/controller/heat_controller.go:875 | a run whose rendered tuples never return to an earlier value meets the hypothesis on rotation |
| History.AnyTupleIsSafeAfterSettling | internal/controller/heat_controller.go:875 | once every child has settled any tuple may be written next |
| Rotation.ReadyPassKeepsExactlyTheCurrent | internal/controller/heat_controller.go:1101-1205 | after any run, a completed pass that found all services confirmed leaves the finalizers on exactly the current secrets, tracks exactly those, and is Ready |
| Rotation.CompletedPassTracks | internal/controller/heat_controller.go:1111-1141 | after any run, a completed pass tracks its transport secret and, if it has them, its notification and credential secrets, confirmed or not: the current name at once if none was tracked, and otherwise the earlier or the current one |
| Rotation.RotationInvStep | internal/controller/heat_controller.go:1111-1205 | every action keeps the invariant about what a pass holds, tracks and has released, with no hypothesis on rotation |
| Rotation.ReleaseNeedsEveryConfirmation | internal/controller/heat_controller.go:1101-1154 | an action that takes a consumer finalizer away belongs to a delete pass, or to a pass with all three services confirmed for which the secret is not current |
| Rotation.TrackedNamesMoveOnConfirmation | internal/controller/heat_controller.go:708-710 | a tracked name that is set moves only when a pass with all three confirmed is patched, and then to that pass's current name |
| Rotation.ConfirmedMeansObservedAppliedReady | internal/controller/heat_controller.go:1026-1041 | a service counts as confirmed only if it had observed its latest generation, applied the hash of the pass's names, and was Ready when it was published |
| CredentialGap.PodsStayProtectedIff | internal/controller/heatapi_controller.go:1009-1019 | where everything carried is held, no continuation of child and kubelet actions ends with a pod of the child on an unprotected credential if and only if the gap between configuration and credential finalizer is closed or the child cannot come to copy |
| CredentialGap.OpenGapExposesAPod | internal/controller/heat_controller.go:875-914 | the necessary half: a continuation that ends with such a pod |
| CredentialGap.CredentialsAreHeldIff | internal/controller/heat_controller.go:902-914 | in a careful run everything a live Heat's children carry and run with is protected all along if and only if no child copies the configuration in the gap |
| CredentialGap.PodCredentialsAreHeld | internal/controller/heat_controller.go:902-914 | in particular, without such a copy every credential a pod of a live Heat runs with carries the finalizer |
| CredentialGap.OnlyTheConfigWriteOpensTheGap | internal/controller/heat_controller.go:875 | while Heat is live only a configuration write opens the gap |
| Teardown.BusIsGoneIff | internal/controller/heat_controller.go:1155-1169 | a completed, confirmed pass with the bus off ends without a notifications TransportURL if and only if there was none at its start or Heat tracked a notification secret |
| Convergence.SixRoundsConverge | internal/controller/heat_controller.go:1002-1205 | from any state any run has led to, whatever passes are in flight and whether or not the TransportURLs have been created and answered, six fair rounds in a settled environment make Heat Ready, every child deployed, rolled out and confirmed, and finalizers and tracked names exactly the current ones, in any interleaving of reads and writes and with crashes |
| Convergence.FirstRound | internal/controller/heat_controller.go:1316-1326 | a fair round gets both TransportURLs answered and every child published, whatever pass is in flight at its beginning |
| Convergence.NothingMovesAfterwards | internal/controller/heat_controller.go:1316-1326 | after that no settled run moves a spec, generation, annotation, status, configuration, template or finalizer |
| Convergence.ConvergedRunsTheTarget | internal/controller/heat_controller.go:1176-1185 | in a careful run that has converged every pod runs the target's names, and once the children are idle any tuple may come next |
| Convergence.RoundLifts | internal/controller/heatapi_controller.go:592-919 | one fair round lifts every child by a rung of: published, adopted, deployed, rolled out, confirmed |
| Convergence.ReachedStep | internal/controller/heatengine_controller.go:337-634 | no settled action, crash or pod churn takes a rung away |
| Convergence.LastPatch | internal/controller/heat_controller.go:1101-1205 | the pass that finds every service confirmed completes the rotation |
| Convergence.SteadyStep | internal/controller/heat_controller.go:533-1210 | a settled action on a converged state changes nothing but pods and passes in flight |
| Progress.PassProgresses | internal/controller/heat_controller.go:1186-1205 | every step of a pass lowers the stages left, or at the same stage the set of strays |
| Progress.FairRoundExists | internal/controller/heat_controller.go:179-253 | from every settled state there is a fair round |
| Progress.ConvergenceIsPossible | internal/controller/heat_controller.go:1002-1205 | from any state any run has led to there is a settled run to the converged state; the most it takes is a crash of the pass in flight |
| Counterexamples.ReturningTupleCosts | internal/controller/heat_controller.go:1186-1205 | without the hypothesis on rotation, from every state of an adopted Heat before a deletion is asked for there is a run, over any two transport secrets, that ends with something in use unprotected |
| Counterexamples.ReturningTupleBreaksProtection | internal/controller/heat_controller.go:875 | a run of a new Heat that is not careful and ends live and unprotected |
| Counterexamples.CredentialOfARunningPodIsUnprotected | internal/controller/heat_controller.go:875-914 | a careful run that ends with a pod of a live Heat running with an unprotected credential |
| Counterexamples.UntrackedBusIsLeftBehind | internal/controller/heat_controller.go:1155-1169 | a careful run that ends with the bus off, its TransportURL present and nothing tracking it |
| Reconcilers.Reconcile | internal/controller/heat_controller.go:179-253 | with a Heat present a call is exactly one pass, over at its end and interrupted only where the script says so; uninterrupted, a deletion is carried through, a new Heat is adopted, and a live one is reconciled to the end if and only if every name and secret is there; afterwards no finalizer exists without Heat, and a confirmed pass, and no other, reports so and leaves them on exactly the tracked secrets |
| Reconcilers.Adopt | internal/controller/heat_controller.go:232-235 | Heat's own finalizer is persisted in a pass of its own |
| Reconcilers.Store.ManageSecretConsumerFinalizer | internal/controller/heat_controller.go:712-715 | adds the finalizer to a secret that exists and fails on one that does not |
| Reconcilers.Store.FinalizeSecretRotation | internal/controller/heat_controller.go:1131-1141 | with nothing tracked the current name is returned and no secret changes; a tracked name stays, and no secret changes, while it is current or not every service is confirmed; otherwise the current name is returned and exactly this finalizer goes from the superseded secret |
| Reconcilers.Store.CreateOrUpdateChild | internal/controller/heat_controller.go:1316-1326 | spec and annotation change in one write, and the generation moves exactly when the spec does |
| Reconcilers.Pass.constructor | internal/controller/heat_controller.go:232-253 | a pass begins with the instance it read and has done nothing else |
| Reconcilers.Pass.CreateOrUpdateTransportUrl | internal/controller/heat_controller.go:674-710 | one step of the pass: the TransportURL is created if absent, the pass goes on if and only if it has a secret, and that is tracked only if nothing was |
| Reconcilers.Pass.CreateOrUpdateNotificationsUrl | internal/controller/heat_controller.go:760-799 | the same for the notifications bus, or nothing if it is off |
| Reconcilers.Pass.Protect | internal/controller/heat_controller.go:801-804 | one step: the finalizer is added if and only if the secret is there, and otherwise the pass ends |
| Reconcilers.Pass.GenerateServiceSecrets | internal/controller/heat_controller.go:864-875 | one step: the configuration names exactly what the pass has read |
| Reconcilers.Pass.ProtectCredential | internal/controller/heat_controller.go:899-914 | one step after the configuration: the credential, if one is set, gets its finalizer, or the pass ends |
| Reconcilers.Pass.DeploymentCreateOrUpdate | internal/controller/heat_controller.go:1382-1433 | one step: the child is published, and counted as confirmed if and only if what came back has observed its latest generation, has applied the expected hash and is Ready |
| Reconcilers.Pass.FinalizeCredential | internal/controller/heat_controller.go:1111-1128 | one step: the pass's credential is tracked if none was or every service is confirmed, and otherwise the tracked one stays; Ready is set if and only if every service is confirmed |
| Reconcilers.Pass.FinalizeTransport | internal/controller/heat_controller.go:1131-1141 | one step: the transport secret is rotated, and nothing else is tracked differently |
| Reconcilers.Pass.FinalizeNotification | internal/controller/heat_controller.go:1143-1169 | with the bus on a rotation, with it off the teardown once every service is confirmed, and otherwise nothing |
| Reconcilers.Pass.TearDownNotifications | internal/controller/heat_controller.go:1155-1169 | release, delete and clear in this order, in two steps between which the pass may be interrupted |
| Reconcilers.Pass.PruneSecretConsumerFinalizers | internal/controller/heat_controller.go:1191-1204 | uninterrupted it leaves the finalizer on kept secrets only, and it never takes it from a kept one |
| Reconcilers.Pass.ReconcileNormal | internal/controller/heat_controller.go:533-1210 | the whole pass completes, or returns early with the patch to come, or crashes; uninterrupted it completes if and only if every name and secret is there, and then the configuration and all children are as asked |
| Reconcilers.Pass.PatchInstance | internal/controller/heat_controller.go:205-223 | the deferred patch writes the tracked names and the Ready condition, and nothing else |
| Reconcilers.DeletePass.CollectTransports | internal/controller/heat_controller.go:487-506 | a transport or notification secret is to be released if and only if it is tracked or is the one its TransportURL has now |
| Reconcilers.DeletePass.Purge | internal/controller/heat_controller.go:514-524 | uninterrupted it leaves no secret with the finalizer |
| Reconcilers.DeletePass.ReconcileDelete | internal/controller/heat_controller.go:454-531 | the whole delete pass is a run, and Heat's own finalizer goes last |
| ChildReconciler.ReconcileChild | internal/controller/heatapi_controller.go:100-184 | a child's whole call is exactly one pass of that child, over at its end; uninterrupted it leaves the child adopted, returned for want of an input, or deployed and confirmed if rolled out |
| ChildReconciler.ServicePass.ReconcileNormal | internal/controller/heatapi_controller.go:592-919 | the whole child pass ends, and uninterrupted its configuration, template and status are those of the outcome |
| ChildReconciler.ServicePass.Gate | internal/controller/heatapi_controller.go:121-151 | an early return patches the generation that was read and takes Ready away, and leaves the applied hash and everything else; a crash patches nothing |
| ChildReconciler.ServicePass.ReadParentConfig | internal/controller/heatapi_controller.go:1009-1019 | the parent's configuration is read a second time for its content; without it the pass returns |
| ChildReconciler.ServicePass.LookAtPods | internal/controller/heatapi_controller.go:884-897 | rolled out if and only if the Deployment is ready and every pod carries the pass's hash |
| ChildReconciler.ServicePass.PatchInstance | internal/controller/heatapi_controller.go:878-916 | the annotation read at the start is confirmed if rolled out, and otherwise the old confirmation stays |
| Stages.HeatPass.ReconcileNormal | internal/controller/heat_controller.go:533-1210 | the pass stops at the first call that stops it and leaves exactly the conditions of the table; and, said of the outcomes of the calls alone, it leaves every one of the fifteen conditions and writes exactly the children that the outcomes call for |
| Stages.HeatPass.EnsureDatabase | internal/controller/heat_controller.go:1765-1849 | the pass goes on if and only if account and database are done, and leaves what the table says |
| Stages.HeatPass.EnsureNotifications | internal/controller/heat_controller.go:760-853 | the pass goes on if and only if there is no bus or all four calls are done; the stretch leaves what the table says, and removes the condition without a bus |
| Stages.HeatPass.GenerateConfig | internal/controller/heat_controller.go:864-916 | the pass goes on if and only if the custom secrets were read, the configuration was written and hashed and a credential, if any, was protected; a missing custom secret takes InputReady back |
| Stages.HeatPass.ReconcileInit | internal/controller/heat_controller.go:1212-1267 | the pass goes on, and DbSyncReady is True, if and only if the DB-sync job is done; while it runs, or if it failed, the condition is False |
| Stages.HeatPass.CleanDatabase | internal/controller/heat_controller.go:951-971 | the pass goes on if and only if unused accounts were dropped and the purge job is done or still running; unused accounts blame no condition |
| Stages.TableIsOutcomes | internal/controller/heat_controller.go:628-1210 | every condition at the end of a pass, and every child it wrote, in terms of which calls came back done, waiting or failed, of the bus and of the credential |
| Stages.WrittenMeansDone | internal/controller/heat_controller.go:924-1099 | a child is written only when every call before it that the spec asks for was done, the purge job alone done or still running |
| Stages.LaterGatesAreUnknown | internal/controller/heat_controller.go:628-1000 | behind a gate that was not passed every later gate is Unknown |
| Stages.GatePassedIff | internal/controller/heat_controller.go:628-1000 | a gate is passed if and only if no call up to the one that settles it stopped the pass |
| Stages.ChildWrittenIff | internal/controller/heat_controller.go:1002-1099 | a child is written if and only if every gate was passed and neither the hash nor a write up to its own failed |
| Stages.FalseNamesTheCall | internal/controller/heat_controller.go:628-1000 | a False condition names the call at which the pass stopped, and every call before it went through |
| Stages.ReadyIff | internal/controller/heat_controller.go:1123-1128 | Ready if and only if nothing stopped the pass up to the credential's rotation and all three children have confirmed and mirror True; then every condition is True or removed |
| Topology.Service.EnsureTopology | internal/controller/heat_controller.go:103-141 | the status follows the reference when a pass is complete and finds the topology, and only then; the last applied topology loses the finalizer if and only if the reference has moved, the wanted one gets it if it is there, and no other one changes |
| Topology.Service.ReconcileDelete | internal/controller/heatapi_controller.go:393-405 | the delete pass releases the last applied topology |
| Topology.HandOver | internal/controller/heatapi_controller.go:816-832 | over any references and passes, interrupted anywhere, a delete pass leaves the finalizer on exactly the stranded topologies, those at which a pass was lost after the move and none completed afterwards, and a complete pass on those and the last applied one |
| Topology.HeldBeyondTheStatus | internal/controller/heat_controller.go:103-141 | what is held beyond the last applied topology is exactly what is stranded |
| Topology.ChangeIsSafeIff | internal/controller/heat_controller.go:103-141 | a change and a complete pass account for every finalizer if and only if none was held beyond the last applied topology and the new one |
| Topology.LostPatchIsRepaired | internal/controller/heat_controller.go:103-141 | a lost patch is repaired by the next pass if the reference has not changed |
| Topology.UnchangedReferenceKeepsTheFinalizer | internal/controller/heat_controller.go:103-141 | as long as the reference stays, the last applied topology keeps the finalizer through any passes, wherever they are interrupted |
| Topology.LostPatchStrandsAFinalizer | internal/controller/heat_controller.go:103-141 | and strands a finalizer for good if it has |
| WakeUp.FindObjectsForSrc | internal/controller/heatapi_controller.go:325-357 | the nested loops return one request for every listed object of every watched field, in order, up to the first list call that fails |
| WakeUp.EnqueuedOncePerField | internal/controller/heat_controller.go:389-421 | an object is enqueued exactly as many times as it has watched fields indexing the name |
| WakeUp.EnqueuedIffScanned | internal/controller/heatengine_controller.go:273-305 | with the password secret set, an object is enqueued if and only if a direct scan of its spec finds the name |
| WakeUp.MissedIff | internal/controller/heatapi_controller.go:202-211 | without it, exactly the objects whose transport secret no other watched field mentions are missed |
| WakeUp.HeatIsWokenIff | internal/controller/heat_controller.go:263-267 | a Heat is enqueued if and only if the name is its password secret, one of its custom secrets or its credential |
| WakeUp.ApiIsWokenIff | internal/controller/heat_controller.go:268-276 | a HeatAPI is enqueued if and only if the name is its password secret, CA bundle, internal or public certificate, a custom secret or its topology, or its transport secret beside a password secret |
| WakeUp.EngineIsWokenIff | internal/controller/heat_controller.go:286-292 | likewise a HeatEngine, without the certificates |
| WakeUp.CfnApiIsWokenIff | internal/controller/heatcfnapi_controller.go:326-358 | a HeatCfnAPI is enqueued if and only if a HeatAPI of the same key has a watched field indexing the name |
| WakeUp.CfnApiIsMissedIff | internal/controller/heatcfnapi_controller.go:326-358 | a change its own spec refers to is missed if and only if no HeatAPI of the same key is hit |
| WakeUp.ParentsCfnApiIsNeverWoken | internal/controller/heat_controller.go:1297-1362 | with the names the parent gives its children it is never enqueued |
| WakeUp.CfnApiMissesItsSecret | internal/controller/heatcfnapi_controller.go:326-358 | an input: one Heat's two APIs refer to the changed secret and only the HeatAPI is enqueued |
| Routes.Route.SetDefaultRouteAnnotations | api/v1beta1/heat_webhook.go:333-356 | a human's timeout is kept and loses the flag; any other is replaced, under both keys, by a value that parses as exactly the given number of seconds; other keys stay |
| Routes.SecondsIff | api/v1beta1/heat_webhook.go:353 | a string parses as a number of seconds if and only if it is the one that is written for that number |
| Routes.HumansKeepTheirTimeout | api/v1beta1/heat_webhook.go:333-356 | in any interleaving, once a human owns the timeout no operator call changes it until a human edits again |
| Routes.SurvivesIffHumanOwned | api/v1beta1/heat_webhook.go:342-351 | a timeout survives every possible call if and only if a human owns it |
| Routes.LastCallWins | api/v1beta1/heat_webhook.go:353-355 | of several calls only the last one counts; a repeated call changes nothing |
| Routes.CallsFollowTheLast | api/v1beta1/heat_webhook.go:353-355 | whatever happened before, a timeout no human owns comes to stand for exactly the last call's number of seconds |
| Routes.FlagMeansEqual | api/v1beta1/heat_webhook.go:333-356 | after a call the flag is present if and only if no human owned the timeout, and then equals it |
| Admission.ValidateUpdate | api/v1beta1/heat_webhook.go:253-290 | no error if and only if no deprecated field moved, the database stays or is waived, every override key is internal or public and no topology leaves the namespace; otherwise, after the deprecations, an error for exactly each of these that fails, under its path and in the order of the rules |
| Admission.ValidateUpdateCore | api/v1beta1/heat_webhook.go:292-321 | the same, with no waiver of the database rule |
| Admission.ValidateRoutedOverrides | api/v1beta1/heat_webhook.go:276-284 | no error if and only if every key is internal or public, and otherwise one error naming each other key, in order |
| Admission.ValidateHeatTopology | api/v1beta1/heat_webhook.go:358-388 | no error if and only if no topology reference leaves the namespace |
| Admission.ValidationsAgreeIff | api/v1beta1/heat_webhook.go:253-321 | the two validations agree on corresponding specs if and only if the annotation is absent or the database does not move |
| Admission.AdmittedSpecsAreClean | api/v1beta1/heat_webhook.go:276-287 | every spec that admitted updates lead to has internal and public as its only override keys and no topology of another namespace |
| Admission.DatabaseIsImmutable | api/v1beta1/heat_webhook.go:263-274 | along any admitted updates a database that is set stays, unless an update in between carries the annotation |
| Volumes.GetVolumes | internal/heat/volumes.go:27-65 | the two own volumes, then every volume of every propagated entry and of no other, as often as it is propagated; in the order of the lists if that is once at most |
| Volumes.GetVolumeMounts | internal/heat/volumes.go:68-91 | the two own mounts, then likewise the mounts |
| Volumes.GetDBSyncVolumeMounts | internal/heat/volumes.go:94-121 | the three own mounts of the DB-sync job, then likewise the mounts |
| Volumes.FormatTLS | internal/heatapi/deployment.go:165-204 | fails if and only if an endpoint cannot be used, and otherwise appends exactly the CA bundle, the memcached certificate, the internal and the public endpoint, each if it is there |
| Volumes.Deployment | internal/heatapi/deployment.go:57-94 | there is no template if an endpoint's TLS cannot be used; otherwise it carries the configuration hash, every volume and mount of its own, of every propagated entry, custom secret, certificate and endpoint, and no more than these |
| Volumes.ClosedIff | internal/heatapi/deployment.go:57-94 | every mount of the template names a declared volume if and only if every mount of every propagated entry does |
| Volumes.OwnVolumesSuffice | internal/heat/volumes.go:27-91 | it does when every entry's mounts name that entry's own volumes |

## Left out

- Exposure.WriteCostsNothingIff: what a wrong count costs is followed up to a deletion request; a pass that is still running then is not followed further.
- Guarantees.SecretsInUseAreProtected: DB-sync and DB-purge pods also read the parent's configuration; the code does not track them and neither does the model.
- Volumes.Deployment: affinity, probes, resources and replicas are not modelled.
- Teardown.BusIsGoneIff: a TransportURL that disappears by garbage collection with its Heat is not modelled.
- Volumes.GetVolumes: the storage library's choice of which entry reaches which service is an argument; its source is not part of this model.
- Admission.ValidateRoutedOverrides: the library that checks override keys is not part of this model; that it admits exactly internal and public is what its callers rely on, and the keys come in whatever order the map is iterated.
- Admission.ValidateUpdate: the shared rule for deprecated fields is an argument, and warnings are not modelled.
- A first pass that returns because the status has no conditions yet is merged with the pass that adds the finalizer and with an early return.
- Children are not deleted in the rotation model; of their delete pass only the topology part is modelled.
- A child's check of its transport secret and its first read of the parent's configuration are one action; the three RBAC conditions are one.
- The parent's deferred patch of metadata and status is one action; the reads of the two TransportURLs in a delete pass are one action.
- A Heat object created again after deletion, and secrets that change content under the same name.
- Keystone, MariaDB, memcached, RBAC, services, endpoints and jobs, except as outcomes of calls in `Stages`.
- The text of templates and configuration files; `secret.Data` is iterated in an unspecified order, so nothing is claimed about it.
- The engine's and the CFN API's own templates, which repeat the HeatAPI's.
- `Default`, create validation, the label-based wake-up of children, the memcached and keystone watches: each is visible from its body.
- Manager set-up, RBAC rules, generated code and manifests.
