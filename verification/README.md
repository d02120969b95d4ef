# logan-app-operator, verified

logan-app-operator is a Kubernetes operator. A control loop drives the cluster towards a declared
*Boot*: it sets defaults, creates a workload and services, repairs what drifts, and reports status. An
admission webhook guards the environment variables of the configuration and keeps a bounded, numbered
revision log of every Boot. This project models that logic in Dafny and proves that it does its job:
from every state of the cluster the loop settles in at most nine writing calls, for exactly the Boots
whose workload can pass the operator's own check and whose metrics are consistent; where it settles
everything agrees with the Boot; one request is one revision, under an exact condition, and the revision log is the
end of an unbounded history; the helper algorithms underneath compute what their callers rely on.

The central results:

* **The loop settles.** `Convergence.ReconcileLowersRank`: from every sane state a call succeeds and, if
  it writes, lowers a rank of at most nine. `Agreement.QuietMeansAgreement`: a call writes nothing
  *exactly* when defaults, workload, services, autoscaler, status, revision phase and annotations agree
  with the Boot. `Agreement.NineCallsAgree` puts them together. `Exactness.SettlingExactly` says for which
  Boots this is so: the loop comes to rest from every state of the cluster *exactly* when the Boot with
  its defaults set can pass the check and its metrics are consistent. The controller of `Controller.dfy`
  works on live objects, in the order of the source, and is proved to be the step these results are about.
* **One request is one revision.** `Recording.RunAddsNoRevision`: with every write of the loop passing the
  webhook, no run of any length adds a revision to the one of the request.
  `RevisionHash.WriteBackAddsNoRevision` gives the exact condition on the request. Another release adds
  *exactly* one: `Edits.FormsAgreeExactly`, `Edits.EditIsOneRevisionExactly`, `Edits.EditAfterRunIsOneRevision`.
* **Phases tell the truth.** The newest revision of a settled Boot is Active exactly when all its pods are
  ready, and a superseded one ended Complete exactly when they were (`Phases.QuietPhaseTells`,
  `Phases.EndsAsLastSeen`, and over whole runs `RevisionLaws.EndsAsReported`).
* **Services reach their pods**, those of their own Boot only, after any run of the loop
  (`Endpoints.ServicesFindTheirPods`, `Endpoints.EveryServiceHasEndpoints`).
* **Defaulting is a fixpoint**, for every Boot, exactly for well-formed configurations
  (`DefaulterLaws.SettlesExactly`). What a request sets stays, and what it leaves open comes from the
  configuration, field by field (`Filling.LimitsAreFilled`, `Filling.RequestsAreFilled`,
  `Filling.EnvironmentIsFilled`).
* **Builder and checker of the workload agree** exactly when no compared list is explicitly empty and the
  mount record raises no objection (`WorkloadLaws.BuilderMeetsChecker`).
* **Services settle** after two writing passes although port lists are shared between objects
  (`ServiceLaws.OnePassAligns`, `ServiceLaws.ThirdPassIsQuiet`).
* **The revision log** is sound after every interleaving and, without other deleters, the last
  `MaxHistory` entries of the destuttered trace (`RevisionLaws.EveryRunIsSound`,
  `RevisionLaws.StoredRevisions`).

What the proofs turned up in the code:

* `command: []` in a Boot with its defaults set makes every reconcile rebuild the workload again, for
  every such Boot (`Endless.EmptyCommandRolls`; `Endless.SomeStateRolls` is a concrete one): the checker
  compares an explicitly empty list with the nil list the API server returns
  (`WorkloadLaws.SomeTemplatePasses`, `Endless.RollingForever`).
* When the configured mounts change under unchanged claims, the recorded mounts are kept. The loop settles
  all the same, unless a mount that differs names a shared claim or one of this Boot alone
  (`WorkloadLaws.VolumesDifferExactly`); then every call rebuilds the workload.
* One request counts as two revisions exactly when it holds an explicitly empty list or map that defaulting
  leaves empty, or an explicitly empty environment that is recorded as such, under the same image, while
  the configuration has a variable that is no business variable (`RevisionHash.StoredFormIsRecordedForm`,
  `RevisionHash.EmptyCommandCountsTwice`, `RevisionHash.ForgottenEnvCountsTwice`).
* `DefaultPvcValue` decodes with the Boot as it was before defaulting; with a port left open and `${PORT}`
  in a mount name the record is wrong, and with claims it is never repaired
  (`DefaulterLaws.MountAnnotationIsCurrent`).
* In `DefaultEnvValue` the early return of lines 377-381 and the branch of lines 414-419 are unreachable.
* On update a configuration variable whose value holds a placeholder cannot be added by a user even with
  the right value, since the literal is compared undecoded (`Admission.PlaceholderValuesAreFrozen`).
* Revision numbers are unique among live revisions only: a run gives no number twice exactly when no
  revision is added after an event that took the newest one (`RevisionLaws.NumbersFreshExactly`,
  `RevisionLaws.DeletedNumberIsReused`).
* The status keeps the kind of a workload it named first: with `workload: StatefulSet` removed from a Boot, a
  Deployment is run and the status says StatefulSet for good (`Reports.StatusNamesKindExactly`).
* `mergeSlice` is associative exactly when repeats in the middle list do not matter
  (`EnvList.MergeAssociative`).

## Layout

| file | what it holds |
|---|---|
| Strconv, Placeholder, EnvList, Difference, ServiceNames | the list and text algorithms |
| Types, BootOps | the resources, the configuration, names and labels |
| Defaulter, DefaulterLaws, Filling | setting defaults |
| Admission, RevisionLog, RevisionLaws, RevisionHash, Orphans | the webhook and the revision log |
| Workloads, WorkloadLaws, Services, ServiceLaws, Autoscaler, Built | the objects of a Boot |
| Cluster, Controller | one reconcile, as a step over the API server's state and as a controller |
| StageLaws, LateLaws, Convergence, Agreement | the loop over all its calls |
| Starting, Endless, Exactness | which Boots settle and which do not |
| Recording, Edits | the loop with the webhook in it |
| Endpoints, Phases, Reports | what the loop leaves for others to see: endpoints, phases, status |

A Go nil slice or map is `None`, an explicitly empty one `Some([])`; the API server returns the former for
the latter. Annotation values are typed: marshalling is a constructor, and unmarshalling succeeds exactly
on the matching one. Objects sent to the API server come back with protocol `TCP` on open ports, session
affinity `None` when it was empty, and a node port where it was zero; which one is a parameter.

## Assumptions of the loop

`Convergence.Sane` holds them all, in two parts.

`StageLaws.Workable` is about the cluster and the configuration. Which objects exist, and what they hold, is
arbitrary, within what the API server guarantees.

* The container and pod parts of the configuration leave alone what the Boot decides; replicas, health path
  and scrape setting are given.
* Expected services have distinct names that no service with other labels holds.

`Convergence.SaneBoot` is about the Boot with its defaults set (`Convergence.Final`): it can pass the check of
the workload, its metrics are consistent, and its defaults stay when it is stored. Beside `Workable` this is
what settling from every state amounts to (`Exactness.SettlingExactly`). Two lemmas say it of the request:

* `Starting.KeptMountsAreSane`: under a well-formed configuration (`Types.WellFormedConfig`) it is enough
  that names hold no `$`, `{`, `}` or upper-case letter, that the port is set or the mount names do not
  contain `${PORT}`, that a mount record, if kept, is current, that there is a claim or the configured mount
  names hold no placeholder, and that enabled metrics with one key have one target.
* `Starting.FreshBootIsSane`: a new Boot in an empty cluster needs no more than that.

## Model

| member | source | states |
|---|---|---|
| Strconv.ParseItoa | pkg/apis/app/v1/bootrevision_ops.go:15-28 | every number written as a decimal annotation is read back as itself, up to the 64-bit limits |
| Strconv.ItoaIsDecimal | pkg/controller/bootrevision/bootrevision_controller.go:157-158 | the text is decimal: another digit multiplies by ten, and a sign stands in front |
| Strconv.ParseReads | pkg/controller/bootrevision/bootrevision_controller.go:143-144 | an unsigned or signed decimal reads as its number, one out of range as the nearest integer |
| Strconv.OtherTextsAreErrors | pkg/controller/bootrevision/bootrevision_controller.go:143-144 | anything behind the digits is a syntax error, which reads as zero |
| Placeholder.DecodeIsSubstitution | pkg/logan/operator/boot.go:110-129 | the three guarded replacements are one simultaneous left-to-right substitution, and `replaced` is true exactly for texts that mention a placeholder |
| Placeholder.ReplacementsCommute | pkg/logan/operator/boot.go:110-129 | the replacements give the same text in every order |
| Placeholder.DecodeEliminates | pkg/logan/operator/boot.go:110-129 | decoded text holds no placeholder; decoding it again, with any values, changes nothing and reports so |
| Placeholder.DecodeFixes | pkg/logan/operator/boot.go:110-129 | a text is its own decoding exactly when it mentions no placeholder |
| Placeholder.DecodeIgnoresPort | pkg/logan/operator/boot.go:110-129 | without `${PORT}` the port does not matter |
| Placeholder.PortShows | pkg/logan/operator/boot.go:110-129 | with `${PORT}` different ports always give different texts |
| Placeholder.EmptyNameRebuildsPlaceholder | pkg/logan/operator/boot.go:110-129 | with an empty name the elimination fails: a concrete text decodes to a placeholder |
| Placeholder.PlaceholdersMean | pkg/logan/operator/boot.go:110-129 | `${APP}`, `${ENV}` and `${PORT}` stand for name, environment and port |
| EnvList.MergeSlice | pkg/logan/util/merge.go:44-69 | the in-place loops compute `Merge`, for both modes and all lists |
| EnvList.MergeMeaning | pkg/logan/util/merge.go:44-69 | with override the last source value of a name wins, at the first destination position of that name; all else stays and new names are appended |
| EnvList.MergeNames | pkg/logan/util/merge.go:44-69 | new names follow the old ones in order of first appearance, in both modes |
| EnvList.KeepMeaning | pkg/logan/util/merge.go:44-69 | without override the destination is a prefix of the result, and what follows are first source entries |
| EnvList.MergeIdempotent | pkg/logan/util/merge.go:44-69 | merging the same list twice is merging it once, for all lists and both modes |
| EnvList.MergeAssociative | pkg/logan/util/merge.go:44-69 | merging is associative exactly when the repeated names of the middle list agree with the last list |
| EnvList.UniqueMiddleAssociates | pkg/logan/util/merge.go:44-69 | unique names in the middle list suffice |
| EnvList.RepeatedMiddleDoesNotAssociate | pkg/logan/util/merge.go:44-69 | a repeated name in the middle list breaks associativity |
| EnvList.MergeKeepsUnique | pkg/logan/util/merge.go:44-69 | a merge into a list with unique names has unique names |
| EnvList.CleanEnv | pkg/apis/app/v1/bootrevision_ops.go:41-51 | the loop keeps exactly the variables not named as business variables, in order |
| EnvList.CleanMeaning | pkg/apis/app/v1/bootrevision_ops.go:41-51 | kept are exactly the entries that name no business variable |
| EnvList.CleanCommutesWithMerge | pkg/apis/app/v1/bootrevision_ops.go:41-51 | removing business variables commutes with merging, for all lists and both modes |
| EnvList.DecodeEnvs | pkg/logan/operator/boot.go:132-145 | the array is decoded in place, entry by entry; the flag tells whether any value mentioned a placeholder |
| EnvList.DecodingKeepsRest | pkg/logan/operator/boot.go:132-145 | decoding replaces the value of each entry; name and source stay |
| EnvList.DecodeAllEliminates | pkg/logan/operator/boot.go:132-145 | a decoded list mentions no placeholder and decodes to itself |
| EnvList.DecodeCommutesWithMerge | pkg/logan/operator/boot_handler_defaulter.go:390-411 | decoding before or after the merge gives the same environment |
| EnvList.DecodeCommutesWithClean | pkg/apis/app/v1/bootrevision_ops.go:41-51 | decoding commutes with removing business variables |
| Difference.DifferenceStrings | pkg/logan/util/slice.go:13-41 | the swap-and-rescan loop returns what each list has and the other lacks, in order |
| Difference.Difference2 | pkg/logan/util/slice.go:48-89 | deleted, added and modified variables are the one-line specifications of the two lists |
| Difference.DifferenceVol | pkg/logan/util/slice.go:92-128 | the same for mounts, where a lookup ends at the first match |
| Difference.DifferenceMetric | pkg/logan/util/slice.go:131-205 | the same for metrics keyed by type and name; a `break` leaves only the inner `switch` |
| Difference.MissingMember | pkg/logan/util/slice.go:48-89 | an entry is reported as deleted exactly when the other list has no entry with its key |
| Difference.ChangedMember | pkg/logan/util/slice.go:48-89 | an entry is reported as modified exactly when it is new, shares a key with an old entry and differs from it |
| Difference.DifferenceRebuilds | pkg/logan/util/slice.go:48-89 | with unique keys, applying deleted, added and modified to the old list gives the new one as a map |
| Difference.NoDifference | pkg/logan/util/slice.go:48-89 | with unique keys nothing is reported exactly when the keyed maps agree on the compared fields |
| Difference.SelfDifference | pkg/logan/util/slice.go:131-205 | a list differs from itself exactly when two entries share a key but not the compared fields |
| Difference.FirstIsEnough | pkg/logan/util/slice.go:92-128 | with unique keys, ending at the first match finds the same changes |
| ServiceNames.OrderDoesNotShow | pkg/logan/operator/boot.go:99-107 | the text of a list of services is the same for every order they are listed in |
| ServiceNames.NamesTextTells | pkg/logan/operator/boot.go:99-107 | two sets of names without commas have one text exactly when they are one set |
| ServiceNames.SmallerComesFirst | pkg/logan/operator/boot.go:99-107 | of two other names the one with the smaller first differing character comes first |
| ServiceNames.PrefixComesFirst | pkg/logan/operator/boot.go:99-107 | a name comes before its extensions, separated by a comma |
| BootOps.DecodeVolumeMounts | pkg/logan/operator/boot.go:174-188 | mount names are decoded in place; the flag tells whether any mentioned a placeholder |
| BootOps.DecodeFixesMounts | pkg/logan/operator/boot.go:174-188 | a mount list is its own decoding exactly when no name mentions a placeholder |
| Defaulter.BootHandler.UpdateAnnotation | pkg/logan/operator/boot_handler.go:49-72 | the annotations become the old ones overlaid with the updates; the flag is true exactly when that changed them |
| Defaulter.BootHandler.DefaultScalarFields | pkg/logan/operator/boot_handler_defaulter.go:34-69 | port, replicas, health, scrape flag and sub-domain after defaulting, and whether one was set |
| Defaulter.BootHandler.DefaultResourceFields | pkg/logan/operator/boot_handler_defaulter.go:71-154 | limits and requests become `DefaultLimits` and `DefaultRequests`, and the flag tells whether one was filled or capped; what these hold is in `Filling.LimitsAreFilled` and `Filling.RequestsAreFilled` |
| Defaulter.BootHandler.FillSelector | pkg/logan/operator/boot_handler_defaulter.go:173-190 | the selector is overlaid with the configured one; the flag tells whether an entry was missing, empty or different |
| Defaulter.BootHandler.DefaultEnvValue | pkg/logan/operator/boot_handler_defaulter.go:334-429 | the live spec and annotations after environment defaulting, for every recorded annotation, decodable or not |
| Defaulter.BootHandler.DefaultPvcValue | pkg/logan/operator/boot_handler_defaulter.go:261-330 | the claim and mount annotations written, decoded with the boot from before defaulting |
| Defaulter.BootHandler.DefaultWorkload | pkg/logan/operator/boot_handler_defaulter.go:238-257 | the workload kind and its annotation; an unknown kind becomes Deployment |
| Defaulter.BootHandler.DefaultAutoscaler | pkg/logan/operator/boot_handler_defaulter.go:202-234 | bounds and metrics of an enabled autoscaler |
| Defaulter.BootHandler.SetDefaults | pkg/logan/operator/boot_handler_defaulter.go:22-198 | one pass over the live object leaves spec and annotations as `DefaultValue` says and reports whether it changed anything |
| Filling.LimitsAreFilled | pkg/logan/operator/boot_handler_defaulter.go:71-102 | after a pass each limit of cpu and memory is the own non-zero one or else the configured one of the same name; empty limits become the configured ones, and other names are not touched |
| Filling.RequestsAreFilled | pkg/logan/operator/boot_handler_defaulter.go:104-154 | each request of cpu and memory is filled in the same way and is then the minimum of that and a non-zero limit of the same name |
| Filling.UserFieldsStay | pkg/logan/operator/boot_handler_defaulter.go:22-198 | image, version, readiness, command, affinity, node port, claims and priority are never set by a pass |
| Filling.OwnSettingsStay | pkg/logan/operator/boot_handler_defaulter.go:34-69 | port, replicas, health, scraping, sub-domain, kind and a disabled autoscaler that a request sets are kept |
| Filling.OpenSettingsAreFilled | pkg/logan/operator/boot_handler_defaulter.go:34-69 | what is left open is what the configuration says, one replica, or a Deployment |
| Filling.ScrapeIsFilled | pkg/logan/operator/boot_handler_defaulter.go:64-69 | an open scrape setting reads as the configured flag afterwards |
| Filling.SelectorIsOverlaid | pkg/logan/operator/boot_handler_defaulter.go:164-190 | configured selector entries win, and the own others stay |
| Filling.AutoscalerIsFilled | pkg/logan/operator/boot_handler_defaulter.go:202-234 | usable bounds and metrics stay; else the configured replicas, five, and cpu at 80 percent |
| Filling.EnvironmentIsFilled | pkg/logan/operator/boot_handler_defaulter.go:334-429 | a new image or an edited environment brings in every configured variable decoded and keeps the own ones in order; a current or unreadable record leaves the environment alone |
| Filling.EnvironmentIsRecorded | pkg/logan/operator/boot_handler_defaulter.go:421-426 | an environment that was filled in is on record, with the image |
| Filling.ClaimsAreRecorded | pkg/logan/operator/boot_handler_defaulter.go:261-330 | claims and mounts are recorded anew exactly when there is no record or a readable one of other claims |
| Filling.KindIsRecorded | pkg/logan/operator/boot_handler_defaulter.go:238-257 | the workload annotation names the kind of the workload |
| DefaulterLaws.FalseMeansUnchanged | pkg/logan/operator/boot_handler_defaulter.go:22-198 | a pass that returns false left spec and annotations as they were, whatever the configuration |
| DefaulterLaws.LimitsBoundRequests | pkg/logan/operator/boot_handler_defaulter.go:133-154 | after any pass a non-zero cpu or memory limit bounds the request |
| DefaulterLaws.DefaultingIsFixpoint | pkg/logan/operator/boot_handler_defaulter.go:22-198 | under a well-formed configuration a second pass returns false and changes nothing |
| DefaulterLaws.ReportsExactly | pkg/logan/operator/boot_handler_defaulter.go:22-198 | under the same conditions a pass returns true exactly when it changed the boot |
| DefaulterLaws.SettlesExactly | pkg/logan/operator/boot_handler_defaulter.go:22-198 | a second pass returns false for every boot exactly when the configuration is well formed and, unless it leaves the port open, its mounts do not name the port |
| DefaulterLaws.MountAnnotationIsCurrent | pkg/logan/operator/boot_handler_defaulter.go:278-309 | the mount record written is the one of the defaulted boot exactly when the port is settled |
| DefaulterLaws.EnvContract | pkg/logan/operator/boot_handler_defaulter.go:390-411 | every configuration variable is in the spec with its decoded value; the boot's own variables keep their order with decoded values |
| DefaulterLaws.EnvRecorded | pkg/logan/operator/boot_handler_defaulter.go:421-426 | after any pass without a decoding error the record is exactly the environment of the spec |
| DefaulterLaws.StaysJsonNormal | pkg/logan/operator/boot_handler_defaulter.go:22-198 | defaulting introduces no explicitly empty list, so what is written is what is read |
| Admission.CheckEnvUpdate | pkg/logan/webhook/validation/boot_validation.go:753-824 | the loops accept exactly when no configuration variable is deleted and every added or modified one decodes to the literal |
| Admission.CheckEnvCreate | pkg/logan/webhook/validation/boot_validation.go:642-671 | a new boot is accepted exactly when each of its configuration variables decodes to the decoded setting |
| Admission.UpdateRule | pkg/logan/webhook/validation/boot_validation.go:753-824 | with unique names, acceptance means exactly: no configuration variable is dropped, and the request's entry is the recorded one or decodes to the literal |
| Admission.UnchangedIsAccepted | pkg/logan/webhook/validation/boot_validation.go:753-824 | an unchanged environment is accepted exactly when every configuration variable in it has one entry, perhaps repeated, or decodes to the literal in all of them; with unique names that is always |
| Admission.PlaceholderValuesAreFrozen | pkg/logan/webhook/validation/boot_validation.go:771-775 | a setting with a placeholder can only be kept as it is recorded |
| Admission.WriteBackIsAccepted | pkg/logan/webhook/validation/boot_validation.go:753-824 | the operator's own write of a defaulted boot passes the check |
| Workloads.WorkloadHandler.CheckVolumeMountUpdate | pkg/logan/operator/boot_handler_controller.go:222-265 | true exactly when one of the changed mounts names a shared claim or one labelled for this boot alone |
| Workloads.WorkloadHandler.ReconcileTemplate | pkg/logan/operator/boot_handler_workload.go:301-499 | restart, reboot and error flags for every template, and the restart stamp written into it |
| Workloads.WorkloadHandler.Update | pkg/logan/operator/boot_handler_workload.go:155-214 | the workload that is stored, whether it was written, and the error case that writes nothing |
| WorkloadLaws.BuilderMeetsChecker | pkg/logan/operator/boot_handler_workload.go:301-499 | the stored form of the built template passes the check exactly when no compared field is explicitly empty and the mount record raises no objection |
| WorkloadLaws.MountsAgreeExactly | pkg/logan/operator/boot_handler.go:328-346 | built and recorded mounts are equal exactly when the boot has a claim or the configured names mention no placeholder |
| WorkloadLaws.CurrentMountsAreQuiet | pkg/logan/operator/boot_handler_workload.go:442-476 | with a current record the volume check asks for no reboot of a rebuilt workload |
| WorkloadLaws.VolumesDifferExactly | pkg/logan/operator/boot_handler_controller.go:222-265 | with unique names, a reboot is asked for exactly when some claim of the boot is mounted differently in container and record |
| WorkloadLaws.ClaimsMatterExactly | pkg/logan/operator/boot_handler_controller.go:222-265 | a claim with the pod labels of a boot matters to the boots of that name and type only, a shared one to all, any other to none |
| WorkloadLaws.OneUpdateSettles | pkg/logan/operator/boot_handler_workload.go:155-214 | after one update of any stored workload the next writes nothing |
| WorkloadLaws.NewWorkloadIsSettled | pkg/logan/operator/boot_handler_workload.go:33-74 | a newly created workload needs no update |
| WorkloadLaws.ExplicitEmptyNeverSettles | pkg/logan/operator/boot_handler_workload.go:432-440 | with an explicitly empty list every update of every stored workload writes again |
| WorkloadLaws.SomeTemplatePasses | pkg/logan/operator/boot_handler_workload.go:301-499 | some stored template passes the check exactly when no compared field is explicitly empty |
| WorkloadLaws.ClaimsAreMountedAndOffered | pkg/logan/operator/boot_handler.go:137-175 | every claim is mounted, at its path and mode, and offered by the pod under the same decoded name |
| WorkloadLaws.ScalingKeepsPods | pkg/logan/operator/boot_handler_workload.go:165-214 | scaling writes the replicas and leaves the pod template alone |
| WorkloadLaws.RestartOnlyStamps | pkg/logan/operator/boot_handler_workload.go:189-214 | a new restart stamp changes the annotation of the template and nothing else |
| WorkloadLaws.UnreadableRecordFails | pkg/logan/operator/boot_handler_workload.go:182-187 | the update fails, writing nothing, exactly when the mount record is there and is no mount list |
| Built.ImageNamesAgreeExactly | pkg/logan/operator/boot.go:47-54 | image texts are equal exactly when image and version are |
| Built.ImageIsFromRegistry | pkg/logan/operator/boot.go:47-54 | the image text starts with registry and image and ends in the version |
| Built.ProbesAreBuilt | pkg/logan/operator/boot_handler.go:351-398 | health and readiness path, health port, delays and failures of the built probes, or none without a health path |
| Built.PodsAreNamed | pkg/logan/operator/boot_handler.go:96-107 | the app container is called `app`, and only a restart stamp of the annotations reaches the pods |
| Built.ConfiguredContainerWins | pkg/logan/operator/boot_handler.go:325-331 | what the configuration sets on the app container wins, and what it leaves open is the boot's |
| Built.ConfiguredQuantitiesWin | pkg/logan/operator/boot_handler.go:325-331 | the same for each limit and request |
| Built.ConfiguredPodWins | pkg/logan/operator/boot_handler.go:137-175 | configured containers, priority and selector entries win, and configured volumes come first, decoded |
| Built.SidecarsAreBuilt | pkg/logan/operator/boot_handler.go:75-93 | the configured sidecars follow in order with decoded environments and nothing else changed |
| Built.ServicesAreComplete | pkg/logan/operator/boot_handler.go:400-429 | the services are the app service, the external one if it is wanted in the dev environment, and one for each port of each sidecar, each forwarding its port to the same port of the pods |
| Built.ServicesAreListedExactly | pkg/logan/operator/boot_handler_controller.go:433-447 | a built service is listed for boots of its name and environment, and for no others |
| Built.ListedByLabels | pkg/logan/operator/boot_handler_controller.go:433-447 | a service is listed for a boot by the labels for name and environment; others do not matter |
| Services.ServiceObject.AlignApp | pkg/logan/operator/boot_handler_controller.go:120-190 | owner, port, annotations and affinity of the app service after the repair, and whether anything differed |
| Services.ServiceObject.AlignPorts | pkg/logan/operator/boot_handler_controller.go:304-324 | the port list after the three checks, taken over from the expected object and then shared with it; also the port that object shows afterwards |
| Services.ServiceObject.AlignWith | pkg/logan/operator/boot_handler_controller.go:299-354 | a runtime service after comparison with the expected one, aliasing included |
| Services.ServiceStore.CreateServices | pkg/logan/operator/boot_handler_controller.go:47-63 | services are created up to the first one that exists |
| Services.ServiceStore.ReconcileOther | pkg/logan/operator/boot_handler_controller.go:268-431 | the whole map of services after one pass, for any order of the listing, and the error case with what was done before it |
| ServiceLaws.OnePassAligns | pkg/logan/operator/boot_handler_controller.go:268-431 | one pass makes the boot's service names those expected, touches no other service and leaves every service aligned |
| ServiceLaws.SecondPassIsLast | pkg/logan/operator/boot_handler_controller.go:268-431 | a pass over aligned services is the last that writes |
| ServiceLaws.ThirdPassIsQuiet | pkg/logan/operator/boot_handler_controller.go:268-431 | from any state at most two passes write, whatever node ports are given out |
| ServiceLaws.QuietPass | pkg/logan/operator/boot_handler_controller.go:268-431 | a pass that writes nothing changes nothing and finds everything aligned |
| ServiceLaws.ExternalServiceTakesTwo | pkg/logan/operator/boot_handler_controller.go:318-324 | the second writing pass is needed: a new external service is moved to its node port |
| ServiceLaws.AppFixIsLast | pkg/logan/operator/boot_handler_controller.go:120-190 | the app service needs one update at most |
| ServiceLaws.AppRepairKeepsRest | pkg/logan/operator/boot_handler_controller.go:120-190 | the repair sets port and target together and changes nothing but owner, first port, annotations and affinity |
| ServiceLaws.AppRepairScrapes | pkg/logan/operator/boot_handler_controller.go:141-170 | the app service is annotated exactly when it is to be scraped, on its port, other keys kept |
| ServiceLaws.RepairKeepsRest | pkg/logan/operator/boot_handler_controller.go:299-354 | another service keeps name, labels, kind and selector; an aligned one keeps its node port, to which an exposed one moves, and annotations that name its port |
| ServiceLaws.CreateAllAdds | pkg/logan/operator/boot_handler_controller.go:47-63 | creating services changes no existing one, and afterwards the app service exists |
| ServiceLaws.CreationStopsAtTaken | pkg/logan/operator/boot_handler_controller.go:47-63 | exactly the services in front of the first taken name are created |
| ServiceLaws.FailedPassSparesOthers | pkg/logan/operator/boot_handler_controller.go:377-431 | a failing pass leaves the app service and the services of others alone |
| ServiceLaws.FailedPassStopsThere | pkg/logan/operator/boot_handler_controller.go:377-431 | a failing pass creates the missing services in front of the name held by others and none behind |
| Autoscaler.HpaStore.ReconcileHpa | pkg/logan/operator/boot_handler_hpa.go:15-100 | the autoscaler after one call, and whether it was created, updated or deleted |
| Autoscaler.SecondCallIsQuiet | pkg/logan/operator/boot_handler_hpa.go:15-100 | from every state the second call writes nothing exactly when the autoscaler is off or its metrics are consistent |
| Autoscaler.QuietMeansCurrent | pkg/logan/operator/boot_handler_hpa.go:15-100 | without a write the autoscaler exists exactly when enabled, with the bounds of the spec and, for unique keys, exactly its metrics |
| RevisionLog.IdsAreRead | pkg/apis/app/v1/bootrevision_ops.go:15-28 | a written id is read back, and a missing or unreadable one reads as -1 |
| RevisionLog.LatestMeans | pkg/apis/app/v1/bootrevision_ops.go:54-70 | the selected revision has the largest id and is the last such; the first one when no id is positive |
| RevisionLog.SelectLatestRevision | pkg/apis/app/v1/bootrevision_ops.go:54-70 | the loop returns that position, or nothing for an empty list |
| RevisionLog.RevisionStore.RecordRevision | pkg/logan/webhook/validation/boot_validation.go:174-274 | the log after an admitted request: first revision, no change, or append, end the previous phase and trim; creation never meets a taken name |
| RevisionLog.RevisionStore.KeepMaxSize | pkg/logan/webhook/validation/boot_validation.go:310-335 | sorting and deleting keeps the newest of the listed revisions and the one created after the listing |
| RevisionLog.RevisionStore.UpdatePhase | pkg/logan/operator/boot_handler_controller.go:496-523 | only the newest revision changes, only its phase, and only when it differs |
| RevisionLog.RevisionStore.DeleteAll | pkg/logan/webhook/validation/boot_validation.go:338-352 | nothing is left when the boot is deleted |
| RevisionLaws.EveryRunIsSound | pkg/logan/webhook/validation/boot_validation.go:174-352 | after every interleaving of records, phase updates, orphan deletions and boot deletions: distinct positive ids, at most `MaxHistory` revisions, and all but the newest have ended |
| RevisionLaws.RevisionsAreNamed | pkg/logan/webhook/validation/boot_validation.go:213 | in every run a revision is called after its base and its number |
| RevisionLaws.RecordRestoresBound | pkg/logan/webhook/validation/boot_validation.go:310-335 | a writing record bounds even a log that was too long, and its own revision is never trimmed |
| RevisionLaws.DeletedNumberIsReused | pkg/logan/webhook/validation/boot_validation.go:226-236 | the revision added after a deletion has a new number exactly when the deleted one was not the newest |
| RevisionLaws.NumbersFreshExactly | pkg/logan/webhook/validation/boot_validation.go:226-236 | in every run, each added revision has a number larger than all before exactly when none is added after an event that took the newest |
| RevisionLaws.LogIsEndOfHistory | pkg/logan/webhook/validation/boot_validation.go:174-335 | without other deleters the log is the end of the unbounded history, phases included |
| RevisionLaws.HistoryIsDestuttered | pkg/logan/webhook/validation/boot_validation.go:223-273 | the history is the hash trace without consecutive repeats |
| RevisionLaws.StoredRevisions | pkg/logan/webhook/validation/boot_validation.go:174-335 | exactly the last min(k, MaxHistory) entries of the destuttered trace are stored, numbered by their positions |
| RevisionLaws.EndsAsReported | pkg/logan/webhook/validation/boot_validation.go:250-265 | over a whole run, the entry of a request ends Complete exactly when all pods were ready at the last phase update before it was superseded, and Cancelled otherwise |
| RevisionHash.WriteBackAddsNoRevision | pkg/logan/webhook/validation/boot_validation.go:184-197 | after a request was recorded, the operator's writes of the defaulted boot, as the API server returns them, leave the log alone for every hash exactly when the request drops no explicitly empty list and forgets no empty environment |
| RevisionHash.StoredFormIsRecordedForm | pkg/logan/webhook/validation/boot_validation.go:184-197 | the write, as read back and defaulted again, is recorded under the hash of the request for every hash exactly under that condition |
| RevisionHash.WrittenFormIsRecordedForm | pkg/logan/webhook/validation/boot_validation.go:184-197 | the same said of the normal forms: list by list, and for the environment with the variables the second pass adds |
| RevisionHash.EmptyCommandCountsTwice | pkg/logan/webhook/validation/boot_validation.go:184-197 | a concrete boot with `command: []` whose request and write have two normal forms |
| RevisionHash.ForgottenEnvCountsTwice | pkg/logan/operator/boot_handler_defaulter.go:364-411 | a concrete boot that drops no other list and has `env: []` recorded, and does too |
| RevisionHash.ScalingDoesNotShow | pkg/logan/operator/revision.go:25-51 | replicas, status, business variables and annotations other than the profile are not part of the normal form; what is part of it is in `Edits.FormsAgreeExactly` |
| RevisionHash.ScalingAddsNoRevision | pkg/apis/app/v1/bootrevision_ops.go:31-51 | a boot with its defaults set that is scaled or gets other business variables has the same normal form after the edited request is defaulted again |
| RevisionHash.ScaledDefaultsAddNoRevision | pkg/apis/app/v1/bootrevision_ops.go:31-51 | so a boot whose environment was just defaulted may be scaled and keeps the hash of its request |
| Edits.FormsAgreeExactly | pkg/logan/operator/revision.go:25-51 | two boots have one normal form exactly when name, namespace, type, profile, every spec field other than replicas and environment, and the non-business variables agree |
| Edits.EditIsAnotherRelease | pkg/logan/operator/boot_handler_defaulter.go:22-198 | defaulting hides no edit of what it never sets or of what both requests set |
| Edits.EditIsOneRevisionExactly | pkg/logan/webhook/validation/boot_validation.go:223-273 | for a hash that tells the two forms apart, an edited request leaves the log alone exactly when it is the same release, and else appends exactly one revision with its hash and the next number |
| Edits.EditAfterRunIsOneRevision | pkg/logan/webhook/validation/boot_validation.go:223-273 | after a recorded request and any run of the loop, a visible edit adds exactly one revision |
| RevisionHash.EnvDefaultsOnce | pkg/logan/operator/boot_handler_defaulter.go:390-411 | defaulting an environment twice is defaulting it once |
| Orphans.RevisionObject.Reconcile | pkg/controller/bootrevision/bootrevision_controller.go:112-168 | the object does what `Step` says for every text and asks for another call unless it is owned or deleted; what a step does is in `Orphans.DeletesExactly` |
| Orphans.DeletesExactly | pkg/controller/bootrevision/bootrevision_controller.go:122-166 | the deleting call finds no boot and reads a count above 20; a call that finds the boot adopts and leaves the retry text alone; any other writes the count plus one |
| Orphans.StepCountsDown | pkg/controller/bootrevision/bootrevision_controller.go:140-166 | every call on an unfinished revision lowers the number of calls left |
| Orphans.EveryOrphanIsSettled | pkg/controller/bootrevision/bootrevision_controller.go:112-168 | whatever the retry text and whenever the boot appears, the revision ends owned or deleted |
| Orphans.AdoptedExactly | pkg/controller/bootrevision/bootrevision_controller.go:112-168 | it ends owned exactly when the boot is found in one of the calls that are left, and deleted otherwise |
| Orphans.BoundIsTight | pkg/controller/bootrevision/bootrevision_controller.go:140-166 | without a boot one call less does not suffice |
| Orphans.RecordedRevisionTakes22 | pkg/controller/bootrevision/bootrevision_controller.go:140-166 | a revision as the webhook records it is settled after 22 calls, and deleted exactly when its boot appears in none of them |
| Orphans.OwnedIsKept | pkg/controller/bootrevision/bootrevision_controller.go:117-120 | an owned revision is never changed or deleted |
| Controller.Reconciler.ReconcileDefaults | pkg/controller/javaboot/javaboot_controller.go:155-174 | defaults are written back, without empty lists, exactly when there were any to set |
| Controller.Reconciler.ReconcileCreate | pkg/logan/operator/boot_handler_controller.go:25-76 | workload and services are created as `Cluster.Created` says; the call ends exactly when the workload or the app service was missing; whom the services reach is in `Endpoints.EndpointsStay` |
| Controller.Reconciler.ReconcileAppService | pkg/logan/operator/boot_handler_controller.go:120-203 | the app service is written exactly when it differs, and the call goes on |
| Controller.Reconciler.ReconcileOthers | pkg/logan/operator/boot_handler_controller.go:268-431 | the pass over the other services as part of the whole state |
| Controller.Reconciler.ReconcileStatus | pkg/logan/operator/boot_handler_status.go:11-121 | the status assigned field by field is the status of the state; the flag is true exactly when a field differed |
| Controller.Reconciler.ListServices | pkg/logan/operator/boot_handler_controller.go:433-447 | whatever the order of the listing, its text is the one of the state |
| Controller.Reconciler.ReconcileRevision | pkg/logan/operator/boot_handler_controller.go:496-523 | only the newest revision is written, and only when its phase differs; which phase it gets is in `Phases.MetaStageTells` |
| Controller.Reconciler.ReconcileMeta | pkg/logan/operator/boot_handler_controller.go:452-554 | annotations and revision phase after the meta stage, and whether either was written |
| Controller.Reconciler.Reconcile | pkg/controller/javaboot/javaboot_controller.go:114-242 | one call on live objects is the step `Cluster.Reconcile`: stages in order, each ending the call when it writes |
| Endpoints.ServicesFindTheirPods | pkg/logan/operator/boot_handler.go:432-471 | the selector of every built service finds the pods of the built workload, and never those of a boot of another name |
| Endpoints.RunServes | pkg/controller/javaboot/javaboot_controller.go:114-242 | over any run a service keeps its selector or finds the pods of the boot, and a workload keeps its pod labels or is of the wanted kind with those of the boot |
| Endpoints.EndpointsStay | pkg/controller/javaboot/javaboot_controller.go:114-242 | a service the loop creates finds the pods after any number of later calls, and so does one that did before |
| Endpoints.OnlyTheWantedKind | pkg/logan/operator/boot_handler_workload.go:33-74 | the loop builds no workload but of the kind the request asks for |
| Endpoints.EveryServiceHasEndpoints | pkg/controller/javaboot/javaboot_controller.go:114-242 | from an empty namespace, after any run every service finds the pods of the workload |
| Phases.MetaStageTells | pkg/logan/operator/boot_handler_controller.go:496-523 | the meta stage makes the newest revision Active exactly when ready, current and wanted pods are as many, else Running, and touches no other |
| Phases.QuietPhaseTells | pkg/logan/operator/boot_handler_controller.go:496-523 | whenever a call finds nothing to write, the newest revision is Active exactly when all pods are ready, and else Running |
| Phases.EndsAsLastSeen | pkg/logan/webhook/validation/boot_validation.go:250-265 | a revision superseded after a meta stage ends Complete exactly when all its pods were ready at that stage, and else Cancelled |
| Phases.SettledEndsTell | pkg/logan/webhook/validation/boot_validation.go:250-265 | the same once the whole loop has settled |
| Reports.QuietCountsTell | pkg/logan/operator/boot_handler_status.go:22-58 | when nothing is written, status and annotations hold the wanted, current and ready pods |
| Reports.QuietRevisionTells | pkg/logan/operator/boot_handler_status.go:106-118 | status and annotation read as the number of the newest revision |
| Reports.QuietNamesTell | pkg/logan/operator/boot_handler_status.go:91-104 | status and annotation list the names of the boot's services, sorted |
| Reports.SelectorTells | pkg/logan/operator/boot_handler_status.go:60-72 | the selector of the status is the text of the pod labels |
| Reports.StatusNamesKindExactly | pkg/logan/operator/boot_handler_status.go:74-89 | the settled status names the kind of the workload exactly when the request names one or the status did not name another before |
| LateLaws.MetaKeepsDefaults | pkg/logan/operator/boot_handler_controller.go:534-548 | what the meta stage writes never makes defaults necessary again |
| LateLaws.MetaSettles | pkg/logan/operator/boot_handler_controller.go:452-554 | after the meta stage, phase, annotations and status are as a further call would write them |
| LateLaws.StatusSettles | pkg/logan/operator/boot_handler_status.go:11-121 | the status of a state with that status is that status |
| LateLaws.PhasesFollowLog | pkg/logan/operator/boot_handler_controller.go:496-523 | on a sound log, listed in any order, the controller's phase update is the one of the log |
| LateLaws.LateStage | pkg/controller/javaboot/javaboot_controller.go:188-240 | autoscaler, status and meta stage lower their rank when they write, and write nothing the earlier stages look at |
| StageLaws.CreateStage | pkg/logan/operator/boot_handler_controller.go:25-76 | after creation nothing is missing, also when it stopped at an existing sidecar service |
| StageLaws.CreationKeepsObjects | pkg/logan/operator/boot_handler_controller.go:25-76 | creation leaves every existing object alone and builds the workload that is missing |
| StageLaws.WorkloadStage | pkg/logan/operator/boot_handler_workload.go:121-298 | for every boot that can pass the check the workload stage does not fail, and after it there is nothing to update |
| Convergence.ServicesStep | pkg/logan/operator/boot_handler_controller.go:84-117 | the services stage with all that follows lowers the rank when it writes and else changes nothing |
| Convergence.ConvergeStep | pkg/controller/javaboot/javaboot_controller.go:177-240 | the stages behind defaulting lower the rank when they write and else change nothing |
| Convergence.DefaultsStage | pkg/controller/javaboot/javaboot_controller.go:155-174 | writing the defaults leaves a sane state of lower rank; at most two writes set them all |
| Starting.FreshBootIsSane | pkg/controller/javaboot/javaboot_controller.go:114-175 | a new boot in an empty cluster is a sane start, by conditions on request and configuration |
| Starting.SomeStateIsSane | pkg/controller/javaboot/javaboot_controller.go:114-175 | the assumptions of the loop can be met |
| Starting.KeptMountsAreSane | pkg/logan/operator/boot_handler_defaulter.go:278-309 | a settled port, a trusted mount record and plain mount names make a boot sane, whatever claims there are |
| Starting.LastingExactly | pkg/logan/operator/boot_handler_defaulter.go:261-330 | defaults that are set survive a write exactly when no explicitly empty claim list is recorded as one |
| Convergence.ReconcileLowersRank | pkg/controller/javaboot/javaboot_controller.go:114-242 | from every sane state a call succeeds and stays sane; a writing call lowers the rank, and a call that writes nothing changes nothing, at rank zero |
| Convergence.NineCallsSettle | pkg/controller/javaboot/javaboot_controller.go:114-242 | in every run at most nine calls write, and after nine calls the rank is zero |
| Exactness.SettlingExactly | pkg/controller/javaboot/javaboot_controller.go:114-242 | from every state of the cluster some number of calls brings the boot to rest exactly when the boot with its defaults set can pass the workload check and its metrics are consistent |
| Agreement.WorkloadQuietExactly | pkg/logan/operator/boot_handler_workload.go:155-499 | a workload is not written exactly when owner, replicas, image, environment, port, resources, probes, selector, command, priority and restart stamp match and no mount that differs names a claim of the boot |
| Agreement.AppQuietExactly | pkg/logan/operator/boot_handler_controller.go:120-190 | the app service is not written exactly when owner, port, scrape annotations and affinity match |
| Agreement.OtherQuietExactly | pkg/logan/operator/boot_handler_controller.go:299-354 | another service is not written exactly when port name, target, number, node port, affinity and annotations match |
| Agreement.OthersQuietExactly | pkg/logan/operator/boot_handler_controller.go:268-431 | a pass writes nothing exactly when the boot's services are those expected and each matches |
| Agreement.LateQuietExactly | pkg/logan/operator/boot_handler_controller.go:452-554 | the late stages write nothing exactly when autoscaler, status, revision phase and annotations match |
| Agreement.QuietMeansAgreement | pkg/controller/javaboot/javaboot_controller.go:114-242 | a call writes nothing exactly when the boot has its defaults and every object agrees with it |
| Agreement.NineCallsAgree | pkg/controller/javaboot/javaboot_controller.go:114-242 | nine calls bring every sane state to agreement, and no later call changes anything |
| Endless.QuietNeeds | pkg/controller/javaboot/javaboot_controller.go:114-242 | a quiet call implies that no compared field is explicitly empty, metrics are consistent and no expected name is held by a foreign service |
| Endless.RollingForever | pkg/logan/operator/boot_handler_workload.go:189-211 | with defaults set and a workload as built that cannot pass the check, every call rewrites the same workload |
| Endless.EmptyCommandRolls | pkg/logan/operator/boot_handler_workload.go:432-440 | every boot with its defaults set and readable records rolls forever once it has `command: []` |
| Endless.SomeStateRolls | pkg/logan/operator/boot_handler_workload.go:432-440 | a concrete rolling state |
| Recording.AdmittedIsLogged | pkg/logan/webhook/validation/boot_validation.go:174-274 | an admitted request that is one revision is the newest of the log |
| Recording.CallAddsNoRevision | pkg/controller/javaboot/javaboot_controller.go:114-242 | from there the webhook has nothing to record of a call, whatever stage it writes in, and this stays so |
| Recording.RunAddsNoRevision | pkg/controller/javaboot/javaboot_controller.go:114-242 | in a run of any length, with the webhook at every write, revisions keep their number, ids and hashes |

## Left out

- Logging, events, metrics, leader election, manager start-up and the webhook's request decoding: no state the properties need.
- API errors, conflicts, caches and stale reads: every call sees the current state and succeeds, apart from creation under a taken name and undecodable records.
- JSON text: annotation values are typed, so different spellings of one list are one value.
- The merge library's reflection: the environment transformer is `mergeSlice`, other fields take the overriding value; aliasing of configuration slices and maps by the library, and of the configured node selector by the defaulter, is not modelled.
- Init containers, affinity, deployment strategy and image pull policy: built from constants and never compared; a Deployment and a StatefulSet share one template.
- Probes with a handler other than HTTP, and objects of the cluster that break what the API server guarantees.
- Mounts, ports and metrics compare nil and empty lists as equal; the other lists and maps of a Boot keep them apart.
- Pod counts: they stay fixed while the loop settles. A change of them, or of the Boot, starts a new run of at most nine writes.
- Two services or sidecar ports with one name: the passes are stated for distinct names.
- `MaxHistory` below one, and a change of it while revisions exist, other than through `RevisionLaws.RecordRestoresBound`.
- Objects marked for deletion, `Ignore`, the profile lookup of `InitHandler`, configuration loading: single tests or values taken as given.
- `validatePvc`, `checkSecret`, `checkPriority`, `BootNameExist`, `ValidateEnv`, `validateHpa`, `validateWorkload`: single-branch checks that would add only easy members.
- The missing-annotation path of `getMetaEnvs`, which skips the update check: `Admission.CheckEnvUpdate` starts from a decoded annotation.
- The php, python, nodejs and web controllers: they repeat the Java controller.
- The hash itself: any function of the normal form, and where an edit must show, one that tells the two forms apart; `RevisionDiff` text is not modelled. `AppKey` is a constant of the Boot's type.
- Services.ServiceStore.ReconcileOther: the runtime service is read from the map by value, so only its port list, not the whole object, is shared with the expected one.
- RevisionLog.RevisionStore.RecordRevision: ids stay below the largest integer, which a run reaches only after that many records.
- Exactness.SettlingExactly: a boot with its defaults set whose claim list and whose record of it are both explicitly empty, which takes a hand-written annotation, is left out: the first write drops the list and the defaults are set again. `Starting.LastingExactly` shows that there is no other such boot.
