# Verified models of the platform controllers

The repository's controllers watch Kubernetes objects (platforms, domains, tenants, tenant categories,
provisioning resources, configuration domains, config maps, secrets) and keep two kinds of things in
step with them: Pulumi stacks, one for every business domain of a tenant or platform, and aggregated
configuration, one config map for every configuration domain. This project models the code that decides
*what* has to be done and *when* it has to be done again, and proves what that code is there for.

| file | what it models |
|---|---|
| `Common.dfy`, `Kinds.dfy` | shared datatypes and lemmas; the twelve resource kinds |
| `WorkQueues.dfy` | the client-go work queue: what is dirty, what is being processed |
| `Provisioning.dfy` | which resources a target selects; which work keys an event enqueues |
| `ProvisioningRuns.dfy` | the provisioning controller as a transition system: stale informers, live reads, overlapping syncs; convergence over all runs |
| `ProvisioningProgress.dfy` | without outside events every run comes to rest |
| `ProvisioningGaps.dfy` | the changes the handlers do not follow: exactly when, and what they leave behind |
| `ProvisioningController.dfy` | the controller's methods over its queue and stacks, proved against the key sets |
| `Deployment.dfy` | the memoised walk over `dependsOn` that registers a stack's resources |
| `Imports.dfy` | import mode: layered settings, the managed set, the two updates |
| `Overrides.dfy` | the four sources of overrides and what merging them does at every path |
| `ConfigurationDomains.dfy` | labels, the listings a domain aggregates, and the domains a config map change enqueues |
| `ConfigurationAggregate.dfy` | merging four listings; when their order matters |
| `ConfigurationRuns.dfy` | the configuration domain controller as a transition system; convergence of each domain over all runs, whatever labels config maps carry |
| `ConfigurationLabels.dfy` | ordinary clusters: where outputs keep their labels every ordinary change is followed |
| `ConfigurationGaps.dfy` | the changes of an output the handlers do not follow: exactly when, and what they leave behind |
| `ConfigurationFeedback.dfy` | the controller's own writes come back as events; that dies out |
| `ConfigurationFlapping.dfy` | unless the inputs disagree: then writes need not stop |
| `ConfigurationController.dfy` | the controller's methods, proved against the key sets and the transition system |
| `Exports.dfy` | exported credentials: picked once, validated, published without loss |
| `FederatedCredentials.dfy` | federated credentials: named, validated, deployed in a chain |
| `VaultSecrets.dfy` | the canonical `objects` string of a secret provider class |
| `PlatformConfigMaps.dfy` | in-place compaction and the tenants' config maps |
| `WorkKeys.dfy` | the text of work keys and the names of stacks |
| `SqlQuoting.dfy` | T-SQL quoting |

`dafny verify dfyconfig.toml` checks the whole project.

## How to read the runs

*Provisioning.* A tenant has a line of versions: the first is the one the informer holds, the last is the
live one. `syncHandler` reads tenants and platforms live, and reads categories and resources from informers
one list at a time; every event may fall between the queue's Get and the first read, or between two reads. The
invariant `Covered` says of every key that it is queued, waits for a retry, was handed to a worker, will be
enqueued by a version still to be delivered, is being synced with reads that still hold, failed last time, or
has exactly the stack the current objects call for. Failures stay in the invariant because `syncHandler`
shadows `err`: only a failed live read is retried. `Unfollowed` names the changes that
matter to the key and that no handler follows: a new tenant version that wants the key and carries the skip
label; the move of the category that the key's tenant references to another platform, while no sync of the key
is to come; the creation of a platform that something selects, likewise; and the deletion of a platform that has
a stack or is about to get one. `ProvisioningGaps` proves exactly when each of them is followed, and that taking
a skip label off is not. After a restart a stack that no delivery enqueues stays as it was
(`NoOrphansAndNoneMissing`).

*Configuration.* Every config map has such a line of versions too, and the controller's own creates,
updates and deletes append to it; an update succeeds only on the latest version, a create only if nothing is
there. A sync reads the domain and the four listings one after the other. It may fail at any point, and a write
that the server refuses makes it fail (`Refused`). The invariant is stated for one domain at a time and assumes
nothing of names, labels or owners. `Unfollowed` names the versions, outside writes or the controller's own, that
matter to the domain and that no handler follows: the version alters an input and does not reach the domain, or it
stands in the output's place, does not reach the domain, and makes a difference to it. `Reaches` says which changes
reach a domain (`ReachesIff`), and `ConfigurationGaps` what becomes of an unfollowed change of an output:
`VersionIsLostIff` for any version, then deletes, edits, changes of labels or owner alone, and adds.
`UpdateFollowedIff` and `AddFollowedIff` do the same for inputs. `ConfigurationLabels` shows that in clusters whose
outputs keep their labels and owners all other changes are followed, save a move of a label to another namespace
alone and an outside add of something a domain owns (`OrdinaryRunsAreFollowed`).

## Model

| member | source | states |
|---|---|---|
| `WorkQueues.GetIsExclusive` | internal/controllers/provisioning/provisioning_controller.go:260-304 | the queue hands out a key that no other worker holds, and every other key keeps its place |
| `WorkQueues.AddWhileProcessingIsNotLost` | internal/controllers/provisioning/provisioning_controller.go:260-304 | a key added while it is processed waits in line again when its worker is done; without such an add it does not come back |
| `Provisioning.SelectItemsInTarget` | internal/controllers/provisioning/provisioning_resources.go:88-140 | the loop returns, in order, exactly the resources of the target's platform and domain that are for tenants, or for platforms; of those for tenants, the ones whose list has what a whitelist asks for and not what a blacklist forbids, which is the tenant's category if the filter goes by category and else its name |
| `Provisioning.TenantKeys` | internal/controllers/provisioning/provisioning_controller.go:683-699 | a tenant enqueues exactly the keys of its platform and domain references, and none with the skip label |
| `Provisioning.ResourceChangeEnqueuesTenantIff` | internal/controllers/provisioning/provisioning_controller.go:701-720 | a change of a resource enqueues a tenant's key if and only if the tenant is listed without the skip label, is on the platform and has the domain that the resource names now or named before |
| `Provisioning.CategoryChangeEnqueuesIff` | internal/controllers/provisioning/provisioning_controller.go:768-789 | a change of a category enqueues the keys of exactly the listed tenants without the skip label that reference it on the platform it is on now, or was on when it was deleted |
| `Kinds.EveryKindIsDeployed` | internal/controllers/provisioning/provisioners/pulumi/pulumi.go:424-505 | the twelve loops deploy every kind that has a name |
| `Kinds.ActiveKindsAre` | internal/controllers/provisioning/provisioning_controller.go:366-500 | with Azure all twelve kinds are listed, without it the six that do not need it |
| `ProvisioningRuns.StaleInformerIsPending` | internal/controllers/provisioning/provisioning_controller.go:791-827 | if the live tenant wants a key and the informer holds another spec, a version still to be delivered will enqueue the key |
| `ProvisioningRuns.RetargetingEnqueues` | internal/controllers/provisioning/provisioning_controller.go:791-827 | a tenant write that changes what a key's sync has to do is one whose delivery enqueues the key, unless it wants the key and carries the skip label: removed domains, moved and deleted tenants included |
| `ProvisioningRuns.SelectedResourceIsFollowed` | internal/controllers/provisioning/provisioning_controller.go:666-681 | a resource that the key's live target selects enqueues the key from the informer's tenants, or a tenant version to be delivered will |
| `ProvisioningRuns.ResourceChangeIsFollowed` | internal/controllers/provisioning/provisioning_controller.go:829-867 | every change of a resource keeps the invariant of every key: enqueueing is a sound inverse of selection |
| `ProvisioningRuns.CategoryChangeIsFollowed` | internal/controllers/provisioning/provisioning_controller.go:768-789 | every change of a category keeps the invariant of every key, unless it moves the category that the key's tenant references off the key's platform while no sync of the key is to come |
| `ProvisioningRuns.FinishedSyncIsUpToDate` | internal/controllers/provisioning/provisioning_controller.go:309-539 | a sync all of whose reads still hold leaves the stack that the current objects call for, or none if nothing is selected or the platform is gone |
| `ProvisioningRuns.OtherSyncIsHarmless` | internal/controllers/provisioning/provisioning_controller.go:260-304 | no step of a sync disturbs the invariant of another key, however syncs overlap |
| `ProvisioningRuns.StepKeepsInv` | internal/controllers/provisioning/provisioning_controller.go:309-364 | each of the thirteen kinds of events keeps the invariant of every named key, unless it matters to the key and no handler follows it |
| `ProvisioningRuns.RunKeepsInv` | internal/controllers/provisioning/provisioning_controller.go:260-364 | the invariant of a key holds after every run without such an event for the key |
| `ProvisioningRuns.RestingKeysAreUpToDate` | internal/controllers/provisioning/provisioning_controller.go:309-364 | convergence: in every such run, a key with nothing queued, waiting, under way or to be delivered is up to date or failed last |
| `ProvisioningRuns.UpToDateStackHolds` | internal/controllers/provisioning/provisioning_resources.go:88-140 | a stack that is up to date was provisioned with exactly the resources meant for its key, as they are now: never with one whose filter keeps it from the tenant |
| `ProvisioningRuns.RestingStacksHoldWhatIsMeant` | internal/controllers/provisioning/provisioning_controller.go:309-364 | so in every such run a resting key that did not fail last holds a resource if and only if the key is called for and the resource meant for it |
| `ProvisioningRuns.StartIsCoveredIff` | internal/controllers/provisioning/provisioning_controller.go:185-222 | a cold start with empty informers and any stacks satisfies a key's invariant if and only if the key has no stack or a tenant version to be delivered enqueues it |
| `ProvisioningRuns.WantedStacksArePending` | internal/controllers/provisioning/provisioning_controller.go:791-827 | the first deliveries enqueue every key whose live tenant still wants it |
| `ProvisioningRuns.NoOrphansAndNoneMissing` | internal/controllers/provisioning/provisioning_controller.go:309-364 | in every run from any cold start, for tenant and platform keys alike: a resting key that did not fail and had no stack at the start, or was enqueued since, has one if and only if it is called for (something is selected, and its tenant lives, is on the key's platform and references the domain, or its platform is there); one that was never enqueued has the stack it had |
| `ProvisioningRuns.NeverQueuedKeepsStack` | internal/controllers/provisioning/provisioning_controller.go:260-304 | a key that no event of a run enqueues keeps its stack, whatever happens to other keys |
| `ProvisioningProgress.InternalStepShrinks` | internal/controllers/provisioning/provisioning_controller.go:260-304 | every step of the controller's own decreases a measure: deliveries, retries, queued keys, keys handed out, then reads left to do |
| `ProvisioningProgress.ComesToRest` | internal/controllers/provisioning/provisioning_controller.go:260-304 | every infinite run has outside events (object changes or failing live reads) from every point on |
| `ProvisioningProgress.AtRestIsIdle` | internal/controllers/provisioning/provisioning_controller.go:260-304 | when no own step is possible every key is idle, so the convergence theorem applies |
| `ProvisioningGaps.TenantChangeFollowedIff` | internal/controllers/provisioning/provisioning_controller.go:683-699 | a tenant change enqueues a key if and only if it adds, removes or alters the spec and a version that wants the key does not carry the skip label |
| `ProvisioningGaps.UnskippingIsNotFollowed` | internal/controllers/provisioning/provisioning_controller.go:791-827 | taking the skip label off enqueues nothing: once delivered, a resting key rests on, up to date if and only if it was before |
| `ProvisioningGaps.SelectedResourceFollowedIff` | internal/controllers/provisioning/provisioning_resources.go:142-152 | a selected resource enqueues its key if and only if platform and domain are not empty |
| `ProvisioningGaps.CategoryEditFollowedIff` | internal/controllers/provisioning/provisioning_controller.go:775-782 | an edit of a referenced category enqueues the tenant's key if and only if the category stays on the platform |
| `ProvisioningGaps.MovedCategoryLeavesStacksBehind` | internal/controllers/provisioning/provisioning_controller.go:768-789 | after such a move the key rests with a stack built from the old category, which is not up to date |
| `ProvisioningGaps.NewPlatformFollowedIff` | internal/controllers/provisioning/provisioning_controller.go:751-766 | after a platform is created its key rests, up to date if and only if no active resource selects it |
| `ProvisioningGaps.DeletedPlatformFollowedIff` | internal/controllers/provisioning/provisioning_controller.go:751-766 | after a platform is deleted its key rests, up to date if and only if no active resource selected it; otherwise its stack is orphaned |
| `ProvisioningGaps.OrphanedPlatformStackStays` | internal/controllers/provisioning/provisioning_controller.go:313-324 | a later sync of such a key ends without destroying the stack |
| `ProvisioningGaps.OnlyLiveReadsAreRetried` | internal/controllers/provisioning/provisioning_controller.go:309-364 | a failed sync leaves the key idle, a failed live read leaves it waiting to be synced again |
| `ProvisioningController.Controller.OnTenantChange` | internal/controllers/provisioning/provisioning_controller.go:791-827 | the handler adds exactly the keys that the transition system adds |
| `ProvisioningController.Controller.OnResourceChange` | internal/controllers/provisioning/provisioning_controller.go:829-867 | the same for resources, through the loops over the tenant lister |
| `ProvisioningController.Controller.OnCategoryChange` | internal/controllers/provisioning/provisioning_controller.go:768-789 | the same for tenant categories |
| `ProvisioningController.Controller.EnqueueDomain` | internal/controllers/provisioning/provisioning_controller.go:666-681 | the loop adds exactly one key for every unskipped tenant of the platform that references the domain, or the platform's key |
| `ProvisioningController.Controller.EnqueueTenantsByCategory` | internal/controllers/provisioning/provisioning_controller.go:726-737 | the loop adds exactly the keys of the platform's tenants that reference the category |
| `ProvisioningController.Controller.ResolveTenantCategory` | internal/controllers/provisioning/provisioning_controller.go:544-576 | finds a category that the runs allow, and none only if the reference dangles |
| `ProvisioningController.Controller.SyncTarget` | internal/controllers/provisioning/provisioning_controller.go:366-539 | reads the category, then every active kind, and provisions: exactly the events of a sync in a run, ending in Finish or FailSync with the stacks and failures they leave |
| `ProvisioningController.Controller.SyncHandler` | internal/controllers/provisioning/provisioning_controller.go:309-364 | retries if and only if the live read fails; in any case it goes through the events of an uninterrupted sync in a run, and leaves the stacks of the state they lead to |
| `ProvisioningController.Controller.ProcessNextWorkItem` | internal/controllers/provisioning/provisioning_controller.go:260-304 | takes a dirty key nobody processes and goes from one state of a run to another, stacks, failures, retries and queue included; no other stack changes |
| `Deployment.PathsDoNotRepeat` | internal/controllers/provisioning/provisioners/pulumi/pulumi.go:376-403 | on an acyclic graph the walk never meets an identity it is still working on, which is why it ends |
| `Deployment.Program.DeployResourceWithDeps` | internal/controllers/provisioning/provisioners/pulumi/pulumi.go:376-403 | on every acyclic graph the recursion terminates; log and memo stay in step and in dependency order, on success and on error |
| `Deployment.Program.DeployDependencies` | internal/controllers/provisioning/provisioners/pulumi/pulumi.go:383-393 | the handles passed to a resource are those of all dependencies that resolve, in the order it names them |
| `Deployment.Program.DeployResource` | internal/controllers/provisioning/provisioners/pulumi/pulumi.go:331-374 | dispatch succeeds, unless the deploy function fails, exactly on the kinds that are neither empty nor unknown; the resource group is there whenever a virtual machine, desktop or PowerShell script is deployed |
| `Deployment.Program.Run` | internal/controllers/provisioning/provisioners/pulumi/pulumi.go:405-509 | on success exactly the names in all lists of known kinds are registered, and a resource group was asked for if and only if a list of virtual machines, desktops or PowerShell scripts is not empty; on failure what is registered is still in dependency order |
| `Deployment.RegisterKeepsOrder` | internal/controllers/provisioning/provisioners/pulumi/pulumi.go:376-403 | registering after all found dependencies keeps the dependency order and the memo |
| `Deployment.IndirectDependenciesComeFirst` | internal/controllers/provisioning/provisioners/pulumi/pulumi.go:376-403 | everything a registered resource depends on, over any number of steps, was registered before it |
| `Deployment.CompleteOrderMeansAcyclic` | internal/controllers/provisioning/provisioners/pulumi/pulumi.go:376-403 | only an acyclic graph can be registered completely in dependency order: the walk's precondition cannot be weakened |
| `Deployment.RegisteredOnceAsLookedUp` | internal/controllers/provisioning/provisioning_resources.go:48-86 | every identity is registered at most once, for the object lookups by that identity return, even when names repeat across namespaces |
| `Deployment.RegisteredIffFirstOfItsName` | internal/controllers/provisioning/provisioning_resources.go:48-86 | after a complete program a listed object is registered if and only if it is the first of its name in its list: later namesakes are left out |
| `Deployment.WellKindedDispatch` | internal/controllers/provisioning/provisioners/pulumi/pulumi.go:331-374 | with kinds ensured, a resource that needs the resource group is only deployed by programs that asked for one |
| `Deployment.EnsuredListsAreWellKinded` | internal/controllers/provisioning/provisioning_targets.go:202-214 | once kinds are ensured every list satisfies what the walk requires, and every listed name resolves |
| `Deployment.FirstUnregisteredIsFound` | internal/controllers/provisioning/provisioning_resources.go:79-86 | a list element whose identity is not registered yet is the one that lookup returns |
| `Imports.StackUpdate.constructor` | internal/controllers/provisioning/provisioners/pulumi/import.go:69-107 | a tenant's own setting overrides the global one; anyEnabled holds if and only if the stack or a resource of one of the four stateful lists is set to import; as the dispatch hands import options to no other kinds, whatever may import is covered |
| `Imports.LoadsWheneverNeededIff` | internal/controllers/provisioning/provisioners/pulumi/pulumi.go:347-369 | for any two lists of kinds, whatever may import is covered in every stack if and only if the kinds that are handed import options are among those whose settings are looked at |
| `Imports.StackUpdate.LoadManagedResources` | internal/controllers/provisioning/provisioners/pulumi/import.go:148-160 | the managed set is loaded exactly when something may import |
| `Imports.StackUpdate.Register` | internal/controllers/provisioning/provisioners/pulumi/import.go:121-144 | called with importing only where the state lacks the keys, as Up does, a registration deletes nothing, leaves every other resource alone, and flags drift exactly when it ignored inputs |
| `Imports.StackUpdate.Up` | internal/controllers/provisioning/provisioners/pulumi/import.go:121-144 | an update imports exactly the registrations that ask to be imported, are the stack's own or of the four stateful kinds, are told so by their own setting or, having none, by the stack's, and of which the state has no key or alias; every resource is left with its inputs save the ignored ones |
| `Imports.StackUpdate.UpdateStack` | internal/controllers/provisioning/provisioners/pulumi/pulumi.go:105-148 | at most two updates; the first imports exactly what Up says, the second runs if and only if the first ignored inputs, and imports nothing; at the end every resource has all its inputs (a login its generated password) and the flag is clear |
| `Imports.NeverReimportedIff` | internal/controllers/provisioning/provisioners/pulumi/import.go:121-160 | no state makes a registration import something managed if and only if the state is loaded or its settings forbid importing |
| `Imports.ManagedProgramsImportNothing` | internal/controllers/provisioning/provisioners/pulumi/import.go:121-131 | once a program is registered it imports nothing again |
| `Overrides.MergeAt` | internal/controllers/provisioning/provisioning_targets.go:160-192 | at every path of object fields the override's value wins where it decides, the base's stays elsewhere |
| `Overrides.HighestPrecedenceWins` | internal/controllers/provisioning/provisioning_targets.go:121-192 | at every path the folded spec has the value of the highest override that decides it |
| `Overrides.UntouchedPathsStay` | internal/controllers/provisioning/provisioning_targets.go:121-192 | at paths no override decides, the folded spec has the resource's own value |
| `Overrides.MatchPatch` | internal/controllers/provisioning/provisioning_targets.go:88-99 | the spec of the first patch that names the resource is used, even a nil one: apiVersion, kind and name are the resource's, and so is the namespace, or it is empty and the resource is in the target's; none if no patch does |
| `Overrides.StrayPatchChangesNothing` | internal/controllers/provisioning/provisioning_targets.go:88-99 | removing a patch with another apiVersion, kind, name or namespace from the tenant or its category changes nothing of what is made of a resource |
| `Overrides.FindGlobOverride` | internal/controllers/provisioning/provisioning_targets.go:121-192 | the glob loop returns an override of some matching pattern, and none only if no pattern matches |
| `Overrides.OverridesAreDeterminedIff` | internal/controllers/provisioning/provisioning_targets.go:121-192 | the overrides do not depend on map order if and only if all matching patterns map to one override (or the target is a platform) |
| `Overrides.SpecIsDeterminedAtIff` | internal/controllers/provisioning/provisioning_targets.go:121-192 | what the merged spec has at a path does not depend on map order if and only if the tenant's own patch decides the path or all matching patterns yield one value there |
| `Overrides.MergedSpecIsAt` | internal/controllers/provisioning/provisioning_targets.go:121-192 | every merged spec is one of those that lemma speaks about |
| `Overrides.AppliedAt` | internal/controllers/provisioning/provisioning_targets.go:121-192 | at every path a tenant's resource has the value of the tenant's own patch if that decides it, else of an override whose pattern matches the tenant's name, else of the category's patch, else of its own override for the category, else its own |
| `Overrides.MergeOverrides` | internal/controllers/provisioning/provisioning_targets.go:160-192 | the loop computes the fold, and fails if and only if some override is not an object |
| `Overrides.ApplyTargetOverrides` | internal/controllers/provisioning/provisioning_targets.go:110-200 | every resource gets its fold in a copy, or is passed on unchanged when all overrides are nil; no source spec changes, and it fails only for a resource that cannot be overridden; with `Overrides.AppliedAt` this fixes every value |
| `ConfigurationDomains.CutJoined` | internal/controllers/utils.go:25-30 | the label `domain.namespace` is read back as its two parts when the domain has no dot |
| `ConfigurationDomains.SelectedRoutesBack` | internal/controllers/configuration-domain/configuration_domain_controller.go:426-451 | every config map that a domain selects is routed back to it: the handler inverts the four listings |
| `ConfigurationDomains.RoutesBackIffDotFree` | internal/controllers/utils.go:13-31 | that holds of all config maps a domain selects if and only if the domain's name has no dot and the platform has a target namespace |
| `ConfigurationDomains.AffectedIsEnqueued` | internal/controllers/configuration-domain/configuration_domain_controller.go:498-552 | an add, update or delete that changes what a domain selects enqueues the domain, save for the two exceptions below |
| `ConfigurationDomains.UpdateFollowedIff` | internal/controllers/configuration-domain/configuration_domain_controller.go:512-537 | an update enqueues all domains it affects if and only if it does not move the label to another namespace alone; a move into the platform's own namespace is followed |
| `ConfigurationDomains.AddFollowedIff` | internal/controllers/configuration-domain/configuration_domain_controller.go:500-511 | an add enqueues all domains it affects if and only if no configuration domain owns the config map or its label names no platform with a target namespace |
| `ConfigurationDomains.OutputIsInputIff` | internal/controllers/configuration-domain/configuration_handler.go:110-201 | one domain's output is another's input if and only if its name is `global` or spells the other's name and namespace |
| `ConfigurationAggregate.AggregateConfigMaps` | internal/controllers/configuration-domain/configuration_handler.go:144-181 | the loops compute an aggregate of the four listings they are given: every key has a value from the last listing that has it |
| `ConfigurationAggregate.MergedListingsAreAnAggregate` | internal/controllers/configuration-domain/configuration_handler.go:144-181 | any listings, in any order, merge to an aggregate of their groups |
| `ConfigurationAggregate.AggregateIsUnique` | internal/controllers/configuration-domain/configuration_handler.go:168-181 | groups that do not disagree with themselves have one aggregate |
| `ConfigurationAggregate.OrderIsIrrelevantIffConflictFree` | internal/controllers/configuration-domain/configuration_handler.go:168-181 | the result is the same for all orders of all listings if and only if no deciding group has two values for a key |
| `ConfigurationLabels.NoOutputIsAnInput` | internal/controllers/configuration-domain/configuration_handler.go:168-201 | for well-named domains nothing in an output's place that carries the output's labels is an input of any domain |
| `ConfigurationRuns.ReachesIff` | internal/controllers/configuration-domain/configuration_domain_controller.go:498-552 | whatever labels, owners and data the two versions of a config map have, `Reaches` says exactly when their delivery enqueues a domain |
| `ConfigurationLabels.OutputChangeReachesIff` | internal/controllers/configuration-domain/configuration_domain_controller.go:498-552 | a change of an output with its own labels reaches its domain if and only if it is an outside add, a delete or a change of data |
| `ConfigurationRuns.QuietDeliveryKeepsInputs` | internal/controllers/configuration-domain/configuration_domain_controller.go:426-451 | a delivered change that does not enqueue a domain leaves all four of its listings as they were |
| `ConfigurationRuns.CachedOutputIsLive` | internal/controllers/configuration-domain/configuration_handler.go:71-105 | unless a delivery will enqueue the domain, a sync that leaves the cached output as it is would leave the live one: same owner and data, or no longer a domain's |
| `ConfigurationRuns.FreshSyncIsUpToDate` | internal/controllers/configuration-domain/configuration_handler.go:58-108 | a sync whose reads still hold leaves the output an aggregate of the current inputs, or removed |
| `ConfigurationRuns.StepKeepsInv` | internal/controllers/configuration-domain/configuration_domain_controller.go:288-378 | every event, wherever it falls, keeps the invariant of a domain, unless it adds a version that matters to the domain and that no handler follows |
| `ConfigurationRuns.RunKeepsInv` | internal/controllers/configuration-domain/configuration_domain_controller.go:231-378 | the invariant of a domain holds after every run without such versions, whatever happens to other domains |
| `ConfigurationRuns.RestingDomainsAreUpToDate` | internal/controllers/configuration-domain/configuration_domain_controller.go:288-378 | convergence: in every such run a resting domain that aggregates has an output which, if the domain owns it, is an aggregate of its inputs with every value by precedence; one that does not aggregate, or whose platform is missing, has none |
| `ConfigurationRuns.AggregatesGoByPrecedence` | internal/controllers/configuration-domain/configuration_handler.go:144-181 | in every aggregate of a domain's inputs a value comes from a config map labelled with the domain's name and namespace, or if none of these has the key from one in its namespace labelled with its name, then from a global one there, then from a global one of the platform's namespace |
| `ConfigurationLabels.OrdinaryRunsAreFollowed` | internal/controllers/configuration-domain/configuration_domain_controller.go:498-552 | in a cluster of well-named domains whose outputs carry their labels, writes that keep an output's labels and owner, leave no namespace alone and add nothing owned are all followed, and so are the controller's own |
| `ConfigurationLabels.OrdinaryClustersConverge` | internal/controllers/configuration-domain/configuration_domain_controller.go:288-378 | hence in such a cluster, from any config maps, a resting domain whose platform exists is up to date |
| `ConfigurationGaps.VersionIsLostIff` | internal/controllers/configuration-domain/configuration_domain_controller.go:498-552 | whatever is written in the place of a resting domain's output: once delivered, the domain rests on and is not up to date if and only if the change does not reach it and a sync would not leave the version as it is |
| `ConfigurationGaps.LostIsUnfollowed` | internal/controllers/configuration-domain/configuration_domain_controller.go:288-378 | every such write is among those that the runs exclude |
| `ConfigurationGaps.DeletedOutputIsLostIff` | internal/controllers/configuration-domain/configuration_domain_controller.go:538-551 | a deleted output is missed if and only if its last labels did not route it to the domain |
| `ConfigurationGaps.EditedOutputIsLostIff` | internal/controllers/configuration-domain/configuration_domain_controller.go:512-537 | an edit under the same labels that spoils an output is missed if and only if those labels do not route it to the domain |
| `ConfigurationGaps.EditOfUnlabelledOutputIsLost` | internal/controllers/configuration-domain/configuration_domain_controller.go:512-537 | so nobody repairs an output that has lost one of its labels and is then edited |
| `ConfigurationGaps.DeleteOfUnlabelledObjectIsLost` | internal/controllers/configuration-domain/configuration_domain_controller.go:538-551 | and when an unlabelled object in the output's place is deleted, the domain rests with no output |
| `ConfigurationGaps.RelabelledOutputFollowedIff` | internal/controllers/configuration-domain/configuration_domain_controller.go:512-537 | a change of labels alone enqueues the domain if and only if the new labels route to it, or the old ones did and platform or domain changed; it never makes a right output wrong |
| `ConfigurationGaps.ReownedOutputIsLostIff` | internal/controllers/configuration-domain/configuration_domain_controller.go:512-537 | a change of the owner alone enqueues nothing, and is missed if and only if it gives the domain an output with wrong data |
| `ConfigurationGaps.AddedOutputIsLostIff` | internal/controllers/configuration-domain/configuration_domain_controller.go:500-511 | what is added where a domain is to have no output is missed if and only if its labels do not route it to the domain or a domain owns it |
| `ConfigurationFeedback.FreshWriteRepairs` | internal/controllers/configuration-domain/configuration_handler.go:94-105 | a sync of current inputs writes only an output that is not right, and leaves it right, even if the sync fails after the write |
| `ConfigurationFeedback.StepSpendsAllowance` | internal/controllers/configuration-domain/configuration_handler.go:58-108 | with settled inputs every write uses up part of its output's allowance, and no step raises one: neither a delivery nor a refused write nor a failure |
| `ConfigurationFeedback.WritesAreBounded` | internal/controllers/configuration-domain/configuration_handler.go:58-108 | over every run of the controller's own steps, refused writes, failures and re-queues included, an output is written at most as often as its allowance says |
| `ConfigurationFeedback.EachOutputIsWrittenAtMostOnce` | internal/controllers/configuration-domain/configuration_handler.go:58-108 | with no sync of the domain under way at the start that is at most once, and never for an output that is right |
| `ConfigurationFeedback.OwnStepShrinks` | internal/controllers/configuration-domain/configuration_domain_controller.go:231-283 | every own step decreases writes left, then deliveries, retries, queued domains and reads left, except that a failure without a write may add a retry |
| `ConfigurationFeedback.ComesToRest` | internal/controllers/configuration-domain/configuration_domain_controller.go:231-283 | in every infinite run something from outside happens, or the informer withholds for ever a version over which a write was refused |
| `ConfigurationFlapping.Round` | internal/controllers/configuration-domain/configuration_handler.go:58-108 | if the inputs disagree, a round of own steps (Take, Begin, four listings, an update, its delivery) leads back to a queued domain whose output has other data |
| `ConfigurationFlapping.WritesStopIffConflictFree` | internal/controllers/configuration-domain/configuration_handler.go:94-105 | the writes of a queued domain's output are bounded over all own runs if and only if no deciding group has two values for a key |
| `ConfigurationFeedback.AtRestEverythingIsUpToDate` | internal/controllers/configuration-domain/configuration_domain_controller.go:288-378 | where the controller can do nothing more by itself, every domain whose invariant holds is idle and its output up to date |
| `ConfigurationController.Controller.HandleKubeResource` | internal/controllers/configuration-domain/configuration_domain_controller.go:426-451 | the loop adds exactly the domains that the transition system adds |
| `ConfigurationController.Controller.OnConfigMapAdd` | internal/controllers/configuration-domain/configuration_domain_controller.go:500-511 | an add adds exactly the keys of the transition system |
| `ConfigurationController.Controller.OnConfigMapUpdate` | internal/controllers/configuration-domain/configuration_domain_controller.go:512-537 | an update adds exactly the keys of the transition system, for the old and the new target |
| `ConfigurationController.Controller.OnConfigMapDelete` | internal/controllers/configuration-domain/configuration_domain_controller.go:538-551 | a delete adds exactly the keys of the transition system |
| `ConfigurationController.Controller.OnDomainChange` | internal/controllers/configuration-domain/configuration_domain_controller.go:471-496 | an added domain is enqueued, and an updated one exactly if its spec changed |
| `ConfigurationController.Controller.GetConfigMapsFor` | internal/controllers/configuration-domain/configuration_handler.go:144-165 | the four listings contribute exactly the inputs of the transition system, group by group |
| `ConfigurationController.Controller.Sync` | internal/controllers/configuration-domain/configuration_handler.go:58-108 | writes an aggregate of the listings if the cached output is the domain's own and differs; asks for a retry if the server holds another version; otherwise writes nothing; it writes no object but the output, leaves one of somebody else alone, and gives a new one the domain's labels and owner |
| `ConfigurationController.Controller.SyncAtOnce` | internal/controllers/configuration-domain/configuration_handler.go:58-108 | when nothing comes between its reads, what is written has every value by precedence over the cached config maps |
| `ConfigurationController.Controller.SyncHandler` | internal/controllers/configuration-domain/configuration_domain_controller.go:288-340 | ends as a sync of a run may end, and the server holds what the run says is live; it asks for a retry only if the server refused the write, which changed nothing |
| `ConfigurationController.SyncConcludes` | internal/controllers/configuration-domain/configuration_handler.go:58-108 | whatever Sync does without a retry is an outcome of the transition system |
| `ConfigurationController.RetryIsRefused` | internal/controllers/configuration-domain/configuration_handler.go:71-105 | Sync asks for a retry only where the transition system refuses the write |
| `Exports.TextsAreDistinct` | internal/controllers/provisioning/provisioners/pulumi/mssql_user.go:835-894 | no two values of an exports entry share a value key, whatever lists and positions they come from |
| `Exports.ValidateUniqueNames` | internal/controllers/provisioning/provisioners/pulumi/mssql_user.go:765-778 | accepts exactly the lists of distinct non-empty names |
| `Exports.IndexByName` | internal/controllers/provisioning/provisioners/pulumi/azure_db.go:134-152 | with unique names every deployed user or identity is kept under its name |
| `Exports.ResolveRefName` | internal/controllers/provisioning/provisioners/pulumi/mssql_user.go:797-810 | a reference resolves to its own name, an empty one to the only entry, anything else to an error |
| `Exports.AddExports` | internal/controllers/provisioning/provisioners/pulumi/mssql_user.go:835-894 | fails if and only if a reference does not resolve, an item exports nothing or somebody is picked twice; otherwise adds exactly the picked values under their keys |
| `Exports.ValidateExportKeys` | internal/controllers/provisioning/provisioners/pulumi/mssql_user.go:901-937 | accepts if and only if in every destination all rendered keys are non-empty and distinct |
| `Exports.Publish` | internal/controllers/provisioning/provisioners/pulumi/exporters.go:183-206 | whatever the map order, the object has the rendered keys, each with a value that renders it; fails if and only if a template does |
| `Exports.PublishValues` | internal/controllers/provisioning/provisioners/pulumi/exporters.go:82-147 | fails if and only if a template does or vault is needed and disabled; makes an object exactly where values go |
| `Exports.LosslessIffSound` | internal/controllers/provisioning/provisioners/pulumi/mssql_user.go:896-937 | a published object has one non-empty key per value with that value if and only if the key check accepts |
| `Exports.ExportEntry` | internal/controllers/provisioning/provisioners/pulumi/azure_db.go:155-179 | fails if and only if the picks cannot be made or what they export does not render, needs a vault that is disabled, or has unsound keys where they are checked; when it succeeds with lists in the entry, the database's name and both values of every credential the entry refers to are in the config map, the secret and the vault under their own rendered key templates, and nobody is exported twice |
| `Exports.BadItemsAreUnpickable` | internal/controllers/provisioning/provisioners/pulumi/mssql_user.go:835-894 | a reference to nobody, an item without any key template, and two items for one credential each make the entry fail |
| `FederatedCredentials.CredentialNamesEqualIff` | internal/controllers/provisioning/provisioners/pulumi/mssql_user.go:602-608 | two ServiceAccounts share a credential name if and only if namespaces agree and names agree but for dots in place of dashes; without dots, if and only if they are the same |
| `FederatedCredentials.SubjectsEqualIff` | internal/controllers/provisioning/provisioners/pulumi/mssql_user.go:642 | two credentials trust the same subject if and only if they are for the same ServiceAccount |
| `FederatedCredentials.ValidateServiceAccounts` | internal/controllers/provisioning/provisioners/pulumi/mssql_user.go:689-735 | accepts if and only if every identity with accounts has an https issuer, at most twenty of them, all with valid names and namespaces and a credential name that fits the regular expression, all different |
| `FederatedCredentials.DeployFederatedCredentials` | internal/controllers/provisioning/provisioners/pulumi/mssql_user.go:620-651 | one credential per account in order, each depending on exactly the previous one |
| `FederatedCredentials.ValidatedCredentialsAreWrittenInOrder` | internal/controllers/provisioning/provisioners/pulumi/mssql_user.go:610-651 | of any two credentials of a validated identity exactly the later waits for the earlier, and their names differ |
| `VaultSecrets.LastSecretWins` | internal/controllers/configuration-domain/vault_secrets_handler.go:129-135 | a key maps to the last secret with that key, and is there only if there is one |
| `VaultSecrets.ListingIsUnique` | internal/controllers/configuration-domain/vault_secrets_handler.go:136-140 | a set of keys has one ascending listing |
| `VaultSecrets.AggregateSecrets` | internal/controllers/configuration-domain/vault_secrets_handler.go:128-150 | whatever order the map is walked in, the string prints the winning secrets in ascending order of keys |
| `VaultSecrets.ObjectsStringIsCanonical` | internal/controllers/configuration-domain/vault_secrets_handler.go:114-150 | two syncs in which the same secrets win produce the same string; without quotes in keys and paths, only those do |
| `VaultSecrets.QuotesConfuseSecrets` | internal/controllers/configuration-domain/vault_secrets_handler.go:143-150 | for any two keys there are different secrets, with quotes in their paths, that print alike |
| `PlatformConfigMaps.CompactInPlace` | internal/controllers/platform/platform_controller.go:462-497 | the front of the array becomes exactly the wanted elements in order; the rest is untouched |
| `PlatformConfigMaps.KeysAreTold` | internal/controllers/platform/platform_controller.go:640-645 | a published key says whose setting it is when tenant names have no underscore |
| `PlatformConfigMaps.GenPlatformTenantsCfgMap` | internal/controllers/platform/platform_controller.go:634-646 | the loops write the tenants' entries one after the other, the fixed settings after the tenant's own |
| `PlatformConfigMaps.GenDomainTenantsCfgMap` | internal/controllers/platform/platform_controller.go:665-676 | the loops write the tenants' entries for a domain one after the other |
| `PlatformConfigMaps.EntryIsPublished` | internal/controllers/platform/platform_controller.go:634-676 | under a tenant's name there is exactly what its own entry says, whatever other tenants there are |
| `PlatformConfigMaps.NothingElseIsPublished` | internal/controllers/platform/platform_controller.go:634-676 | every published key is a setting of some tenant |
| `PlatformConfigMaps.TenantOrderIsIrrelevant` | internal/controllers/platform/platform_controller.go:634-676 | tenants of distinct names publish the same data in any order, and however often the lister repeats one |
| `PlatformConfigMaps.OrderIsIrrelevantIffNamesakesAgree` | internal/controllers/platform/platform_controller.go:634-676 | for any list of tenants whose names have no underscore, every order of them publishes the same data if and only if all namesakes agree on the settings they share |
| `PlatformConfigMaps.FixedSettingsWin` | internal/controllers/platform/platform_controller.go:638-645 | TenantId, Enabled and Category, under their full keys, override settings of the same name, and only those |
| `PlatformConfigMaps.DomainAccessIsPublished` | internal/controllers/platform/platform_controller.go:665-676 | a domain's map enables a tenant if and only if it is enabled and has the domain, and names its domains only then and only if asked to |
| `WorkKeys.SplitJoinedIff` | internal/controllers/provisioning/provisioning_controller.go:739-749 | splitting gives joined parts back if and only if every part can be told from the separator after it and the last has none |
| `WorkKeys.KeyIsReadBackIff` | internal/controllers/provisioning/provisioning_controller.go:739-749 | a key decodes to its components if and only if none contains the separator and the first two do not end in a colon |
| `WorkKeys.DomainKeyIsReadBackIff` | internal/controllers/configuration-domain/configuration_domain_controller.go:459-469 | the same for the keys of configuration domains |
| `WorkKeys.WorkKeyIsReadBack` | internal/controllers/provisioning/provisioning_controller.go:309-331 | a worker gets the very key that was enqueued, tenant namespace and name included |
| `WorkKeys.StacksAreSharedIff` | internal/controllers/provisioning/provisioners/pulumi/pulumi.go:58-65 | two keys' stacks are called alike if and only if domain and owner's name agree, or one owner's name runs on, after a hyphen, into the other key's domain |
| `WorkKeys.DomainsConfuseStacksIff` | internal/controllers/provisioning/provisioners/pulumi/pulumi.go:58-65 | for two domains, tenants of different names can share a stack if and only if one domain is the other with something and a hyphen in front |
| `SqlQuoting.DoubledIsReadBackIff` | internal/controllers/provisioning/provisioners/pulumi/mssql_user.go:581-589 | a closed token is read back to its end and no further if and only if another terminator does not follow |
| `SqlQuoting.IdentifierIsReadBackIff` | internal/controllers/provisioning/provisioners/pulumi/mssql_user.go:581-584 | every name's delimited identifier is one token that stands for the name |
| `SqlQuoting.LiteralIsReadBackIff` | internal/controllers/provisioning/provisioners/pulumi/mssql_user.go:586-589 | every string's literal is one token that stands for the string |
| `SqlQuoting.QuotingIsInjective` | internal/controllers/provisioning/provisioners/pulumi/mssql_user.go:581-589 | different names and strings are quoted differently |

## Left out

- The Pulumi SDK, provider arguments and the bodies of the `deploy*` functions. A registration stands for one call; ordering is stated for registrations and the handles they are given, not for what the engine does with them (the PowerShell script ignores its dependencies).
- The Pulumi engine itself: `Imports.Applied` states what is assumed of it (import adopts, ignored inputs are not written, managed resources get all other inputs, the state becomes the registered set). A generated password is taken to be the same in both updates.
- Explicit `importDatabaseId` and `importBucketName`, which bypass `shouldImport`, and the refresh that `updateStack` starts with.
- Cyclic `dependsOn`: the walk does not end on it, and the model requires an acyclic graph. `Infra` keys the twelve lists by kind instead of having twelve fields.
- Stacks are keyed by work key. `WorkKeys.StacksAreSharedIff` and `WorkKeys.DomainsConfuseStacksIff` say exactly when the repository's stack names do not tell two keys apart; that they do is assumed of clusters.
- Tenant migration jobs, status conditions, events and messages, and a provisioner's `HasChanges`.
- Draining the queue at start-up (skip-initial-reconcile): assumed off.
- `ProvisioningController.Controller.SyncTarget`: the provisioner's answer is a parameter, and a stack is what it was built from (target, category, listings) rather than the overridden specs, which `Overrides` models. That events can fall between the reads of a sync is modelled in `ProvisioningRuns`.
- `Overrides.MergeAt`: mergo's recursive merge with override is assumed to be field-by-field on objects and replacement otherwise; arrays and nulls are leaves, and empty objects are not told from absent ones.
- `filepath.Match`, `text/template` and the validators of Kubernetes names are parameters; so are server, clock and network failures.
- `ConfigurationRuns.RestingDomainsAreUpToDate`: platforms and the platform a domain refers to are fixed, and versions that no handler follows are excluded (see "How to read the runs"). Garbage collection of a deleted domain's output is an outside write.
- `ConfigurationDomains.AffectedIsEnqueued`: only the two labels that matter are modelled; a change of another label enqueues too.
- A sync whose aggregate is empty compares an empty map with a nil one and updates an output with no data on every pass; the server takes that as no change, and the model as well.
- `ConfigurationFeedback.EachOutputIsWrittenAtMostOnce`: needs groups that do not disagree with themselves, which `ConfigurationFlapping.WritesStopIffConflictFree` shows to be the exact condition.
- `ConfigurationFeedback.ComesToRest`: failures of the API server other than a refused write count as outside events.
- The periodic requeue of domains that aggregate secrets is the outside event `Tick`; the secrets handlers' own syncs are not modelled beyond `VaultSecrets`.
- `kube_secrets_handler.go`, the twin of the configuration handler.
- `Exports.ExportEntry`: the deprecated single fields alone are not checked by the repository, and nothing is claimed for them.
- `PlatformConfigMaps.TenantOrderIsIrrelevant`: tenants are assumed to have distinct names without underscores; `PlatformConfigMaps.OrderIsIrrelevantIffNamesakesAgree` says what namesakes do to each other.
- `VaultSecrets.ObjectsStringIsCanonical`: the repository does not escape double quotes in keys and paths; with quotes `VaultSecrets.QuotesConfuseSecrets` applies. Strings are ordered by characters, not by the bytes of their encoding.
