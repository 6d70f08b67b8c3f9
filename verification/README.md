# Octopus permissions controller: a verified model

The controller turns workload service accounts (WSAs: boxes of allowed project, project
group, environment, tenant, step and space values, with permissions) into Kubernetes
service accounts and bindings. It compiles all boxes into a table from pod scopes to
service account names, looks a pod's scope up at admission, brings the cluster in line
batch by batch, and keeps follower replicas and deletions consistent with that. This
project models that machinery in Dafny and proves what it is for.

## How the model is built

- **Compiler** (`Scopes`, `Generator`, `Naming`, `Mappings`, `Lookups`). The loops of
  `generator.go` are methods that draw from sets and maps in *any* order; each is proved
  equal to a function of the *set* of resources. Lemmas compare those functions with direct
  matching (`Scopes.Matches`: each of the six fields is empty or lists the pod's value of it).
- **Names** (`Naming`, `BoxClosure`, `Tightness`, `Determinism`, `Sizes`). When do different
  WSA sets get different account names, and what follows when they do not? `Determinism` folds
  the groups over an explicit order.
- **Engine and reconciliation** (`Cluster`, `Engine`, `ResourceManagement`, `Execution`,
  `EndToEnd`, `Permissions`, `Orchestrator`). Classes with the fields of the source, over an API server
  whose every call may fail, and whose failed calls may still have taken effect. The server
  logs failed calls in ghost fields, so contracts can say that an operation fails *only* if
  a call did, and that it does the rest of its work all the same where the source goes on.
- **Interleavings** (`Interlock`, `Collector`, `Flushing`, `Debouncer`, `StateSyncer`,
  `Retry`). Step machines; the theorems are about every run. `Refinement` proves that the
  methods of the engine, the reconciliation of a batch and the handling of a deletion are runs
  of the machine of `Interlock`, with the owners of the bindings in the cluster as what is
  bound.

## What does not hold, and exactly when it does

An account name is computed from the values of a group with wildcards dropped, not from the
group's WSA set, so some natural expectations are false of the code. Each has its exact
condition and an input for which it fails.

- *Different WSA sets have different names* holds for all resource sets with given mixed
  dimensions (left empty by one WSA, constrained by another) iff there is at most one mixed
  dimension (`Tightness.DistinctNamesIffOneMixedDimension`; `Tightness.PairNamesCollide` gives
  two resources for every larger choice). For one resource set it can be read off the result:
  iff there are as many accounts as WSA sets (`Sizes.AccountsCount`).
- *A pod's account is bound only for matching WSAs* holds iff names are distinct
  (`Lookups.LookupExactIffDistinctNames`); that it is bound for all matching ones always holds
  (`Lookups.NeverUnderGrants`). In a reconciled cluster pods hold exactly the RoleBindings they
  deserve iff groups with one name hold the same of the resources that grant anything
  (`EndToEnd.ExactIffDistinctGrants`). `EndToEnd.PairIsOverGranted` gives two resources for
  which, however their plan is carried out, some pod holds a binding it does not deserve. Both
  suppose a hash that keeps bindings apart.
- *A role holds the rules of the resource it was made for* holds in a reconciled cluster iff the
  hash tells the printed rules of the listed resources of one namespace apart
  (`Permissions.RulesExactIffApart`); what always holds is that its rules are those of some listed
  resource whose role has that name. Rules printed as structs are told apart by a hash that does
  not collide on the printed lists (`Permissions.ClosedRulesApart`).
- *The account-to-resources map does not depend on the order of visiting groups* holds iff
  names are distinct (`Determinism.MapDeterminedIffDistinctNames`). *A live resource is in that
  map*, which the deletion interlock relies on, holds in all orders iff one of its names is its
  own (`Determinism.AlwaysInMapsIffOwnName`; it fails for `Determinism.PairCanBeLost`).
- *Every plan can be executed.* When calls fail only because the API server refuses to change
  the role of a binding, execution succeeds iff there are target namespaces, roles bound under
  one name are one role, and no binding exists for another role (`Execution.Execute`, for
  RoleBindings and ClusterRoleBindings alike). Refs do not agree for a Role and a ClusterRole
  of one name (`EndToEnd.RoleAndClusterRoleClash`), nor when a hyphen moves from the resource's
  name to the role's (`EndToEnd.HyphenClash`, `EndToEnd.ClusterHyphenClash`): no cluster has all
  bindings of such resources (`EndToEnd.ReconcilableIffRefsAgree`).
- *A finalizer goes only when no RoleBinding owned by its resource is left*, from a state in
  which the resource is being deleted: in all runs iff nothing is bound to it and the batch at
  work will not bind it (`Interlock.AlwaysWaitsIffUnbound`), because a rebuild or a restart
  makes the engine forget it (`Interlock.RebuildSkipsCollection`,
  `Interlock.RestartSkipsCollection`; a new leader, too, starts with an empty map). In the runs
  without a restart, a rebuild, or a publish that loses the resource, iff that holds or the
  engine knows the resource (`Interlock.WaitsIffSettled`). Two more ways around the interlock are
  shown by runs from the start: a resource that is deleted while its first batch is at work
  (`Interlock.DeletedInFirstBatch`), and one that its batch has lost to a shared name
  (`Interlock.SharedNameSkipsCollection`).
- *Adding an event loses no newer one* holds iff the add is safe
  (`Collector.AddConservesIffSafe`): AddEvent, unlike the re-merge, does not compare
  generations, and a resource that is created again starts over
  (`Collector.RecreationIsUnsafe`).
- *Events that could not be sent are retried*, as the message in collector.go:135 says, only if
  something else wakes the loop: events wait with no wake-up on its way iff a batch has gone
  back when none was left, and since then no event was added and nobody else flushed
  (`Flushing.StrandedIffLeftBehind`; `Flushing.EventIsStranded` is a run from the start).
- *A follower catches up* once changes have stopped, unless a rebuild fails, iff a rebuild is
  running or still to come, or the table is current already (`StateSyncer.CatchesUpIff`).
  A failed rebuild is not retried and can leave a state in which none of these holds
  (`StateSyncer.FailureIsNotRetried`, `StateSyncer.FailureLeavesOutdated`).

## Assumptions

- The hash is a parameter. Where names must differ, `BoxClosure.CollisionFree` asks only that
  it does not collide on the canonical strings of the table at hand, and
  `EndToEnd.BindingsApart` that it does not on the texts the bindings at hand are named by.
- A policy rule is its printed form. `Permissions.ClosedRulesApart` supposes that this ends in a
  brace and has none before, as the print of a struct without braces in its values.
- The API server refuses to change the role of an existing binding, as Kubernetes does
  (`Cluster.ApplyBinding`).
- Scope values satisfy `Scopes.Slug`, which is weaker than the CRD pattern; object names hold
  no comma and no slash; no two listed resources have the same key (`Scopes.ValidSet`). This is
  what the API server guarantees, and `Cluster.LiveIsValid` and `Interlock.ListingIsValid` show
  that listings have it. Strings are sequences of code points, ordered lexicographically, as
  Go orders valid UTF-8.
- One batch at a time, and no other client changing managed objects during it. In the source
  the main loop and the retry goroutine can both run one.
- In `Debouncer` the goroutine serves its ticker at most `latency` late and the callback
  takes no time.

## Model

| member | source | states |
|---|---|---|
| Text.SortedUnique | internal/rules/generator.go:290-300 | A set has one sorted sequence, so collecting values from a set in any order and sorting them gives one result |
| Text.LessMeans | internal/rules/generator.go:290-300 | The order that values are sorted by is that of a dictionary: the first difference decides, and a proper prefix comes first |
| Text.SplitJoin | internal/rules/generator.go:436-463 | Joining parts that lack the separator can be undone |
| Generator.BuildGlobalVocabulary | internal/rules/generator.go:94-116 | The vocabulary holds, per dimension, exactly the values some listed resource names, whatever the list order |
| Generator.GenerateScopeCombinations | internal/rules/generator.go:174-201 | The recursion inserts exactly the scopes that agree with the current scope below the current dimension and lie in the box from there on, and removes none |
| Generator.ComputeWSACoverage | internal/rules/generator.go:141-171 | The coverage is the cartesian product of the value sets, an empty list standing for the vocabulary and the wildcard |
| Generator.FindScopeIntersections | internal/rules/generator.go:204-218 | A scope is mapped iff some coverage set holds it, and to exactly the indices of those sets |
| Generator.BuildScopeToWSAMapping | internal/rules/generator.go:221-239 | Each scope with indices is mapped to exactly the resources at them, by key |
| Generator.ComputeMinimalServiceAccountScopes | internal/rules/generator.go:120-138 | The table is a function of the resource set and the vocabulary: each covered scope with the resources covering it |
| Generator.TableEntry | internal/rules/generator.go:120-239 | A scope is in the table iff some resource covers it, and its keys are those of the covering resources |
| Generator.ComputeScopesForWSAs | internal/rules/scope_computation.go:44-51 | Vocabulary and table depend on the set of resources alone, not on list or iteration order |
| Lookups.CoversKnownIffMatches | internal/rules/generator.go:52-171 | For every pod scope, known or not, a resource covers the abstracted scope iff it directly matches the pod: each of projects, project groups, environments, tenants, steps and spaces is empty or lists the pod's value of that field |
| Lookups.TableRefinesMatching | internal/rules/generator.go:52-239 | For every resource set and pod scope the abstracted scope is in the table iff some resource matches the pod, field by field, and its entry is exactly the matching resources |
| Lookups.TableScopeIsKnown | internal/rules/generator.go:52-92 | A table scope abstracts to itself, and each of its values is the wildcard or a known value |
| Lookups.NeverUnderGrants | internal/rules/scope_computation.go:35-42 | If w matches a pod, the lookup answers with one of w's account names, with no hypothesis on names or hash |
| Lookups.AnswerEmptyIff | internal/rules/scope_computation.go:35-42 | The answer is empty iff no resource matches the pod, which then keeps its own account |
| Lookups.NeverOverGrants | internal/rules/scope_computation.go:35-42 | With distinct names, w's account is answered only to pods that w matches |
| Lookups.LookupExactIffDistinctNames | internal/rules/scope_computation.go:35-42 | Lookups answer with an account of w exactly for the pods w matches, for all pods and resources, iff different WSA sets have different names |
| Naming.DecodeCanonical | internal/rules/generator.go:436-463 | The canonical string of grouped dimensions of slugs can be decoded back, with omitted dimensions and the special case without values |
| Naming.CanonicalInjective | internal/rules/generator.go:436-463 | Two grouped dimensions with one canonical string are equal |
| Naming.CanonicalFormat | internal/rules/generator.go:436-463 | With values in every dimension, the parts of the canonical string are those of spaces, projects, project groups, environments, tenants and steps, in that order, each with its key and its joined values |
| Naming.GroupKeyParses | internal/rules/generator.go:256-265 | The joined key string of a WSA set splits into its sorted key names |
| Naming.GroupKeyInjective | internal/rules/generator.go:256-265 | Two WSA sets with one joined key string are equal |
| Mappings.GroupScopesByWSASet | internal/rules/generator.go:252-271 | The groups are non-empty, without duplicates, and each holds exactly the table's scopes with its key string |
| Mappings.GroupingIsPartition | internal/rules/generator.go:252-271 | Every scope of the table is in exactly one group, and a group is exactly the scopes with one WSA key set |
| Mappings.CollectDimensionValues | internal/rules/generator.go:274-325 | Per dimension the sorted values of the group's scopes without wildcards and empty values |
| Mappings.DimsByField | internal/rules/generator.go:274-325 | The labels of an account, field by field: the sorted values that the scopes of its group have there, without wildcards and empty values |
| Mappings.AddName | internal/rules/generator.go:353-366 | The name is added to the set of each key of the group, and to no other |
| Mappings.GenerateServiceAccountMappings | internal/rules/generator.go:329-392 | In any iteration order: each scope is mapped to the name of its group, each key to exactly the names of the groups it is in, once each; there is one account per name, built from a group of that name, and the account-to-resources map holds for each name the resources of some group of that name |
| Determinism.AdmittedIffOutcome | internal/rules/generator.go:345-383 | What the groups leave under their names, visited in all orders, is exactly what holds for each name the value of some group of that name |
| Determinism.MapIffOutcome | internal/rules/generator.go:345-366 | The account-to-resources maps that the contract of GenerateServiceAccountMappings admits are exactly those of some order of visiting the groups |
| Determinism.AccountsHaveOrder | internal/rules/generator.go:369-383 | Each list of accounts that the contract admits is that of some order |
| Determinism.OrderHasAccounts | internal/rules/generator.go:369-383 | The accounts of each order, listed in any order, are admitted |
| Determinism.MapDeterminedIffDistinctNames | internal/rules/generator.go:345-366 | All orders of visiting the groups give one account-to-resources map iff different WSA sets have different names |
| Determinism.AccountsDeterminedIffCollisionFree | internal/rules/generator.go:345-383 | All orders of visiting the groups give one set of accounts with their labels iff the hash does not collide on the table's canonical strings |
| Determinism.AlwaysInMapsIffOwnName | internal/rules/generator.go:345-366 | A key is in the account-to-resources map after every order iff all groups of one of its names hold it |
| Determinism.PairCanBeLost | internal/rules/generator.go:283-300 | For every choice of two or more dimensions, some order loses the narrower of two live resources, under every hash |
| BoxClosure.SameNameSameValues | internal/rules/generator.go:436-467 | Groups with one name have the same values in every dimension |
| BoxClosure.ProductStaysInside | internal/rules/generator.go:141-171 | Box closure: any mixture of the values of a group's scopes is a scope of the table covered by at least the group's WSA set |
| BoxClosure.SameValuesContained | internal/rules/generator.go:274-325 | With at most one mixed dimension, equal values of two groups give containment of their WSA sets |
| BoxClosure.OneMixedDimension | internal/rules/generator.go:252-325 | With at most one mixed dimension different WSA sets get different names |
| Tightness.PairNamesCollide | internal/rules/generator.go:283-300 | For every choice of two or more dimensions, two resources mixed in exactly those give two WSA sets one name, under every hash |
| Tightness.DistinctNamesIffOneMixedDimension | internal/rules/generator.go:252-325 | All resource sets mixed exactly in ms have distinct names under every collision-free hash iff ms has at most one dimension |
| Sizes.CoverageSize | internal/rules/generator.go:141-201 | A resource covers exactly the product, over the dimensions, of its number of distinct values, or of the vocabulary's size plus one |
| Sizes.TableSize | internal/rules/generator.go:204-218 | The table has at most the product of the vocabulary's sizes plus one |
| Sizes.AccountsCount | internal/rules/generator.go:345-383 | There are at most as many accounts as distinct WSA sets, and as many iff names are distinct |
| Cluster.Cluster.GetAllResources | internal/reconciliation/stages/planning.go:87-113 | The resources listed are exactly those of the workloads that are not being deleted |
| Engine.InMemoryEngine.ApplyBatchPlan | internal/rules/engine.go:126-154 | All maps are replaced by the plan's, the vocabulary only if the plan has one, and the lookup uses the result |
| Engine.InMemoryEngine.RebuildStateFromCluster | internal/rules/engine.go:206-237 | On success the whole state is a compilation of the live resources; on failure, which is that of a listing, the state does not change |
| Engine.InMemoryEngine.RefreshScopeMappings | internal/rules/engine.go:245-268 | On success the lookup is the compilation of the live resources; the account-to-resources map never changes |
| Engine.InMemoryEngine.GetServiceAccountForScope | internal/rules/engine.go:273-277 | Whatever resources the vocabulary and scope map were compiled from: the answer is empty iff none of them matches the pod, and otherwise one of the names of each that does |
| Engine.InMemoryEngine.IsWSAInMaps | internal/rules/engine.go:281-291 | True iff some account's resources hold the key |
| Engine.ComputeStateFromCluster | internal/rules/engine.go:167-202 | The state computed is a compilation of the live resources |
| Engine.DiscoverTargetNamespaces | internal/rules/namespace_discovery.go:21-57 | The namespaces with an agent that match, once each, or none if they cannot be listed |
| Engine.InMemoryEngine.GetOrDiscoverTargetNamespaces | internal/rules/engine.go:101-118 | The given namespaces, the cached ones unless expired, or those discovered, which are cached even when discovery failed |
| Engine.ComputePlan | internal/reconciliation/stages/planning.go:29-68 | Unless listing the resources fails, a plan for the live resources: all mappings compiled from one listing, the listing itself, and the given, cached or discovered namespaces; a failed discovery does not fail it |
| Engine.EveryResourceIsInTable | internal/rules/generator.go:155-168 | No resource's coverage is empty, so each is in the table |
| Engine.InMapsIffResource | internal/rules/engine.go:281-291 | With distinct names a key is in the map iff it is one of the compiled resources |
| ResourceManagement.CreateRoleBindingsForResource | internal/rules/resource_management.go:517-583 | Each role of the resource, inline permissions included, ends up with its managed binding of exactly that role, the given subjects and the resource as owner, unless that binding's own call failed; the result is an error iff some call failed; no binding changes its role |
| ResourceManagement.EnsureRoleBindings | internal/rules/resource_management.go:340-373 | Every resource with accounts is bound to all its roles but for the bindings whose own calls failed, and each binding in the cluster is as before or made from a resource of the plan; an error iff some call failed |
| ResourceManagement.EnsureRoles | internal/rules/resource_management.go:301-317 | Every resource with inline permissions has its managed role, holding the rules of a listed resource with that role name, unless that role's call failed; every other role is as before; on success exactly those roles are reported; an error iff some call failed |
| ResourceManagement.CreateRoleIfNeeded | internal/rules/resource_management.go:383-475 | A Role for inline permissions, a ClusterRole for cluster-scoped resources, holding exactly these permissions unless its call failed; no other role changes, and none at all without permissions |
| ResourceManagement.EnsureServiceAccounts | internal/rules/resource_management.go:320-337 | All accounts are managed objects with their labels in all target namespaces but for those whose own calls failed; every other object is as before; an error iff some call failed |
| ResourceManagement.CollectGarbage | internal/rules/resource_management.go:650-697 | On success exactly the managed objects that are not to be kept are gone; otherwise, unless listing failed, the rest of those are the ones whose own deletion failed; nothing to be kept and nothing unmanaged is ever gone |
| ResourceManagement.GarbageCollectServiceAccounts | internal/rules/resource_management.go:650-697 | Managed accounts survive iff their namespace is a target and their name expected |
| ResourceManagement.GarbageCollectRoles | internal/rules/resource_management.go:699-743 | Managed roles survive iff some resource's inline permissions have that name |
| ResourceManagement.GarbageCollectRoleBindings | internal/rules/resource_management.go:745-805 | Managed bindings survive iff they are the binding of a namespaced resource to one of its roles |
| ResourceManagement.GarbageCollectClusterRoleBindings | internal/rules/resource_management.go:807-857 | Managed cluster bindings survive iff their name is among the expected ones, which over-approximate |
| Execution.EveryResourceHasAccounts | internal/rules/resource_management.go:340-373 | Under a plan no resource is skipped for want of accounts |
| Execution.CollectedBindings | internal/rules/resource_management.go:745-805 | After binding and collecting, the managed RoleBinding keys are exactly the expected ones, each was made from a resource of the plan, and each role of a resource is bound under its binding's name |
| Execution.CollectedAccounts | internal/rules/resource_management.go:650-697 | After ensuring and collecting, the managed accounts are exactly the planned names in the target namespaces, each with the labels of its account |
| Execution.EvolvedOwners | internal/rules/resource_management.go:585-615 | Binding makes no resource an owner of managed RoleBindings but those of the plan |
| Execution.ExactOwners | internal/rules/resource_management.go:745-805 | After a successful execution every managed RoleBinding binds a role of a listed resource that owns it, in that resource's namespace |
| Execution.GarbageCollect | internal/reconciliation/stages/execution.go:98-136 | Four collections, each only after the one before succeeded. On success each kind was listed once and nothing ensured is lost; accounts and RoleBindings are exact; a managed Role left has the name of a listed resource's inline role, and a managed ClusterRoleBinding left is named after one listed resource and one of its own roles. Unmanaged objects stay |
| Execution.EnsureAll | internal/reconciliation/stages/execution.go:52-66 | Roles, then accounts, then bindings, each only after the one before succeeded; on success all of the plan's are there, roles with rules and accounts with labels; no role or account that the plan does not have changes |
| Execution.Execute | internal/reconciliation/stages/execution.go:28-80 | Succeeds iff there is a plan with target namespaces and no call fails; if calls fail only by refusal of a role change, iff there are target namespaces, refs agree and no binding exists for another role. Then each of the four kinds was collected once, the cluster is reconciled with the plan (accounts and RoleBindings exact, roles with the rules of listed resources, no managed Role or ClusterRoleBinding left without one) and the engine holds the plan's mappings; otherwise the engine is unchanged. Unmanaged roles and accounts that the plan does not have stay in any case |
| EndToEnd.ReconcilableIffRefsAgree | internal/rules/resource_management.go:340-373 | Some cluster has exactly the RoleBindings and all the ClusterRoleBindings of the plan iff roles that are bound under one name are one role, for both kinds of bindings |
| EndToEnd.RoleAndClusterRoleClash | internal/rules/resource_management.go:48-54 | A resource with a Role and a ClusterRole of one name can never be reconciled, under any hash |
| EndToEnd.HyphenClash | internal/rules/resource_management.go:48-54 | Two resources and roles that differ in where a hyphen is can never be reconciled together, under any hash |
| EndToEnd.ClusterHyphenClash | internal/rules/resource_management.go:48-54 | The same for two cluster-scoped resources |
| EndToEnd.SuccessMetNoRoleChange | internal/rules/resource_management.go:585-648 | A batch that succeeded met no existing RoleBinding or ClusterRoleBinding of its resources for another role |
| EndToEnd.NothingIsMissingIffComplete | internal/rules/resource_management.go:340-373 | In a reconciled cluster no pod lacks a role of a matching WSA in the WSA's namespace iff each binding holds the accounts of every resource bound under its name |
| EndToEnd.ReconciledIsComplete | internal/rules/resource_management.go:340-373 | That is so if the hash keeps the names that bindings are made from apart |
| EndToEnd.NothingExtra | internal/rules/resource_management.go:517-583 | If groups with one name grant the same, no managed RoleBinding has a pod's account as a subject but those of matching WSAs |
| EndToEnd.ExactIffDistinctGrants | internal/rules/resource_management.go:340-373 | In every reconciled cluster, under a hash that keeps the texts bindings are named by apart, every pod's account, in every target namespace, is bound to exactly the roles of the namespaced WSAs that match the pod, each in the WSA's own namespace, iff groups with one name grant the same |
| EndToEnd.PairIsOverGranted | internal/rules/generator.go:283-300 | For every choice of two or more dimensions there are two resources whose plan can be carried out and, under a hash that keeps the texts bindings are named by apart, leaves in every cluster some pod with a RoleBinding of a WSA that does not match it |
| Permissions.AnswerExists | internal/rules/resource_management.go:320-337 | After a successful batch the account that a matched pod is given is a managed account in every target namespace, with the labels of a group of that name |
| Permissions.MatchedPodIsBound | internal/rules/resource_management.go:517-648 | After a successful batch, under a hash that keeps the texts bindings are named by apart: each role of each matching WSA is bound to the pod's account, by a managed RoleBinding in the WSA's namespace, or by a managed ClusterRoleBinding for a cluster-scoped WSA |
| Permissions.RulesExactIffApart | internal/rules/resource_management.go:383-475 | Where the roles have been made, each holds exactly the rules of its resource iff the hash tells the printed rules of resources of one namespace apart |
| Permissions.ClosedRulesApart | internal/rules/resource_management.go:40-58 | A hash that does not collide on the printed lists tells rules apart that are printed as structs |
| Permissions.MatchedPodHasRules | internal/rules/resource_management.go:383-648 | Under such a hash the account of a pod that a WSA matches is bound, in the WSA's namespace or in the whole cluster, to a Role or ClusterRole there that holds exactly the WSA's inline rules |
| Permissions.BoundIffAskedFor | internal/rules/resource_management.go:517-648 | With distinct grants a pod's account is bound to a role in a namespace iff a WSA of that namespace that matches the pod asks for that role |
| Orchestrator.UpdateBatchResourceVersions | internal/reconciliation/stages/planning.go:70-85 | Each resource of the batch becomes the listed one with its key, and stays as it is if none is listed; the batch keeps its keys in order |
| Orchestrator.PlanBatch | internal/reconciliation/stages/planning.go:29-68 | Unless a listing fails the batch holds a plan for the live resources and the namespaces found, and its resources are the live ones with their keys; its keys stay, so a retried batch is not taken for an empty one |
| Orchestrator.ValidateBatch | internal/reconciliation/stages/validation.go:30-144 | Succeeds iff there is a plan, no call fails, no planned account exists as an unmanaged object and every target namespace exists; the warnings are exactly the unmanaged roles named octopus- and a resource's name in that resource's namespace |
| Orchestrator.ProcessBatch | internal/reconciliation/orchestrator.go:244-304 | An empty batch succeeds and changes nothing; another succeeds iff no call fails and its plan is valid, and if calls fail only by refusal of a role change, iff its plan is valid, refs agree and no binding exists for another role. Then the cluster is reconciled with the plan, each of the four kinds having been collected once, and the engine holds its mappings, so the lookup is the compilation of the live resources. A failed batch leaves the mappings alone; one that fails in planning leaves the cluster alone too; unmanaged accounts are never touched |
| Orchestrator.GrantsAfterBatch | internal/reconciliation/orchestrator.go:244-304 | After a successful batch refs agree and no RoleBinding or ClusterRoleBinding had another role before; under a hash that keeps bindings apart pods hold exactly the RoleBindings of the namespaced WSAs that match them iff groups with one name grant the same, and so if names are distinct |
| Orchestrator.ProcessBatchWithRetry | internal/reconciliation/orchestrator.go:162-208 | A failed batch is marked and queued again while it has been at most twice before; otherwise it is given up, wherever it failed, and the engine's state is rebuilt from the live resources once, or left alone if the rebuild's own listing fails; success forgets it |
| Interlock.HandleDeletion | internal/controller/helpers.go:60-100 | The finalizer is removed only if the key is not in the engine's map; otherwise the deletion is tried again; an error iff the patch failed |
| Interlock.SnapshotConsistency | internal/rules/engine.go:126-268 | In every reachable state, with listing, computing and swapping of plans, rebuilds, refreshes and restarts interleaved, vocabulary and scope map come from one set whose two halves were listed, one after the other, at two earlier states of the run (or from nothing, initially and after a restart), and every lookup is the compiled answer for that set |
| Interlock.ListingIsValid | internal/reconciliation/stages/planning.go:87-113 | Two lists taken at different times still form a set with distinct keys |
| Interlock.OnlyPublishOrRebuildForgets | internal/controller/helpers.go:68-91 | Over every run: between a state in which the account-to-resources map holds a key and a later one in which it does not, there was a restart, a rebuild was swapped in, or a plan was published after exactly four successful collections, when no RoleBinding was left but those of the resources it had listed |
| Interlock.WaitsIffSettled | internal/controller/helpers.go:60-100 | From any state in which a resource is being deleted: all runs without a restart, a rebuild, or a publish that loses a listed resource remove its finalizer only when it owns no managed RoleBinding, iff the engine knows it, or it owns none and the batch at work will not bind it |
| Interlock.AlwaysWaitsIffUnbound | internal/controller/helpers.go:60-100 | All runs without exception do so iff it owns none and the batch at work will not bind it: otherwise a rebuild or a restart leads around the interlock |
| Interlock.RebuildSkipsCollection | internal/reconciliation/orchestrator.go:190-208 | From any state in which a deleting resource owns a managed RoleBinding, a rebuild and the removal of its finalizer while it still does |
| Interlock.RestartSkipsCollection | internal/rules/engine.go:56-70 | From any such state, a restart or a change of leader, which begins with an empty map, and the removal of its finalizer |
| Interlock.DistinctNamesHold | internal/rules/engine.go:126-145 | With distinct names no publish loses a listed resource |
| Interlock.DeletedInFirstBatch | internal/controller/helpers.go:74-91 | A run from the start, without restart, rebuild or publish, that removes the finalizer of a resource whose first batch has just bound it |
| Interlock.SharedNameSkipsCollection | internal/controller/helpers.go:74-91 | A run from the start, without restart or rebuild, that removes the finalizer of a bound resource which the published plan has lost to a shared name |
| Refinement.ProcessBatchInMachine | internal/reconciliation/orchestrator.go:244-304 | One batch is a run of the machine, with the owners of the managed RoleBindings as what is bound: a successful one lists, plans, ensures, collects four times and publishes, where the four collections are one of each of the four kinds of objects, which are reconciled with the plan; another does not publish |
| Refinement.RebuildOrRefreshInMachine | internal/rules/engine.go:206-268 | RebuildStateFromCluster and RefreshScopeMappings are runs of a rebuild and a refresh task, or change nothing |
| Refinement.HandleDeletionInMachine | internal/controller/helpers.go:60-100 | Handling a deletion is a removal of the finalizer in the machine or nothing |
| Collector.MergeKeepsNewest | internal/reconciliation/collector.go:134-146 | Re-merging a batch loses nothing, invents nothing and never replaces a newer event by an older |
| Collector.EventCollector.AddEvent | internal/reconciliation/collector.go:82-94 | The event replaces that of its key in every case; the debouncer is asked for a flush, and from the batch size on a flush is triggered at once, each of the two sends waiting if its channel is full |
| Collector.EventCollector.FlushEvents | internal/reconciliation/collector.go:97-102 | All events leave as one batch, or, if there are none or the channel is full, nothing changes |
| Collector.EventCollector.CollectEventsIntoBatch | internal/reconciliation/collector.go:109-124 | The batch holds exactly the events of the map, once each, and the map is emptied |
| Collector.EventCollector.SendBatch | internal/reconciliation/collector.go:128-146 | The batch is sent if the channel has room and merged back otherwise |
| Collector.AddConservesIffSafe | internal/reconciliation/collector.go:82-94 | An add keeps the newest event of each resource iff it does not replace the only copy of a newer one |
| Collector.RecreationIsUnsafe | internal/reconciliation/collector.go:82-94 | A run from the start in which adding an older generation loses the newer one |
| Collector.Conservation | internal/reconciliation/collector.go:82-146 | In every interleaving of any number of adders and flushers whose adds are safe, for each event added one of the same resource and at least its generation is in the map, in flight, in the channel or consumed |
| Collector.OrderedAddsConserve | internal/reconciliation/collector.go:82-146 | The same for adds in non-decreasing generation per resource |
| Flushing.StrandedIffLeftBehind | internal/reconciliation/collector.go:65-146 | Over every run of adders, debouncer, loop and other flushers: events wait in the map with no wake-up of the loop on its way iff a batch went back into the map when none was left, and since then no event was added and nobody else flushed |
| Flushing.EventIsStranded | internal/reconciliation/collector.go:128-146 | A run from the start that leaves an event waiting so, although the channel has room again |
| Debouncer.Timing | internal/reconciliation/debouncer.go:27-54 | Over every run: each request is answered within one timeout (and the latency) of being received, callbacks are at least one timeout apart and caused by a request, and each window has at most one |
| Debouncer.Start | internal/reconciliation/debouncer.go:27-50 | The loop over startedTime and the ticker performs a run of the machine, up to the first choice that the machine does not allow |
| StateSyncer.StateSyncer.Rebuild | internal/reconciliation/state_syncer.go:119-130 | Success makes the replica ready with the compilation of the live resources; failure changes nothing; the account-to-resources map stays |
| StateSyncer.NoLostWakeUp | internal/reconciliation/state_syncer.go:58-117 | Over every run: after a Trigger not yet followed by the start of a rebuild, a token is in a channel, the debouncer or the loop, until the loop stops |
| StateSyncer.QuietIsCurrent | internal/reconciliation/state_syncer.go:83-108 | When nothing is pending and the last rebuild succeeded, the table was built from the live resources |
| StateSyncer.NeverStuck | internal/reconciliation/state_syncer.go:83-117 | Whatever the channels hold, a step is possible until all is quiet |
| StateSyncer.Converges | internal/reconciliation/state_syncer.go:83-117 | Once changes have stopped, the number of steps left is bounded, and at the end the table is current if its last rebuild succeeded |
| StateSyncer.CatchesUpIff | internal/reconciliation/state_syncer.go:83-117 | From any state with no change outstanding: all runs without failures end with a current table iff a rebuild is running, a token is on its way, or the table is current |
| StateSyncer.FailureIsNotRetried | internal/reconciliation/state_syncer.go:103-107 | A failed rebuild with nothing pending leaves an outdated table at rest |
| StateSyncer.FailureLeavesOutdated | internal/reconciliation/state_syncer.go:83-130 | A run from the start that ends at rest with an outdated table |
| Retry.BatchQueue.Get | internal/reconciliation/batch_queue.go:57-74 | Hands out the batch of the first id, or drops an id without a batch |
| Retry.SettleBatch | internal/reconciliation/orchestrator.go:162-188 | A failed batch is queued again while it has been at most twice before, and otherwise forgotten and given up; success forgets it |
| Retry.RetryBound | internal/reconciliation/orchestrator.go:145-188 | In every interleaving of main loop, delays and retry goroutine each batch runs at most maxRetries + 1 = 4 times, never twice at once, and is given up only after exactly that many runs |
| Retry.FirstInFirstOut | internal/reconciliation/batch_queue.go:57-74 | In every run, while one batch is queued ahead of another it stays ahead until it has been tried |
| Retry.FinishedIsCleanedUp | internal/reconciliation/batch_queue.go:47-98 | A batch that succeeded or was given up has left the map with requeue count zero, is queued nowhere, and never runs again |
| Retry.RequeueDecreases | internal/reconciliation/orchestrator.go:162-188 | Each requeue lowers maxRetries minus requeues |

## Left out

- Interlock.WaitsIffSettled: speaks of RoleBindings. What cluster-scoped resources own is
  collected by an over-approximation (internal/rules/resource_management.go:807-857), so a
  ClusterRoleBinding of a deleted resource can stay.
- Execution.Execute: a Role or ClusterRoleBinding can be left that nothing asks for, if its name
  is expected: a Role of the same name in another namespace, or a ClusterRoleBinding named as that
  of a namespaced resource. ClusterRoles are never collected. Both are so in the source. Two
  batches, or a batch and another client, at the same time are not covered.
- Permissions.BoundIffAskedFor: is about RoleBindings. For ClusterRoleBindings only that what is
  asked for is there is stated, because of those that can be left.
- Refinement.ProcessBatchInMachine: one batch from beginning to end. The interleaving of its
  steps with others is in the machine of Interlock, not in the methods.
- Orchestrator.ValidateBatch: a namespace's existence and an object's presence are read from
  the cluster as it is, not from a cache that lags behind.
- Debouncer.Timing: time is that of the model, with a bound on lateness, not a real clock.
- StateSyncer.NoLostWakeUp: the hand-over to the leader and shutdown are one step, Stop, and
  what a list holds is a number there.
- Retry.RetryBound: batches are ids; a batch's contents and its failure are in Orchestrator.
- SHA-256 itself, and that its 128 bits do not collide.
- Server-side apply encoding, labels and annotations of the objects made.
- The admission webhook around the lookup, and its injection of the account into the pod.
- Status conditions, events, metrics, logs and the tracker that tells the controller's own
  deletions from others.
- requeueFailedResources after a permanent failure, and RequeueAfter, which no stage sets.
- What happens while a call of AddEvent is waiting, and shutdown loss.
- The engine's lock: its methods are atomic steps in Interlock.
- BatchQueue.Add, which nothing calls, and the rate limiter's delays.
