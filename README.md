# Karpenter: NodePool drift-hash controller and NodeClaim registration

This project is a Dafny model of two reconcilers of Karpenter, the Kubernetes
node autoscaler, with proofs about what they do.

- **The NodePool hash controller** (`pkg/controllers/nodepool/hash/controller.go`)
  stamps a NodePool with two annotations:
  - `karpenter.sh/nodepool-hash`: the digest of the pool's drift-relevant
    fields;
  - `karpenter.sh/nodepool-hash-version`: the generation of the hashing
    scheme.

  When a pool's stored hash-version is stale, the controller first lists the
  pool's NodeClaims. On each stale claim it bumps the hash-version, and it
  rewrites the hash unless the claim already carries a Drifted condition. It
  patches every claim it changed and collects the per-claim errors without
  stopping. When the pool itself changed, it deletes the pool's entries from
  the allocatable cache (`allocatableCache;<pool>;...`) and patches the pool.
- **The NodeClaim registration reconciler**
  (`pkg/controllers/nodeclaim/lifecycle/registration.go`) is a small state
  machine on the `Launched` and `Registered` conditions of a NodeClaim. Once
  the claim's Node is found, `syncNode` adopts the Node:
  - it adds the termination finalizer and the owner references;
  - it copies the claim's labels and annotations onto the Node, with the
    claim's values winning;
  - it sets `karpenter.sh/registered=true` and merges the claim's taints and
    startup taints;
  - it records the Node's allocatable in the shared cache and on the claim;
  - it patches the Node only if it changed.

  Only after a successful sync is the claim marked Registered and given the
  Node's name.

## How it is modelled

- Kubernetes objects (`NodePool`, `NodeClaim`, `Node`) are datatypes in
  module `Objects`. A Go `DeepCopy` snapshot is a value, and
  `equality.Semantic.DeepEqual` is `==`. A missing map key reads as `""`
  (`Lookup`), and `lo.Assign` is right-biased map union.
- The API server is the class `Kube.Client`:
  - Its field `calls` logs every request issued, in order.
  - Its answers to `List`, `Patch` and the node lookup are functions fixed
    when it is built. An answer is success, NotFound or another failure.
- The allocatable cache is the class `SharedCache.AllocatableCache`, a map
  from key to (value, TTL). The hash controller holds the cache injected into
  it. The registration reconciler receives the process-wide cache as a
  parameter.
- The reconcilers are classes whose methods follow the Go code statement by
  statement:
  - `NodePoolHash.Controller`: `Reconcile`, `UpdateNodeClaimHash`, the claim
    loop `PatchListedClaims` over an error-slot array, and the purge loop
    `ClearPoolCache`.
  - `Lifecycle.Registration`: `Reconcile` and `SyncNode`.
- Each method is proved against a specification function that gives the
  request log, the new cache, the returned object and the error:
  `NodePoolHash.ReconcileSpec`, `UpdateNodeClaimHashSpec`,
  `Lifecycle.ReconcileSpec` and `SyncNodeSpec`. The lemmas state the
  controllers' promises about those functions.
- Foreign helpers are parameters that the model does not interpret:
  `NodePool.Hash()` (`hashOf`), `UpdateNodeOwnerReferences`
  (`ownerReferencesFor`) and `scheduling.Taints.Merge` (`TaintMerge`).
  - `TaintMerge` is known only to keep the Node's taints and to bring in
    every added taint, matched by key and effect.
- Module `CacheCoupling` relates the key the registration reconciler writes
  to the prefix the hash controller purges.

## Model

| member | source | states |
|---|---|---|
| NodePoolHash.RehashClaim | pkg/controllers/nodepool/hash/controller.go:108-119 | A stale claim gets the current hash-version, and the new hash only when it has no Drifted condition; with a Drifted condition its old hash, present or absent, is kept. Every other annotation and field is unchanged. A current claim is returned as it is. The claim changes exactly when it was stale. |
| NodePoolHash.SweepPatchesEveryStaleClaim | pkg/controllers/nodepool/hash/controller.go:104-126 | The loop patches every listed stale claim with its rehashed value, whatever the other patches answered. |
| NodePoolHash.SweepPatchesOnlyStaleClaims | pkg/controllers/nodepool/hash/controller.go:108-125 | Every request the loop sends is a patch of a listed stale claim, rehashed; current claims are never patched. |
| NodePoolHash.ItemErrors | pkg/controllers/nodepool/hash/controller.go:103-124 | Slot i holds the error of claim i's patch, or nothing when the claim is current, the patch succeeded or it answered NotFound. There is one slot per listed claim. |
| NodePoolHash.CombineErrors | pkg/controllers/nodepool/hash/controller.go:129 | The combined error holds exactly the errors that are set, and it is empty exactly when every slot is empty. |
| NodePoolHash.SweepNeverReportsNotFound | pkg/controllers/nodepool/hash/controller.go:122-124 | A NotFound answer to a claim patch never reaches the combined error. |
| NodePoolHash.SweepErrorsAreHardFailures | pkg/controllers/nodepool/hash/controller.go:103-129 | The loop returns an error if and only if some stale claim's patch failed with an error other than NotFound. |
| NodePoolHash.StampIsNoOpIffConverged | pkg/controllers/nodepool/hash/controller.go:65-70 | Stamping leaves the pool equal to its snapshot if and only if it already carries the current hash and hash-version. |
| NodePoolHash.ReconcileStampsPool | pkg/controllers/nodepool/hash/controller.go:65-68 | About `StampPool`: after a successful reconcile, the pool's hash annotation equals the pool's digest and its hash-version is current. Its name, spec and other annotations are unchanged, and it has no annotation keys besides the old ones and the two stamped keys. |
| NodePoolHash.CurrentPoolTouchesNoClaims | pkg/controllers/nodepool/hash/controller.go:60-64 | A pool whose hash-version is current causes no List and no NodeClaim patch; its only request is the pool's own patch. |
| NodePoolHash.ListFailureStopsReconcile | pkg/controllers/nodepool/hash/controller.go:60-63 | When listing the claims fails, reconcile returns that error after the List alone. The pool is not stamped or patched and the cache is untouched. |
| NodePoolHash.ClaimFailuresAreAggregated | pkg/controllers/nodepool/hash/controller.go:61-63 | Every stale listed claim is patched. If any such patch failed with an error other than NotFound, reconcile returns exactly the combined claim errors (`CombineErrors` of the error slots). They include every failing claim's error and no NotFound. The pool is left unstamped and the cache untouched. The List and the claim patches are the only requests: no pool patch follows. |
| NodePoolHash.PurgeAndPatchOnlyOnChange | pkg/controllers/nodepool/hash/controller.go:70-81 | Once the claim step succeeds, an unconverged pool causes exactly the pool's prefixed cache keys to be deleted (`PurgePool`, `PoolCachePrefix`). The stamped pool (`StampPool`) is then patched last and is the returned pool, whatever the patch answered. A converged pool causes neither a purge nor a pool patch. |
| NodePoolHash.PoolPatchErrorIsReturned | pkg/controllers/nodepool/hash/controller.go:70-82 | Once the NodeClaim step succeeded, reconcile returns the pool patch's error exactly when the pool changed and the patch failed with an error other than NotFound. A NotFound answer is reported as success, and an unchanged pool returns no error. |
| NodePoolHash.ReconcileConvergedIsNoOp | pkg/controllers/nodepool/hash/controller.go:60-82 | Reconciling a pool that already carries the current hash and hash-version sends no request, deletes no cache key and returns no error. |
| NodePoolHash.ReconcileIsIdempotent | pkg/controllers/nodepool/hash/controller.go:55-83 | Reconciling the pool that a successful reconcile produced is a no-op, whatever the cache and the server's answers are by then. |
| NodePoolHash.Controller.Reconcile | pkg/controllers/nodepool/hash/controller.go:55-83 | Returns the pool and error of `ReconcileSpec`, appends its requests to the client's log and leaves the cache as `ReconcileSpec` says. |
| NodePoolHash.Controller.ClearPoolCache | pkg/controllers/nodepool/hash/controller.go:72-77 | Leaves the cache equal to `PurgePool` of the old one: the loop over the cache's keys deletes exactly the keys that start with `allocatableCache;<pool>;` and keeps the other entries' values. |
| NodePoolHash.Controller.UpdateNodeClaimHash | pkg/controllers/nodepool/hash/controller.go:97-130 | Sends the List and then the patches of the sweep, and returns the List error or the combined claim errors, as `UpdateNodeClaimHashSpec` says. |
| NodePoolHash.Controller.PatchListedClaims | pkg/controllers/nodepool/hash/controller.go:103-129 | The loop over the listed claims sends the sweep's patches in list order, fills one error slot per claim and returns the combined slots. |
| NodePoolHash.Controller.RehashAndPatch | pkg/controllers/nodepool/hash/controller.go:105-125 | One claim: a stale claim is rehashed and patched, a current one is skipped, and NotFound is dropped from the slot. |
| SharedCache.AllocatableCache.Delete | pkg/controllers/nodepool/hash/controller.go:74 | Removes one key and nothing else. |
| SharedCache.AllocatableCache.Set | pkg/controllers/nodeclaim/lifecycle/registration.go:103 | Writes one key with its value and TTL and leaves the other keys alone. |
| CacheCoupling.PoolPrefixMatchesOnlyOwnPool | pkg/controllers/nodepool/hash/controller.go:72-76 | A key the registration reconciler wrote for pool P falls under pool Q's purge prefix if and only if P = Q. This holds even when one name is a prefix of the other, since names contain no ';'. |
| CacheCoupling.PurgeDropsExactlyPoolEntries | pkg/controllers/nodepool/hash/controller.go:72-76 | After a purge of pool Q, a registration entry survives, unchanged, exactly when it belongs to another pool. |
| Lifecycle.AddFinalizer | pkg/controllers/nodeclaim/lifecycle/registration.go:84 | The finalizer is present afterwards. Every previous finalizer is kept, nothing else is added, and an already present finalizer changes nothing. |
| Lifecycle.RegisteredIsTerminal | pkg/controllers/nodeclaim/lifecycle/registration.go:45-47 | A claim that is already Registered is returned unchanged, with no request, no cache write and no error. |
| Lifecycle.NotLaunchedIsNotRegistered | pkg/controllers/nodeclaim/lifecycle/registration.go:48-51 | A claim that is not Launched (False, Unknown or absent) gets Registered=False/NotLaunched. Nothing else changes, no lookup is made and no error is returned. |
| Lifecycle.LookupMissOutcomes | pkg/controllers/nodeclaim/lifecycle/registration.go:53-64 | A Node that is not found gives Registered=False/NodeNotFound, and duplicate Nodes give Registered=False/MultipleNodesFound; both return no error and leave every other condition and every other field of the claim as they were. Any other lookup failure is returned and leaves the claim as it was. |
| Lifecycle.RegisteredOnlyAfterSync | pkg/controllers/nodeclaim/lifecycle/registration.go:66-71 | Registered becomes True if and only if the claim is Launched, its Node was found and the sync succeeded. The claim then names that Node and no error is returned. Besides its allocatable, Registered and the Node name, the claim is unchanged. |
| Lifecycle.RegisteredImpliesLaunchedIsKept | pkg/controllers/nodeclaim/lifecycle/registration.go:44-80 | The invariant "Registered True implies Launched True" is preserved by reconcile. |
| Lifecycle.ReconcileWritesOnlyRegistered | pkg/controllers/nodeclaim/lifecycle/registration.go:44-80 | In the model, where `SetFalse` and `SetTrue` write only the named condition, reconcile changes no condition other than Registered. |
| Lifecycle.SyncFailureLeavesUnregistered | pkg/controllers/nodeclaim/lifecycle/registration.go:66-68 | A failing Node patch is returned and the claim stays unregistered with its conditions unchanged, while the claim's allocatable and the cache entry have already been written. The cache is the old one with the claim's key set to the Node's allocatable and the 24-hour TTL. The claim changes only in its allocatable, so it names no new Node. The only requests are the Node lookup and the Node patch. |
| Lifecycle.SyncedNodeContents | pkg/controllers/nodeclaim/lifecycle/registration.go:84-114 | About `SyncedNode`: the synced Node has the termination finalizer and `karpenter.sh/registered=true`. Every claim label other than `karpenter.sh/registered`, and every claim annotation, is on it with the claim's value. The other Node-only labels and the Node-only annotations are kept, and there are no other keys. Its taints keep the old ones and include the claim's taints and startup taints. Name, provider id and allocatable are unchanged. |
| Lifecycle.SyncedLabels | pkg/controllers/nodeclaim/lifecycle/registration.go:107-114 | The label writes leave the registered label "true", even over a claim label with that key. Every other claim label has the claim's value, the Node-only labels keep their values, and there is no other key. |
| Lifecycle.SyncedTaints | pkg/controllers/nodeclaim/lifecycle/registration.go:109-111 | The two merges keep the Node's taints and bring in every claim taint and startup taint, matched by key and effect. |
| Lifecycle.SyncWritesAllocatable | pkg/controllers/nodeclaim/lifecycle/registration.go:87-104 | The sync writes the Node's allocatable under `AllocatableCacheKey`, i.e. `allocatableCache;<pool>;<instance-type>`, with the 24-hour TTL of pkg/utils/sharedcache/sharedcache.go:13 and leaves every other key alone. The claim's allocatable becomes that same value, and nothing else on the claim changes. |
| Lifecycle.SyncPatchesOnlyOnChange | pkg/controllers/nodeclaim/lifecycle/registration.go:115-119 | The Node is patched, with the synced Node, exactly when the sync changed it. A failed patch's error is syncNode's error, NotFound included. Without a patch there is no error. |
| Lifecycle.SyncedNodeFixpoint | pkg/controllers/nodeclaim/lifecycle/registration.go:83-114 | A Node that already holds everything the sync writes is left equal to its snapshot, whatever allocatable the claim records, provided the foreign helpers add nothing. |
| Lifecycle.ResyncIsNoOp | pkg/controllers/nodeclaim/lifecycle/registration.go:83-119 | Syncing again the Node a sync produced sends no patch and changes neither the Node nor the claim, provided the foreign helpers are idempotent on it. This holds for the claim the first sync returned and also for the stored claim of a retry, whose allocatable may still be the old one. |
| Lifecycle.Registration.Reconcile | pkg/controllers/nodeclaim/lifecycle/registration.go:44-80 | Returns the claim and error of `ReconcileSpec`, appends its requests to the client's log and leaves the cache as `ReconcileSpec` says. |
| Lifecycle.Registration.SyncNode | pkg/controllers/nodeclaim/lifecycle/registration.go:82-121 | Returns the claim and error of `SyncNodeSpec`, sends its patch, if any, and writes the cache entry it names. |

## Left out

- The NodeClaim garbage-collection test suite
  (`pkg/controllers/nodeclaim/garbagecollection/suite_test.go`) is not part of
  this model. Its controller is not among the modelled files.
- The `sync.Once` singleton of `pkg/utils/sharedcache/sharedcache.go` and the
  go-cache library are not modelled. This includes TTL expiry and the
  filtering of expired entries by `Items()`. The cache is a plain map, and the
  TTL is stored as data.
- `NodePool.Hash()`, `NodeForNodeClaim`, `UpdateNodeOwnerReferences` and
  `scheduling.Taints.Merge` are foreign code. Each is a parameter without a
  body; `Taints.Merge` carries only the containment property its call site
  states.
- Merge-patch construction (`client.MergeFrom`, `StrategicMergeFrom`) is not
  modelled. A patch sends the whole mutated object.
- Optimistic-concurrency conflicts and `context` are not modelled. Each answer
  of the API server is a fixed function of the object referred to.
- Logging, including the memory-delta log at registration.go:92-101, and the
  Prometheus counters at registration.go:73-78 are left out as telemetry only.
- `Register` and `MaxConcurrentReconciles` (controller.go:85-91) are left out
  as controller-runtime wiring. Concurrent reconciles are not modelled.
- The text with which errors are wrapped (`fmt.Errorf`) is not modelled.
  Errors are tagged by where they arose: `ListError`, `ClaimPatchErrors`,
  `PoolPatchError`, `GettingNode` and `SyncingNode`.
- The value of `NodePoolHashVersion` is not among the modelled files. The
  model uses "v3"; only the fact that it is a fixed, non-empty string matters.
- `SetTrue` gives Registered an empty reason and message. The helper's own
  defaults are not among the modelled files.
- The `v1` and `v1beta1` NodeClaim types are one datatype. Only the fields
  that these two files read or write are kept.
- Objects that Go passes by reference are modelled as values. The mutated
  NodePool and NodeClaim are returned instead of being written in place. Listed claims are
  copies in Go as well.
- The purge loop of `Reconcile` and the body of the claim loop of
  `updateNodeClaimHash` are separate methods (`ClearPoolCache`,
  `RehashAndPatch`). Statement order is unchanged.
- ResyncIsNoOp: states that a re-sync issues no patch only when
  `UpdateNodeOwnerReferences` and `Taints.Merge` leave an already adopted
  Node as it is. Their bodies are not part of this model, so this cannot be
  shown for them.
- SyncedNodeFixpoint: assumes the same of the foreign helpers, for the same
  reason.
- The foreign helpers' types carry two assumptions. `hashOf` reads only the
  pool's spec (the digest of its drift-relevant fields), so stamping
  annotations does not change the hash; `ReconcileIsIdempotent` relies on
  this. `UpdateNodeOwnerReferences` (`OwnerReferencesFn`) returns only the
  Node's owner references, so it cannot touch the name, labels or
  annotations that `SyncedNodeContents` describes.
- ReconcileWritesOnlyRegistered: the model's `SetFalse` and `SetTrue` write
  only the named condition. The library's `StatusConditions()` is not part of
  this model, so the model does not update the root `Ready` condition, does
  not set `LastTransitionTime` and does not set `ObservedGeneration`.
