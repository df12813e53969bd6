/** The NodePool drift-hash controller (pkg/controllers/nodepool/hash).
    Reconcile stamps a NodePool with its current hash and hash-version; when
    the pool's stored hash-version is stale it first walks the pool's
    NodeClaims and bumps theirs, and when the pool changed it purges the
    pool's entries from the allocatable cache before patching the pool. */
module NodePoolHash {
  import opened Objects
  import opened Kube
  import opened SharedCache

  /** The stored hash-version is not the current generation (a missing
      annotation reads as "" and is stale too). */
  predicate VersionStale(annotations: StringMap) {
    Lookup(annotations, NodePoolHashVersionAnnotationKey) != NodePoolHashVersion
  }

  /** What updateNodeClaimHash does to one listed NodeClaim. A claim that
      already carries a Drifted condition keeps its old hash: drift declared
      under the old scheme can be neither confirmed nor denied by the new one. */
  function RehashClaim(nc: NodeClaim, hash: string): (r: NodeClaim)
    ensures NodePoolHashVersionAnnotationKey in r.annotations
    ensures r.annotations[NodePoolHashVersionAnnotationKey] == NodePoolHashVersion
    ensures !VersionStale(nc.annotations) ==> r == nc
    ensures r != nc <==> VersionStale(nc.annotations)
    ensures VersionStale(nc.annotations) && ConditionTypeDrifted !in nc.conditions ==>
              NodePoolHashAnnotationKey in r.annotations && r.annotations[NodePoolHashAnnotationKey] == hash
    ensures ConditionTypeDrifted in nc.conditions ==>
              (NodePoolHashAnnotationKey in r.annotations <==> NodePoolHashAnnotationKey in nc.annotations) &&
              Lookup(r.annotations, NodePoolHashAnnotationKey) == Lookup(nc.annotations, NodePoolHashAnnotationKey)
    ensures forall k | k in nc.annotations && k != NodePoolHashAnnotationKey && k != NodePoolHashVersionAnnotationKey ::
              k in r.annotations && r.annotations[k] == nc.annotations[k]
    ensures r.annotations.Keys <= nc.annotations.Keys + {NodePoolHashAnnotationKey, NodePoolHashVersionAnnotationKey}
    ensures r.(annotations := nc.annotations) == nc
  {
    if VersionStale(nc.annotations) then
      var bumped := nc.(annotations := nc.annotations + map[NodePoolHashVersionAnnotationKey := NodePoolHashVersion]);
      if ConditionTypeDrifted !in bumped.conditions then
        bumped.(annotations := bumped.annotations + map[NodePoolHashAnnotationKey := hash])
      else
        bumped
    else
      nc
  }

  /** The request the loop of updateNodeClaimHash sends for one listed
      claim: a patch when the claim is stale, which then always differs from
      its snapshot (see RehashClaim), so the loop's change test never skips one. */
  function ClaimCalls(nc: NodeClaim, hash: string): seq<Call> {
    if VersionStale(nc.annotations) then [Patch(ClaimObject(RehashClaim(nc, hash)))] else []
  }

  /** The patches the loop sends for the first `n` listed claims, in list order. */
  function SweepCalls(items: seq<NodeClaim>, n: nat, hash: string): seq<Call>
    requires n <= |items|
  {
    if n == 0 then [] else SweepCalls(items, n - 1, hash) + ClaimCalls(items[n - 1], hash)
  }

  /** One step of the loop: the log grows by the patches of the next claim. */
  lemma SweepStep(items: seq<NodeClaim>, i: nat, hash: string, start: seq<Call>)
    requires i < |items|
    ensures start + SweepCalls(items, i + 1, hash) == (start + SweepCalls(items, i, hash)) + ClaimCalls(items[i], hash)
  {
    assert SweepCalls(items, i + 1, hash) == SweepCalls(items, i, hash) + ClaimCalls(items[i], hash);
    ConcatAssoc(start, SweepCalls(items, i, hash), ClaimCalls(items[i], hash));
  }

  lemma {:induction false} SweepPatchesEveryStaleClaim(items: seq<NodeClaim>, n: nat, hash: string)
    requires n <= |items|
    ensures forall i | 0 <= i < n && VersionStale(items[i].annotations) ::
              Patch(ClaimObject(RehashClaim(items[i], hash))) in SweepCalls(items, n, hash)
  {
    if n > 0 {
      var prev := SweepCalls(items, n - 1, hash);
      assert SweepCalls(items, n, hash) == prev + ClaimCalls(items[n - 1], hash);
      SweepPatchesEveryStaleClaim(items, n - 1, hash);
      forall i | 0 <= i < n && VersionStale(items[i].annotations)
        ensures Patch(ClaimObject(RehashClaim(items[i], hash))) in SweepCalls(items, n, hash)
      {
        if i < n - 1 {
          assert Patch(ClaimObject(RehashClaim(items[i], hash))) in prev;
        } else {
          assert ClaimCalls(items[i], hash) == [Patch(ClaimObject(RehashClaim(items[i], hash)))];
        }
      }
    }
  }

  lemma {:induction false} SweepPatchesOnlyStaleClaims(items: seq<NodeClaim>, n: nat, hash: string)
    requires n <= |items|
    ensures forall c | c in SweepCalls(items, n, hash) ::
              exists i | 0 <= i < n :: VersionStale(items[i].annotations) && c == Patch(ClaimObject(RehashClaim(items[i], hash)))
  {
    if n > 0 {
      SweepPatchesOnlyStaleClaims(items, n - 1, hash);
      forall c | c in SweepCalls(items, n, hash)
        ensures exists i | 0 <= i < n :: VersionStale(items[i].annotations) && c == Patch(ClaimObject(RehashClaim(items[i], hash)))
      {
        if c !in SweepCalls(items, n - 1, hash) {
          assert c == Patch(ClaimObject(RehashClaim(items[n - 1], hash)));
        }
      }
    }
  }

  /** The slot `errs[i]` of one listed claim after the loop: the patch error
      of a stale claim, NotFound dropped; nothing for a current claim. */
  function ItemError(nc: NodeClaim, patchOutcome: ObjectRef -> Outcome): Option<ApiError> {
    if VersionStale(nc.annotations) && IsHardFailure(patchOutcome(ObjectRef(NodeClaimKind, nc.name))) then
      Some(patchOutcome(ObjectRef(NodeClaimKind, nc.name)).error)
    else
      None
  }

  function ItemErrors(items: seq<NodeClaim>, patchOutcome: ObjectRef -> Outcome): (r: seq<Option<ApiError>>)
    ensures |r| == |items|
    ensures forall i | 0 <= i < |items| :: r[i] == ItemError(items[i], patchOutcome)
  {
    if items == [] then [] else [ItemError(items[0], patchOutcome)] + ItemErrors(items[1..], patchOutcome)
  }

  lemma ItemErrorsPointwise(items: seq<NodeClaim>, patchOutcome: ObjectRef -> Outcome, slots: seq<Option<ApiError>>)
    requires |slots| == |items|
    requires forall j | 0 <= j < |items| :: slots[j] == ItemError(items[j], patchOutcome)
    ensures slots == ItemErrors(items, patchOutcome)
  {
  }

  /** The error slots of one more claim extend those of the claims before it
      (a step of the loop of updateNodeClaimHash). */
  lemma ItemErrorsStep(items: seq<NodeClaim>, i: nat, patchOutcome: ObjectRef -> Outcome,
                       done: seq<Option<ApiError>>, slot: Option<ApiError>)
    requires i < |items|
    requires done == ItemErrors(items[..i], patchOutcome)
    requires slot == ItemError(items[i], patchOutcome)
    ensures done + [slot] == ItemErrors(items[..i + 1], patchOutcome)
  {
    var slots := done + [slot];
    forall j | 0 <= j < i + 1
      ensures slots[j] == ItemError(items[..i + 1][j], patchOutcome)
    {
      if j < i {
        assert slots[j] == done[j] == ItemErrors(items[..i], patchOutcome)[j];
      }
    }
    ItemErrorsPointwise(items[..i + 1], patchOutcome, slots);
  }

  /** `multierr.Combine`: the errors that are set, in slot order. */
  function CombineErrors(errs: seq<Option<ApiError>>): (r: seq<ApiError>)
    ensures |r| <= |errs|
    ensures forall e | e in r :: Some(e) in errs
    ensures forall j | 0 <= j < |errs| && errs[j].Some? :: errs[j].value in r
    ensures r == [] <==> forall j | 0 <= j < |errs| :: errs[j].None?
  {
    if errs == [] then []
    else
      var init := errs[..|errs| - 1];
      var last := errs[|errs| - 1];
      assert forall j | 0 <= j < |init| :: init[j] == errs[j];
      CombineErrors(init) + if last.Some? then [last.value] else []
  }

  /** The loop's combined error never holds NotFound. */
  lemma SweepNeverReportsNotFound(items: seq<NodeClaim>, patchOutcome: ObjectRef -> Outcome)
    ensures NotFound !in CombineErrors(ItemErrors(items, patchOutcome))
  {
    var errs := ItemErrors(items, patchOutcome);
    assert forall i | 0 <= i < |errs| :: errs[i] != Some(NotFound);
  }

  /** The loop's combined error is empty exactly when every stale claim's
      patch succeeded or found nothing. */
  lemma SweepErrorsAreHardFailures(items: seq<NodeClaim>, patchOutcome: ObjectRef -> Outcome)
    ensures CombineErrors(ItemErrors(items, patchOutcome)) == [] <==>
              forall i | 0 <= i < |items| && VersionStale(items[i].annotations) ::
                !IsHardFailure(patchOutcome(ObjectRef(NodeClaimKind, items[i].name)))
  {
    var errs := ItemErrors(items, patchOutcome);
    if CombineErrors(errs) == [] {
      forall i | 0 <= i < |items| && VersionStale(items[i].annotations)
        ensures !IsHardFailure(patchOutcome(ObjectRef(NodeClaimKind, items[i].name)))
      {
        assert errs[i].None?;
      }
    }
  }

  datatype HashError =
    | ListError(error: ApiError)
    | ClaimPatchErrors(errors: seq<ApiError>)
    | PoolPatchError(error: ApiError)

  datatype ClaimUpdate = ClaimUpdate(calls: seq<Call>, err: Option<HashError>)

  /** updateNodeClaimHash: list the pool's claims and sweep them; a failing
      List is returned as it is, per-claim errors are combined. */
  function UpdateNodeClaimHashSpec(np: NodePool, hash: string, listNodeClaims: string -> ListResult,
                                   patchOutcome: ObjectRef -> Outcome): ClaimUpdate
  {
    match listNodeClaims(np.name)
    case ListFailed(e) => ClaimUpdate([ListNodeClaims(np.name)], Some(ListError(e)))
    case Listed(items) =>
      var errs := CombineErrors(ItemErrors(items, patchOutcome));
      ClaimUpdate([ListNodeClaims(np.name)] + SweepCalls(items, |items|, hash),
                  if errs == [] then None else Some(ClaimPatchErrors(errs)))
  }

  /** The pool with its hash and hash-version annotations written. */
  function StampPool(np: NodePool, hash: string): NodePool {
    np.(annotations := np.annotations + map[NodePoolHashAnnotationKey := hash,
                                            NodePoolHashVersionAnnotationKey := NodePoolHashVersion])
  }

  /** The pool already carries the current hash and hash-version. */
  predicate Converged(np: NodePool, hash: string) {
    && NodePoolHashAnnotationKey in np.annotations
    && np.annotations[NodePoolHashAnnotationKey] == hash
    && NodePoolHashVersionAnnotationKey in np.annotations
    && np.annotations[NodePoolHashVersionAnnotationKey] == NodePoolHashVersion
  }

  lemma StampIsNoOpIffConverged(np: NodePool, hash: string)
    ensures StampPool(np, hash) == np <==> Converged(np, hash)
  {
    if Converged(np, hash) {
      assert StampPool(np, hash).annotations == np.annotations;
    }
  }

  /** The prefix shared by every cache key the registration controller writes
      for a pool. */
  function PoolCachePrefix(name: string): string {
    "allocatableCache;" + name + ";"
  }

  /** The cache with every key that starts with the pool's prefix removed. */
  function PurgePool(items: CacheItems, name: string): CacheItems {
    map k | k in items && !HasPrefix(k, PoolCachePrefix(name)) :: items[k]
  }

  datatype PoolReconcile = PoolReconcile(pool: NodePool, calls: seq<Call>, cache: CacheItems, err: Option<HashError>)

  /** Controller.Reconcile on `np`, given the pool's digest `hash`, the cache
      before the call and the API server's answers. */
  function ReconcileSpec(np: NodePool, hash: string, cache: CacheItems, listNodeClaims: string -> ListResult,
                         patchOutcome: ObjectRef -> Outcome): PoolReconcile
  {
    var update := if VersionStale(np.annotations) then UpdateNodeClaimHashSpec(np, hash, listNodeClaims, patchOutcome)
                  else ClaimUpdate([], None);
    if update.err.Some? then
      PoolReconcile(np, update.calls, cache, update.err)
    else
      var stamped := StampPool(np, hash);
      if stamped == np then
        PoolReconcile(np, update.calls, cache, None)
      else
        var o := patchOutcome(RefOf(PoolObject(stamped)));
        PoolReconcile(stamped, update.calls + [Patch(PoolObject(stamped))], PurgePool(cache, np.name),
                      if IsHardFailure(o) then Some(PoolPatchError(o.error)) else None)
  }

  /** A successful reconcile leaves the pool with the current hash and
      hash-version and every other annotation, its name and spec as they were. */
  lemma ReconcileStampsPool(np: NodePool, hash: string, cache: CacheItems, listNodeClaims: string -> ListResult,
                            patchOutcome: ObjectRef -> Outcome)
    ensures var r := ReconcileSpec(np, hash, cache, listNodeClaims, patchOutcome);
      r.err.None? ==>
        && Converged(r.pool, hash)
        && r.pool.name == np.name && r.pool.spec == np.spec
        && (forall k | k in np.annotations && k != NodePoolHashAnnotationKey && k != NodePoolHashVersionAnnotationKey ::
              k in r.pool.annotations && r.pool.annotations[k] == np.annotations[k])
        && r.pool.annotations.Keys == np.annotations.Keys + {NodePoolHashAnnotationKey, NodePoolHashVersionAnnotationKey}
  {
    StampIsNoOpIffConverged(np, hash);
  }

  /** A pool whose stored hash-version is current causes no List and no
      NodeClaim patch: its only possible request is its own patch. */
  lemma CurrentPoolTouchesNoClaims(np: NodePool, hash: string, cache: CacheItems, listNodeClaims: string -> ListResult,
                                   patchOutcome: ObjectRef -> Outcome)
    requires !VersionStale(np.annotations)
    ensures var r := ReconcileSpec(np, hash, cache, listNodeClaims, patchOutcome);
      forall c | c in r.calls :: c == Patch(PoolObject(StampPool(np, hash)))
  {
  }

  /** A stale pool whose NodeClaims cannot be listed returns the List error
      before stamping or patching the pool and before touching the cache. */
  lemma ListFailureStopsReconcile(np: NodePool, hash: string, cache: CacheItems, listNodeClaims: string -> ListResult,
                                  patchOutcome: ObjectRef -> Outcome)
    requires VersionStale(np.annotations)
    requires listNodeClaims(np.name).ListFailed?
    ensures ReconcileSpec(np, hash, cache, listNodeClaims, patchOutcome)
            == PoolReconcile(np, [ListNodeClaims(np.name)], cache, Some(ListError(listNodeClaims(np.name).error)))
  {
  }

  /** When a stale pool is listed, every stale claim is patched whatever the
      answers to the other patches; if any answer was a failure other than
      NotFound the reconcile reports the combined errors and leaves the pool
      unstamped and the cache untouched. */
  lemma ClaimFailuresAreAggregated(np: NodePool, hash: string, cache: CacheItems, listNodeClaims: string -> ListResult,
                                   patchOutcome: ObjectRef -> Outcome)
    requires VersionStale(np.annotations)
    requires listNodeClaims(np.name).Listed?
    ensures var items := listNodeClaims(np.name).items;
      var r := ReconcileSpec(np, hash, cache, listNodeClaims, patchOutcome);
      && (forall i | 0 <= i < |items| && VersionStale(items[i].annotations) ::
            Patch(ClaimObject(RehashClaim(items[i], hash))) in r.calls)
      && ((exists i | 0 <= i < |items| && VersionStale(items[i].annotations) ::
             IsHardFailure(patchOutcome(ObjectRef(NodeClaimKind, items[i].name))))
          ==> r.err.Some? && r.err.value.ClaimPatchErrors? && NotFound !in r.err.value.errors &&
              r.err == Some(ClaimPatchErrors(CombineErrors(ItemErrors(items, patchOutcome)))) &&
              (forall i | 0 <= i < |items| && VersionStale(items[i].annotations) &&
                          IsHardFailure(patchOutcome(ObjectRef(NodeClaimKind, items[i].name))) ::
                 patchOutcome(ObjectRef(NodeClaimKind, items[i].name)).error in r.err.value.errors) &&
              r.pool == np && r.cache == cache &&
              r.calls == [ListNodeClaims(np.name)] + SweepCalls(items, |items|, hash))
  {
    var items := listNodeClaims(np.name).items;
    var u := UpdateNodeClaimHashSpec(np, hash, listNodeClaims, patchOutcome);
    var r := ReconcileSpec(np, hash, cache, listNodeClaims, patchOutcome);
    assert u.calls == [ListNodeClaims(np.name)] + SweepCalls(items, |items|, hash);
    assert r.calls == u.calls || r.calls == u.calls + [Patch(PoolObject(StampPool(np, hash)))];
    SweepPatchesEveryStaleClaim(items, |items|, hash);
    SweepNeverReportsNotFound(items, patchOutcome);
    SweepErrorsAreHardFailures(items, patchOutcome);
    var errs := ItemErrors(items, patchOutcome);
    forall i | 0 <= i < |items| && VersionStale(items[i].annotations) &&
               IsHardFailure(patchOutcome(ObjectRef(NodeClaimKind, items[i].name)))
      ensures patchOutcome(ObjectRef(NodeClaimKind, items[i].name)).error in CombineErrors(errs)
    {
      assert errs[i] == Some(patchOutcome(ObjectRef(NodeClaimKind, items[i].name)).error);
    }
  }

  /** When the claim step succeeds and the pool is not yet converged, the
      cache loses exactly the pool's prefixed keys and the pool is patched;
      when it is converged neither happens. */
  lemma PurgeAndPatchOnlyOnChange(np: NodePool, hash: string, cache: CacheItems, listNodeClaims: string -> ListResult,
                                  patchOutcome: ObjectRef -> Outcome)
    requires UpdateSucceeds(np, hash, listNodeClaims, patchOutcome)
    ensures var r := ReconcileSpec(np, hash, cache, listNodeClaims, patchOutcome);
      if Converged(np, hash) then
        r.cache == cache && (forall c | c in r.calls :: !c.Patch? || !c.obj.PoolObject?)
      else
        && r.pool == StampPool(np, hash)
        && r.cache == PurgePool(cache, np.name) && |r.calls| > 0 && r.calls[|r.calls| - 1] == Patch(PoolObject(r.pool))
  {
    StampIsNoOpIffConverged(np, hash);
  }

  /** The NodeClaim step of Reconcile returns no error. */
  predicate UpdateSucceeds(np: NodePool, hash: string, listNodeClaims: string -> ListResult,
                           patchOutcome: ObjectRef -> Outcome)
  {
    !VersionStale(np.annotations) || UpdateNodeClaimHashSpec(np, hash, listNodeClaims, patchOutcome).err.None?
  }

  /** Once the NodeClaim step succeeded, the pool patch decides the error:
      a failure other than NotFound is returned, and NotFound is reported as
      success. */
  lemma PoolPatchErrorIsReturned(np: NodePool, hash: string, cache: CacheItems, listNodeClaims: string -> ListResult,
                                 patchOutcome: ObjectRef -> Outcome)
    requires UpdateSucceeds(np, hash, listNodeClaims, patchOutcome)
    ensures var o := patchOutcome(ObjectRef(NodePoolKind, np.name));
      ReconcileSpec(np, hash, cache, listNodeClaims, patchOutcome).err
        == (if !Converged(np, hash) && IsHardFailure(o) then Some(PoolPatchError(o.error)) else None)
    ensures patchOutcome(ObjectRef(NodePoolKind, np.name)) == Err(NotFound) ==>
              ReconcileSpec(np, hash, cache, listNodeClaims, patchOutcome).err.None?
  {
    StampIsNoOpIffConverged(np, hash);
  }

  /** Reconciling a pool that already carries the current hash and
      hash-version makes no request, deletes no cache entry and reports no
      error. */
  lemma ReconcileConvergedIsNoOp(np: NodePool, hash: string, cache: CacheItems, listNodeClaims: string -> ListResult,
                                 patchOutcome: ObjectRef -> Outcome)
    requires Converged(np, hash)
    ensures ReconcileSpec(np, hash, cache, listNodeClaims, patchOutcome) == PoolReconcile(np, [], cache, None)
  {
    StampIsNoOpIffConverged(np, hash);
  }

  /** Idempotence: reconciling again the pool a successful reconcile produced
      is a no-op, whatever the cache and the server's answers are by then. */
  lemma ReconcileIsIdempotent(np: NodePool, hash: string, cache: CacheItems, listNodeClaims: string -> ListResult,
                              patchOutcome: ObjectRef -> Outcome, cache': CacheItems,
                              listNodeClaims': string -> ListResult, patchOutcome': ObjectRef -> Outcome)
    requires ReconcileSpec(np, hash, cache, listNodeClaims, patchOutcome).err.None?
    ensures var p := ReconcileSpec(np, hash, cache, listNodeClaims, patchOutcome).pool;
      ReconcileSpec(p, hash, cache', listNodeClaims', patchOutcome') == PoolReconcile(p, [], cache', None)
  {
    ReconcileStampsPool(np, hash, cache, listNodeClaims, patchOutcome);
    ReconcileConvergedIsNoOp(ReconcileSpec(np, hash, cache, listNodeClaims, patchOutcome).pool, hash,
                             cache', listNodeClaims', patchOutcome');
  }

  /** The hash controller. Its cache is injected, not a process global. */
  class Controller {
    const kubeClient: Client
    const cache: AllocatableCache
    /** `np.Hash()`: the digest of a pool's drift-relevant fields. */
    const hashOf: NodePoolSpec -> string

    constructor (kubeClient: Client, cache: AllocatableCache, hashOf: NodePoolSpec -> string)
      ensures this.kubeClient == kubeClient && this.cache == cache && this.hashOf == hashOf
    {
      this.kubeClient := kubeClient;
      this.cache := cache;
      this.hashOf := hashOf;
    }

    method Reconcile(np: NodePool) returns (pool: NodePool, err: Option<HashError>)
      modifies kubeClient, cache
      ensures var r := ReconcileSpec(np, hashOf(np.spec), old(cache.items), kubeClient.listNodeClaims,
                                     kubeClient.patchOutcome);
        && pool == r.pool && err == r.err
        && kubeClient.calls == old(kubeClient.calls) + r.calls
        && cache.items == r.cache
    {
      var stored := np;
      pool := np;
      ghost var update := if VersionStale(np.annotations)
                          then UpdateNodeClaimHashSpec(np, hashOf(np.spec), kubeClient.listNodeClaims, kubeClient.patchOutcome)
                          else ClaimUpdate([], None);
      if Lookup(pool.annotations, NodePoolHashVersionAnnotationKey) != NodePoolHashVersion {
        err := UpdateNodeClaimHash(pool);
        if err.Some? {
          return;
        }
      }
      pool := pool.(annotations := pool.annotations + map[NodePoolHashAnnotationKey := hashOf(pool.spec),
                                                          NodePoolHashVersionAnnotationKey := NodePoolHashVersion]);
      err := None;
      if stored != pool {
        ClearPoolCache(pool.name);
        var o := kubeClient.Patch(PoolObject(pool));
        ConcatAssoc(old(kubeClient.calls), update.calls, [Patch(PoolObject(pool))]);
        if IsHardFailure(o) {
          err := Some(PoolPatchError(o.error));
        }
      }
    }

    /** The purge loop of Reconcile: walk a snapshot of the cache's keys and
        delete each one under the pool's prefix. */
    method ClearPoolCache(name: string)
      modifies cache
      ensures cache.items == PurgePool(old(cache.items), name)
    {
      ghost var before := cache.items;
      var prefix := PoolCachePrefix(name);
      var keys := cache.items.Keys;
      while keys != {}
        invariant keys <= before.Keys
        invariant forall k :: k in cache.items <==> k in before && (k in keys || !HasPrefix(k, prefix))
        invariant forall k | k in cache.items :: cache.items[k] == before[k]
        decreases keys
      {
        var key :| key in keys;
        if HasPrefix(key, prefix) {
          cache.Delete(key);
        }
        keys := keys - {key};
      }
      assert cache.items.Keys == PurgePool(before, name).Keys;
    }

    method UpdateNodeClaimHash(np: NodePool) returns (err: Option<HashError>)
      modifies kubeClient
      ensures var u := UpdateNodeClaimHashSpec(np, hashOf(np.spec), kubeClient.listNodeClaims, kubeClient.patchOutcome);
        kubeClient.calls == old(kubeClient.calls) + u.calls && err == u.err
    {
      var listed := kubeClient.List(np.name);
      if listed.ListFailed? {
        return Some(ListError(listed.error));
      }
      ghost var afterList := kubeClient.calls;
      var combined := PatchListedClaims(listed.items, hashOf(np.spec));
      err := if combined == [] then None else Some(ClaimPatchErrors(combined));
      ghost var u := UpdateNodeClaimHashSpec(np, hashOf(np.spec), kubeClient.listNodeClaims, kubeClient.patchOutcome);
      ghost var sweep := SweepCalls(listed.items, |listed.items|, hashOf(np.spec));
      assert u.calls == [ListNodeClaims(np.name)] + sweep;
      ConcatAssoc(old(kubeClient.calls), [ListNodeClaims(np.name)], sweep);
      assert u.err == err;
    }

    /** The loop of updateNodeClaimHash: one error slot per listed claim,
        combined once every claim has been handled. */
    method PatchListedClaims(items: seq<NodeClaim>, hash: string) returns (combined: seq<ApiError>)
      modifies kubeClient
      ensures kubeClient.calls == old(kubeClient.calls) + SweepCalls(items, |items|, hash)
      ensures combined == CombineErrors(ItemErrors(items, kubeClient.patchOutcome))
    {
      var errs := new Option<ApiError>[|items|];
      ghost var start := kubeClient.calls;
      ghost var po := kubeClient.patchOutcome;
      for i := 0 to |items|
        invariant kubeClient.calls == start + SweepCalls(items, i, hash)
        invariant errs[..i] == ItemErrors(items[..i], po)
      {
        ghost var done := errs[..i];
        var slot := RehashAndPatch(items[i], hash);
        errs[i] := slot;
        assert errs[..i + 1] == done + [slot];
        SweepStep(items, i, hash, start);
        ItemErrorsStep(items, i, po, done, slot);
      }
      assert errs[..] == errs[..|items|] && items == items[..|items|];
      combined := CombineErrors(errs[..]);
    }

    /** The body of the loop of updateNodeClaimHash for one listed claim:
        bump a stale claim's hash-version (and its hash unless it has a
        Drifted condition), patch it if it changed, and give back what goes
        in its error slot. */
    method RehashAndPatch(nc: NodeClaim, hash: string) returns (slot: Option<ApiError>)
      modifies kubeClient
      ensures kubeClient.calls == old(kubeClient.calls) + ClaimCalls(nc, hash)
      ensures slot == ItemError(nc, kubeClient.patchOutcome)
    {
      slot := None;
      var claim := nc;
      var stored := claim;
      if Lookup(claim.annotations, NodePoolHashVersionAnnotationKey) != NodePoolHashVersion {
        claim := claim.(annotations := claim.annotations + map[NodePoolHashVersionAnnotationKey := NodePoolHashVersion]);
        if ConditionTypeDrifted !in claim.conditions {
          claim := claim.(annotations := claim.annotations + map[NodePoolHashAnnotationKey := hash]);
        }
        assert claim == RehashClaim(stored, hash);
        if stored != claim {
          var o := kubeClient.Patch(ClaimObject(claim));
          if o.Err? {
            slot := if o.error == NotFound then None else Some(o.error);
          }
        }
      }
    }

  }
}
