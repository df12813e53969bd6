/** NodeClaim registration (pkg/controllers/nodeclaim/lifecycle/registration.go).
    Reconcile moves a launched NodeClaim to Registered once its Node is found
    and adopted; syncNode adopts the Node (finalizer, owner references,
    labels, annotations, taints), records the Node's observed allocatable in
    the shared cache and on the claim, and patches the Node only if it changed. */
module Lifecycle {
  import opened Objects
  import opened Kube
  import opened SharedCache

  /** Reasons and messages of the Registered=False condition. */
  const ReasonNotLaunched := "NotLaunched"
  const MessageNotLaunched := "Node not launched"
  const ReasonNodeNotFound := "NodeNotFound"
  const MessageNodeNotFound := "Node not registered with cluster"
  const ReasonMultipleNodesFound := "MultipleNodesFound"
  const MessageMultipleNodesFound := "Invariant violated, matched multiple nodes"

  /** Every taint of `base` is still in `merged`. */
  ghost predicate Retains(base: seq<Taint>, merged: seq<Taint>) {
    forall t | t in base :: t in merged
  }

  /** Every taint of `additions` has a taint with its key and effect in `merged`. */
  ghost predicate Covers(additions: seq<Taint>, merged: seq<Taint>) {
    forall t | t in additions :: exists u | u in merged :: u.key == t.key && u.effect == t.effect
  }

  /** The shape of `scheduling.Taints.Merge` and of `UpdateNodeOwnerReferences`. */
  type MergeFn = (seq<Taint>, seq<Taint>) -> seq<Taint>
  type OwnerReferencesFn = (NodeClaim, seq<OwnerReference>) -> seq<OwnerReference>

  ghost predicate IsTaintMerge(merge: MergeFn) {
    forall base, additions :: Retains(base, merge(base, additions)) && Covers(additions, merge(base, additions))
  }

  /** `scheduling.Taints.Merge`, whose body is not part of this model: all
      that is known of it is that it keeps the node's taints and brings in
      every added taint, matched by key and effect. */
  type TaintMerge = merge: MergeFn | IsTaintMerge(merge)
    witness AppendTaints

  /** The simplest merge there is, showing that TaintMerge is inhabited. */
  function AppendTaints(base: seq<Taint>, additions: seq<Taint>): (r: seq<Taint>)
    ensures Retains(base, r) && Covers(additions, r)
  {
    assert forall t | t in additions :: t in base + additions;
    base + additions
  }

  /** The cache key of a pool's instance type. */
  function AllocatableCacheKey(nodePool: string, instanceType: string): string {
    "allocatableCache;" + nodePool + ";" + instanceType
  }

  /** `controllerutil.AddFinalizer`: append unless already present. */
  function AddFinalizer(finalizers: seq<string>, finalizer: string): (r: seq<string>)
    ensures finalizer in r
    ensures forall f | f in finalizers :: f in r
    ensures forall f | f in r :: f in finalizers || f == finalizer
    ensures finalizer in finalizers ==> r == finalizers
  {
    if finalizer in finalizers then finalizers else finalizers + [finalizer]
  }

  /** The Node after syncNode has mutated it. The claim handed to the
      owner-reference helper already carries the Node's allocatable. */
  function SyncedNode(claim: NodeClaim, node: Node,
                      ownerReferencesFor: OwnerReferencesFn,
                      merge: MergeFn): Node
  {
    var claim' := claim.(allocatable := node.allocatable);
    var n1 := node.(finalizers := AddFinalizer(node.finalizers, TerminationFinalizer));
    var n2 := n1.(ownerReferences := ownerReferencesFor(claim', n1.ownerReferences));
    var n3 := n2.(labels := n2.labels + claim'.labels);
    var n4 := n3.(annotations := n3.annotations + claim'.annotations);
    var n5 := n4.(taints := merge(n4.taints, claim'.taints));
    var n6 := n5.(taints := merge(n5.taints, claim'.startupTaints));
    n6.(labels := n6.labels + claim'.labels + map[NodeRegisteredLabelKey := "true"])
  }

  datatype SyncResult = SyncResult(claim: NodeClaim, node: Node, calls: seq<Call>, cache: CacheItems, err: Option<ApiError>)

  /** syncNode: the cache write, the claim's new allocatable, the synced Node
      and the patch issued only when the Node differs from its snapshot. Any
      patch error, NotFound included, is returned. */
  function SyncNodeSpec(claim: NodeClaim, node: Node, cache: CacheItems, patchOutcome: ObjectRef -> Outcome,
                        ownerReferencesFor: OwnerReferencesFn,
                        merge: MergeFn): SyncResult
  {
    var key := AllocatableCacheKey(Lookup(claim.labels, NodePoolLabelKey), Lookup(claim.labels, LabelInstanceTypeStable));
    var cache' := cache[key := CacheEntry(node.allocatable, DefaultSharedCacheTTL)];
    var claim' := claim.(allocatable := node.allocatable);
    var synced := SyncedNode(claim, node, ownerReferencesFor, merge);
    if synced == node then
      SyncResult(claim', synced, [], cache', None)
    else
      var o := patchOutcome(RefOf(NodeObject(synced)));
      SyncResult(claim', synced, [Patch(NodeObject(synced))], cache', if o.Err? then Some(o.error) else None)
  }

  datatype RegistrationError = GettingNode(reason: string) | SyncingNode(error: ApiError)

  datatype ClaimReconcile = ClaimReconcile(claim: NodeClaim, calls: seq<Call>, cache: CacheItems, err: Option<RegistrationError>)

  /** Registration.Reconcile on `claim`, given the cache before the call and
      the API server's answers. */
  function ReconcileSpec(claim: NodeClaim, cache: CacheItems, nodeForProviderID: string -> NodeLookup,
                         patchOutcome: ObjectRef -> Outcome,
                         ownerReferencesFor: OwnerReferencesFn,
                         merge: MergeFn): ClaimReconcile
  {
    if IsTrue(claim.conditions, ConditionTypeRegistered) then
      ClaimReconcile(claim, [], cache, None)
    else if !IsTrue(claim.conditions, ConditionTypeLaunched) then
      ClaimReconcile(claim.(conditions := SetFalse(claim.conditions, ConditionTypeRegistered, ReasonNotLaunched, MessageNotLaunched)),
                     [], cache, None)
    else
      var lookup := [GetNodeForProviderID(claim.providerID)];
      match nodeForProviderID(claim.providerID)
      case NodeNotFound =>
        ClaimReconcile(claim.(conditions := SetFalse(claim.conditions, ConditionTypeRegistered, ReasonNodeNotFound,
                                                     MessageNodeNotFound)),
                       lookup, cache, None)
      case DuplicateNodes =>
        ClaimReconcile(claim.(conditions := SetFalse(claim.conditions, ConditionTypeRegistered, ReasonMultipleNodesFound,
                                                     MessageMultipleNodesFound)),
                       lookup, cache, None)
      case LookupFailed(reason) =>
        ClaimReconcile(claim, lookup, cache, Some(GettingNode(reason)))
      case Found(node) =>
        var s := SyncNodeSpec(claim, node, cache, patchOutcome, ownerReferencesFor, merge);
        if s.err.Some? then
          ClaimReconcile(s.claim, lookup + s.calls, s.cache, Some(SyncingNode(s.err.value)))
        else
          ClaimReconcile(s.claim.(conditions := SetTrue(s.claim.conditions, ConditionTypeRegistered), nodeName := node.name),
                         lookup + s.calls, s.cache, None)
  }

  /** A claim already Registered is left alone: no request, no cache write. */
  lemma RegisteredIsTerminal(claim: NodeClaim, cache: CacheItems, nodeForProviderID: string -> NodeLookup,
                             patchOutcome: ObjectRef -> Outcome,
                             ownerReferencesFor: OwnerReferencesFn,
                             merge: MergeFn)
    requires IsTrue(claim.conditions, ConditionTypeRegistered)
    ensures ReconcileSpec(claim, cache, nodeForProviderID, patchOutcome, ownerReferencesFor, merge)
            == ClaimReconcile(claim, [], cache, None)
  {
  }

  /** A claim that is not Launched (the condition False, Unknown or absent)
      gets Registered=False/NotLaunched without any Node lookup or error. */
  lemma NotLaunchedIsNotRegistered(claim: NodeClaim, cache: CacheItems, nodeForProviderID: string -> NodeLookup,
                                   patchOutcome: ObjectRef -> Outcome,
                                   ownerReferencesFor: OwnerReferencesFn,
                                   merge: MergeFn)
    requires !IsTrue(claim.conditions, ConditionTypeRegistered)
    requires !IsTrue(claim.conditions, ConditionTypeLaunched)
    ensures var r := ReconcileSpec(claim, cache, nodeForProviderID, patchOutcome, ownerReferencesFor, merge);
      && ConditionTypeRegistered in r.claim.conditions
      && r.claim.conditions[ConditionTypeRegistered] == Condition(False, ReasonNotLaunched, MessageNotLaunched)
      && r.calls == [] && r.cache == cache && r.err.None?
      && (forall t | t in claim.conditions && t != ConditionTypeRegistered ::
            t in r.claim.conditions && r.claim.conditions[t] == claim.conditions[t])
      && r.claim.(conditions := claim.conditions) == claim
  {
  }

  /** The two expected lookup misses become Registered=False with their
      reasons and no error; any other lookup failure is returned and leaves
      the claim as it was. */
  lemma LookupMissOutcomes(claim: NodeClaim, cache: CacheItems, nodeForProviderID: string -> NodeLookup,
                           patchOutcome: ObjectRef -> Outcome,
                           ownerReferencesFor: OwnerReferencesFn,
                           merge: MergeFn)
    requires !IsTrue(claim.conditions, ConditionTypeRegistered)
    requires IsTrue(claim.conditions, ConditionTypeLaunched)
    ensures var r := ReconcileSpec(claim, cache, nodeForProviderID, patchOutcome, ownerReferencesFor, merge);
      var lookup := nodeForProviderID(claim.providerID);
      && (lookup.NodeNotFound? ==>
            r.err.None? && r.cache == cache && r.calls == [GetNodeForProviderID(claim.providerID)] &&
            ConditionTypeRegistered in r.claim.conditions &&
            r.claim.conditions[ConditionTypeRegistered] == Condition(False, ReasonNodeNotFound, MessageNodeNotFound) &&
            (forall t | t in claim.conditions && t != ConditionTypeRegistered ::
               t in r.claim.conditions && r.claim.conditions[t] == claim.conditions[t]) &&
            r.claim.(conditions := claim.conditions) == claim)
      && (lookup.DuplicateNodes? ==>
            r.err.None? && r.cache == cache && r.calls == [GetNodeForProviderID(claim.providerID)] &&
            ConditionTypeRegistered in r.claim.conditions &&
            r.claim.conditions[ConditionTypeRegistered] == Condition(False, ReasonMultipleNodesFound, MessageMultipleNodesFound) &&
            (forall t | t in claim.conditions && t != ConditionTypeRegistered ::
               t in r.claim.conditions && r.claim.conditions[t] == claim.conditions[t]) &&
            r.claim.(conditions := claim.conditions) == claim)
      && (lookup.LookupFailed? ==>
            r == ClaimReconcile(claim, [GetNodeForProviderID(claim.providerID)], cache, Some(GettingNode(lookup.reason))))
  {
  }

  /** Registered becomes True only for a Launched claim whose Node was found
      and synced without error, and then the claim names that Node. */
  lemma RegisteredOnlyAfterSync(claim: NodeClaim, cache: CacheItems, nodeForProviderID: string -> NodeLookup,
                                patchOutcome: ObjectRef -> Outcome,
                                ownerReferencesFor: OwnerReferencesFn,
                                merge: MergeFn)
    requires !IsTrue(claim.conditions, ConditionTypeRegistered)
    ensures var r := ReconcileSpec(claim, cache, nodeForProviderID, patchOutcome, ownerReferencesFor, merge);
      var lookup := nodeForProviderID(claim.providerID);
      IsTrue(r.claim.conditions, ConditionTypeRegistered) <==>
        && IsTrue(claim.conditions, ConditionTypeLaunched)
        && lookup.Found?
        && SyncNodeSpec(claim, lookup.node, cache, patchOutcome, ownerReferencesFor, merge).err.None?
    ensures var r := ReconcileSpec(claim, cache, nodeForProviderID, patchOutcome, ownerReferencesFor, merge);
      IsTrue(r.claim.conditions, ConditionTypeRegistered) ==>
        var node := nodeForProviderID(claim.providerID).node;
        && r.err.None? && r.claim.nodeName == node.name
        && r.claim == claim.(allocatable := node.allocatable,
                             conditions := SetTrue(claim.conditions, ConditionTypeRegistered),
                             nodeName := node.name)
  {
    var r := ReconcileSpec(claim, cache, nodeForProviderID, patchOutcome, ownerReferencesFor, merge);
    if !IsTrue(claim.conditions, ConditionTypeLaunched) {
      assert r.claim.conditions[ConditionTypeRegistered].status == False;
    } else {
      match nodeForProviderID(claim.providerID)
      case NodeNotFound =>
        assert r.claim.conditions[ConditionTypeRegistered].status == False;
      case DuplicateNodes =>
        assert r.claim.conditions[ConditionTypeRegistered].status == False;
      case LookupFailed(_) =>
        assert r.claim == claim;
      case Found(node) =>
        var s := SyncNodeSpec(claim, node, cache, patchOutcome, ownerReferencesFor, merge);
        SyncKeepsConditions(claim, node, cache, patchOutcome, ownerReferencesFor, merge);
        if s.err.None? {
          assert r.claim.conditions == SetTrue(claim.conditions, ConditionTypeRegistered);
        } else {
          assert r.claim.conditions == claim.conditions;
        }
    }
  }

  /** Reconcile keeps the invariant "Registered is True only if Launched is
      True": it never writes Launched and sets Registered only for a
      Launched claim. */
  lemma RegisteredImpliesLaunchedIsKept(claim: NodeClaim, cache: CacheItems, nodeForProviderID: string -> NodeLookup,
                                        patchOutcome: ObjectRef -> Outcome,
                                        ownerReferencesFor: OwnerReferencesFn,
                                        merge: MergeFn)
    requires IsTrue(claim.conditions, ConditionTypeRegistered) ==> IsTrue(claim.conditions, ConditionTypeLaunched)
    ensures var r := ReconcileSpec(claim, cache, nodeForProviderID, patchOutcome, ownerReferencesFor, merge);
      IsTrue(r.claim.conditions, ConditionTypeRegistered) ==> IsTrue(r.claim.conditions, ConditionTypeLaunched)
  {
    var r := ReconcileSpec(claim, cache, nodeForProviderID, patchOutcome, ownerReferencesFor, merge);
    ReconcileWritesOnlyRegistered(claim, cache, nodeForProviderID, patchOutcome, ownerReferencesFor, merge);
    var before := claim.conditions - {ConditionTypeRegistered};
    var after := r.claim.conditions - {ConditionTypeRegistered};
    assert ConditionTypeLaunched != ConditionTypeRegistered;
    assert IsTrue(r.claim.conditions, ConditionTypeLaunched) == IsTrue(after, ConditionTypeLaunched);
    assert IsTrue(claim.conditions, ConditionTypeLaunched) == IsTrue(before, ConditionTypeLaunched);
    if !IsTrue(claim.conditions, ConditionTypeRegistered) {
      RegisteredOnlyAfterSync(claim, cache, nodeForProviderID, patchOutcome, ownerReferencesFor, merge);
    }
  }

  /** Reconcile writes no condition but Registered. */
  lemma ReconcileWritesOnlyRegistered(claim: NodeClaim, cache: CacheItems, nodeForProviderID: string -> NodeLookup,
                                      patchOutcome: ObjectRef -> Outcome,
                                      ownerReferencesFor: OwnerReferencesFn,
                                      merge: MergeFn)
    ensures var r := ReconcileSpec(claim, cache, nodeForProviderID, patchOutcome, ownerReferencesFor, merge);
      r.claim.conditions - {ConditionTypeRegistered} == claim.conditions - {ConditionTypeRegistered}
  {
    var r := ReconcileSpec(claim, cache, nodeForProviderID, patchOutcome, ownerReferencesFor, merge);
    var conds := claim.conditions;
    if IsTrue(conds, ConditionTypeRegistered) {
    } else if !IsTrue(conds, ConditionTypeLaunched) {
      OverwriteThenRemove(conds, ConditionTypeRegistered, Condition(False, ReasonNotLaunched, MessageNotLaunched));
    } else {
      match nodeForProviderID(claim.providerID)
      case NodeNotFound =>
        OverwriteThenRemove(conds, ConditionTypeRegistered, Condition(False, ReasonNodeNotFound, MessageNodeNotFound));
      case DuplicateNodes =>
        OverwriteThenRemove(conds, ConditionTypeRegistered,
                            Condition(False, ReasonMultipleNodesFound, MessageMultipleNodesFound));
      case LookupFailed(_) =>
      case Found(node) =>
        var s := SyncNodeSpec(claim, node, cache, patchOutcome, ownerReferencesFor, merge);
        SyncKeepsConditions(claim, node, cache, patchOutcome, ownerReferencesFor, merge);
        if s.err.None? {
          assert r.claim.conditions == SetTrue(conds, ConditionTypeRegistered);
          OverwriteThenRemove(conds, ConditionTypeRegistered, Condition(True, "", ""));
        } else {
          assert r.claim.conditions == conds;
        }
    }
  }

  /** A plain fact about maps, called only to keep the proof of
      ReconcileWritesOnlyRegistered cheap. */
  lemma OverwriteThenRemove(m: Conditions, k: string, v: Condition)
    ensures m[k := v] - {k} == m - {k}
  {
  }

  lemma SyncKeepsConditions(claim: NodeClaim, node: Node, cache: CacheItems, patchOutcome: ObjectRef -> Outcome,
                            ownerReferencesFor: OwnerReferencesFn,
                            merge: MergeFn)
    ensures SyncNodeSpec(claim, node, cache, patchOutcome, ownerReferencesFor, merge).claim.conditions == claim.conditions
  {
  }

  /** A failing Node patch is returned and the claim is not Registered and
      names no new Node, but the cache entry and the claim's allocatable have
      already been written; the lookup and the patch were the only requests. */
  lemma SyncFailureLeavesUnregistered(claim: NodeClaim, cache: CacheItems, nodeForProviderID: string -> NodeLookup,
                                      patchOutcome: ObjectRef -> Outcome,
                                      ownerReferencesFor: OwnerReferencesFn,
                                      merge: MergeFn)
    requires !IsTrue(claim.conditions, ConditionTypeRegistered)
    requires IsTrue(claim.conditions, ConditionTypeLaunched)
    requires nodeForProviderID(claim.providerID).Found?
    requires SyncNodeSpec(claim, nodeForProviderID(claim.providerID).node, cache, patchOutcome,
                          ownerReferencesFor, merge).err.Some?
    ensures var r := ReconcileSpec(claim, cache, nodeForProviderID, patchOutcome, ownerReferencesFor, merge);
      var node := nodeForProviderID(claim.providerID).node;
      && r.err.Some? && r.err.value.SyncingNode?
      && !IsTrue(r.claim.conditions, ConditionTypeRegistered)
      && r.claim.conditions == claim.conditions
      && r.claim.allocatable == node.allocatable
      && r.cache == cache[AllocatableCacheKey(Lookup(claim.labels, NodePoolLabelKey), Lookup(claim.labels, LabelInstanceTypeStable))
                            := CacheEntry(node.allocatable, DefaultSharedCacheTTL)]
      && r.claim == claim.(allocatable := node.allocatable)
      && r.calls == [GetNodeForProviderID(claim.providerID),
                     Patch(NodeObject(SyncedNode(claim, node, ownerReferencesFor, merge)))]
  {
  }

  /** What the synced Node contains: the termination finalizer, the
      registered label set to "true", every claim label (but the registered
      one) and every claim annotation with the claim's value, every Node-only
      label and annotation kept, its taints kept and the claim's taints and
      startup taints merged in; nothing else but owner references changes. */
  lemma SyncedNodeContents(claim: NodeClaim, node: Node,
                           ownerReferencesFor: OwnerReferencesFn,
                           merge: TaintMerge)
    ensures var n := SyncedNode(claim, node, ownerReferencesFor, merge);
      && TerminationFinalizer in n.finalizers
      && (forall f | f in node.finalizers :: f in n.finalizers)
      && NodeRegisteredLabelKey in n.labels && n.labels[NodeRegisteredLabelKey] == "true"
      && (forall k | k in claim.labels && k != NodeRegisteredLabelKey :: k in n.labels && n.labels[k] == claim.labels[k])
      && (forall k | k in node.labels && k !in claim.labels && k != NodeRegisteredLabelKey ::
            k in n.labels && n.labels[k] == node.labels[k])
      && n.labels.Keys == node.labels.Keys + claim.labels.Keys + {NodeRegisteredLabelKey}
      && (forall k | k in claim.annotations :: k in n.annotations && n.annotations[k] == claim.annotations[k])
      && (forall k | k in node.annotations && k !in claim.annotations :: k in n.annotations && n.annotations[k] == node.annotations[k])
      && n.annotations.Keys == node.annotations.Keys + claim.annotations.Keys
      && Retains(node.taints, n.taints)
      && Covers(claim.taints, n.taints)
      && Covers(claim.startupTaints, n.taints)
      && n.name == node.name && n.providerID == node.providerID && n.allocatable == node.allocatable
  {
    var n := SyncedNode(claim, node, ownerReferencesFor, merge);
    SyncedLabels(node.labels, claim.labels, n.labels);
    assert n.annotations == node.annotations + claim.annotations;
    SyncedTaints(node.taints, claim.taints, claim.startupTaints, merge);
  }

  /** The labels syncNode leaves on the Node, given that it writes the
      claim's labels twice and the registered label last. */
  lemma SyncedLabels(nodeLabels: StringMap, claimLabels: StringMap, labels: StringMap)
    requires labels == nodeLabels + claimLabels + claimLabels + map[NodeRegisteredLabelKey := "true"]
    ensures NodeRegisteredLabelKey in labels && labels[NodeRegisteredLabelKey] == "true"
    ensures forall k | k in claimLabels && k != NodeRegisteredLabelKey :: k in labels && labels[k] == claimLabels[k]
    ensures forall k | k in nodeLabels && k !in claimLabels && k != NodeRegisteredLabelKey ::
              k in labels && labels[k] == nodeLabels[k]
    ensures labels.Keys == nodeLabels.Keys + claimLabels.Keys + {NodeRegisteredLabelKey}
  {
  }

  /** Two merges, the claim's taints then its startup taints, keep the
      Node's taints and bring in both lists. */
  lemma SyncedTaints(nodeTaints: seq<Taint>, taints: seq<Taint>, startupTaints: seq<Taint>, merge: TaintMerge)
    ensures var merged := merge(merge(nodeTaints, taints), startupTaints);
      Retains(nodeTaints, merged) && Covers(taints, merged) && Covers(startupTaints, merged)
  {
    var t5 := merge(nodeTaints, taints);
    var t6 := merge(t5, startupTaints);
    assert Retains(nodeTaints, t5) && Covers(taints, t5);
    assert Retains(t5, t6) && Covers(startupTaints, t6);
    forall t | t in taints
      ensures exists u | u in t6 :: u.key == t.key && u.effect == t.effect
    {
      var u :| u in t5 && u.key == t.key && u.effect == t.effect;
      assert u in t6;
    }
  }

  /** syncNode writes the Node's observed allocatable under the claim's
      pool and instance-type key with a 24-hour TTL, leaves every other key
      alone, and gives the claim that same allocatable. */
  lemma SyncWritesAllocatable(claim: NodeClaim, node: Node, cache: CacheItems, patchOutcome: ObjectRef -> Outcome,
                              ownerReferencesFor: OwnerReferencesFn,
                              merge: MergeFn)
    ensures var s := SyncNodeSpec(claim, node, cache, patchOutcome, ownerReferencesFor, merge);
      var key := AllocatableCacheKey(Lookup(claim.labels, NodePoolLabelKey), Lookup(claim.labels, LabelInstanceTypeStable));
      && key in s.cache && s.cache[key].value == node.allocatable
      && s.cache[key].ttl == 24 * 60 * 60 * 1_000_000_000
      && (forall k | k in cache && k != key :: k in s.cache && s.cache[k] == cache[k])
      && s.cache.Keys == cache.Keys + {key}
      && s.claim.allocatable == node.allocatable
      && s.claim.(allocatable := claim.allocatable) == claim
  {
    var s := SyncNodeSpec(claim, node, cache, patchOutcome, ownerReferencesFor, merge);
    var key := AllocatableCacheKey(Lookup(claim.labels, NodePoolLabelKey), Lookup(claim.labels, LabelInstanceTypeStable));
    assert s.cache == cache[key := CacheEntry(node.allocatable, DefaultSharedCacheTTL)];
    assert s.claim == claim.(allocatable := node.allocatable);
  }

  /** The Node is patched exactly when the sync changed it, and then with the
      synced Node; the patch's error, NotFound included, is syncNode's error. */
  lemma SyncPatchesOnlyOnChange(claim: NodeClaim, node: Node, cache: CacheItems, patchOutcome: ObjectRef -> Outcome,
                                ownerReferencesFor: OwnerReferencesFn,
                                merge: MergeFn)
    ensures var s := SyncNodeSpec(claim, node, cache, patchOutcome, ownerReferencesFor, merge);
      && (s.calls == [] <==> SyncedNode(claim, node, ownerReferencesFor, merge) == node)
      && (s.calls != [] ==> s.calls == [Patch(NodeObject(SyncedNode(claim, node, ownerReferencesFor, merge)))])
      && (s.calls == [] ==> s.err.None?)
      && var o := patchOutcome(ObjectRef(NodeKind, node.name));
         s.err == (if SyncedNode(claim, node, ownerReferencesFor, merge) != node && o.Err? then Some(o.error) else None)
  {
  }

  /** A Node that already holds everything a sync would add is left as it
      is by the sync, whatever allocatable the claim records, provided the
      foreign helpers add nothing to it. The owner-reference helper receives
      the claim with the Node's allocatable, as in syncNode. */
  lemma SyncedNodeFixpoint(claim: NodeClaim, node: Node,
                           ownerReferencesFor: OwnerReferencesFn,
                           merge: MergeFn)
    requires TerminationFinalizer in node.finalizers
    requires ownerReferencesFor(claim.(allocatable := node.allocatable), node.ownerReferences) == node.ownerReferences
    requires NodeRegisteredLabelKey in node.labels && node.labels[NodeRegisteredLabelKey] == "true"
    requires forall k | k in claim.labels && k != NodeRegisteredLabelKey :: k in node.labels && node.labels[k] == claim.labels[k]
    requires forall k | k in claim.annotations :: k in node.annotations && node.annotations[k] == claim.annotations[k]
    requires merge(node.taints, claim.taints) == node.taints
    requires merge(node.taints, claim.startupTaints) == node.taints
    ensures SyncedNode(claim, node, ownerReferencesFor, merge) == node
  {
    assert AddFinalizer(node.finalizers, TerminationFinalizer) == node.finalizers;
    assert node.annotations + claim.annotations == node.annotations;
    var labels := node.labels + claim.labels + claim.labels + map[NodeRegisteredLabelKey := "true"];
    assert labels.Keys == node.labels.Keys;
    assert labels == node.labels;
  }

  /** Re-syncing a Node that a sync produced issues no patch, provided the
      foreign helpers leave an already-adopted Node as it is: the owner
      references are not extended again and merging the claim's taints into
      taints that already hold them adds nothing. This holds both for the
      claim the first sync returned and for the stored claim of a retry,
      whose allocatable may still be the old one (a lost status write). */
  lemma ResyncIsNoOp(claim: NodeClaim, node: Node, cache: CacheItems, cache': CacheItems,
                     patchOutcome: ObjectRef -> Outcome,
                     ownerReferencesFor: OwnerReferencesFn,
                     merge: TaintMerge)
    requires var s := SyncNodeSpec(claim, node, cache, patchOutcome, ownerReferencesFor, merge);
      && ownerReferencesFor(s.claim, s.node.ownerReferences) == s.node.ownerReferences
      && merge(s.node.taints, claim.taints) == s.node.taints
      && merge(s.node.taints, claim.startupTaints) == s.node.taints
    ensures var s := SyncNodeSpec(claim, node, cache, patchOutcome, ownerReferencesFor, merge);
      var again := SyncNodeSpec(s.claim, s.node, cache', patchOutcome, ownerReferencesFor, merge);
      again.calls == [] && again.node == s.node && again.claim == s.claim && again.err.None?
    ensures var s := SyncNodeSpec(claim, node, cache, patchOutcome, ownerReferencesFor, merge);
      var retry := SyncNodeSpec(claim, s.node, cache', patchOutcome, ownerReferencesFor, merge);
      retry.calls == [] && retry.node == s.node && retry.claim == s.claim && retry.err.None?
  {
    var s := SyncNodeSpec(claim, node, cache, patchOutcome, ownerReferencesFor, merge);
    SyncedNodeContents(claim, node, ownerReferencesFor, merge);
    assert s.node == SyncedNode(claim, node, ownerReferencesFor, merge);
    assert s.node.allocatable == node.allocatable;
    assert s.claim == claim.(allocatable := node.allocatable);
    SyncedNodeFixpoint(s.claim, s.node, ownerReferencesFor, merge);
    SyncedNodeFixpoint(claim, s.node, ownerReferencesFor, merge);
  }

  /** The registration controller. The foreign helpers it calls are fixed
      when it is built. */
  class Registration {
    const kubeClient: Client
    /** `nodeclaimutil.UpdateNodeOwnerReferences`, seen as a rewrite of the
        Node's owner references only. */
    const ownerReferencesFor: OwnerReferencesFn
    const mergeTaints: TaintMerge

    constructor (kubeClient: Client, ownerReferencesFor: OwnerReferencesFn,
                 mergeTaints: TaintMerge)
      ensures this.kubeClient == kubeClient
      ensures this.ownerReferencesFor == ownerReferencesFor && this.mergeTaints == mergeTaints
    {
      this.kubeClient := kubeClient;
      this.ownerReferencesFor := ownerReferencesFor;
      this.mergeTaints := mergeTaints;
    }

    /** `cache` is the process-wide shared cache, passed explicitly. */
    method Reconcile(nodeClaim: NodeClaim, cache: AllocatableCache) returns (claim: NodeClaim, err: Option<RegistrationError>)
      modifies kubeClient, cache
      ensures var r := ReconcileSpec(nodeClaim, old(cache.items), kubeClient.nodeForProviderID, kubeClient.patchOutcome,
                                     ownerReferencesFor, mergeTaints);
        && claim == r.claim && err == r.err
        && kubeClient.calls == old(kubeClient.calls) + r.calls
        && cache.items == r.cache
    {
      claim := nodeClaim;
      err := None;
      if IsTrue(claim.conditions, ConditionTypeRegistered) {
        return;
      }
      if !IsTrue(claim.conditions, ConditionTypeLaunched) {
        claim := claim.(conditions := SetFalse(claim.conditions, ConditionTypeRegistered, ReasonNotLaunched, MessageNotLaunched));
        return;
      }
      var lookup := kubeClient.NodeForNodeClaim(claim);
      match lookup {
        case NodeNotFound =>
          claim := claim.(conditions := SetFalse(claim.conditions, ConditionTypeRegistered, ReasonNodeNotFound,
                                                 MessageNodeNotFound));
        case DuplicateNodes =>
          claim := claim.(conditions := SetFalse(claim.conditions, ConditionTypeRegistered, ReasonMultipleNodesFound,
                                                 MessageMultipleNodesFound));
        case LookupFailed(reason) =>
          err := Some(GettingNode(reason));
        case Found(node) =>
          ConcatAssoc(old(kubeClient.calls), [GetNodeForProviderID(nodeClaim.providerID)],
                      SyncNodeSpec(claim, node, cache.items, kubeClient.patchOutcome, ownerReferencesFor, mergeTaints).calls);
          var syncErr;
          claim, syncErr := SyncNode(claim, node, cache);
          if syncErr.Some? {
            err := Some(SyncingNode(syncErr.value));
            return;
          }
          claim := claim.(conditions := SetTrue(claim.conditions, ConditionTypeRegistered));
          claim := claim.(nodeName := node.name);
      }
    }

    method SyncNode(nodeClaim: NodeClaim, node: Node, cache: AllocatableCache) returns (claim: NodeClaim, err: Option<ApiError>)
      modifies kubeClient, cache
      ensures var s := SyncNodeSpec(nodeClaim, node, old(cache.items), kubeClient.patchOutcome, ownerReferencesFor, mergeTaints);
        && claim == s.claim && err == s.err
        && kubeClient.calls == old(kubeClient.calls) + s.calls
        && cache.items == s.cache
    {
      var stored := node;
      var n := node;
      n := n.(finalizers := AddFinalizer(n.finalizers, TerminationFinalizer));

      var cacheMapKey := AllocatableCacheKey(Lookup(nodeClaim.labels, NodePoolLabelKey),
                                             Lookup(nodeClaim.labels, LabelInstanceTypeStable));
      cache.Set(cacheMapKey, stored.allocatable, DefaultSharedCacheTTL);
      claim := nodeClaim.(allocatable := stored.allocatable);

      n := n.(ownerReferences := ownerReferencesFor(claim, n.ownerReferences));
      n := n.(labels := n.labels + claim.labels);
      n := n.(annotations := n.annotations + claim.annotations);
      n := n.(taints := mergeTaints(n.taints, claim.taints));
      n := n.(taints := mergeTaints(n.taints, claim.startupTaints));
      n := n.(labels := n.labels + claim.labels + map[NodeRegisteredLabelKey := "true"]);
      err := None;
      if stored != n {
        var o := kubeClient.Patch(NodeObject(n));
        if o.Err? {
          err := Some(o.error);
        }
      }
    }
  }
}
