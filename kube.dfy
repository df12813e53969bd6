/** The cluster API as the reconcilers see it. What the server answers is
    foreign behaviour, so each answer is an uninterpreted function fixed when
    the client is built; what the reconcilers ask is recorded, call by call. */
module Kube {
  import opened Objects

  datatype ApiError = NotFound | Failed(reason: string)

  datatype Outcome = Ok | Err(error: ApiError)

  datatype Kind = NodePoolKind | NodeClaimKind | NodeKind

  datatype ObjectRef = ObjectRef(kind: Kind, name: string)

  datatype Object = PoolObject(pool: NodePool) | ClaimObject(claim: NodeClaim) | NodeObject(node: Node)

  function RefOf(obj: Object): ObjectRef {
    match obj
    case PoolObject(p) => ObjectRef(NodePoolKind, p.name)
    case ClaimObject(c) => ObjectRef(NodeClaimKind, c.name)
    case NodeObject(n) => ObjectRef(NodeKind, n.name)
  }

  /** `client.IgnoreNotFound`: a NotFound answer is no error. */
  predicate IsHardFailure(o: Outcome) {
    o.Err? && o.error != NotFound
  }

  datatype ListResult = Listed(items: seq<NodeClaim>) | ListFailed(error: ApiError)

  /** The answers `NodeForNodeClaim` can give. */
  datatype NodeLookup = Found(node: Node) | NodeNotFound | DuplicateNodes | LookupFailed(reason: string)

  /** A request sent to the API server. */
  datatype Call =
    | ListNodeClaims(nodePool: string)
    | Patch(obj: Object)
    | GetNodeForProviderID(providerID: string)

  /** Regrouping a log of requests. A plain fact about sequences, called
      only to keep the method proofs cheap. */
  lemma ConcatAssoc<T>(a: seq<T>, b: seq<T>, c: seq<T>)
    ensures (a + b) + c == a + (b + c)
  {
  }

  class Client {
    /** Every request issued, oldest first. */
    var calls: seq<Call>
    /** Answer to a List of the NodeClaims labelled with a NodePool name. */
    const listNodeClaims: string -> ListResult
    /** Answer to a Patch of the object with that reference. */
    const patchOutcome: ObjectRef -> Outcome
    /** Answer to the lookup of the Node carrying a provider id. */
    const nodeForProviderID: string -> NodeLookup

    constructor (listNodeClaims: string -> ListResult, patchOutcome: ObjectRef -> Outcome,
                 nodeForProviderID: string -> NodeLookup)
      ensures calls == []
      ensures this.listNodeClaims == listNodeClaims
      ensures this.patchOutcome == patchOutcome
      ensures this.nodeForProviderID == nodeForProviderID
    {
      calls := [];
      this.listNodeClaims := listNodeClaims;
      this.patchOutcome := patchOutcome;
      this.nodeForProviderID := nodeForProviderID;
    }

    method List(nodePool: string) returns (r: ListResult)
      modifies this
      ensures calls == old(calls) + [ListNodeClaims(nodePool)]
      ensures r == listNodeClaims(nodePool)
    {
      calls := calls + [ListNodeClaims(nodePool)];
      r := listNodeClaims(nodePool);
    }

    method Patch(obj: Object) returns (o: Outcome)
      modifies this
      ensures calls == old(calls) + [Call.Patch(obj)]
      ensures o == patchOutcome(RefOf(obj))
    {
      calls := calls + [Call.Patch(obj)];
      o := patchOutcome(RefOf(obj));
    }

    /** `nodeclaimutil.NodeForNodeClaim`: the Node whose provider id is the claim's. */
    method NodeForNodeClaim(claim: NodeClaim) returns (r: NodeLookup)
      modifies this
      ensures calls == old(calls) + [GetNodeForProviderID(claim.providerID)]
      ensures r == nodeForProviderID(claim.providerID)
    {
      calls := calls + [GetNodeForProviderID(claim.providerID)];
      r := nodeForProviderID(claim.providerID);
    }
  }
}
