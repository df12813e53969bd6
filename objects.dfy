/** The Kubernetes objects the two reconcilers read and write, as plain values.
    Go hands them around by reference, snapshots them with DeepCopy and compares
    them with semantic DeepEqual; value semantics gives exactly that
    snapshot-and-diff behaviour. */
module Objects {

  datatype Option<+T> = None | Some(value: T)

  // Well-known keys of the karpenter API.
  const NodePoolLabelKey := "karpenter.sh/nodepool"
  const NodePoolHashAnnotationKey := "karpenter.sh/nodepool-hash"
  const NodePoolHashVersionAnnotationKey := "karpenter.sh/nodepool-hash-version"
  /** The generation of the hashing scheme this controller computes. */
  const NodePoolHashVersion := "v3"
  const NodeRegisteredLabelKey := "karpenter.sh/registered"
  const TerminationFinalizer := "karpenter.sh/termination"
  const LabelInstanceTypeStable := "node.kubernetes.io/instance-type"

  const ConditionTypeLaunched := "Launched"
  const ConditionTypeRegistered := "Registered"
  const ConditionTypeDrifted := "Drifted"

  type StringMap = map<string, string>

  /** Go's `m[k]`: a missing key reads as the empty string. */
  function Lookup(m: StringMap, k: string): string {
    if k in m then m[k] else ""
  }

  /** A status condition; a type that is absent from the map is `nil` in Go. */
  datatype ConditionStatus = True | False | Unknown
  datatype Condition = Condition(status: ConditionStatus, reason: string, message: string)
  type Conditions = map<string, Condition>

  /** `Get(t).IsTrue()`: false for an absent condition. */
  predicate IsTrue(conditions: Conditions, t: string) {
    t in conditions && conditions[t].status == True
  }

  function SetFalse(conditions: Conditions, t: string, reason: string, message: string): Conditions {
    conditions[t := Condition(False, reason, message)]
  }

  function SetTrue(conditions: Conditions, t: string): Conditions {
    conditions[t := Condition(True, "", "")]
  }

  datatype Taint = Taint(key: string, value: string, effect: string)

  datatype OwnerReference = OwnerReference(kind: string, name: string)

  /** Resource name to quantity. */
  type ResourceList = map<string, int>

  /** The drift-relevant part of a NodePool; only its digest is used here. */
  datatype NodePoolSpec = NodePoolSpec(template: StringMap)

  datatype NodePool = NodePool(name: string, annotations: StringMap, spec: NodePoolSpec)

  datatype NodeClaim = NodeClaim(
    name: string,
    labels: StringMap,
    annotations: StringMap,
    conditions: Conditions,
    taints: seq<Taint>,
    startupTaints: seq<Taint>,
    providerID: string,
    nodeName: string,
    allocatable: ResourceList)

  datatype Node = Node(
    name: string,
    providerID: string,
    labels: StringMap,
    annotations: StringMap,
    finalizers: seq<string>,
    ownerReferences: seq<OwnerReference>,
    taints: seq<Taint>,
    allocatable: ResourceList)
}
