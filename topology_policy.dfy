/** The mapping from a kubelet topology manager policy and scope to the node resource
    topology policy (pkg/utils/topology_policy.go). */
module TopologyPolicy {

  /** nodev1alpha1.TopologyPolicy */
  datatype Policy =
    | None
    | SingleNUMANodeContainerLevel
    | SingleNUMANodePodLevel
    | RestrictedContainerLevel
    | RestrictedPodLevel
    | BestEffortContainerLevel
    | BestEffortPodLevel
    | NumericContainerLevel
    | NumericPodLevel
  {
    /** The string value of the policy. */
    function Value(): string {
      match this
      case None => "None"
      case SingleNUMANodeContainerLevel => "SingleNUMANodeContainerLevel"
      case SingleNUMANodePodLevel => "SingleNUMANodePodLevel"
      case RestrictedContainerLevel => "RestrictedContainerLevel"
      case RestrictedPodLevel => "RestrictedPodLevel"
      case BestEffortContainerLevel => "BestEffortContainerLevel"
      case BestEffortPodLevel => "BestEffortPodLevel"
      case NumericContainerLevel => "NumericContainerLevel"
      case NumericPodLevel => "NumericPodLevel"
    }

    predicate IsSingleNUMANode() {
      this == SingleNUMANodeContainerLevel || this == SingleNUMANodePodLevel
    }
  }

  /** Kubelet topology manager policy names. */
  const RestrictedTopologyManagerPolicy: string := "restricted"
  const BestEffortTopologyManagerPolicy: string := "best-effort"
  const NoneTopologyManagerPolicy: string := "none"
  const NumericTopologyManagerPolicy: string := "numeric"

  /** GenerateTopologyPolicy: the scope switch has only its default case. */
  function GenerateTopologyPolicy(policy: string, scope: string): (r: Policy)
    ensures r == None
  {
    match scope
    case _ => None
  }

  /** generateTopologyPolicyPodScope */
  function PodScopePolicy(policy: string): (r: Policy)
    ensures policy == RestrictedTopologyManagerPolicy ==> r == RestrictedPodLevel
    ensures policy == BestEffortTopologyManagerPolicy ==> r == BestEffortPodLevel
    ensures policy == NumericTopologyManagerPolicy ==> r == NumericPodLevel
    ensures policy !in {RestrictedTopologyManagerPolicy, BestEffortTopologyManagerPolicy, NumericTopologyManagerPolicy}
            ==> r == None
  {
    if policy == RestrictedTopologyManagerPolicy then RestrictedPodLevel
    else if policy == BestEffortTopologyManagerPolicy then BestEffortPodLevel
    else if policy == NoneTopologyManagerPolicy then None
    else if policy == NumericTopologyManagerPolicy then NumericPodLevel
    else None
  }

  /** generateTopologyPolicyContainerScope */
  function ContainerScopePolicy(policy: string): (r: Policy)
    ensures policy == RestrictedTopologyManagerPolicy ==> r == RestrictedContainerLevel
    ensures policy == BestEffortTopologyManagerPolicy ==> r == BestEffortContainerLevel
    ensures policy == NumericTopologyManagerPolicy ==> r == NumericContainerLevel
    ensures policy !in {RestrictedTopologyManagerPolicy, BestEffortTopologyManagerPolicy, NumericTopologyManagerPolicy}
            ==> r == None
  {
    if policy == RestrictedTopologyManagerPolicy then RestrictedContainerLevel
    else if policy == BestEffortTopologyManagerPolicy then BestEffortContainerLevel
    else if policy == NoneTopologyManagerPolicy then None
    else if policy == NumericTopologyManagerPolicy then NumericContainerLevel
    else None
  }

  /** Neither scope helper ever yields a single-NUMA-node policy, their non-None
      results never coincide, and each is one-to-one on the policies it does not map
      to None. */
  lemma ScopeHelpersDisjoint(p: string, q: string)
    ensures !PodScopePolicy(p).IsSingleNUMANode() && !ContainerScopePolicy(p).IsSingleNUMANode()
    ensures PodScopePolicy(p) != None ==> PodScopePolicy(p) != ContainerScopePolicy(q)
    ensures PodScopePolicy(p) != None && PodScopePolicy(p) == PodScopePolicy(q) ==> p == q
    ensures ContainerScopePolicy(p) != None && ContainerScopePolicy(p) == ContainerScopePolicy(q) ==> p == q
  {
  }

  /** Distinct policies have distinct string values. */
  lemma ValuesDistinct(a: Policy, b: Policy)
    ensures a.Value() == b.Value() ==> a == b
  {
  }

  /** The two helpers agree on which policies they map to None. */
  lemma ScopeHelpersSameDomain(p: string)
    ensures PodScopePolicy(p) == None <==> ContainerScopePolicy(p) == None
  {
  }
}
