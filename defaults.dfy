/** The in-place defaulting of the scheduler plugin arguments
    (pkg/apis/scheduling/config/v1beta3/defaults.go). */
module Defaults {

  import opened Wrappers
  import opened Validation

  /** defaultResourceSpec: cpu and memory, weight 1. */
  const DefaultResourceSpec: seq<ResourceSpec> := [ResourceSpec("cpu", 1), ResourceSpec("memory", 1)]

  /** defaultReclaimedResourceSpec: the reclaimed milli-CPU and memory resources, weight 1. */
  const DefaultReclaimedResourceSpec: seq<ResourceSpec> := [
    ResourceSpec("resource.katalyst.kubewharf.io/reclaimed_millicpu", 1),
    ResourceSpec("resource.katalyst.kubewharf.io/reclaimed_memory", 1)
  ]

  /** A weight that is unset or explicitly 0 becomes 1. */
  function DefaultWeight(r: ResourceSpec): (d: ResourceSpec)
    ensures d.name == r.name
    ensures d.weight != 0
    ensures r.weight != 0 ==> d == r
    ensures r.weight == 0 ==> d.weight == 1
  {
    if r.weight == 0 then r.(weight := 1) else r
  }

  /** The list after the weight loop. */
  function DefaultedWeights(rs: seq<ResourceSpec>): seq<ResourceSpec> {
    if rs == [] then []
    else DefaultedWeights(rs[..|rs| - 1]) + [DefaultWeight(rs[|rs| - 1])]
  }

  /** The list after defaulting: an empty list becomes the default list, then every
      zero weight becomes 1. */
  function DefaultedList(rs: seq<ResourceSpec>, default: seq<ResourceSpec>): seq<ResourceSpec> {
    DefaultedWeights(if |rs| == 0 then default else rs)
  }

  /** The weight loop keeps the length, the order and the names, and replaces each
      entry by its defaulted weight. */
  lemma {:induction false} DefaultedWeightsAt(rs: seq<ResourceSpec>)
    ensures |DefaultedWeights(rs)| == |rs|
    ensures forall i :: 0 <= i < |rs| ==> DefaultedWeights(rs)[i] == DefaultWeight(rs[i])
    decreases |rs|
  {
    if rs != [] {
      DefaultedWeightsAt(rs[..|rs| - 1]);
    }
  }

  /** Defaulting the weights twice is defaulting them once. */
  lemma DefaultedWeightsIdempotent(rs: seq<ResourceSpec>)
    ensures DefaultedWeights(DefaultedWeights(rs)) == DefaultedWeights(rs)
  {
    var d := DefaultedWeights(rs);
    DefaultedWeightsAt(rs);
    DefaultedWeightsAt(d);
  }

  /** One step of the weight loop: updating index i of a list whose prefix is already
      defaulted extends the defaulted prefix by one. */
  lemma DefaultedWeightsStep(rs: seq<ResourceSpec>, cur: seq<ResourceSpec>, i: nat)
    requires i < |rs| && cur == DefaultedWeights(rs[..i]) + rs[i..]
    ensures |cur| == |rs| && cur[i] == rs[i]
    ensures cur[i := DefaultWeight(cur[i])] == DefaultedWeights(rs[..i + 1]) + rs[i + 1..]
  {
    DefaultedWeightsAt(rs[..i]);
    assert rs[..i + 1][..i] == rs[..i];
    assert cur[i] == rs[i];
  }

  /** The index loop `for i := range list { if list[i].Weight == 0 { list[i].Weight = 1 } }`,
      on the caller's list. */
  method SetDefaultWeights(rs: seq<ResourceSpec>) returns (out: seq<ResourceSpec>)
    ensures out == DefaultedWeights(rs)
  {
    out := rs;
    for i := 0 to |rs|
      invariant |out| == |rs|
      invariant out == DefaultedWeights(rs[..i]) + rs[i..]
    {
      DefaultedWeightsStep(rs, out, i);
      if out[i].weight == 0 {
        out := out[i := out[i].(weight := 1)];
      } else {
        assert out[i := out[i]] == out;
      }
    }
    assert rs[..|rs|] == rs;
  }

  // ---- SetDefaults_QoSAwareNodeResourcesFitArgs --------------------------------

  /** A scoring strategy object the defaulting updates in place. */
  class ScoringStrategyObject {
    var strategyType: string
    var resources: seq<ResourceSpec>
    var reclaimedResources: seq<ResourceSpec>
    var requestedToCapacityRatio: Option<RequestedToCapacityRatioParam>
    var reclaimedRequestedToCapacityRatio: Option<RequestedToCapacityRatioParam>

    function Value(): ScoringStrategy
      reads this
    {
      ScoringStrategy(strategyType, resources, reclaimedResources,
                      requestedToCapacityRatio, reclaimedRequestedToCapacityRatio)
    }

    constructor (s: ScoringStrategy)
      ensures Value() == s
    {
      strategyType := s.strategyType;
      resources := s.resources;
      reclaimedResources := s.reclaimedResources;
      requestedToCapacityRatio := s.requestedToCapacityRatio;
      reclaimedRequestedToCapacityRatio := s.reclaimedRequestedToCapacityRatio;
    }
  }

  /** The strategy a nil ScoringStrategy is replaced by: LeastAllocated over the two
      default lists. */
  const NilStrategyDefault: ScoringStrategy :=
    ScoringStrategy(LeastAllocated, DefaultResourceSpec, DefaultReclaimedResourceSpec, None, None)

  /** The strategy after SetDefaults_QoSAwareNodeResourcesFitArgs. */
  function DefaultedStrategy(s: Option<ScoringStrategy>): ScoringStrategy {
    var base := if s.None? then NilStrategyDefault else s.value;
    base.(resources := DefaultedList(base.resources, DefaultResourceSpec),
          reclaimedResources := DefaultedList(base.reclaimedResources, DefaultReclaimedResourceSpec))
  }

  class FitArgsObject {
    var scoringStrategy: ScoringStrategyObject?

    function Value(): FitArgs
      reads this, scoringStrategy
    {
      FitArgs(if scoringStrategy == null then None else Some(scoringStrategy.Value()))
    }

    constructor (strategy: ScoringStrategyObject?)
      ensures scoringStrategy == strategy
    {
      scoringStrategy := strategy;
    }

    /** SetDefaults_QoSAwareNodeResourcesFitArgs: allocates a default strategy when
        there is none, then defaults both lists of the strategy in place. */
    method SetDefaults()
      modifies this, scoringStrategy
      ensures old(scoringStrategy) != null ==> scoringStrategy == old(scoringStrategy)
      ensures old(scoringStrategy) == null ==> fresh(scoringStrategy)
      ensures Value() == FitArgs(Some(DefaultedStrategy(old(Value()).scoringStrategy)))
    {
      if scoringStrategy == null {
        scoringStrategy := new ScoringStrategyObject(
          ScoringStrategy(LeastAllocated, DefaultResourceSpec, DefaultReclaimedResourceSpec, None, None));
      }
      var s := scoringStrategy;
      if |s.resources| == 0 {
        s.resources := s.resources + DefaultResourceSpec;
      }
      if |s.reclaimedResources| == 0 {
        s.reclaimedResources := s.reclaimedResources + DefaultReclaimedResourceSpec;
      }
      s.resources := SetDefaultWeights(s.resources);
      s.reclaimedResources := SetDefaultWeights(s.reclaimedResources);
    }
  }

  // ---- SetDefaults_QoSAwareNodeResourcesBalancedAllocationArgs -----------------

  function DefaultedBalanced(args: BalancedAllocationArgs): BalancedAllocationArgs {
    BalancedAllocationArgs(DefaultedList(args.resources, DefaultResourceSpec),
                           DefaultedList(args.reclaimedResources, DefaultReclaimedResourceSpec))
  }

  class BalancedAllocationArgsObject {
    var resources: seq<ResourceSpec>
    var reclaimedResources: seq<ResourceSpec>

    function Value(): BalancedAllocationArgs
      reads this
    {
      BalancedAllocationArgs(resources, reclaimedResources)
    }

    constructor (args: BalancedAllocationArgs)
      ensures Value() == args
    {
      resources := args.resources;
      reclaimedResources := args.reclaimedResources;
    }

    /** SetDefaults_QoSAwareNodeResourcesBalancedAllocationArgs */
    method SetDefaults()
      modifies this
      ensures Value() == DefaultedBalanced(old(Value()))
    {
      if |resources| == 0 {
        resources := resources + DefaultResourceSpec;
      }
      if |reclaimedResources| == 0 {
        reclaimedResources := reclaimedResources + DefaultReclaimedResourceSpec;
      }
      resources := SetDefaultWeights(resources);
      reclaimedResources := SetDefaultWeights(reclaimedResources);
    }
  }

  // ---- Properties of the defaulted arguments ---------------------------------

  /** A nil strategy becomes LeastAllocated with both default lists, every weight 1. */
  lemma NilStrategyDefaults()
    ensures DefaultedStrategy(None) == NilStrategyDefault
  {
    DefaultedWeightsAt(DefaultResourceSpec);
    DefaultedWeightsAt(DefaultReclaimedResourceSpec);
  }

  /** An empty list is replaced by its default list; a non-empty list keeps its length,
      order and names, and only zero weights change (to 1). Either way no weight is 0
      afterwards. */
  lemma DefaultedListShape(rs: seq<ResourceSpec>, default: seq<ResourceSpec>)
    requires forall i :: 0 <= i < |default| ==> default[i].weight != 0
    ensures |rs| == 0 ==> DefaultedList(rs, default) == default
    ensures |rs| > 0 ==>
      && |DefaultedList(rs, default)| == |rs|
      && forall i :: 0 <= i < |rs| ==>
           DefaultedList(rs, default)[i].name == rs[i].name
           && DefaultedList(rs, default)[i].weight == (if rs[i].weight == 0 then 1 else rs[i].weight)
    ensures forall i :: 0 <= i < |DefaultedList(rs, default)| ==> DefaultedList(rs, default)[i].weight != 0
  {
    DefaultedWeightsAt(rs);
    DefaultedWeightsAt(default);
    if |rs| == 0 {
      assert DefaultedWeights(default) == default;
    }
  }

  /** Defaulting the fit arguments twice gives the same strategy as defaulting once. */
  lemma FitDefaultsIdempotent(s: Option<ScoringStrategy>)
    ensures DefaultedStrategy(Some(DefaultedStrategy(s))) == DefaultedStrategy(s)
  {
    var base := if s.None? then NilStrategyDefault else s.value;
    DefaultedListNonEmptyIdempotent(base.resources, DefaultResourceSpec);
    DefaultedListNonEmptyIdempotent(base.reclaimedResources, DefaultReclaimedResourceSpec);
  }

  /** Defaulting the balanced-allocation arguments twice is defaulting them once. */
  lemma BalancedDefaultsIdempotent(args: BalancedAllocationArgs)
    ensures DefaultedBalanced(DefaultedBalanced(args)) == DefaultedBalanced(args)
  {
    DefaultedListNonEmptyIdempotent(args.resources, DefaultResourceSpec);
    DefaultedListNonEmptyIdempotent(args.reclaimedResources, DefaultReclaimedResourceSpec);
  }

  lemma DefaultedListNonEmptyIdempotent(rs: seq<ResourceSpec>, default: seq<ResourceSpec>)
    requires |default| > 0
    ensures DefaultedList(DefaultedList(rs, default), default) == DefaultedList(rs, default)
  {
    var base := if |rs| == 0 then default else rs;
    DefaultedWeightsAt(base);
    DefaultedWeightsIdempotent(base);
  }

  /** The default lists pass the balanced-allocation validator: distinct names, all
      weights 1. */
  lemma DefaultBalancedArgsValidate(p: seq<PathElem>)
    ensures ToAggregate(BalancedErrors(DefaultedBalanced(BalancedAllocationArgs([], [])), p)).None?
  {
    DefaultedWeightsAt(DefaultResourceSpec);
    DefaultedWeightsAt(DefaultReclaimedResourceSpec);
    assert DefaultedWeights(DefaultResourceSpec) == DefaultResourceSpec;
    assert DefaultedWeights(DefaultReclaimedResourceSpec) == DefaultReclaimedResourceSpec;
    assert !SeenBefore(DefaultResourceSpec, 1) by {
      assert DefaultResourceSpec[0].name != DefaultResourceSpec[1].name;
    }
    assert !SeenBefore(DefaultReclaimedResourceSpec, 1) by {
      assert DefaultReclaimedResourceSpec[0].name != DefaultReclaimedResourceSpec[1].name;
    }
    BalancedValidIff(DefaultedBalanced(BalancedAllocationArgs([], [])), p);
  }
}
