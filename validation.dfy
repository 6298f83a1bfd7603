/** The scheduler plugin-argument validators of
    pkg/apis/scheduling/config/validation/validation_pluginargs.go, with the field
    error list of the apimachinery validation package they build on. */
module Validation {

  import opened Wrappers

  /** kubeschedulerconfig.MaxCustomPriorityScore. */
  const MaxCustomPriorityScore: int := 10
  const MinUtilization: int := 0
  const MaxUtilization: int := 100
  const MinScore: int := 0

  /** consts.BalancedAllocation, consts.LeastNUMANodes and the two resource-plugin
      policy names of the katalyst constants (their values are not part of this model's
      sources; the proofs do not depend on them beyond being strings). */
  const BalancedAllocation: string := "BalancedAllocation"
  const LeastNUMANodes: string := "LeastNUMANodes"
  const ResourcePluginPolicyNameDynamic: string := "dynamic"
  const ResourcePluginPolicyNameNative: string := "native"

  datatype ResourceSpec = ResourceSpec(name: string, weight: int)
  datatype UtilizationShapePoint = UtilizationShapePoint(utilization: int, score: int)
  datatype RequestedToCapacityRatioParam = RequestedToCapacityRatioParam(shape: seq<UtilizationShapePoint>)

  datatype ScoringStrategy = ScoringStrategy(
    strategyType: string,
    resources: seq<ResourceSpec>,
    reclaimedResources: seq<ResourceSpec>,
    requestedToCapacityRatio: Option<RequestedToCapacityRatioParam>,
    reclaimedRequestedToCapacityRatio: Option<RequestedToCapacityRatioParam>)

  datatype FitArgs = FitArgs(scoringStrategy: Option<ScoringStrategy>)
  datatype BalancedAllocationArgs = BalancedAllocationArgs(
    resources: seq<ResourceSpec>, reclaimedResources: seq<ResourceSpec>)
  datatype TopologyArgs = TopologyArgs(
    scoringStrategy: Option<ScoringStrategy>, alignedResources: seq<string>, resourcePluginPolicy: string)

  /** A field path: `path.Child(name)` appends Child(name), `path.Index(i)` appends Index(i). */
  datatype PathElem = Child(name: string) | Index(index: nat)

  datatype ErrorType = Required | Invalid | Duplicate
  datatype BadValue = IntValue(n: int) | StringValue(s: string)
  datatype FieldError = FieldError(errorType: ErrorType, field: seq<PathElem>, badValue: BadValue, detail: string)

  /** An aggregate error: the distinct errors of a non-empty list, in order. */
  datatype Aggregate = Aggregate(errors: seq<FieldError>)

  predicate Distinct(errs: seq<FieldError>) {
    forall a, b :: 0 <= a < b < |errs| ==> errs[a] != errs[b]
  }

  lemma DistinctAppend(errs: seq<FieldError>, x: FieldError)
    requires Distinct(errs) && x !in errs
    ensures Distinct(errs + [x])
  {
    var r := errs + [x];
    forall a, b | 0 <= a < b < |r| ensures r[a] != r[b] {
      if b == |errs| {
        assert r[a] == errs[a];
      }
    }
  }

  /** The list without repeats, first occurrences kept. */
  function Dedup(errs: seq<FieldError>): (r: seq<FieldError>)
    ensures forall e :: e in r <==> e in errs
    ensures Distinct(r)
    ensures |r| <= |errs|
  {
    if errs == [] then []
    else
      var init := Dedup(errs[..|errs| - 1]);
      var last := errs[|errs| - 1];
      assert errs == errs[..|errs| - 1] + [last];
      if last in init then init else init + [last]
  }

  lemma {:induction false} DedupOfDistinct(errs: seq<FieldError>)
    requires Distinct(errs)
    ensures Dedup(errs) == errs
    decreases |errs|
  {
    if errs != [] {
      var init := errs[..|errs| - 1];
      DedupOfDistinct(init);
      assert errs == init + [errs[|errs| - 1]];
    }
  }

  /** ErrorList.ToAggregate: nil for an empty list, otherwise the aggregate of its
      distinct errors. */
  function ToAggregate(errs: seq<FieldError>): (r: Option<Aggregate>)
    ensures r.None? <==> errs == []
    ensures r.Some? ==> (forall e :: e in r.value.errors <==> e in errs) && Distinct(r.value.errors)
  {
    if errs == [] then None else Some(Aggregate(Dedup(errs)))
  }

  // ---- validateResources ----------------------------------------------------

  predicate ValidWeight(weight: int) {
    0 < weight <= 100
  }

  function WeightError(p: seq<PathElem>, i: nat, r: ResourceSpec): FieldError {
    FieldError(Invalid, p + [Index(i), Child("weight")], IntValue(r.weight),
               "resource weight of " + r.name + " not in valid range (0, 100]")
  }

  /** The errors of validateResources for rs, accumulated index by index. */
  function ResourceErrors(rs: seq<ResourceSpec>, p: seq<PathElem>): seq<FieldError> {
    if rs == [] then []
    else
      var n := |rs| - 1;
      ResourceErrors(rs[..n], p) + (if ValidWeight(rs[n].weight) then [] else [WeightError(p, n, rs[n])])
  }

  lemma WeightErrorIndex(p: seq<PathElem>, i: nat, r: ResourceSpec, j: nat, r': ResourceSpec)
    requires WeightError(p, i, r) == WeightError(p, j, r')
    ensures i == j
  {
    assert WeightError(p, i, r).field[|p|] == Index(i);
    assert WeightError(p, j, r').field[|p|] == Index(j);
  }

  /** Every error validateResources reports is the weight error of an index with an
      out-of-range weight. */
  lemma {:induction false} ResourceErrorsSound(rs: seq<ResourceSpec>, p: seq<PathElem>)
    ensures forall e :: e in ResourceErrors(rs, p) ==>
      exists i :: 0 <= i < |rs| && !ValidWeight(rs[i].weight) && e == WeightError(p, i, rs[i])
    decreases |rs|
  {
    if rs != [] {
      var n := |rs| - 1;
      var init := rs[..n];
      ResourceErrorsSound(init, p);
      forall e | e in ResourceErrors(init, p)
        ensures exists i :: 0 <= i < |rs| && !ValidWeight(rs[i].weight) && e == WeightError(p, i, rs[i])
      {
        var j :| 0 <= j < |init| && !ValidWeight(init[j].weight) && e == WeightError(p, j, init[j]);
        assert init[j] == rs[j];
      }
    }
  }

  /** Each index with a weight outside (0, 100] is reported, and no other index is. */
  lemma {:induction false} ResourceErrorsComplete(rs: seq<ResourceSpec>, p: seq<PathElem>)
    ensures forall i :: 0 <= i < |rs| ==>
      (WeightError(p, i, rs[i]) in ResourceErrors(rs, p) <==> !ValidWeight(rs[i].weight))
    decreases |rs|
  {
    if rs != [] {
      var n := |rs| - 1;
      var init := rs[..n];
      ResourceErrorsComplete(init, p);
      ResourceErrorsSound(init, p);
      var e0 := ResourceErrors(init, p);
      forall i | 0 <= i < |rs|
        ensures WeightError(p, i, rs[i]) in ResourceErrors(rs, p) <==> !ValidWeight(rs[i].weight)
      {
        if i < n {
          assert init[i] == rs[i];
          if !ValidWeight(rs[n].weight) && WeightError(p, i, rs[i]) == WeightError(p, n, rs[n]) {
            WeightErrorIndex(p, i, rs[i], n, rs[n]);
          }
        } else if WeightError(p, i, rs[i]) in e0 {
          var j :| 0 <= j < |init| && !ValidWeight(init[j].weight) && WeightError(p, i, rs[i]) == WeightError(p, j, init[j]);
          WeightErrorIndex(p, i, rs[i], j, init[j]);
        }
      }
    }
  }

  /** No index is reported twice. */
  lemma {:induction false} ResourceErrorsDistinct(rs: seq<ResourceSpec>, p: seq<PathElem>)
    ensures Distinct(ResourceErrors(rs, p))
    decreases |rs|
  {
    if rs != [] {
      var n := |rs| - 1;
      var init := rs[..n];
      ResourceErrorsDistinct(init, p);
      ResourceErrorsSound(init, p);
      if !ValidWeight(rs[n].weight) {
        forall e | e in ResourceErrors(init, p) ensures e != WeightError(p, n, rs[n]) {
          var j :| 0 <= j < |init| && !ValidWeight(init[j].weight) && e == WeightError(p, j, init[j]);
          if e == WeightError(p, n, rs[n]) {
            WeightErrorIndex(p, j, init[j], n, rs[n]);
          }
        }
        DistinctAppend(ResourceErrors(init, p), WeightError(p, n, rs[n]));
      }
    }
  }

  /** validateResources */
  method ValidateResources(resources: seq<ResourceSpec>, p: seq<PathElem>) returns (errs: seq<FieldError>)
    ensures errs == ResourceErrors(resources, p)
  {
    errs := [];
    var i := 0;
    while i < |resources|
      invariant 0 <= i <= |resources|
      invariant errs == ResourceErrors(resources[..i], p)
    {
      assert resources[..i + 1][..i] == resources[..i];
      var resource := resources[i];
      if resource.weight <= 0 || resource.weight > 100 {
        errs := errs + [WeightError(p, i, resource)];
      }
      i := i + 1;
    }
    assert resources[..i] == resources;
  }

  // ---- validateFunctionShape ------------------------------------------------

  const SortedDetail: string := "utilization values must be sorted in increasing order"

  function RequiredShapeError(path: seq<PathElem>): FieldError {
    FieldError(Required, path, StringValue(""), "at least one point must be specified")
  }

  function OrderError(path: seq<PathElem>, i: nat, point: UtilizationShapePoint): FieldError {
    FieldError(Invalid, path + [Index(i), Child("utilization")], IntValue(point.utilization), SortedDetail)
  }

  function UtilizationRangeError(path: seq<PathElem>, i: nat, point: UtilizationShapePoint): FieldError {
    FieldError(Invalid, path + [Index(i), Child("utilization")], IntValue(point.utilization),
               "not in valid range [0, 100]")
  }

  function ScoreRangeError(path: seq<PathElem>, i: nat, point: UtilizationShapePoint): FieldError {
    FieldError(Invalid, path + [Index(i), Child("score")], IntValue(point.score), "not in valid range [0, 10]")
  }

  predicate UtilizationInRange(point: UtilizationShapePoint) {
    MinUtilization <= point.utilization <= MaxUtilization
  }

  predicate ScoreInRange(point: UtilizationShapePoint) {
    MinScore <= point.score <= MaxCustomPriorityScore
  }

  predicate StrictlyIncreasing(shape: seq<UtilizationShapePoint>) {
    forall i, j :: 0 <= i < j < |shape| ==> shape[i].utilization < shape[j].utilization
  }

  /** The first index k >= from whose utilization does not exceed its predecessor's,
      or |shape| when there is none. */
  function FirstUnsorted(shape: seq<UtilizationShapePoint>, from: nat): (k: nat)
    requires 1 <= from <= |shape|
    ensures from <= k <= |shape|
    ensures forall j :: from <= j < k ==> shape[j - 1].utilization < shape[j].utilization
    ensures k < |shape| ==> shape[k - 1].utilization >= shape[k].utilization
    decreases |shape| - from
  {
    if from == |shape| then from
    else if shape[from - 1].utilization >= shape[from].utilization then from
    else FirstUnsorted(shape, from + 1)
  }

  /** The ordering check: at most one error, at the first unsorted point. */
  function OrderErrors(shape: seq<UtilizationShapePoint>, path: seq<PathElem>): seq<FieldError>
    requires |shape| >= 1
  {
    var k := FirstUnsorted(shape, 1);
    if k < |shape| then [OrderError(path, k, shape[k])] else []
  }

  /** The range errors of the point at index i: utilization first, then score. */
  function PointErrors(path: seq<PathElem>, i: nat, point: UtilizationShapePoint): seq<FieldError> {
    (if UtilizationInRange(point) then [] else [UtilizationRangeError(path, i, point)])
      + (if ScoreInRange(point) then [] else [ScoreRangeError(path, i, point)])
  }

  /** The range checks, accumulated point by point. */
  function RangeErrors(shape: seq<UtilizationShapePoint>, path: seq<PathElem>): seq<FieldError> {
    if shape == [] then []
    else
      var n := |shape| - 1;
      RangeErrors(shape[..n], path) + PointErrors(path, n, shape[n])
  }

  function ShapeErrors(shape: seq<UtilizationShapePoint>, path: seq<PathElem>): seq<FieldError> {
    if shape == [] then [RequiredShapeError(path)]
    else OrderErrors(shape, path) + RangeErrors(shape, path)
  }

  /** validateFunctionShape */
  method ValidateFunctionShape(shape: seq<UtilizationShapePoint>, path: seq<PathElem>) returns (errs: seq<FieldError>)
    ensures errs == ShapeErrors(shape, path)
  {
    if |shape| == 0 {
      errs := [RequiredShapeError(path)];
      return;
    }
    errs := [];
    var i := 1;
    while i < |shape|
      invariant 1 <= i <= |shape|
      invariant FirstUnsorted(shape, i) == FirstUnsorted(shape, 1)
      invariant errs == []
    {
      if shape[i - 1].utilization >= shape[i].utilization {
        errs := [OrderError(path, i, shape[i])];
        break;
      }
      i := i + 1;
    }
    assert errs == OrderErrors(shape, path) by {
      if errs == [] {
        assert i == |shape|;
      } else {
        assert FirstUnsorted(shape, i) == i;
      }
    }
    var rangeErrs := ValidateShapeRanges(shape, path);
    errs := errs + rangeErrs;
  }

  /** The range loop of validateFunctionShape. */
  method ValidateShapeRanges(shape: seq<UtilizationShapePoint>, path: seq<PathElem>) returns (errs: seq<FieldError>)
    ensures errs == RangeErrors(shape, path)
  {
    errs := [];
    var i := 0;
    while i < |shape|
      invariant 0 <= i <= |shape|
      invariant errs == RangeErrors(shape[..i], path)
    {
      assert shape[..i + 1][..i] == shape[..i];
      var point := shape[i];
      var pointErrs := [];
      if point.utilization < MinUtilization || point.utilization > MaxUtilization {
        pointErrs := pointErrs + [UtilizationRangeError(path, i, point)];
      }
      if point.score < MinScore || point.score > MaxCustomPriorityScore {
        pointErrs := pointErrs + [ScoreRangeError(path, i, point)];
      }
      assert pointErrs == PointErrors(path, i, point);
      errs := errs + pointErrs;
      i := i + 1;
    }
    assert shape[..i] == shape;
  }

  lemma {:induction false} FirstUnsortedSorted(shape: seq<UtilizationShapePoint>)
    requires |shape| >= 1
    ensures FirstUnsorted(shape, 1) == |shape| <==> StrictlyIncreasing(shape)
  {
    var k := FirstUnsorted(shape, 1);
    if k == |shape| {
      forall i, j | 0 <= i < j < |shape| ensures shape[i].utilization < shape[j].utilization {
        var t := i + 1;
        while t < j
          invariant i < t <= j
          invariant shape[i].utilization < shape[t].utilization
        {
          t := t + 1;
        }
      }
    }
  }

  /** The ordering check reports nothing exactly when the utilizations strictly
      increase, and otherwise exactly one error: at the first point that does not
      exceed its predecessor, with every earlier pair in order. */
  lemma OrderErrorsIff(shape: seq<UtilizationShapePoint>, path: seq<PathElem>)
    requires |shape| >= 1
    ensures OrderErrors(shape, path) == [] <==> StrictlyIncreasing(shape)
    ensures OrderErrors(shape, path) != [] ==>
      exists k :: 1 <= k < |shape| && OrderErrors(shape, path) == [OrderError(path, k, shape[k])]
        && shape[k - 1].utilization >= shape[k].utilization
        && StrictlyIncreasing(shape[..k])
  {
    FirstUnsortedSorted(shape);
    var k := FirstUnsorted(shape, 1);
    if k < |shape| {
      FirstUnsortedSorted(shape[..k]);
      assert FirstUnsorted(shape[..k], 1) == k by {
        PrefixFirstUnsorted(shape, k, 1);
      }
    }
  }

  lemma {:induction false} PrefixFirstUnsorted(shape: seq<UtilizationShapePoint>, k: nat, from: nat)
    requires 1 <= from <= k <= |shape|
    requires forall j :: from <= j < k ==> shape[j - 1].utilization < shape[j].utilization
    ensures FirstUnsorted(shape[..k], from) == k
    decreases k - from
  {
    if from < k {
      assert shape[..k][from - 1] == shape[from - 1] && shape[..k][from] == shape[from];
      PrefixFirstUnsorted(shape, k, from + 1);
    }
  }

  /** Every range error is the utilization or score error of a point out of its range. */
  lemma {:induction false} RangeErrorsSound(shape: seq<UtilizationShapePoint>, path: seq<PathElem>)
    ensures forall e :: e in RangeErrors(shape, path) ==>
      exists i :: (0 <= i < |shape| &&
        ((!UtilizationInRange(shape[i]) && e == UtilizationRangeError(path, i, shape[i]))
         || (!ScoreInRange(shape[i]) && e == ScoreRangeError(path, i, shape[i]))))
    decreases |shape|
  {
    if shape != [] {
      var n := |shape| - 1;
      var init := shape[..n];
      RangeErrorsSound(init, path);
      forall e | e in RangeErrors(init, path)
        ensures exists i :: (0 <= i < |shape| &&
          ((!UtilizationInRange(shape[i]) && e == UtilizationRangeError(path, i, shape[i]))
           || (!ScoreInRange(shape[i]) && e == ScoreRangeError(path, i, shape[i]))))
      {
        var j :| 0 <= j < |init| &&
          ((!UtilizationInRange(init[j]) && e == UtilizationRangeError(path, j, init[j]))
           || (!ScoreInRange(init[j]) && e == ScoreRangeError(path, j, init[j])));
        assert init[j] == shape[j];
      }
    }
  }

  lemma RangeErrorIndex(path: seq<PathElem>, e: FieldError, i: nat, j: nat)
    requires |e.field| == |path| + 2
    requires e.field == path + [Index(i), e.field[|path| + 1]]
    requires e.field == path + [Index(j), e.field[|path| + 1]]
    ensures i == j
  {
    assert e.field[|path|] == Index(i);
  }

  /** Each point is reported for its utilization exactly when that is outside
      [0, 100], and for its score exactly when that is outside [0, 10]. */
  lemma {:induction false} RangeErrorsComplete(shape: seq<UtilizationShapePoint>, path: seq<PathElem>)
    ensures forall i :: 0 <= i < |shape| ==>
      (UtilizationRangeError(path, i, shape[i]) in RangeErrors(shape, path) <==> !UtilizationInRange(shape[i]))
      && (ScoreRangeError(path, i, shape[i]) in RangeErrors(shape, path) <==> !ScoreInRange(shape[i]))
    decreases |shape|
  {
    if shape != [] {
      var n := |shape| - 1;
      var init := shape[..n];
      RangeErrorsComplete(init, path);
      RangeErrorsSound(init, path);
      forall i | 0 <= i < |shape|
        ensures (UtilizationRangeError(path, i, shape[i]) in RangeErrors(shape, path) <==> !UtilizationInRange(shape[i]))
          && (ScoreRangeError(path, i, shape[i]) in RangeErrors(shape, path) <==> !ScoreInRange(shape[i]))
      {
        var u := UtilizationRangeError(path, i, shape[i]);
        var s := ScoreRangeError(path, i, shape[i]);
        if i < n {
          assert init[i] == shape[i];
          assert u != UtilizationRangeError(path, n, shape[n]) by {
            if u == UtilizationRangeError(path, n, shape[n]) { RangeErrorIndex(path, u, i, n); }
          }
          assert s != ScoreRangeError(path, n, shape[n]) by {
            if s == ScoreRangeError(path, n, shape[n]) { RangeErrorIndex(path, s, i, n); }
          }
          assert u.field[|path| + 1] != s.field[|path| + 1];
        } else {
          forall e | e in RangeErrors(init, path) ensures e != u && e != s {
            var j :| 0 <= j < |init| &&
              ((!UtilizationInRange(init[j]) && e == UtilizationRangeError(path, j, init[j]))
               || (!ScoreInRange(init[j]) && e == ScoreRangeError(path, j, init[j])));
            if e == u || e == s { RangeErrorIndex(path, e, i, j); }
          }
          assert u.field[|path| + 1] != s.field[|path| + 1];
        }
      }
    }
  }

  predicate ShapeValid(shape: seq<UtilizationShapePoint>) {
    && |shape| >= 1
    && StrictlyIncreasing(shape)
    && (forall i :: 0 <= i < |shape| ==> UtilizationInRange(shape[i]) && ScoreInRange(shape[i]))
  }

  lemma RangeErrorsEmptyIff(shape: seq<UtilizationShapePoint>, path: seq<PathElem>)
    ensures RangeErrors(shape, path) == [] <==>
      forall i :: 0 <= i < |shape| ==> UtilizationInRange(shape[i]) && ScoreInRange(shape[i])
  {
    RangeErrorsComplete(shape, path);
    RangeErrorsSound(shape, path);
    if RangeErrors(shape, path) != [] {
      var e := RangeErrors(shape, path)[0];
      assert e in RangeErrors(shape, path);
    }
  }

  /** An empty shape yields exactly the one Required error; a non-empty shape never
      yields a Required error. */
  lemma ShapeRequiredIffEmpty(shape: seq<UtilizationShapePoint>, path: seq<PathElem>)
    ensures shape == [] ==> ShapeErrors(shape, path) == [RequiredShapeError(path)]
    ensures (exists e :: e in ShapeErrors(shape, path) && e.errorType == Required) <==> shape == []
  {
    if shape == [] {
      assert RequiredShapeError(path) in ShapeErrors(shape, path);
    } else {
      RangeErrorsSound(shape, path);
    }
  }

  /** Among all errors of a shape at most one is an ordering error. */
  lemma AtMostOneOrderError(shape: seq<UtilizationShapePoint>, path: seq<PathElem>)
    ensures var errs := ShapeErrors(shape, path);
      forall a, b :: 0 <= a < b < |errs| && errs[a].detail == SortedDetail ==> errs[b].detail != SortedDetail
  {
    if shape != [] {
      RangeErrorsSound(shape, path);
      var errs := ShapeErrors(shape, path);
      var o := OrderErrors(shape, path);
      forall a, b | 0 <= a < b < |errs| && errs[a].detail == SortedDetail ensures errs[b].detail != SortedDetail {
        assert b >= |o|;
        assert errs[b] == RangeErrors(shape, path)[b - |o|];
        assert errs[b] in RangeErrors(shape, path);
      }
    }
  }

  /** validateFunctionShape reports nothing exactly for a non-empty, strictly
      increasing shape whose points are all in range. */
  lemma ShapeValidIff(shape: seq<UtilizationShapePoint>, path: seq<PathElem>)
    ensures ShapeErrors(shape, path) == [] <==> ShapeValid(shape)
  {
    if shape != [] {
      OrderErrorsIff(shape, path);
      RangeErrorsEmptyIff(shape, path);
    }
  }

  // ---- ValidateQoSAwareNodeResourcesBalancedAllocationArgs -------------------

  function Names(rs: seq<ResourceSpec>): set<string> {
    set i | 0 <= i < |rs| :: rs[i].name
  }

  function DuplicateError(p: seq<PathElem>, list: string, i: nat, r: ResourceSpec): FieldError {
    FieldError(Duplicate, p + [Child(list), Index(i), Child("name")], StringValue(r.name), "")
  }

  function UnitWeightError(p: seq<PathElem>, list: string, i: nat, r: ResourceSpec): FieldError {
    FieldError(Invalid, p + [Child(list), Index(i), Child("weight")], IntValue(r.weight), "must be 1")
  }

  /** The errors for entry i of a list, given the names seen before it. */
  function EntryErrors(p: seq<PathElem>, list: string, i: nat, r: ResourceSpec, seen: set<string>): seq<FieldError> {
    (if r.name in seen then [DuplicateError(p, list, i, r)] else [])
      + (if r.weight != 1 then [UnitWeightError(p, list, i, r)] else [])
  }

  /** The errors of one list of the balanced-allocation arguments, entry by entry. */
  function ListErrors(rs: seq<ResourceSpec>, p: seq<PathElem>, list: string): seq<FieldError> {
    if rs == [] then []
    else
      var n := |rs| - 1;
      ListErrors(rs[..n], p, list) + EntryErrors(p, list, n, rs[n], Names(rs[..n]))
  }

  function BalancedErrors(args: BalancedAllocationArgs, p: seq<PathElem>): seq<FieldError> {
    ListErrors(args.resources, p, "resources") + ListErrors(args.reclaimedResources, p, "reclaimedResources")
  }

  /** One loop of the balanced-allocation validator, with its own seen-set. */
  method ValidateBalancedList(rs: seq<ResourceSpec>, p: seq<PathElem>, list: string) returns (errs: seq<FieldError>)
    ensures errs == ListErrors(rs, p, list)
  {
    errs := [];
    var seen: set<string> := {};
    var i := 0;
    while i < |rs|
      invariant 0 <= i <= |rs|
      invariant seen == Names(rs[..i])
      invariant errs == ListErrors(rs[..i], p, list)
    {
      assert rs[..i + 1][..i] == rs[..i];
      var resource := rs[i];
      var entryErrs := [];
      if resource.name in seen {
        entryErrs := entryErrs + [DuplicateError(p, list, i, resource)];
      } else {
        seen := seen + {resource.name};
      }
      if resource.weight != 1 {
        entryErrs := entryErrs + [UnitWeightError(p, list, i, resource)];
      }
      assert entryErrs == EntryErrors(p, list, i, resource, Names(rs[..i]));
      errs := errs + entryErrs;
      assert Names(rs[..i + 1]) == Names(rs[..i]) + {resource.name} by {
        assert rs[..i + 1][i] == resource;
        forall x | x in Names(rs[..i + 1]) ensures x in Names(rs[..i]) + {resource.name} {
          var j :| 0 <= j < i + 1 && rs[..i + 1][j].name == x;
          if j < i { assert rs[..i][j] == rs[..i + 1][j]; }
        }
        forall x | x in Names(rs[..i]) ensures x in Names(rs[..i + 1]) {
          var j :| 0 <= j < i && rs[..i][j].name == x;
          assert rs[..i + 1][j] == rs[..i][j];
        }
      }
      i := i + 1;
    }
    assert rs[..i] == rs;
  }

  /** ValidateQoSAwareNodeResourcesBalancedAllocationArgs */
  method ValidateBalancedAllocationArgs(path: seq<PathElem>, args: BalancedAllocationArgs) returns (r: Option<Aggregate>)
    ensures r == ToAggregate(BalancedErrors(args, path))
  {
    var errs := ValidateBalancedList(args.resources, path, "resources");
    var reclaimedErrs := ValidateBalancedList(args.reclaimedResources, path, "reclaimedResources");
    r := ToAggregate(errs + reclaimedErrs);
  }

  /** Some entry before index i has the same name as entry i. */
  predicate SeenBefore(rs: seq<ResourceSpec>, i: nat)
    requires i < |rs|
  {
    exists j :: 0 <= j < i && rs[j].name == rs[i].name
  }

  lemma ListPath(p: seq<PathElem>, a: PathElem, b: PathElem, c: PathElem, a': PathElem, b': PathElem, c': PathElem)
    requires p + [a, b, c] == p + [a', b', c']
    ensures a == a' && b == b' && c == c'
  {
    assert (p + [a, b, c])[|p|] == a && (p + [a', b', c'])[|p|] == a';
    assert (p + [a, b, c])[|p| + 1] == b && (p + [a', b', c'])[|p| + 1] == b';
    assert (p + [a, b, c])[|p| + 2] == c && (p + [a', b', c'])[|p| + 2] == c';
  }

  /** Every error of a list is a duplicate error of an entry whose name appeared
      before it, or a weight error of an entry whose weight is not 1. */
  lemma {:induction false} ListErrorsSound(rs: seq<ResourceSpec>, p: seq<PathElem>, list: string)
    ensures forall e :: e in ListErrors(rs, p, list) ==>
      exists i :: (0 <= i < |rs| &&
        ((SeenBefore(rs, i) && e == DuplicateError(p, list, i, rs[i]))
         || (rs[i].weight != 1 && e == UnitWeightError(p, list, i, rs[i]))))
    decreases |rs|
  {
    if rs != [] {
      var n := |rs| - 1;
      var init := rs[..n];
      ListErrorsSound(init, p, list);
      forall e | e in ListErrors(rs, p, list)
        ensures exists i :: (0 <= i < |rs| &&
          ((SeenBefore(rs, i) && e == DuplicateError(p, list, i, rs[i]))
           || (rs[i].weight != 1 && e == UnitWeightError(p, list, i, rs[i]))))
      {
        if e in ListErrors(init, p, list) {
          var i :| 0 <= i < |init| &&
            ((SeenBefore(init, i) && e == DuplicateError(p, list, i, init[i]))
             || (init[i].weight != 1 && e == UnitWeightError(p, list, i, init[i])));
          assert init[i] == rs[i];
          if SeenBefore(init, i) {
            var j :| 0 <= j < i && init[j].name == init[i].name;
            assert rs[j] == init[j];
          }
        } else if rs[n].name in Names(init) && e == DuplicateError(p, list, n, rs[n]) {
          var j :| 0 <= j < n && init[j].name == rs[n].name;
          assert rs[j] == init[j];
        }
      }
    }
  }

  /** No error of a list sits at index |rs| or beyond. */
  lemma ListErrorsBelow(rs: seq<ResourceSpec>, p: seq<PathElem>, list: string, k: nat, r: ResourceSpec)
    requires k >= |rs|
    ensures DuplicateError(p, list, k, r) !in ListErrors(rs, p, list)
    ensures UnitWeightError(p, list, k, r) !in ListErrors(rs, p, list)
  {
    ListErrorsSound(rs, p, list);
    forall e | e in ListErrors(rs, p, list)
      ensures e != DuplicateError(p, list, k, r) && e != UnitWeightError(p, list, k, r)
    {
      var j :| 0 <= j < |rs| &&
        ((SeenBefore(rs, j) && e == DuplicateError(p, list, j, rs[j]))
         || (rs[j].weight != 1 && e == UnitWeightError(p, list, j, rs[j])));
      assert e.field[|p| + 1] == Index(j);
    }
  }

  lemma SeenBeforePrefix(rs: seq<ResourceSpec>, n: nat, i: nat)
    requires i < n <= |rs|
    ensures SeenBefore(rs[..n], i) <==> SeenBefore(rs, i)
  {
    if SeenBefore(rs, i) {
      var j :| 0 <= j < i && rs[j].name == rs[i].name;
      assert rs[..n][j] == rs[j];
    }
  }

  lemma SeenBeforeNames(rs: seq<ResourceSpec>, n: nat)
    requires n < |rs|
    ensures SeenBefore(rs, n) <==> rs[n].name in Names(rs[..n])
  {
    if SeenBefore(rs, n) {
      var j :| 0 <= j < n && rs[j].name == rs[n].name;
      assert rs[..n][j] == rs[j];
    }
  }

  /** Entry i is reported as a duplicate exactly when an earlier entry of the same
      list has its name; in particular a first occurrence never is. */
  lemma {:induction false} DuplicateReportedIff(rs: seq<ResourceSpec>, p: seq<PathElem>, list: string, i: nat)
    requires i < |rs|
    ensures DuplicateError(p, list, i, rs[i]) in ListErrors(rs, p, list) <==> SeenBefore(rs, i)
    decreases |rs|
  {
    var n := |rs| - 1;
    var init := rs[..n];
    var d := DuplicateError(p, list, i, rs[i]);
    if i < n {
      assert init[i] == rs[i];
      DuplicateReportedIff(init, p, list, i);
      SeenBeforePrefix(rs, n, i);
      assert d != DuplicateError(p, list, n, rs[n]) by {
        if d == DuplicateError(p, list, n, rs[n]) {
          ListPath(p, Child(list), Index(i), Child("name"), Child(list), Index(n), Child("name"));
        }
      }
    } else {
      ListErrorsBelow(init, p, list, i, rs[i]);
      SeenBeforeNames(rs, n);
    }
  }

  /** Entry i is reported for its weight exactly when the weight is not 1. */
  lemma {:induction false} WeightReportedIff(rs: seq<ResourceSpec>, p: seq<PathElem>, list: string, i: nat)
    requires i < |rs|
    ensures UnitWeightError(p, list, i, rs[i]) in ListErrors(rs, p, list) <==> rs[i].weight != 1
    decreases |rs|
  {
    var n := |rs| - 1;
    var init := rs[..n];
    var w := UnitWeightError(p, list, i, rs[i]);
    if i < n {
      assert init[i] == rs[i];
      WeightReportedIff(init, p, list, i);
      assert w != UnitWeightError(p, list, n, rs[n]) by {
        if w == UnitWeightError(p, list, n, rs[n]) {
          ListPath(p, Child(list), Index(i), Child("weight"), Child(list), Index(n), Child("weight"));
        }
      }
    } else {
      ListErrorsBelow(init, p, list, i, rs[i]);
    }
  }

  predicate ListValid(rs: seq<ResourceSpec>) {
    forall i :: 0 <= i < |rs| ==> !SeenBefore(rs, i) && rs[i].weight == 1
  }

  lemma ListErrorsEmptyIff(rs: seq<ResourceSpec>, p: seq<PathElem>, list: string)
    ensures ListErrors(rs, p, list) == [] <==> ListValid(rs)
  {
    ListErrorsSound(rs, p, list);
    if ListErrors(rs, p, list) != [] {
      assert ListErrors(rs, p, list)[0] in ListErrors(rs, p, list);
    }
    forall i | 0 <= i < |rs| && ListErrors(rs, p, list) == [] ensures !SeenBefore(rs, i) && rs[i].weight == 1 {
      DuplicateReportedIff(rs, p, list, i);
      WeightReportedIff(rs, p, list, i);
    }
  }

  /** The two lists keep separate seen-sets: an entry of either list is reported as a
      duplicate exactly when an earlier entry of the same list has its name (a name
      shared between the lists is not a duplicate), and for its weight exactly when it
      is not 1. */
  lemma BalancedSeparateLists(args: BalancedAllocationArgs, p: seq<PathElem>)
    ensures var errs := BalancedErrors(args, p);
      var rs := args.resources;
      var rr := args.reclaimedResources;
      && (forall i :: 0 <= i < |rs| ==>
           (DuplicateError(p, "resources", i, rs[i]) in errs <==> SeenBefore(rs, i))
           && (UnitWeightError(p, "resources", i, rs[i]) in errs <==> rs[i].weight != 1))
      && (forall i :: 0 <= i < |rr| ==>
           (DuplicateError(p, "reclaimedResources", i, rr[i]) in errs <==> SeenBefore(rr, i))
           && (UnitWeightError(p, "reclaimedResources", i, rr[i]) in errs <==> rr[i].weight != 1))
  {
    var rs := args.resources;
    var rr := args.reclaimedResources;
    var e1 := ListErrors(rs, p, "resources");
    var e2 := ListErrors(rr, p, "reclaimedResources");
    ListErrorsSound(rs, p, "resources");
    ListErrorsSound(rr, p, "reclaimedResources");
    assert Child("resources") != Child("reclaimedResources");
    forall i | 0 <= i < |rs|
      ensures (DuplicateError(p, "resources", i, rs[i]) in e1 + e2 <==> SeenBefore(rs, i))
        && (UnitWeightError(p, "resources", i, rs[i]) in e1 + e2 <==> rs[i].weight != 1)
    {
      DuplicateReportedIff(rs, p, "resources", i);
      WeightReportedIff(rs, p, "resources", i);
      forall e | e in e2 ensures e.field[|p|] == Child("reclaimedResources") {
        var j :| 0 <= j < |rr| &&
          ((SeenBefore(rr, j) && e == DuplicateError(p, "reclaimedResources", j, rr[j]))
           || (rr[j].weight != 1 && e == UnitWeightError(p, "reclaimedResources", j, rr[j])));
      }
      assert DuplicateError(p, "resources", i, rs[i]).field[|p|] == Child("resources");
      assert UnitWeightError(p, "resources", i, rs[i]).field[|p|] == Child("resources");
    }
    forall i | 0 <= i < |rr|
      ensures (DuplicateError(p, "reclaimedResources", i, rr[i]) in e1 + e2 <==> SeenBefore(rr, i))
        && (UnitWeightError(p, "reclaimedResources", i, rr[i]) in e1 + e2 <==> rr[i].weight != 1)
    {
      DuplicateReportedIff(rr, p, "reclaimedResources", i);
      WeightReportedIff(rr, p, "reclaimedResources", i);
      forall e | e in e1 ensures e.field[|p|] == Child("resources") {
        var j :| 0 <= j < |rs| &&
          ((SeenBefore(rs, j) && e == DuplicateError(p, "resources", j, rs[j]))
           || (rs[j].weight != 1 && e == UnitWeightError(p, "resources", j, rs[j])));
      }
      assert DuplicateError(p, "reclaimedResources", i, rr[i]).field[|p|] == Child("reclaimedResources");
      assert UnitWeightError(p, "reclaimedResources", i, rr[i]).field[|p|] == Child("reclaimedResources");
    }
  }

  /** The balanced-allocation validator returns nil exactly when neither list repeats
      a name and every weight is 1. */
  lemma BalancedValidIff(args: BalancedAllocationArgs, p: seq<PathElem>)
    ensures ToAggregate(BalancedErrors(args, p)).None? <==>
      ListValid(args.resources) && ListValid(args.reclaimedResources)
  {
    ListErrorsEmptyIff(args.resources, p, "resources");
    ListErrorsEmptyIff(args.reclaimedResources, p, "reclaimedResources");
  }

  // ---- ValidateQoSAwareNodeResourcesFitArgs ----------------------------------

  /** The shape errors of an optional requested-to-capacity ratio. */
  function RatioErrors(ratio: Option<RequestedToCapacityRatioParam>, path: seq<PathElem>): seq<FieldError> {
    match ratio
    case None => []
    case Some(param) => ShapeErrors(param.shape, path + [Child("shape")])
  }

  /** All errors collected for the fit arguments; ReclaimedRequestedToCapacityRatio is
      not consulted. */
  function FitErrors(args: FitArgs, path: seq<PathElem>): seq<FieldError> {
    match args.scoringStrategy
    case None => []
    case Some(s) =>
      ResourceErrors(s.resources, path + [Child("resources")])
        + ResourceErrors(s.reclaimedResources, path + [Child("reclaimedResources")])
        + RatioErrors(s.requestedToCapacityRatio, path)
  }

  /** ValidateQoSAwareNodeResourcesFitArgs */
  method ValidateFitArgs(path: seq<PathElem>, args: FitArgs) returns (r: Option<Aggregate>)
    ensures r == ToAggregate(FitErrors(args, path))
  {
    var allErrs: seq<FieldError> := [];
    if args.scoringStrategy.Some? {
      var s := args.scoringStrategy.value;
      var e1 := ValidateResources(s.resources, path + [Child("resources")]);
      allErrs := allErrs + e1;
      var e2 := ValidateResources(s.reclaimedResources, path + [Child("reclaimedResources")]);
      allErrs := allErrs + e2;
      var e3 := [];
      if s.requestedToCapacityRatio.Some? {
        e3 := ValidateFunctionShape(s.requestedToCapacityRatio.value.shape, path + [Child("shape")]);
      }
      assert e3 == RatioErrors(s.requestedToCapacityRatio, path);
      allErrs := allErrs + e3;
      assert allErrs == e1 + e2 + e3;
    }
    assert allErrs == FitErrors(args, path);
    if |allErrs| == 0 {
      return None;
    }
    r := ToAggregate(allErrs);
  }

  predicate WeightsValid(rs: seq<ResourceSpec>) {
    forall i :: 0 <= i < |rs| ==> ValidWeight(rs[i].weight)
  }

  predicate FitValid(args: FitArgs) {
    match args.scoringStrategy
    case None => true
    case Some(s) =>
      && WeightsValid(s.resources)
      && WeightsValid(s.reclaimedResources)
      && (s.requestedToCapacityRatio.Some? ==> ShapeValid(s.requestedToCapacityRatio.value.shape))
  }

  lemma ResourceErrorsEmptyIff(rs: seq<ResourceSpec>, p: seq<PathElem>)
    ensures ResourceErrors(rs, p) == [] <==> WeightsValid(rs)
  {
    ResourceErrorsComplete(rs, p);
    ResourceErrorsSound(rs, p);
    if ResourceErrors(rs, p) != [] {
      assert ResourceErrors(rs, p)[0] in ResourceErrors(rs, p);
    }
  }

  /** The fit validator returns nil exactly when the strategy is nil or every weight
      is in (0, 100] and any shape given is valid. */
  lemma FitValidIff(args: FitArgs, path: seq<PathElem>)
    ensures ToAggregate(FitErrors(args, path)).None? <==> FitValid(args)
  {
    if args.scoringStrategy.Some? {
      var s := args.scoringStrategy.value;
      ResourceErrorsEmptyIff(s.resources, path + [Child("resources")]);
      ResourceErrorsEmptyIff(s.reclaimedResources, path + [Child("reclaimedResources")]);
      if s.requestedToCapacityRatio.Some? {
        ShapeValidIff(s.requestedToCapacityRatio.value.shape, path + [Child("shape")]);
      }
      assert FitErrors(args, path) == [] <==>
        ResourceErrors(s.resources, path + [Child("resources")]) == []
        && ResourceErrors(s.reclaimedResources, path + [Child("reclaimedResources")]) == []
        && RatioErrors(s.requestedToCapacityRatio, path) == [];
    }
  }

  // ---- ValidateNodeResourceTopologyMatchArgs ----------------------------------

  const MostAllocated: string := "MostAllocated"
  const LeastAllocated: string := "LeastAllocated"
  const ValidScoringStrategy: set<string> := {MostAllocated, LeastAllocated, BalancedAllocation, LeastNUMANodes}

  function InvalidTypeError(path: seq<PathElem>, strategyType: string): FieldError {
    FieldError(Invalid, path, StringValue(strategyType), "invalid ScoringStrategyType")
  }

  function InvalidPolicyError(path: seq<PathElem>, policy: string): FieldError {
    FieldError(Invalid, path, StringValue(policy), "invalid ResourcePolicy")
  }

  /** validateScoringStrategyType */
  function ValidateScoringStrategyType(strategyType: string, path: seq<PathElem>): (r: Option<FieldError>)
    ensures r.None? <==>
      strategyType == "MostAllocated" || strategyType == "LeastAllocated"
      || strategyType == BalancedAllocation || strategyType == LeastNUMANodes
    ensures r.Some? ==> r.value == InvalidTypeError(path, strategyType)
  {
    if strategyType !in ValidScoringStrategy then Some(InvalidTypeError(path, strategyType)) else None
  }

  /** validateResourcePolicy */
  function ValidateResourcePolicy(policy: string, path: seq<PathElem>): (r: Option<FieldError>)
    ensures r.None? <==> policy in {ResourcePluginPolicyNameDynamic, ResourcePluginPolicyNameNative}
    ensures r.Some? ==> r.value == InvalidPolicyError(path, policy)
  {
    if policy != ResourcePluginPolicyNameDynamic && policy != ResourcePluginPolicyNameNative then
      Some(InvalidPolicyError(path, policy))
    else None
  }

  function OptionList(e: Option<FieldError>): (r: seq<FieldError>)
    ensures |r| <= 1 && (r == [] <==> e.None?)
  {
    match e
    case None => []
    case Some(x) => [x]
  }

  /** The aggregate of at most two different optional errors lists the present ones,
      in order. */
  lemma AggregateOfOptions(a: Option<FieldError>, b: Option<FieldError>)
    requires a.Some? && b.Some? ==> a.value != b.value
    ensures ToAggregate(OptionList(a) + OptionList(b)) ==
      if a.None? && b.None? then None
      else if a.None? then Some(Aggregate([b.value]))
      else if b.None? then Some(Aggregate([a.value]))
      else Some(Aggregate([a.value, b.value]))
  {
    var errs := OptionList(a) + OptionList(b);
    if a.Some? && b.Some? {
      assert errs == [a.value, b.value];
    }
    DedupOfDistinct(errs);
  }

  /** The outcome of the topology validator: its result, or the nil-pointer panic
      raised when the arguments carry no scoring strategy. */
  datatype TopologyOutcome = Validated(result: Option<Aggregate>) | NilScoringStrategy

  /** ValidateNodeResourceTopologyMatchArgs */
  function ValidateTopologyArgs(path: seq<PathElem>, args: TopologyArgs): (r: TopologyOutcome)
    ensures r == NilScoringStrategy <==> args.scoringStrategy.None?
    ensures r.Validated? ==>
      && (r.result.None? <==>
           args.scoringStrategy.value.strategyType in ValidScoringStrategy
           && args.resourcePluginPolicy in {ResourcePluginPolicyNameDynamic, ResourcePluginPolicyNameNative})
      && (r.result.Some? ==> 1 <= |r.result.value.errors| <= 2)
    ensures r.Validated? ==>
      var s := args.scoringStrategy.value;
      var typeOk := s.strategyType in ValidScoringStrategy;
      var policyOk := args.resourcePluginPolicy in {ResourcePluginPolicyNameDynamic, ResourcePluginPolicyNameNative};
      var te := InvalidTypeError(path + [Child("scoringStrategy.type")], s.strategyType);
      var pe := InvalidPolicyError(path + [Child("resourcePluginPolicy")], args.resourcePluginPolicy);
      && (!typeOk && policyOk ==> r.result == Some(Aggregate([te])))
      && (typeOk && !policyOk ==> r.result == Some(Aggregate([pe])))
      && (!typeOk && !policyOk ==> r.result == Some(Aggregate([te, pe])))
  {
    match args.scoringStrategy
    case None => NilScoringStrategy
    case Some(s) =>
      var typeErr := ValidateScoringStrategyType(s.strategyType, path + [Child("scoringStrategy.type")]);
      var policyErr := ValidateResourcePolicy(args.resourcePluginPolicy, path + [Child("resourcePluginPolicy")]);
      var errs := OptionList(typeErr) + OptionList(policyErr);
      assert typeErr.Some? && policyErr.Some? ==> typeErr.value.detail != policyErr.value.detail;
      AggregateOfOptions(typeErr, policyErr);
      Validated(ToAggregate(errs))
  }
}
