/** `_validate_placement_group_options`: the placement group a replica is
    scheduled into, and the requirement that the replica actor itself fits
    into the group's first bundle. */
module Placement {
  import opened Wrappers
  import opened Values
  import opened Errors
  import opened ActorOptions

  /** The strategies Ray's placement groups understand. */
  const ValidStrategies: set<string> := {"PACK", "SPREAD", "STRICT_PACK", "STRICT_SPREAD"}

  /** Bundle keys of the two built-in resources. */
  const Cpu := VStr("CPU")
  const Gpu := VStr("GPU")

  /** A resource dictionary: string keys, int or float quantities. */
  predicate WellFormedBundle(b: Value) {
    && b.VDict?
    && forall i :: 0 <= i < |b.entries| ==> b.entries[i].0.VStr? && IsNumber(b.entries[i].1)
  }

  /** `bundle.get(key, 0)` on a resource dictionary is a number. */
  function Quantity(bundle: seq<(Value, Value)>, key: Value): (q: Value)
    requires WellFormedBundle(VDict(bundle))
    ensures IsNumber(q)
  {
    Get(bundle, key, VInt(0))
  }

  /** `available` covers `required`: both are numbers and the first is
      not smaller. */
  predicate Covers(available: Value, required: Value) {
    IsNumber(available) && IsNumber(required) && NumberOf(available) >= NumberOf(required)
  }

  /** The check `if available < required: raise`: a non-number
      requirement cannot be compared with a quantity. */
  function CheckCovers(resource: Value, available: Value, required: Value): (r: Outcome<Error>)
    requires IsNumber(available)
    ensures r.Pass? <==> Covers(available, required)
    ensures !IsNumber(required) ==> r == Fail(QuantitiesNotComparable(available, required))
    ensures IsNumber(required) && r.Fail? ==> r == Fail(BundleResourceShort(resource, required, available))
  {
    if !IsNumber(required) then Fail(QuantitiesNotComparable(available, required))
    else if NumberOf(available) < NumberOf(required) then Fail(BundleResourceShort(resource, required, available))
    else Pass
  }

  /** Every custom resource the actor asks for, from position `from` on, is
      covered by the bundle. */
  predicate ResourcesCovered(bundle: seq<(Value, Value)>, resources: seq<(Value, Value)>, from: nat)
    requires WellFormedBundle(VDict(bundle))
  {
    forall i :: from <= i < |resources| ==> Covers(Quantity(bundle, resources[i].0), resources[i].1)
  }

  /** Position of the first custom resource, from `from` on, that the
      bundle does not cover. */
  function FirstUncovered(bundle: seq<(Value, Value)>, resources: seq<(Value, Value)>, from: nat): (r: Option<nat>)
    requires WellFormedBundle(VDict(bundle))
    requires from <= |resources|
    ensures r.None? <==> ResourcesCovered(bundle, resources, from)
    ensures r.Some? ==> from <= r.value < |resources|
    ensures r.Some? ==> !Covers(Quantity(bundle, resources[r.value].0), resources[r.value].1)
    ensures r.Some? ==> ResourcesCovered(bundle, resources[..r.value], from)
    decreases |resources| - from
  {
    if from == |resources| then None
    else if !Covers(Quantity(bundle, resources[from].0), resources[from].1) then Some(from)
    else FirstUncovered(bundle, resources, from + 1)
  }

  /** The loop over the actor's custom resources, in iteration order: it
      stops at the first one the bundle does not cover. */
  function CheckResources(bundle: seq<(Value, Value)>, resources: seq<(Value, Value)>, from: nat): (r: Outcome<Error>)
    requires WellFormedBundle(VDict(bundle))
    requires from <= |resources|
    ensures r.Pass? <==> ResourcesCovered(bundle, resources, from)
    ensures r.Fail? ==>
      var i := FirstUncovered(bundle, resources, from).value;
      r == CheckCovers(resources[i].0, Quantity(bundle, resources[i].0), resources[i].1)
    decreases |resources| - from
  {
    if from == |resources| then Pass
    else
      var c := CheckCovers(resources[from].0, Quantity(bundle, resources[from].0), resources[from].1);
      if c.Fail? then c
      else CheckResources(bundle, resources, from + 1)
  }

  /** The replica actor fits into `bundle`: CPUs, GPUs and every custom
      resource (absent entries count as 0; `resources` must be a dict). */
  predicate FitsInBundle(bundle: seq<(Value, Value)>, actorOptions: seq<(Value, Value)>)
    requires WellFormedBundle(VDict(bundle))
  {
    var resources := Get(actorOptions, Resources, VDict([]));
    && Covers(Quantity(bundle, Cpu), Get(actorOptions, NumCpus, VInt(0)))
    && Covers(Quantity(bundle, Gpu), Get(actorOptions, NumGpus, VInt(0)))
    && resources.VDict?
    && ResourcesCovered(bundle, resources.entries, 0)
  }

  /** The cross-check against the first bundle: CPU, then GPU, then the
      custom resources. */
  function CheckFirstBundle(bundle: seq<(Value, Value)>, actorOptions: seq<(Value, Value)>): (r: Outcome<Error>)
    requires WellFormedBundle(VDict(bundle))
    ensures r.Pass? <==> FitsInBundle(bundle, actorOptions)
    ensures !Covers(Quantity(bundle, Cpu), Get(actorOptions, NumCpus, VInt(0))) ==>
      r == CheckCovers(Cpu, Quantity(bundle, Cpu), Get(actorOptions, NumCpus, VInt(0)))
    ensures Covers(Quantity(bundle, Cpu), Get(actorOptions, NumCpus, VInt(0))) &&
            !Covers(Quantity(bundle, Gpu), Get(actorOptions, NumGpus, VInt(0))) ==>
      r == CheckCovers(Gpu, Quantity(bundle, Gpu), Get(actorOptions, NumGpus, VInt(0)))
    ensures Covers(Quantity(bundle, Cpu), Get(actorOptions, NumCpus, VInt(0))) &&
            Covers(Quantity(bundle, Gpu), Get(actorOptions, NumGpus, VInt(0))) ==>
      var resources := Get(actorOptions, Resources, VDict([]));
      && (!resources.VDict? ==> r == Fail(ResourcesNotDict(resources)))
      && (resources.VDict? ==> r == CheckResources(bundle, resources.entries, 0))
  {
    var cpu := CheckCovers(Cpu, Quantity(bundle, Cpu), Get(actorOptions, NumCpus, VInt(0)));
    var gpu := CheckCovers(Gpu, Quantity(bundle, Gpu), Get(actorOptions, NumGpus, VInt(0)));
    var resources := Get(actorOptions, Resources, VDict([]));
    if cpu.Fail? then cpu
    else if gpu.Fail? then gpu
    else if !resources.VDict? then Fail(ResourcesNotDict(resources))
    else CheckResources(bundle, resources.entries, 0)
  }

  /** The bundle loop from position `from` on: each bundle must be a
      resource dictionary, and the first must hold the replica actor. */
  function CheckBundles(bundles: seq<Value>, from: nat, actorOptions: seq<(Value, Value)>): (r: Outcome<Error>)
    requires from <= |bundles|
    ensures r.Pass? <==>
      && (forall i :: from <= i < |bundles| ==> WellFormedBundle(bundles[i]))
      && (from == 0 < |bundles| && WellFormedBundle(bundles[0]) ==> FitsInBundle(bundles[0].entries, actorOptions))
    ensures from < |bundles| && !WellFormedBundle(bundles[from]) ==> r == Fail(BundlesNotNonEmptyListOfDicts)
    ensures from == 0 < |bundles| && WellFormedBundle(bundles[0]) && !FitsInBundle(bundles[0].entries, actorOptions) ==>
      r == CheckFirstBundle(bundles[0].entries, actorOptions)
    ensures r.Fail? && !(from == 0 < |bundles| && WellFormedBundle(bundles[0]) && !FitsInBundle(bundles[0].entries, actorOptions)) ==>
      r == Fail(BundlesNotNonEmptyListOfDicts)
    decreases |bundles| - from
  {
    if from == |bundles| then Pass
    else if !WellFormedBundle(bundles[from]) then Fail(BundlesNotNonEmptyListOfDicts)
    else if from == 0 && CheckFirstBundle(bundles[0].entries, actorOptions).Fail? then
      CheckFirstBundle(bundles[0].entries, actorOptions)
    else CheckBundles(bundles, from + 1, actorOptions)
  }

  /** The placement options are acceptable for a replica with these (already
      validated) actor options. */
  predicate PlacementOk(strategy: Option<string>, bundles: Value, actorOptions: seq<(Value, Value)>) {
    && (strategy.Some? ==> strategy.value in ValidStrategies && !bundles.VNone?)
    && (!bundles.VNone? ==>
          && bundles.VList?
          && |bundles.elems| > 0
          && (forall i :: 0 <= i < |bundles.elems| ==> WellFormedBundle(bundles.elems[i]))
          && FitsInBundle(bundles.elems[0].entries, actorOptions))
  }

  /** `_validate_placement_group_options`; `bundles` is `VNone` when no
      bundles were given. */
  function Validate(strategy: Option<string>, bundles: Value, actorOptions: seq<(Value, Value)>): (r: Outcome<Error>)
    ensures r.Pass? <==> PlacementOk(strategy, bundles, actorOptions)
    ensures strategy.Some? && strategy.value !in ValidStrategies ==>
      r == Fail(InvalidPlacementStrategy(strategy.value))
    ensures strategy.Some? && strategy.value in ValidStrategies && bundles.VNone? ==>
      r == Fail(StrategyWithoutBundles)
    ensures !bundles.VNone? && (!bundles.VList? || bundles.elems == []) &&
            (strategy.Some? ==> strategy.value in ValidStrategies) ==>
      r == Fail(BundlesNotNonEmptyListOfDicts)
    ensures strategy.None? && bundles.VNone? ==> r == Pass
    ensures (strategy.Some? ==> strategy.value in ValidStrategies) && bundles.VList? && |bundles.elems| > 0 ==>
      var first := bundles.elems[0];
      && (WellFormedBundle(first) && !FitsInBundle(first.entries, actorOptions) ==>
            r == CheckFirstBundle(first.entries, actorOptions))
      && (r.Fail? && !(WellFormedBundle(first) && !FitsInBundle(first.entries, actorOptions)) ==>
            r == Fail(BundlesNotNonEmptyListOfDicts))
  {
    if strategy.Some? && strategy.value !in ValidStrategies then
      Fail(InvalidPlacementStrategy(strategy.value))
    else if strategy.Some? && bundles.VNone? then
      Fail(StrategyWithoutBundles)
    else if bundles.VNone? then
      Pass
    else if !bundles.VList? || |bundles.elems| == 0 then
      Fail(BundlesNotNonEmptyListOfDicts)
    else
      CheckBundles(bundles.elems, 0, actorOptions)
  }
}
