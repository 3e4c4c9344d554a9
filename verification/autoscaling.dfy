/** `AutoscalingConfig`: the scaling bounds of a deployment and the
    tuning knobs of the autoscaler, validated on construction. */
module Autoscaling {
  import opened Wrappers
  import opened Errors

  datatype AutoscalingConfig = AutoscalingConfig(
    minReplicas: int,
    initialReplicas: Option<int>,
    maxReplicas: int,
    targetNumOngoingRequestsPerReplica: real,
    metricsIntervalS: real,
    lookBackPeriodS: real,
    smoothingFactor: real,
    downscaleDelayS: real,
    upscaleDelayS: real)

  /** The class's field defaults. */
  const Default := AutoscalingConfig(1, None, 1, 1.0, 10.0, 30.0, 1.0, 600.0, 30.0)

  /** The declared field types: `NonNegativeInt`, `Optional[NonNegativeInt]`,
      `PositiveInt`, four `PositiveFloat`s and two `NonNegativeFloat`s. */
  predicate FieldsInRange(c: AutoscalingConfig) {
    && c.minReplicas >= 0
    && (c.initialReplicas.Some? ==> c.initialReplicas.value >= 0)
    && c.maxReplicas > 0
    && c.targetNumOngoingRequestsPerReplica > 0.0
    && c.metricsIntervalS > 0.0
    && c.lookBackPeriodS > 0.0
    && c.smoothingFactor > 0.0
    && c.downscaleDelayS >= 0.0
    && c.upscaleDelayS >= 0.0
  }

  /** `min <= max`, and `min <= initial <= max` when an initial count is set. */
  predicate BoundsOrdered(minReplicas: int, initialReplicas: Option<int>, maxReplicas: int) {
    && minReplicas <= maxReplicas
    && (initialReplicas.Some? ==> minReplicas <= initialReplicas.value <= maxReplicas)
  }

  predicate Valid(c: AutoscalingConfig) {
    FieldsInRange(c) && BoundsOrdered(c.minReplicas, c.initialReplicas, c.maxReplicas)
  }

  /** Every violated pair of the three bounds, in the order the validator
      looks at them. */
  function BoundViolations(minReplicas: int, initialReplicas: Option<int>, maxReplicas: int): seq<Error> {
    (if maxReplicas < minReplicas then [MaxBelowMin(maxReplicas, minReplicas)] else [])
    + (if initialReplicas.Some? && initialReplicas.value < minReplicas
       then [InitialBelowMin(minReplicas, initialReplicas.value)] else [])
    + (if initialReplicas.Some? && initialReplicas.value > maxReplicas
       then [InitialAboveMax(maxReplicas, initialReplicas.value)] else [])
  }

  /** The `max_replicas` validator. `minReplicas` / `initialReplicas` are
      what pydantic hands it: `None` when that field failed its own check
      (or, for the initial count, was not given). */
  function ReplicasSettingsValid(minReplicas: Option<int>, initialReplicas: Option<int>, maxReplicas: int): (r: Result<int, Error>)
    ensures r.Success? ==> r.value == maxReplicas
    ensures minReplicas.Some? ==>
      r == var vs := BoundViolations(minReplicas.value, initialReplicas, maxReplicas);
           if vs == [] then Success(maxReplicas) else Failure(vs[0])
    ensures minReplicas.Some? ==>
      (r.Success? <==> BoundsOrdered(minReplicas.value, initialReplicas, maxReplicas))
    ensures minReplicas.None? ==>
      (r.Success? <==> initialReplicas.None?)
  {
    if minReplicas.Some? && maxReplicas < minReplicas.value then
      Failure(MaxBelowMin(maxReplicas, minReplicas.value))
    else if initialReplicas.Some? then
      if minReplicas.None? then
        Failure(InitialComparedWithNone(initialReplicas.value))
      else if initialReplicas.value < minReplicas.value then
        Failure(InitialBelowMin(minReplicas.value, initialReplicas.value))
      else if initialReplicas.value > maxReplicas then
        Failure(InitialAboveMax(maxReplicas, initialReplicas.value))
      else
        Success(maxReplicas)
    else
      Success(maxReplicas)
  }

  function RangeError(violated: bool, field: string, bound: Bound): seq<Error> {
    if violated then [OutOfRange(field, bound)] else []
  }

  /** Every field error of a construction, in field order. The bounds
      validator runs only when `max_replicas` passed its own check, and
      sees only the earlier fields that passed theirs. */
  function FieldErrors(c: AutoscalingConfig): seq<Error> {
    var minSeen := if c.minReplicas >= 0 then Some(c.minReplicas) else None;
    var initialSeen :=
      if c.initialReplicas.Some? && c.initialReplicas.value < 0 then None else c.initialReplicas;
    RangeError(c.minReplicas < 0, "min_replicas", NonNegative)
    + RangeError(c.initialReplicas.Some? && c.initialReplicas.value < 0, "initial_replicas", NonNegative)
    + (if c.maxReplicas <= 0 then [OutOfRange("max_replicas", Positive)]
       else match ReplicasSettingsValid(minSeen, initialSeen, c.maxReplicas)
            case Success(_) => []
            case Failure(e) => [e])
    + RangeError(c.targetNumOngoingRequestsPerReplica <= 0.0, "target_num_ongoing_requests_per_replica", Positive)
    + RangeError(c.metricsIntervalS <= 0.0, "metrics_interval_s", Positive)
    + RangeError(c.lookBackPeriodS <= 0.0, "look_back_period_s", Positive)
    + RangeError(c.smoothingFactor <= 0.0, "smoothing_factor", Positive)
    + RangeError(c.downscaleDelayS < 0.0, "downscale_delay_s", NonNegative)
    + RangeError(c.upscaleDelayS < 0.0, "upscale_delay_s", NonNegative)
  }

  /** `AutoscalingConfig(**fields)`. */
  function New(c: AutoscalingConfig): (r: Result<AutoscalingConfig, Error>)
    ensures r.Success? <==> Valid(c)
    ensures r.Success? ==> r.value == c
    ensures r.Failure? ==> r.error.Validation? && |r.error.errors| > 0
    ensures FieldsInRange(c) && !Valid(c) ==>
      r == Failure(Validation([BoundViolations(c.minReplicas, c.initialReplicas, c.maxReplicas)[0]]))
    ensures c.minReplicas < 0 && c.maxReplicas > 0 && c.initialReplicas.Some? && c.initialReplicas.value >= 0 ==>
      r.Failure? && InitialComparedWithNone(c.initialReplicas.value) in r.error.errors
  {
    var errs := FieldErrors(c);
    assert FieldsInRange(c) ==>
      errs == match ReplicasSettingsValid(Some(c.minReplicas), c.initialReplicas, c.maxReplicas)
              case Success(_) => []
              case Failure(e) => [e];
    if errs == [] then Success(c) else Failure(Validation(errs))
  }

  lemma DefaultIsValid()
    ensures New(Default) == Success(Default)
  {
  }
}
