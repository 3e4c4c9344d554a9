/** The exceptions the configuration layer raises. Each constructor's
    comment names the Python exception class it stands for. */
module Errors {
  import opened Values

  /** The declared range of a pydantic field (`NonNegative*` / `Positive*`). */
  datatype Bound = NonNegative | Positive

  /** Which opaque payload an encode or decode step was working on. */
  datatype Payload = DeploymentDefPayload | InitArgsPayload | InitKwargsPayload | UserConfigPayload

  datatype Error =
      /** pydantic.ValidationError: every field error of one construction or
          assignment, in field declaration order. */
    | Validation(errors: seq<Error>)
      /** A field outside its declared range (inside a ValidationError). */
    | OutOfRange(field: string, bound: Bound)
      /** A value of the wrong type for a field (inside a ValidationError). */
    | WrongFieldType(field: string)
      /** ValueError from `replicas_settings_valid`. */
    | MaxBelowMin(maxReplicas: int, minReplicas: int)
    | InitialBelowMin(minReplicas: int, initialReplicas: int)
    | InitialAboveMax(maxReplicas: int, initialReplicas: int)
      /** TypeError: `initial_replicas < None` when min_replicas failed its own check. */
    | InitialComparedWithNone(initialReplicas: int)
      /** ValueError from `set_max_queries_by_mode`. */
    | NonPositiveMaxConcurrentQueries(queries: int)
      /** ValueError from `user_config_json_serializable`. */
    | UserConfigNotJsonSerializable(value: Value)
      /** TypeError from `DeploymentConfig.from_default`. */
    | UnknownDeploymentOption(key: string, validOptions: set<string>)
      /** TypeError from protobuf: a non-bytes value for a bytes field. */
    | NotBytesOnWire(field: string)
      /** pickling failed (cloudpickle error, or `pickle_dumps`' TypeError). */
    | SerializationFailed(payload: Payload)
      /** unpickling failed (including `cloudpickle.loads(None)`'s TypeError). */
    | DeserializationFailed(payload: Payload)
      /** UnicodeDecodeError. */
    | Utf8DecodeFailed
      /** TypeError from `json.dumps`. */
    | JsonEncodeFailed(field: string)
      /** json.JSONDecodeError. */
    | JsonDecodeFailed(field: string)
      /** TypeError: `ray_actor_options` is not a dict. */
    | ActorOptionsNotDict(value: Value)
      /** ValueError: a key outside the actor-option allow-list. */
    | ActorOptionNotAllowed(option: Value)
      /** ValueError: a strategy outside the valid placement strategies. */
    | InvalidPlacementStrategy(strategy: string)
      /** ValueError: a strategy without bundles. */
    | StrategyWithoutBundles
      /** ValueError: bundles are not a non-empty list of str-to-number dicts. */
    | BundlesNotNonEmptyListOfDicts
      /** ValueError: bundle 0 has less of `resource` than the actor needs. */
    | BundleResourceShort(resource: Value, required: Value, available: Value)
      /** TypeError from `<` between a bundle quantity and a non-number. */
    | QuantitiesNotComparable(available: Value, required: Value)
      /** AttributeError: the actor's `resources` has no `.items()`. */
    | ResourcesNotDict(value: Value)
      /** ValueError from `ReplicaConfig.create`. */
    | InitArgsForFunction
    | InitKwargsForFunction
      /** TypeError: the deployment definition is neither callable nor a str. */
    | InvalidDeploymentDefType(value: Value)
      /** AttributeError: the deployment definition has no `__name__`. */
    | MissingName(value: Value)
      /** ValueError from `fixed_number_replicas_should_exist`. */
    | FixedNumberReplicasMissing
}
