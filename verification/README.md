# Ray Serve deployment configuration, modelled in Dafny

This project models the configuration layer of Ray Serve
(`python/ray/serve/config.py`). Each deployment carries three records:

- **`DeploymentConfig`** holds the runtime tunables:
  - replica count and `max_concurrent_queries` (the default is filled in by a validator);
  - a JSON-serializable `user_config`;
  - shutdown and health-check timings;
  - an optional nested **`AutoscalingConfig`**, whose `min ≤ initial ≤ max` replica bounds are validated;
  - language flags that decide whether `user_config` travels pickled;
  - a version;
  - the set of option names the user set explicitly.
- **`ReplicaConfig`** says what a replica runs and what its actor needs:
  - the deployment definition and its constructor arguments, kept serialized and deserialized lazily on first access;
  - Ray actor options, restricted to an allow-list and given one CPU by default;
  - optional placement-group bundles and strategy, where the replica actor must fit into the first bundle.
- **`HTTPOptions`** has two validators that tie the proxy location to the host and to the fixed replica count.

Both `DeploymentConfig` and `ReplicaConfig` also have a wire form (`to_proto` / `from_proto`).

Python objects are the `Values.Value` datatype:
- dicts are ordered association lists, so "the first offending key" follows Python's iteration order;
- floats are exact reals.

Validation failures are the `Errors.Error` datatype:
- a pydantic `ValidationError` carries every field error in field order;
- the `TypeError`s and `ValueError`s the code raises itself are separate constructors.

cloudpickle, the `json` module, UTF-8 decoding and Ray's `resources_from_ray_options` are function-valued parameters (`Serializers.Pickler`, `Serializers.Json`, `ReplicaConfigs.Env`). What the model relies on from them is stated as predicates (`LawfulPickler`, `LawfulJson`), which the round-trip lemmas require:
- a pickle is never empty, and it loads back to the value that was dumped;
- `json.dumps` succeeds exactly on JSON-encodable values and never writes an empty document;
- `json.loads` only builds JSON-native values.

These laws hold wherever the serializer succeeds, and say nothing about which values it succeeds on. A law that every float pickles and loads back could not be met: `dumps` would have to map all reals one-to-one into byte strings. So the round-trip lemmas take per-value hypotheses instead:
- cloudpickle accepts this `user_config`, or these constructor arguments;
- `JsonRoundTrips`: `json.loads(json.dumps(v)) == v` for these actor options and bundles.

`Serializers.TablePickler` and `Serializers.PairJson` are concrete serializers that satisfy the laws and the per-value hypotheses. The witness lemmas use them to show the round-trip statements are not vacuous.

Modules, in dependency order:
- `Wrappers`, `Values`, `Errors`, `Serializers`;
- `Autoscaling`, `Languages`;
- `DeploymentConfigs`, `DeploymentCodec`;
- `ActorOptions`, `Placement`;
- `ReplicaConfigs`, `ReplicaCodec`;
- `HttpOptions`.

## Model

| member | source | states |
|---|---|---|
| Autoscaling.ReplicasSettingsValid | python/ray/serve/config.py:81-103 | With a minimum, the validator returns the first violated bound of `max ≥ min`, `initial ≥ min`, `initial ≤ max`, in that order, and accepts exactly when the bounds are ordered. Without a minimum, any initial count is rejected (comparing with None fails). On success the value is `max_replicas`. |
| Autoscaling.New | python/ray/serve/config.py:50-103 | Construction succeeds exactly for configs in the declared ranges with ordered bounds. An in-range config with disordered bounds fails with the first bound violation only. A negative minimum with a valid initial count reports the None comparison. |
| Autoscaling.DefaultIsValid | python/ray/serve/config.py:54-79 | The class defaults pass validation. |
| Languages.NeedsPickle | python/ray/serve/config.py:113-123 | Pickling is needed exactly when "is Python" differs from "is cross-language". |
| Languages.NeedsPickleTruthTable | python/ray/serve/config.py:113-123 | The four language/cross-language cases: Python-local and Java-cross pickle, the other two do not. |
| DeploymentConfigs.SetMaxQueriesByMode | python/ray/serve/config.py:208-215 | An absent value becomes the default; a given value passes exactly when positive (0 is rejected); the error carries the rejected value. |
| DeploymentConfigs.SetMaxQueriesByModeIdempotent | python/ray/serve/config.py:208-215 | With a positive default, the value the validator stores passes it again unchanged. |
| DeploymentConfigs.UserConfigJsonSerializable | python/ray/serve/config.py:217-227 | `user_config` is accepted exactly when it is bytes or JSON-encodable (None included), and is stored unchanged. |
| DeploymentConfigs.FieldNamed | python/ray/serve/config.py:302-303 | A keyword names a field exactly when it is one of the config's field names, and then it names exactly one field. |
| DeploymentConfigs.ValidateField | python/ray/serve/config.py:154-227 | Each field value passes exactly its declared constraint: non-negative/positive numbers, the positive query limit, the `user_config` gate. Only an absent query limit is replaced, by the default. |
| DeploymentConfigs.Assign | python/ray/serve/config.py:202-227 | Under `validate_assignment`, an assignment succeeds exactly when the value has the field's type and passes its validation. It changes that field alone. It keeps a valid config valid. A rejection is a one-error `ValidationError`. |
| DeploymentConfigs.Default | python/ray/serve/config.py:154-200 | `DeploymentConfig()` is valid when the imported defaults are in range. It has no user config, version or autoscaling config, and no user-configured option names. |
| DeploymentConfigs.New | python/ray/serve/config.py:154-227 | Construction from all fields succeeds exactly when every field constraint holds, returns the fields unchanged, and otherwise reports at least one error. |
| DeploymentConfigs.FirstUnknown | python/ray/serve/config.py:306-313 | Finds the first keyword, in argument order, that is not a field name, or none exactly when all keywords are fields. |
| DeploymentConfigs.ApplyOverrides | python/ray/serve/config.py:315-318 | Skipping `DEFAULT.VALUE`, the assignments succeed exactly when every given value is accepted. Afterwards each field holds its last given value (normalized) or is unchanged. Validity is preserved. |
| DeploymentConfigs.FromDefault | python/ray/serve/config.py:291-320 | An unknown keyword raises the "invalid option" error naming the first one. Otherwise the call succeeds exactly when every given value is accepted. Each field of the result is the given value or the default, and the result is valid. |
| DeploymentConfigs.FromDefaultOfDefaults | python/ray/serve/config.py:291-320 | Keywords that are all `DEFAULT.VALUE` give exactly `DeploymentConfig()`. |
| DeploymentCodec.ListOfSet | python/ray/serve/config.py:241-243 | `list(set)` lists every option name exactly once and nothing else. |
| DeploymentCodec.EncodeUserConfig | python/ray/serve/config.py:232-236 | None goes out as empty bytes. A pickled config encodes exactly when cloudpickle can dump it, and the wire bytes are that pickle. An unpickled config encodes exactly when it is bytes, and those bytes go out as they are. A failure names the pickle, or the bytes field that rejected a non-bytes value. |
| DeploymentCodec.EncodeSucceeds | python/ray/serve/config.py:232-244 | When cloudpickle accepts the `user_config` of a pickled config, the config can be sent exactly when it is pickled or its `user_config` is None or bytes. A non-pickled config carrying any other value is rejected by the bytes field. |
| DeploymentCodec.AutoscalingRoundTrip | python/ray/serve/config.py:275-276 | A valid autoscaling config passes through its wire message and re-validation unchanged. |
| DeploymentCodec.DecodeUserConfig | python/ray/serve/config.py:257-274 | Empty wire bytes decode to None, whatever the language flags. Other bytes are unpickled when the decoded language flags call for pickling (an unreadable pickle fails) and are otherwise kept as raw bytes. |
| DeploymentCodec.FromProto | python/ray/serve/config.py:248-284 | Decoding copies the scalar fields and language flags. It maps the empty `version` to None and turns the option-name list into the set of its elements. It decodes `user_config` by the decoded language flags, and it rebuilds and re-validates the nested autoscaling config, whose error is returned. Construction then re-checks every field: once `user_config` and autoscaling decode, decoding succeeds exactly when every field constraint holds, so a wire query limit of 0 is rejected. The result is valid. |
| DeploymentCodec.DecodeEncode | python/ray/serve/config.py:232-284 | For a valid config that encodes, a lawful pickler and any enumeration of the option names, `from_proto(to_proto(c))` is `c` with an empty version and an empty unpickled `user_config` turned into None. |
| DeploymentCodec.RoundTrip | python/ray/serve/config.py:232-284 | A valid config round-trips unchanged when it has no empty-string version and no empty raw `user_config`, and its `user_config` is accepted by cloudpickle (when pickled) or is None or bytes (when not). |
| DeploymentCodec.RoundTripWitness | python/ray/serve/config.py:232-284 | A concrete pickled config, the default with `user_config` 7, survives `to_proto` then `from_proto` through a lawful pickler. The round trip is not vacuous. |
| DeploymentCodec.ToProto | python/ray/serve/config.py:232-244 | `to_proto` succeeds exactly when `user_config` can be encoded. Its option-name list enumerates the set. For a valid config and a lawful pickler, decoding its result gives back the config's wire image. |
| ActorOptions.FirstDisallowed | python/ray/serve/config.py:470-487 | Finds the first actor-option key, in iteration order, outside the allow-list, or none exactly when all are allowed. |
| ActorOptions.Validate | python/ray/serve/config.py:462-492 | A non-dict is a `TypeError`. The options are accepted exactly when every key is allowed; otherwise the error names the first disallowed key. `num_cpus` becomes 1 when absent or None and is kept otherwise. Every other key reads as before, and keys stay distinct. |
| ActorOptions.ValidateIdempotent | python/ray/serve/config.py:462-492 | Validating already validated options returns them unchanged. |
| Placement.CheckCovers | python/ray/serve/config.py:535-574 | One comparison of the bundle-0 cross-check passes exactly when the bundle quantity covers the requirement. A non-numeric requirement is a comparison `TypeError`; a short one names the resource, the requirement and what the bundle has. |
| Placement.FirstUncovered | python/ray/serve/config.py:561-574 | Finds the first custom resource the bundle does not cover, or none exactly when all are covered. |
| Placement.CheckResources | python/ray/serve/config.py:561-574 | The custom-resource loop passes exactly when every resource is covered, and otherwise fails on the first uncovered one. |
| Placement.CheckFirstBundle | python/ray/serve/config.py:535-574 | The actor fits in bundle 0 exactly when its CPUs, its GPUs and each of its custom resources are covered, absent entries counting as 0, and its `resources` is a dict. Checks run in order: a CPU shortfall is reported first, then a GPU shortfall, then a `resources` value that is not a dict, then the first uncovered custom resource. |
| Placement.CheckBundles | python/ray/serve/config.py:523-574 | The bundle loop passes exactly when every bundle is a dict of string keys to numbers and the actor fits in the first. A well-formed first bundle that does not hold the actor fails with the first-bundle error, even when a later bundle is malformed. Every other failure is the "non-empty list of resource dictionaries" error. |
| Placement.Validate | python/ray/serve/config.py:494-574 | The placement options pass exactly when the strategy (if any) is known and comes with bundles, and the bundles (if any) form a non-empty list of resource dicts whose first holds the actor. In the code's order of checks: an unknown strategy, then a strategy without bundles, then bundles that are not a non-empty list. Inside the loop, a first bundle that does not hold the actor gives the first-bundle error, and any other failure is a malformed-bundle error. |
| ReplicaConfigs.New | python/ray/serve/config.py:349-389 | Actor options are validated first and their error wins. The config is then built exactly when the placement options fit the validated actor options. The stored actor options are the validated ones, with `num_cpus` defaulted to 1. The result is valid, nothing is deserialized yet, and the other fields are as given. |
| ReplicaConfigs.UpdateRayActorOptions | python/ray/serve/config.py:391-394 | The update succeeds exactly when the new options validate, and it stores the validated options. It changes only the options and the resource dict, which is derived from the new options. A valid config stays valid exactly when its placement still holds the actor. |
| ReplicaConfigs.ActorUpdateSkipsPlacementCheck | python/ray/serve/config.py:391-394 | A concrete valid config becomes invalid after an accepted update that asks for more CPUs than bundle 0 has. |
| ReplicaConfigs.UpdatePlacementGroupOptions | python/ray/serve/config.py:396-403 | The update succeeds exactly when the new placement options fit the current actor options. It changes only bundles and strategy, and keeps a valid config valid. |
| ReplicaConfigs.DefinitionName | python/ray/serve/config.py:437-441 | The name is the string itself for an import path, or the `__name__` of a function or class. A callable object without a `__name__` fails. |
| ReplicaConfigs.Create | python/ray/serve/config.py:405-460 | A function with truthy `init_args` (then `init_kwargs`) is rejected, and a value neither callable nor str is a `TypeError`. An unnamed callable object without `__name__` fails. The result is valid and pickled. Its caches hold the definition and the defaulted arguments, and its serialized fields are their pickles. Its actor options are the validated options (`{}` for None). The bundles and strategy are as given. The name is the given one, else the string, else `__name__`. When cloudpickle accepts the definition and both defaulted arguments, and the definition is named (or an explicit name is given), creation succeeds exactly when the actor options validate and the placement fits them. |
| ReplicaConfigs.DeploymentDef | python/ray/serve/config.py:576-596 | A cache hit returns the cached value unchanged. Otherwise the definition is unpickled, or decoded as UTF-8 when not pickled, with the matching error, and cached. |
| ReplicaConfigs.InitArgs | python/ray/serve/config.py:598-611 | A cache hit returns the cache. Otherwise the arguments are unpickled (an absent payload fails), or returned raw when not pickled (an absent payload reads as None), and cached. |
| ReplicaConfigs.InitKwargs | python/ray/serve/config.py:613-624 | A cache hit returns the cache. Otherwise the keyword arguments are always unpickled, and an absent payload fails. |
| ReplicaConfigs.AccessorsAreStable | python/ray/serve/config.py:576-624 | Reading any accessor a second time returns the same value and config. |
| ReplicaConfigs.CreatedConfigAccessors | python/ray/serve/config.py:405-460 | A created config's accessors return what was passed to `create`. With a lawful pickler, they return the same after the caches are dropped: cache and serialized form agree. |
| ReplicaConfigs.InitKwargsIgnoresNeedsPickle | python/ray/serve/config.py:598-624 | For a non-pickled config with no payloads, `init_args` reads as None but `init_kwargs` fails to unpickle. |
| ReplicaCodec.ToProto | python/ray/serve/config.py:648-659 | Encoding succeeds exactly when `json.dumps` accepts the actor options (and the bundles, if any); under a lawful json module, that means exactly when they are JSON-encodable. The name and definition bytes go out as they are. The options and bundles go out as their JSON text. Absent arguments, strategy and bundles go out as `b""`, `""` and `""`. With a lawful json module, bundles go out empty exactly when absent. |
| ReplicaCodec.FromProto | python/ray/serve/config.py:626-641 | Decoding yields a valid, not yet deserialized config. Its name and definition bytes come from the message, and its non-empty arguments and strategy are the message's. Its absent arguments, strategy and bundles are exactly the empty sentinels. Unparsable actor-option or bundle JSON fails. Otherwise construction re-runs both validators: an actor-option error is returned, and decoding succeeds exactly when the parsed placement fits the validated options, which are the ones stored. |
| ReplicaCodec.RoundTrip | python/ray/serve/config.py:626-659 | Take a valid config with non-empty (or absent) argument payloads, and a lawful json module that reads back its actor options and bundles. The config comes back from the wire equal to itself with its caches dropped. |
| ReplicaCodec.CreatedConfigSurvivesWire | python/ray/serve/config.py:405-659 | Take a lawful pickler and a lawful json module that reads back the options and bundles. A config made by `create` and sent over the wire yields, on first access, the definition and arguments it was created with. |
| ReplicaCodec.RoundTripWitness | python/ray/serve/config.py:626-659 | A concrete one-CPU config without placement options survives `to_proto` then `from_proto` through a lawful json module. |
| ReplicaCodec.CreatedConfigSurvivesWireWitness | python/ray/serve/config.py:405-659 | A class deployment created with every argument at None, through concrete lawful serializers, is created, sent and read back, and its definition loads as the original class. |
| HttpOptions.LocationBackfillNoServer | python/ray/serve/config.py:689-693 | The location is NoServer exactly when the host or the location is missing or the location is NoServer already; otherwise it is kept. |
| HttpOptions.FixedNumberReplicasShouldExist | python/ray/serve/config.py:695-702 | Fails exactly when the location is FixedNumber and no replica count is given; otherwise returns the count. |
| HttpOptions.New | python/ray/serve/config.py:675-702 | Construction succeeds exactly when the backfilled location is not FixedNumber without a count. The stored location is the backfilled one: NoServer when host or location is missing, else the given location. The result keeps host and count, and is consistent: no host means NoServer, FixedNumber means a count. |
| HttpOptions.AssignHost | python/ray/serve/config.py:675-705 | Assigning `host` under `validate_assignment` runs no validator: it sets the host and changes nothing else. The location backfill is not re-run. |
| HttpOptions.AssignLocation | python/ray/serve/config.py:689-708 | Assigning the location backfills it against the current host, changes nothing else, and keeps consistency unless the new location is FixedNumber. |
| HttpOptions.AssignFixedNumberReplicas | python/ray/serve/config.py:695-708 | Assigning the count succeeds exactly when it is not cleared under FixedNumber. It changes only the count and keeps consistency. |
| HttpOptions.AssignmentsCanBreakConsistency | python/ray/serve/config.py:675-708 | Assigning the host or the location can leave options that the constructor would have backfilled or rejected. |
| Values.PutSemantics | python/ray/serve/config.py:491-492 | A dict store sets the key and leaves every other key's value alone. It adds no key but the stored one, and keeps keys distinct. |

## Left out

- Pydantic's type coercion is not modelled (strings to numbers, dicts to `AutoscalingConfig`, ints to enum members, and so on). Each field takes values of its declared type; a value of another field's type is rejected as a wrong type.
- A pydantic `AutoscalingConfig` instance given to a `DeploymentConfig` is not validated again there. The model takes nested autoscaling configs as already validated.
- `deployment_language` is typed `Any` in the source; the model allows only the two wire enum values, Python and Java.
- Floats are exact reals: no NaN, no infinities, no rounding. They are only ever compared here.
- Integer widths of the wire messages are not modelled, so there is no `uint32`/`int32` truncation. The wire schema (`serve.proto`) is not part of this model. The model takes the autoscaling message to keep the presence of `initial_replicas`.
- `MessageToDict`'s base64 and JSON rendering is collapsed into direct field access.
- The `*_bytes` wrappers (`to_proto_bytes`, `from_proto_bytes`) are left out: they only add protobuf's own encoding.
- Dict keys compare as `Value`s, so the hash equality of `1`, `True` and `1.0` as Python dict keys is not modelled.
- Python's in-place updates are modelled as returned values:
  - the caller's `ray_actor_options` dict being mutated by the `num_cpus` default is not modelled;
  - the fields that the `update_*` methods assign before validating stay assigned after a failed validation; this partial update is not modelled, and a failure returns only the error.
- `ray_option_utils.validate_actor_options` and `resources_from_ray_options` are outside this model. The first is taken to accept every allow-listed option; the second is a parameter.
- `VALID_PLACEMENT_GROUP_STRATEGIES` comes from Ray's placement-group module, which is not part of this model. The model uses its four values: PACK, SPREAD, STRICT_PACK and STRICT_SPREAD.
- The `DEFAULT_*` constants of `DeploymentConfig` come from Serve's constants module, which is not part of this model; they are the `Defaults` parameter. The HTTP defaults are left out for the same reason.
- The `update_type` field annotations are listed in `DeploymentConfigs.UpdateType` without any property: nothing in this file reads them.
- `HTTPOptions` validators read `values["host"]` and `values["location"]`. With typed fields these keys are always present, so the `KeyError` raised when one of them failed its own check is not modelled.
- Concurrency and locking around the lazy accessors are not modelled, nor is logging.
- `gRPCOptions` and its servicer-function import are not modelled.
- `python/ray/train/sklearn/sklearn_checkpoint.py` is not part of this model.
- ActorOptions.Validate: the options are taken to be a Python dict, but the distinctness of its keys is not required, so key distinctness of the result is stated only for inputs that have it.
