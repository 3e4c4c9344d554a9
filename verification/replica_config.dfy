/** `ReplicaConfig`: what a replica runs (the deployment definition and its
    constructor arguments, kept serialized and deserialized lazily) and the
    Ray resources its actor asks for. */
module ReplicaConfigs {
  import opened Wrappers
  import opened Values
  import opened Errors
  import opened Serializers
  import ActorOptions
  import Placement

  /** The collaborators the configuration calls but does not define:
      cloudpickle, the json module, UTF-8 decoding and Ray's
      `resources_from_ray_options`. */
  datatype Env = Env(
    pickler: Pickler,
    json: Json,
    utf8Decode: Bytes -> Option<string>,
    resourcesFromRayOptions: seq<(Value, Value)> -> Value)

  /** The three `cached…` fields are the lazily filled `_deployment_def`,
      `_init_args` and `_init_kwargs`; `VNone` means not loaded yet. An
      absent serialized argument (`None`) is `None` here. */
  datatype ReplicaConfig = ReplicaConfig(
    deploymentDefName: string,
    serializedDeploymentDef: Bytes,
    serializedInitArgs: Option<Bytes>,
    serializedInitKwargs: Option<Bytes>,
    rayActorOptions: seq<(Value, Value)>,
    placementGroupBundles: Value,
    placementGroupStrategy: Option<string>,
    resourceDict: Value,
    needsPickle: bool,
    cachedDeploymentDef: Value,
    cachedInitArgs: Value,
    cachedInitKwargs: Value)
  {
    /** The same config with nothing deserialized yet. */
    function Unloaded(): ReplicaConfig {
      this.(cachedDeploymentDef := VNone, cachedInitArgs := VNone, cachedInitKwargs := VNone)
    }
  }

  /** What construction guarantees: normalized actor options, placement
      options that hold the actor, and a resource dict derived from the
      actor options. */
  predicate Valid(rc: ReplicaConfig, env: Env) {
    && ActorOptions.Normalized(rc.rayActorOptions)
    && Placement.PlacementOk(rc.placementGroupStrategy, rc.placementGroupBundles, rc.rayActorOptions)
    && rc.resourceDict == env.resourcesFromRayOptions(rc.rayActorOptions)
  }

  /** `ReplicaConfig(...)`: validate the actor options (filling in the CPU
      default), then the placement options against them. */
  function New(
    name: string, serializedDeploymentDef: Bytes,
    serializedInitArgs: Option<Bytes>, serializedInitKwargs: Option<Bytes>,
    rayActorOptions: Value, bundles: Value, strategy: Option<string>,
    needsPickle: bool, env: Env): (r: Result<ReplicaConfig, Error>)
    ensures ActorOptions.Validate(rayActorOptions).Failure? ==>
      r == Failure(ActorOptions.Validate(rayActorOptions).error)
    ensures ActorOptions.Validate(rayActorOptions).Success? ==>
      var options := ActorOptions.Validate(rayActorOptions).value;
      && (r.Success? <==> Placement.PlacementOk(strategy, bundles, options))
      && (r.Failure? ==> r == Failure(Placement.Validate(strategy, bundles, options).error))
    ensures r.Success? ==> Valid(r.value, env)
    ensures r.Success? ==> r.value == r.value.Unloaded()
    ensures r.Success? ==> ActorOptions.Validate(rayActorOptions).Success?
    ensures r.Success? ==> r.value.rayActorOptions == ActorOptions.Validate(rayActorOptions).value
    ensures r.Success? ==>
      && r.value.deploymentDefName == name
      && r.value.serializedDeploymentDef == serializedDeploymentDef
      && r.value.serializedInitArgs == serializedInitArgs
      && r.value.serializedInitKwargs == serializedInitKwargs
      && r.value.placementGroupBundles == bundles
      && r.value.placementGroupStrategy == strategy
      && r.value.needsPickle == needsPickle
  {
    var options :- ActorOptions.Validate(rayActorOptions);
    var placement := Placement.Validate(strategy, bundles, options);
    if placement.Fail? then Failure(placement.error)
    else
      Success(ReplicaConfig(
        name, serializedDeploymentDef, serializedInitArgs, serializedInitKwargs,
        options, bundles, strategy, env.resourcesFromRayOptions(options), needsPickle,
        VNone, VNone, VNone))
  }

  /** `update_ray_actor_options`: the new options are validated on their
      own; the placement options are not checked against them again. */
  function UpdateRayActorOptions(rc: ReplicaConfig, rayActorOptions: Value, env: Env): (r: Result<ReplicaConfig, Error>)
    ensures r.Success? <==> ActorOptions.Validate(rayActorOptions).Success?
    ensures r.Failure? ==> r.error == ActorOptions.Validate(rayActorOptions).error
    ensures r.Success? ==> ActorOptions.Normalized(r.value.rayActorOptions)
    ensures r.Success? ==> r.value.rayActorOptions == ActorOptions.Validate(rayActorOptions).value
    ensures r.Success? ==> r.value.resourceDict == env.resourcesFromRayOptions(r.value.rayActorOptions)
    ensures r.Success? ==>
      r.value.(rayActorOptions := rc.rayActorOptions, resourceDict := rc.resourceDict) == rc
    ensures r.Success? && Valid(rc, env) ==>
      (Valid(r.value, env) <==>
        Placement.PlacementOk(rc.placementGroupStrategy, rc.placementGroupBundles, r.value.rayActorOptions))
  {
    var options :- ActorOptions.Validate(rayActorOptions);
    Success(rc.(rayActorOptions := options, resourceDict := env.resourcesFromRayOptions(options)))
  }

  /** `update_placement_group_options`: checked against the current actor
      options. */
  function UpdatePlacementGroupOptions(rc: ReplicaConfig, bundles: Value, strategy: Option<string>): (r: Result<ReplicaConfig, Error>)
    ensures r.Success? <==> Placement.PlacementOk(strategy, bundles, rc.rayActorOptions)
    ensures r.Failure? ==> r.error == Placement.Validate(strategy, bundles, rc.rayActorOptions).error
    ensures r.Success? ==>
      && r.value.placementGroupBundles == bundles
      && r.value.placementGroupStrategy == strategy
      && r.value.(placementGroupBundles := rc.placementGroupBundles,
                  placementGroupStrategy := rc.placementGroupStrategy) == rc
    ensures forall env :: Valid(rc, env) && r.Success? ==> Valid(r.value, env)
  {
    var placement := Placement.Validate(strategy, bundles, rc.rayActorOptions);
    if placement.Fail? then Failure(placement.error)
    else Success(rc.(placementGroupBundles := bundles, placementGroupStrategy := strategy))
  }

  /** A config that holds its actor and then, after `update_ray_actor_options`
      asks for more CPUs than its first bundle has, no longer does. */
  lemma ActorUpdateSkipsPlacementCheck(env: Env)
    ensures var bundles := VList([VDict([(VStr("CPU"), VInt(1))])]);
      var options := [(VStr("num_cpus"), VInt(1))];
      var rc := ReplicaConfig("f", [1], None, None, options, bundles, None,
                              env.resourcesFromRayOptions(options), true, VNone, VNone, VNone);
      var r := UpdateRayActorOptions(rc, VDict([(VStr("num_cpus"), VInt(2))]), env);
      Valid(rc, env) && r.Success? && !Valid(r.value, env)
  {
    var bundle := [(VStr("CPU"), VInt(1))];
    assert Get(bundle, VStr("CPU"), VInt(0)) == VInt(1);
    assert Get([(VStr("num_cpus"), VInt(2))], VStr("num_cpus"), VInt(0)) == VInt(2);
  }

  // ---------------------------------------------------------------------
  // create

  function Pickle(pickler: Pickler, v: Value, payload: Payload): (r: Result<Bytes, Error>)
    ensures r.Success? <==> pickler.dumps(v).Some?
    ensures r.Success? ==> r.value == pickler.dumps(v).value
    ensures r.Failure? ==> r.error == SerializationFailed(payload)
  {
    match pickler.dumps(v)
    case None => Failure(SerializationFailed(payload))
    case Some(bs) => Success(bs)
  }

  function Unpickle(pickler: Pickler, bs: Option<Bytes>, payload: Payload): (r: Result<Value, Error>)
    ensures r.Success? <==> bs.Some? && pickler.loads(bs.value).Some?
    ensures r.Success? ==> r.value == pickler.loads(bs.value).value
    ensures r.Failure? ==> r.error == DeserializationFailed(payload)
  {
    if bs.None? then Failure(DeserializationFailed(payload))
    else match pickler.loads(bs.value)
      case None => Failure(DeserializationFailed(payload))
      case Some(v) => Success(v)
  }

  /** `deployment_def.__name__`, or the string itself for an import path. */
  function DefinitionName(deploymentDef: Value): (r: Result<string, Error>)
    requires IsCallableOrStr(deploymentDef)
    ensures r.Failure? <==> deploymentDef.VCallableObject?
    ensures deploymentDef.VStr? ==> r == Success(deploymentDef.s)
    ensures deploymentDef.VFunction? || deploymentDef.VClass? ==> r == Success(deploymentDef.name)
    ensures r.Failure? ==> r.error == MissingName(deploymentDef)
  {
    match deploymentDef
    case VStr(s) => Success(s)
    case VFunction(name) => Success(name)
    case VClass(name) => Success(name)
    case VCallableObject(_) => Failure(MissingName(deploymentDef))
  }

  /** The constructor arguments `create` pickles: `()` and `{}` stand in for
      None. */
  function ArgsOrDefault(initArgs: Value): Value {
    if initArgs.VNone? then VTuple([]) else initArgs
  }

  function KwargsOrDefault(initKwargs: Value): Value {
    if initKwargs.VNone? then VDict([]) else initKwargs
  }

  /** `ReplicaConfig.create`. `VNone` stands for an argument left at None. */
  function Create(
    deploymentDef: Value, initArgs: Value, initKwargs: Value, rayActorOptions: Value,
    bundles: Value, strategy: Option<string>, name: Option<string>, env: Env): (r: Result<ReplicaConfig, Error>)
    ensures deploymentDef.VFunction? && Truthy(initArgs) ==> r == Failure(InitArgsForFunction)
    ensures deploymentDef.VFunction? && !Truthy(initArgs) && Truthy(initKwargs) ==> r == Failure(InitKwargsForFunction)
    ensures !IsCallableOrStr(deploymentDef) ==> r == Failure(InvalidDeploymentDefType(deploymentDef))
    ensures r.Success? ==>
      && Valid(r.value, env)
      && r.value.needsPickle
      && r.value.cachedDeploymentDef == deploymentDef
      && r.value.cachedInitArgs == ArgsOrDefault(initArgs)
      && r.value.cachedInitKwargs == KwargsOrDefault(initKwargs)
      && env.pickler.dumps(deploymentDef) == Some(r.value.serializedDeploymentDef)
      && r.value.serializedInitArgs == env.pickler.dumps(ArgsOrDefault(initArgs))
      && r.value.serializedInitKwargs == env.pickler.dumps(KwargsOrDefault(initKwargs))
    ensures r.Success? ==>
      var options := ActorOptions.Validate(if rayActorOptions.VNone? then VDict([]) else rayActorOptions);
      options.Success? && r.value.rayActorOptions == options.value
    ensures r.Success? ==>
      && r.value.placementGroupBundles == bundles
      && r.value.placementGroupStrategy == strategy
    ensures r.Success? && name.Some? ==> r.value.deploymentDefName == name.value
    ensures r.Success? && name.None? && deploymentDef.VStr? ==> r.value.deploymentDefName == deploymentDef.s
    ensures r.Success? && name.None? && (deploymentDef.VFunction? || deploymentDef.VClass?) ==>
      r.value.deploymentDefName == deploymentDef.name
    ensures deploymentDef.VCallableObject? && name.None? ==> r == Failure(MissingName(deploymentDef))
    ensures IsCallableOrStr(deploymentDef) && (!deploymentDef.VCallableObject? || name.Some?) &&
            env.pickler.dumps(deploymentDef).Some? &&
            env.pickler.dumps(ArgsOrDefault(initArgs)).Some? && env.pickler.dumps(KwargsOrDefault(initKwargs)).Some? &&
            !(deploymentDef.VFunction? && (Truthy(initArgs) || Truthy(initKwargs))) ==>
      (r.Success? <==>
        var options := ActorOptions.Validate(if rayActorOptions.VNone? then VDict([]) else rayActorOptions);
        options.Success? && Placement.PlacementOk(strategy, bundles, options.value))
  {
    if deploymentDef.VFunction? && Truthy(initArgs) then Failure(InitArgsForFunction)
    else if deploymentDef.VFunction? && Truthy(initKwargs) then Failure(InitKwargsForFunction)
    else if !IsCallableOrStr(deploymentDef) then Failure(InvalidDeploymentDefType(deploymentDef))
    else
      var args := ArgsOrDefault(initArgs);
      var kwargs := KwargsOrDefault(initKwargs);
      var options := if rayActorOptions.VNone? then VDict([]) else rayActorOptions;
      var defName :- if name.Some? then Success(name.value) else DefinitionName(deploymentDef);
      var serializedDef :- Pickle(env.pickler, deploymentDef, DeploymentDefPayload);
      var serializedArgs :- Pickle(env.pickler, args, InitArgsPayload);
      var serializedKwargs :- Pickle(env.pickler, kwargs, InitKwargsPayload);
      var rc :- New(defName, serializedDef, Some(serializedArgs), Some(serializedKwargs),
                    options, bundles, strategy, true, env);
      Success(rc.(cachedDeploymentDef := deploymentDef, cachedInitArgs := args, cachedInitKwargs := kwargs))
  }

  // ---------------------------------------------------------------------
  // Lazy accessors. Each returns the value and the config with its cache
  // filled in.

  /** `deployment_def`: unpickled, or for a non-pickled (Java) deployment
      decoded as UTF-8 text. */
  function DeploymentDef(rc: ReplicaConfig, env: Env): (r: Result<(Value, ReplicaConfig), Error>)
    ensures r.Success? ==> r.value.1 == rc.(cachedDeploymentDef := r.value.0)
    ensures !rc.cachedDeploymentDef.VNone? ==> r == Success((rc.cachedDeploymentDef, rc))
    ensures rc.cachedDeploymentDef.VNone? && rc.needsPickle ==>
      && (r.Success? <==> env.pickler.loads(rc.serializedDeploymentDef).Some?)
      && (r.Success? ==> r.value.0 == env.pickler.loads(rc.serializedDeploymentDef).value)
      && (r.Failure? ==> r.error == DeserializationFailed(DeploymentDefPayload))
    ensures rc.cachedDeploymentDef.VNone? && !rc.needsPickle ==>
      && (r.Success? <==> env.utf8Decode(rc.serializedDeploymentDef).Some?)
      && (r.Success? ==> r.value.0 == VStr(env.utf8Decode(rc.serializedDeploymentDef).value))
      && (r.Failure? ==> r.error == Utf8DecodeFailed)
  {
    if !rc.cachedDeploymentDef.VNone? then Success((rc.cachedDeploymentDef, rc))
    else
      var v :-
        if rc.needsPickle then Unpickle(env.pickler, Some(rc.serializedDeploymentDef), DeploymentDefPayload)
        else match env.utf8Decode(rc.serializedDeploymentDef)
          case None => Failure(Utf8DecodeFailed)
          case Some(s) => Success(VStr(s));
      Success((v, rc.(cachedDeploymentDef := v)))
  }

  /** `init_args`: unpickled, or for a non-pickled deployment the raw
      bytes (None when absent). */
  function InitArgs(rc: ReplicaConfig, env: Env): (r: Result<(Value, ReplicaConfig), Error>)
    ensures r.Success? ==> r.value.1 == rc.(cachedInitArgs := r.value.0)
    ensures !rc.cachedInitArgs.VNone? ==> r == Success((rc.cachedInitArgs, rc))
    ensures rc.cachedInitArgs.VNone? && rc.needsPickle ==>
      && (r.Success? <==> rc.serializedInitArgs.Some? && env.pickler.loads(rc.serializedInitArgs.value).Some?)
      && (r.Success? ==> r.value.0 == env.pickler.loads(rc.serializedInitArgs.value).value)
      && (r.Failure? ==> r.error == DeserializationFailed(InitArgsPayload))
    ensures rc.cachedInitArgs.VNone? && !rc.needsPickle ==>
      r.Success? && (r.value.0.VNone? <==> rc.serializedInitArgs.None?) &&
      (rc.serializedInitArgs.Some? ==> r.value.0 == VBytes(rc.serializedInitArgs.value))
  {
    if !rc.cachedInitArgs.VNone? then Success((rc.cachedInitArgs, rc))
    else
      var v :-
        if rc.needsPickle then Unpickle(env.pickler, rc.serializedInitArgs, InitArgsPayload)
        else if rc.serializedInitArgs.Some? then Success(VBytes(rc.serializedInitArgs.value))
        else Success(VNone);
      Success((v, rc.(cachedInitArgs := v)))
  }

  /** `init_kwargs`: always unpickled, whether or not the deployment needs
      pickling (unlike `init_args`). */
  function InitKwargs(rc: ReplicaConfig, env: Env): (r: Result<(Value, ReplicaConfig), Error>)
    ensures r.Success? ==> r.value.1 == rc.(cachedInitKwargs := r.value.0)
    ensures !rc.cachedInitKwargs.VNone? ==> r == Success((rc.cachedInitKwargs, rc))
    ensures rc.cachedInitKwargs.VNone? ==>
      && (r.Success? <==> rc.serializedInitKwargs.Some? && env.pickler.loads(rc.serializedInitKwargs.value).Some?)
      && (r.Success? ==> r.value.0 == env.pickler.loads(rc.serializedInitKwargs.value).value)
      && (r.Failure? ==> r.error == DeserializationFailed(InitKwargsPayload))
  {
    if !rc.cachedInitKwargs.VNone? then Success((rc.cachedInitKwargs, rc))
    else
      var v :- Unpickle(env.pickler, rc.serializedInitKwargs, InitKwargsPayload);
      Success((v, rc.(cachedInitKwargs := v)))
  }

  /** Reading an accessor a second time gives the same value and changes
      nothing more. */
  lemma AccessorsAreStable(rc: ReplicaConfig, env: Env)
    ensures DeploymentDef(rc, env).Success? ==>
      var (v, rc') := DeploymentDef(rc, env).value; DeploymentDef(rc', env) == Success((v, rc'))
    ensures InitArgs(rc, env).Success? ==>
      var (v, rc') := InitArgs(rc, env).value; InitArgs(rc', env) == Success((v, rc'))
    ensures InitKwargs(rc, env).Success? ==>
      var (v, rc') := InitKwargs(rc, env).value; InitKwargs(rc', env) == Success((v, rc'))
  {
  }

  /** The accessors of a created config return what was passed to
      `create`, and, with a lawful pickler, so does loading them afresh from
      the serialized fields: the cache and the serialized form agree. */
  lemma CreatedConfigAccessors(
    deploymentDef: Value, initArgs: Value, initKwargs: Value, rayActorOptions: Value,
    bundles: Value, strategy: Option<string>, name: Option<string>, env: Env, rc: ReplicaConfig)
    requires Create(deploymentDef, initArgs, initKwargs, rayActorOptions, bundles, strategy, name, env) == Success(rc)
    ensures DeploymentDef(rc, env) == Success((deploymentDef, rc))
    ensures InitArgs(rc, env) == Success((ArgsOrDefault(initArgs), rc))
    ensures InitKwargs(rc, env) == Success((KwargsOrDefault(initKwargs), rc))
    ensures LawfulPickler(env.pickler) ==>
      var unloaded := rc.Unloaded();
      && DeploymentDef(unloaded, env).Success? && DeploymentDef(unloaded, env).value.0 == deploymentDef
      && InitArgs(unloaded, env).Success? && InitArgs(unloaded, env).value.0 == ArgsOrDefault(initArgs)
      && InitKwargs(unloaded, env).Success? && InitKwargs(unloaded, env).value.0 == KwargsOrDefault(initKwargs)
  {
  }

  /** For a non-pickled deployment an absent `init_args` reads as None,
      but an absent `init_kwargs` is still handed to the unpickler. */
  lemma InitKwargsIgnoresNeedsPickle(rc: ReplicaConfig, env: Env)
    requires !rc.needsPickle && rc.serializedInitArgs.None? && rc.serializedInitKwargs.None?
    requires rc.cachedInitArgs.VNone? && rc.cachedInitKwargs.VNone?
    ensures InitArgs(rc, env) == Success((VNone, rc))
    ensures InitKwargs(rc, env) == Failure(DeserializationFailed(InitKwargsPayload))
  {
  }
}
