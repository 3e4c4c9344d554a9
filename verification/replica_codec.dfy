/** The wire form of `ReplicaConfig` (`to_proto` / `from_proto`): the
    serialized code and arguments travel as they are, the actor options and
    bundles as JSON text, and absent values as empty sentinels. */
module ReplicaCodec {
  import opened Wrappers
  import opened Values
  import opened Errors
  import opened Serializers
  import ActorOptions
  import Placement
  import opened ReplicaConfigs

  /** The wire message `ReplicaConfig`. */
  datatype ReplicaConfigProto = ReplicaConfigProto(
    deploymentDefName: string,
    deploymentDef: Bytes,
    initArgs: Bytes,
    initKwargs: Bytes,
    rayActorOptions: string,
    placementGroupBundles: string,
    placementGroupStrategy: string)

  function JsonDumps(json: Json, v: Value, field: string): (r: Result<string, Error>)
    ensures r.Success? <==> json.dumps(v).Some?
    ensures r.Success? ==> r.value == json.dumps(v).value
    ensures r.Failure? ==> r.error == JsonEncodeFailed(field)
  {
    match json.dumps(v)
    case None => Failure(JsonEncodeFailed(field))
    case Some(text) => Success(text)
  }

  function JsonLoads(json: Json, text: string, field: string): (r: Result<Value, Error>)
    ensures r.Success? <==> json.loads(text).Some?
    ensures r.Success? ==> r.value == json.loads(text).value
    ensures r.Failure? ==> r.error == JsonDecodeFailed(field)
  {
    match json.loads(text)
    case None => Failure(JsonDecodeFailed(field))
    case Some(v) => Success(v)
  }

  /** `to_proto`. Absent arguments, bundles and strategy go out as the
      empty sentinel of their wire type. */
  function ToProto(rc: ReplicaConfig, json: Json): (r: Result<ReplicaConfigProto, Error>)
    ensures r.Success? <==>
      && json.dumps(VDict(rc.rayActorOptions)).Some?
      && (!rc.placementGroupBundles.VNone? ==> json.dumps(rc.placementGroupBundles).Some?)
    ensures r.Failure? && json.dumps(VDict(rc.rayActorOptions)).None? ==>
      r.error == JsonEncodeFailed("ray_actor_options")
    ensures r.Success? ==>
      && r.value.deploymentDefName == rc.deploymentDefName
      && r.value.deploymentDef == rc.serializedDeploymentDef
      && r.value.rayActorOptions == json.dumps(VDict(rc.rayActorOptions)).value
    ensures r.Success? ==>
      && (rc.serializedInitArgs.None? ==> r.value.initArgs == [])
      && (rc.serializedInitArgs.Some? ==> r.value.initArgs == rc.serializedInitArgs.value)
      && (rc.serializedInitKwargs.None? ==> r.value.initKwargs == [])
      && (rc.serializedInitKwargs.Some? ==> r.value.initKwargs == rc.serializedInitKwargs.value)
      && (rc.placementGroupStrategy.None? ==> r.value.placementGroupStrategy == "")
      && (rc.placementGroupStrategy.Some? ==> r.value.placementGroupStrategy == rc.placementGroupStrategy.value)
      && (!rc.placementGroupBundles.VNone? ==> r.value.placementGroupBundles == json.dumps(rc.placementGroupBundles).value)
    ensures r.Success? && rc.placementGroupBundles.VNone? ==> r.value.placementGroupBundles == ""
    ensures r.Success? && LawfulJson(json) ==>
      (r.value.placementGroupBundles == "" <==> rc.placementGroupBundles.VNone?)
  {
    var options :- JsonDumps(json, VDict(rc.rayActorOptions), "ray_actor_options");
    var bundles :-
      if rc.placementGroupBundles.VNone? then Success("")
      else JsonDumps(json, rc.placementGroupBundles, "placement_group_bundles");
    Success(ReplicaConfigProto(
      rc.deploymentDefName,
      rc.serializedDeploymentDef,
      if rc.serializedInitArgs.Some? then rc.serializedInitArgs.value else [],
      if rc.serializedInitKwargs.Some? then rc.serializedInitKwargs.value else [],
      options,
      bundles,
      if rc.placementGroupStrategy.Some? then rc.placementGroupStrategy.value else ""))
  }

  /** `from_proto`: undo the sentinels, parse the JSON fields, and construct
      (so re-validate) the config. Whether the payloads are pickled is the
      caller's to say. */
  function FromProto(p: ReplicaConfigProto, needsPickle: bool, env: Env): (r: Result<ReplicaConfig, Error>)
    ensures r.Success? ==> Valid(r.value, env) && r.value == r.value.Unloaded()
    ensures r.Success? ==>
      && r.value.needsPickle == needsPickle
      && (r.value.serializedInitArgs.None? <==> p.initArgs == [])
      && (r.value.serializedInitKwargs.None? <==> p.initKwargs == [])
      && (r.value.placementGroupStrategy.None? <==> p.placementGroupStrategy == "")
      && (r.value.placementGroupBundles.VNone? <==> p.placementGroupBundles == "" ||
                                                    env.json.loads(p.placementGroupBundles) == Some(VNone))
    ensures r.Success? ==>
      && r.value.deploymentDefName == p.deploymentDefName
      && r.value.serializedDeploymentDef == p.deploymentDef
      && (p.initArgs != [] ==> r.value.serializedInitArgs == Some(p.initArgs))
      && (p.initKwargs != [] ==> r.value.serializedInitKwargs == Some(p.initKwargs))
      && (p.placementGroupStrategy != "" ==> r.value.placementGroupStrategy == Some(p.placementGroupStrategy))
    ensures env.json.loads(p.rayActorOptions).None? ==> r == Failure(JsonDecodeFailed("ray_actor_options"))
    ensures env.json.loads(p.rayActorOptions).Some? && p.placementGroupBundles != "" &&
            env.json.loads(p.placementGroupBundles).None? ==>
      r == Failure(JsonDecodeFailed("placement_group_bundles"))
    ensures env.json.loads(p.rayActorOptions).Some? &&
            (p.placementGroupBundles == "" || env.json.loads(p.placementGroupBundles).Some?) ==>
      var options := ActorOptions.Validate(env.json.loads(p.rayActorOptions).value);
      var bundles := if p.placementGroupBundles == "" then VNone else env.json.loads(p.placementGroupBundles).value;
      var strategy := if p.placementGroupStrategy == "" then None else Some(p.placementGroupStrategy);
      && (options.Failure? ==> r == Failure(options.error))
      && (options.Success? ==>
            && (r.Success? <==> Placement.PlacementOk(strategy, bundles, options.value))
            && (r.Success? ==> r.value.rayActorOptions == options.value && r.value.placementGroupBundles == bundles))
  {
    var options :- JsonLoads(env.json, p.rayActorOptions, "ray_actor_options");
    var bundles :-
      if p.placementGroupBundles == "" then Success(VNone)
      else JsonLoads(env.json, p.placementGroupBundles, "placement_group_bundles");
    New(
      p.deploymentDefName,
      p.deploymentDef,
      if p.initArgs == [] then None else Some(p.initArgs),
      if p.initKwargs == [] then None else Some(p.initKwargs),
      options,
      bundles,
      if p.placementGroupStrategy == "" then None else Some(p.placementGroupStrategy),
      needsPickle,
      env)
  }

  /** Configs whose wire form carries all they hold: serialized arguments
      that are absent or non-empty, since an empty payload reads back as
      absent. */
  predicate WireSafe(rc: ReplicaConfig) {
    && rc.serializedInitArgs != Some([])
    && rc.serializedInitKwargs != Some([])
  }

  /** The json module reads back the config's actor options and bundles. */
  ghost predicate JsonCarries(json: Json, rc: ReplicaConfig) {
    && JsonRoundTrips(json, VDict(rc.rayActorOptions))
    && (!rc.placementGroupBundles.VNone? ==> JsonRoundTrips(json, rc.placementGroupBundles))
  }

  /** A valid config comes back from the wire as it was sent, except that
      nothing is deserialized yet, provided a lawful json module reads back
      its options and bundles. */
  lemma {:induction false} RoundTrip(rc: ReplicaConfig, env: Env)
    requires Valid(rc, env) && WireSafe(rc) && LawfulJson(env.json) && JsonCarries(env.json, rc)
    ensures ToProto(rc, env.json).Success?
    ensures FromProto(ToProto(rc, env.json).value, rc.needsPickle, env) == Success(rc.Unloaded())
  {
    RoundTripsOnlyNative(env.json, VDict(rc.rayActorOptions));
    var p := ToProto(rc, env.json).value;
    assert env.json.loads(p.rayActorOptions) == Some(VDict(rc.rayActorOptions));
    assert ActorOptions.Validate(VDict(rc.rayActorOptions)) == Success(rc.rayActorOptions);
    assert rc.placementGroupStrategy != Some("") by {
      assert "" !in Placement.ValidStrategies;
    }
  }

  /** A config made by `create` and sent over the wire still yields, on
      first access, the definition and arguments it was created with. */
  lemma CreatedConfigSurvivesWire(
    deploymentDef: Value, initArgs: Value, initKwargs: Value, rayActorOptions: Value,
    bundles: Value, strategy: Option<string>, name: Option<string>, env: Env, rc: ReplicaConfig)
    requires LawfulPickler(env.pickler) && LawfulJson(env.json)
    requires Create(deploymentDef, initArgs, initKwargs, rayActorOptions, bundles, strategy, name, env) == Success(rc)
    requires JsonCarries(env.json, rc)
    ensures ToProto(rc, env.json).Success?
    ensures var received := FromProto(ToProto(rc, env.json).value, true, env);
      && received.Success?
      && DeploymentDef(received.value, env).Success? && DeploymentDef(received.value, env).value.0 == deploymentDef
      && InitArgs(received.value, env).Success? && InitArgs(received.value, env).value.0 == ArgsOrDefault(initArgs)
      && InitKwargs(received.value, env).Success? && InitKwargs(received.value, env).value.0 == KwargsOrDefault(initKwargs)
  {
    CreatedConfigAccessors(deploymentDef, initArgs, initKwargs, rayActorOptions, bundles, strategy, name, env, rc);
    assert WireSafe(rc);
    RoundTrip(rc, env);
  }

  /** The round trip is not vacuous: a one-CPU config without placement
      options survives a json module that reads back its options. */
  lemma RoundTripWitness(env0: Env)
    ensures var options := [(ActorOptions.NumCpus, VInt(1))];
      var env := env0.(json := PairJson(VDict(options), VNone));
      var rc := ReplicaConfig("f", [1], None, None, options, VNone, None,
                              env.resourcesFromRayOptions(options), true, VNone, VNone, VNone);
      && ToProto(rc, env.json).Success?
      && FromProto(ToProto(rc, env.json).value, true, env) == Success(rc)
  {
    var options := [(ActorOptions.NumCpus, VInt(1))];
    var env := env0.(json := PairJson(VDict(options), VNone));
    var rc := ReplicaConfig("f", [1], None, None, options, VNone, None,
                            env.resourcesFromRayOptions(options), true, VNone, VNone, VNone);
    assert JsonNative(VDict(options));
    PairJsonIsLawful(VDict(options), VNone);
    assert ActorOptions.Normalized(options);
    RoundTrip(rc, env);
  }

  /** `create` followed by the wire trip is not vacuous: a class deployment
      with every argument left at None is created through a pickler that
      can serialize the class and the empty arguments, and is read back. */
  lemma CreatedConfigSurvivesWireWitness(env0: Env)
    ensures var env := env0.(pickler := TablePickler([VClass("C"), VTuple([]), VDict([])]),
                             json := PairJson(VDict([(ActorOptions.NumCpus, VInt(1))]), VNone));
      var created := Create(VClass("C"), VNone, VNone, VNone, VNone, None, None, env);
      && created.Success?
      && ToProto(created.value, env.json).Success?
      && var received := FromProto(ToProto(created.value, env.json).value, true, env);
         && received.Success?
         && DeploymentDef(received.value, env).Success? && DeploymentDef(received.value, env).value.0 == VClass("C")
  {
    var options := [(ActorOptions.NumCpus, VInt(1))];
    var env := env0.(pickler := TablePickler([VClass("C"), VTuple([]), VDict([])]),
                     json := PairJson(VDict(options), VNone));
    TablePicklerIsLawful([VClass("C"), VTuple([]), VDict([])]);
    assert JsonNative(VDict(options));
    PairJsonIsLawful(VDict(options), VNone);
    assert ActorOptions.FirstDisallowed([]) == None;
    assert FindKey([], ActorOptions.NumCpus) == None;
    assert Put([], ActorOptions.NumCpus, VInt(1)) == options;
    assert ActorOptions.Validate(VDict([])) == Success(options);
    assert Placement.Validate(None, VNone, options) == Pass;
    var table := [VClass("C"), VTuple([]), VDict([])];
    assert VClass("C") in table && VTuple([]) in table && VDict([]) in table;
    assert env.pickler.dumps(VClass("C")).Some?;
    assert env.pickler.dumps(ArgsOrDefault(VNone)).Some?;
    assert env.pickler.dumps(KwargsOrDefault(VNone)).Some?;
    var created := Create(VClass("C"), VNone, VNone, VNone, VNone, None, None, env);
    assert created.Success?;
    assert created.value.rayActorOptions == options;
    assert JsonCarries(env.json, created.value);
    CreatedConfigSurvivesWire(VClass("C"), VNone, VNone, VNone, VNone, None, None, env, created.value);
  }
}
