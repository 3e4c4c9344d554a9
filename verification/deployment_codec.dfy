/** The wire form of `DeploymentConfig` (`to_proto` / `from_proto`). Optional
    scalars travel as empty sentinels, `user_config` is pickled when the
    deployment needs pickling, and the set of user-configured option names
    travels as a list. */
module DeploymentCodec {
  import opened Wrappers
  import opened Values
  import opened Errors
  import opened Languages
  import opened Serializers
  import Autoscaling
  import opened DeploymentConfigs

  /** The wire message `AutoscalingConfig`; `initialReplicas` keeps its
      presence on the wire. */
  datatype AutoscalingConfigProto = AutoscalingConfigProto(
    minReplicas: int,
    initialReplicas: Option<int>,
    maxReplicas: int,
    targetNumOngoingRequestsPerReplica: real,
    metricsIntervalS: real,
    lookBackPeriodS: real,
    smoothingFactor: real,
    downscaleDelayS: real,
    upscaleDelayS: real)

  /** The wire message `DeploymentConfig`. Strings and bytes have no
      presence: an unset field reads back as "" / b"". */
  datatype DeploymentConfigProto = DeploymentConfigProto(
    numReplicas: int,
    maxConcurrentQueries: int,
    userConfig: Bytes,
    gracefulShutdownTimeoutS: real,
    gracefulShutdownWaitLoopS: real,
    healthCheckPeriodS: real,
    healthCheckTimeoutS: real,
    autoscalingConfig: Option<AutoscalingConfigProto>,
    isCrossLanguage: bool,
    deploymentLanguage: DeploymentLanguage,
    version: string,
    userConfiguredOptionNames: seq<string>)

  function AutoscalingToProto(a: Autoscaling.AutoscalingConfig): AutoscalingConfigProto {
    AutoscalingConfigProto(
      a.minReplicas, a.initialReplicas, a.maxReplicas, a.targetNumOngoingRequestsPerReplica,
      a.metricsIntervalS, a.lookBackPeriodS, a.smoothingFactor, a.downscaleDelayS, a.upscaleDelayS)
  }

  /** `AutoscalingConfig(**MessageToDict(proto))`: re-validated on arrival. */
  function AutoscalingFromProto(p: AutoscalingConfigProto): Result<Autoscaling.AutoscalingConfig, Error> {
    Autoscaling.New(Autoscaling.AutoscalingConfig(
      p.minReplicas, p.initialReplicas, p.maxReplicas, p.targetNumOngoingRequestsPerReplica,
      p.metricsIntervalS, p.lookBackPeriodS, p.smoothingFactor, p.downscaleDelayS, p.upscaleDelayS))
  }

  lemma AutoscalingRoundTrip(a: Autoscaling.AutoscalingConfig)
    requires Autoscaling.Valid(a)
    ensures AutoscalingFromProto(AutoscalingToProto(a)) == Success(a)
  {
  }

  /** `xs` lists every element of `s` exactly once (`list(s)`). */
  predicate Enumerates(xs: seq<string>, s: set<string>) {
    && (forall i, j :: 0 <= i < j < |xs| ==> xs[i] != xs[j])
    && (forall x :: x in s ==> x in xs)
    && (forall i :: 0 <= i < |xs| ==> xs[i] in s)
  }

  /** `list(s)`: Python's iteration order over a set is unspecified, so any
      enumeration may come out. */
  method ListOfSet(s: set<string>) returns (xs: seq<string>)
    ensures Enumerates(xs, s)
  {
    xs := [];
    var rest := s;
    while rest != {}
      invariant rest <= s
      invariant forall x :: x in s <==> x in xs || x in rest
      invariant forall x :: x in rest ==> x !in xs
      invariant forall i, j :: 0 <= i < j < |xs| ==> xs[i] != xs[j]
      decreases |rest|
    {
      var x :| x in rest;
      xs := xs + [x];
      rest := rest - {x};
    }
  }

  /** The wire bytes of `user_config`: b"" for None; the pickle when the
      deployment needs pickling; otherwise the value itself, which the
      bytes field accepts only if it is bytes. */
  function EncodeUserConfig(c: DeploymentConfig, pickler: Pickler): (r: Result<Bytes, Error>)
    ensures c.userConfig.VNone? ==> r == Success([])
    ensures !c.userConfig.VNone? && !c.NeedsPickle() ==> (r.Success? <==> c.userConfig.VBytes?)
    ensures !c.userConfig.VNone? && c.NeedsPickle() ==> (r.Success? <==> pickler.dumps(c.userConfig).Some?)
    ensures r.Success? && !c.userConfig.VNone? && c.NeedsPickle() ==> r.value == pickler.dumps(c.userConfig).value
    ensures r.Success? && !c.NeedsPickle() && c.userConfig.VBytes? ==> r.value == c.userConfig.bytes
    ensures r.Failure? && c.NeedsPickle() ==> r.error == SerializationFailed(UserConfigPayload)
    ensures r.Failure? && !c.NeedsPickle() ==> r.error == NotBytesOnWire("user_config")
  {
    if c.userConfig.VNone? then Success([])
    else if c.NeedsPickle() then
      match pickler.dumps(c.userConfig)
      case None => Failure(SerializationFailed(UserConfigPayload))
      case Some(bs) => Success(bs)
    else if c.userConfig.VBytes? then Success(c.userConfig.bytes)
    else Failure(NotBytesOnWire("user_config"))
  }

  /** `to_proto`, given the order in which `list()` enumerated the set of
      user-configured option names. */
  function Encode(c: DeploymentConfig, pickler: Pickler, optionNames: seq<string>): Result<DeploymentConfigProto, Error> {
    var userConfig :- EncodeUserConfig(c, pickler);
    Success(DeploymentConfigProto(
      numReplicas := c.numReplicas,
      maxConcurrentQueries := c.maxConcurrentQueries,
      userConfig := userConfig,
      gracefulShutdownTimeoutS := c.gracefulShutdownTimeoutS,
      gracefulShutdownWaitLoopS := c.gracefulShutdownWaitLoopS,
      healthCheckPeriodS := c.healthCheckPeriodS,
      healthCheckTimeoutS := c.healthCheckTimeoutS,
      autoscalingConfig :=
        if c.autoscalingConfig.Some? then Some(AutoscalingToProto(c.autoscalingConfig.value)) else None,
      isCrossLanguage := c.isCrossLanguage,
      deploymentLanguage := c.deploymentLanguage,
      version := if c.version.Some? then c.version.value else "",
      userConfiguredOptionNames := optionNames))
  }

  /** `user_config` read back: b"" is None; otherwise unpickled when the
      decoded language and cross-language flag call for pickling, else the
      raw bytes. */
  function DecodeUserConfig(p: DeploymentConfigProto, pickler: Pickler): (r: Result<Value, Error>)
    ensures p.userConfig == [] ==> r == Success(VNone)
    ensures p.userConfig != [] && NeedsPickle(p.deploymentLanguage, p.isCrossLanguage) ==>
      (r.Success? <==> pickler.loads(p.userConfig).Some?) &&
      (r.Success? ==> Some(r.value) == pickler.loads(p.userConfig)) &&
      (r.Failure? ==> r.error == DeserializationFailed(UserConfigPayload))
    ensures p.userConfig != [] && !NeedsPickle(p.deploymentLanguage, p.isCrossLanguage) ==>
      r == Success(VBytes(p.userConfig))
  {
    if p.userConfig == [] then Success(VNone)
    else if NeedsPickle(p.deploymentLanguage, p.isCrossLanguage) then
      match pickler.loads(p.userConfig)
      case None => Failure(DeserializationFailed(UserConfigPayload))
      case Some(v) => Success(v)
    else Success(VBytes(p.userConfig))
  }

  /** `from_proto`: undo the sentinels, then construct (and so re-validate)
      the config. */
  function FromProto(p: DeploymentConfigProto, pickler: Pickler, d: Defaults): (r: Result<DeploymentConfig, Error>)
    ensures r.Success? ==> Valid(r.value)
    ensures r.Success? ==>
      && r.value.numReplicas == p.numReplicas
      && r.value.maxConcurrentQueries == p.maxConcurrentQueries
      && r.value.gracefulShutdownTimeoutS == p.gracefulShutdownTimeoutS
      && r.value.gracefulShutdownWaitLoopS == p.gracefulShutdownWaitLoopS
      && r.value.healthCheckPeriodS == p.healthCheckPeriodS
      && r.value.healthCheckTimeoutS == p.healthCheckTimeoutS
      && r.value.isCrossLanguage == p.isCrossLanguage
      && r.value.deploymentLanguage == p.deploymentLanguage
      && DecodeUserConfig(p, pickler) == Success(r.value.userConfig)
    ensures r.Success? ==>
      && (p.version == "" ==> r.value.version.None?)
      && (p.version != "" ==> r.value.version == Some(p.version))
      && (forall x :: x in r.value.userConfiguredOptionNames <==> x in p.userConfiguredOptionNames)
      && (r.value.autoscalingConfig.None? <==> p.autoscalingConfig.None?)
      && (p.autoscalingConfig.Some? ==>
            AutoscalingFromProto(p.autoscalingConfig.value) == Success(r.value.autoscalingConfig.value))
    ensures DecodeUserConfig(p, pickler).Failure? ==> r == Failure(DecodeUserConfig(p, pickler).error)
    ensures DecodeUserConfig(p, pickler).Success? && p.autoscalingConfig.Some? &&
            AutoscalingFromProto(p.autoscalingConfig.value).Failure? ==>
      r == Failure(AutoscalingFromProto(p.autoscalingConfig.value).error)
    ensures DecodeUserConfig(p, pickler).Success? &&
            (p.autoscalingConfig.Some? ==> AutoscalingFromProto(p.autoscalingConfig.value).Success?) ==>
      var userConfig := DecodeUserConfig(p, pickler).value;
      (r.Success? <==>
        && p.numReplicas >= 0
        && p.maxConcurrentQueries > 0
        && (userConfig.VBytes? || JsonEncodable(userConfig))
        && p.gracefulShutdownTimeoutS >= 0.0
        && p.gracefulShutdownWaitLoopS >= 0.0
        && p.healthCheckPeriodS > 0.0
        && p.healthCheckTimeoutS > 0.0)
  {
    var userConfig :- DecodeUserConfig(p, pickler);
    var autoscaling :-
      if p.autoscalingConfig.Some? then
        match AutoscalingFromProto(p.autoscalingConfig.value)
        case Success(a) => Success(Some(a))
        case Failure(e) => Failure(e)
      else Success(None);
    New(DeploymentConfig(
          numReplicas := p.numReplicas,
          maxConcurrentQueries := p.maxConcurrentQueries,
          userConfig := userConfig,
          gracefulShutdownTimeoutS := p.gracefulShutdownTimeoutS,
          gracefulShutdownWaitLoopS := p.gracefulShutdownWaitLoopS,
          healthCheckPeriodS := p.healthCheckPeriodS,
          healthCheckTimeoutS := p.healthCheckTimeoutS,
          autoscalingConfig := autoscaling,
          isCrossLanguage := p.isCrossLanguage,
          deploymentLanguage := p.deploymentLanguage,
          version := if p.version == "" then None else Some(p.version),
          userConfiguredOptionNames := set x | x in p.userConfiguredOptionNames),
        d)
  }

  /** What survives a trip over the wire: an empty `version` and, when not
      pickled, an empty raw `user_config` both come back as None. */
  function WireImage(c: DeploymentConfig): DeploymentConfig {
    c.(version := if c.version == Some("") then None else c.version,
       userConfig := if !c.NeedsPickle() && c.userConfig == VBytes([]) then VNone else c.userConfig)
  }

  /** When cloudpickle accepts the `user_config` of a pickled config, the
      config encodes unless it is not pickled and its `user_config` is
      neither None nor bytes (then protobuf rejects it). */
  lemma EncodeSucceeds(c: DeploymentConfig, pickler: Pickler, optionNames: seq<string>)
    requires c.NeedsPickle() && !c.userConfig.VNone? ==> pickler.dumps(c.userConfig).Some?
    ensures Encode(c, pickler, optionNames).Success? <==>
            c.NeedsPickle() || c.userConfig.VNone? || c.userConfig.VBytes?
  {
  }

  /** `from_proto(to_proto(c))` gives back the wire image of `c`, whatever
      order the option names were listed in. */
  lemma {:induction false} DecodeEncode(c: DeploymentConfig, pickler: Pickler, optionNames: seq<string>, d: Defaults)
    requires Valid(c) && LawfulPickler(pickler)
    requires Enumerates(optionNames, c.userConfiguredOptionNames)
    requires Encode(c, pickler, optionNames).Success?
    ensures FromProto(Encode(c, pickler, optionNames).value, pickler, d) == Success(WireImage(c))
  {
    var p := Encode(c, pickler, optionNames).value;
    assert (set x | x in optionNames) == c.userConfiguredOptionNames;
    if c.autoscalingConfig.Some? {
      AutoscalingRoundTrip(c.autoscalingConfig.value);
    }
    if !c.userConfig.VNone? && c.NeedsPickle() {
      assert pickler.loads(pickler.dumps(c.userConfig).value) == Some(c.userConfig);
    }
    assert DecodeUserConfig(p, pickler) == Success(WireImage(c).userConfig);
  }

  /** Configs whose wire image is themselves. */
  predicate SurvivesWire(c: DeploymentConfig) {
    && c.version != Some("")
    && !(!c.NeedsPickle() && c.userConfig == VBytes([]))
  }

  /** A valid config whose wire image is itself, and whose `user_config`
      cloudpickle accepts (when pickled) or is bytes or None (when not),
      comes back from the wire unchanged. */
  lemma RoundTrip(c: DeploymentConfig, pickler: Pickler, optionNames: seq<string>, d: Defaults)
    requires Valid(c) && LawfulPickler(pickler) && SurvivesWire(c)
    requires Enumerates(optionNames, c.userConfiguredOptionNames)
    requires c.NeedsPickle() && !c.userConfig.VNone? ==> pickler.dumps(c.userConfig).Some?
    requires !c.NeedsPickle() ==> c.userConfig.VNone? || c.userConfig.VBytes?
    ensures Encode(c, pickler, optionNames).Success?
    ensures FromProto(Encode(c, pickler, optionNames).value, pickler, d) == Success(c)
  {
    EncodeSucceeds(c, pickler, optionNames);
    DecodeEncode(c, pickler, optionNames, d);
  }

  /** The round trip is not vacuous: a default config carrying a pickled
      `user_config` of 7 comes back unchanged through a pickler that can
      serialize just that value. */
  lemma RoundTripWitness(d: Defaults)
    requires d.InRange()
    ensures var c := Default(d).(userConfig := VInt(7));
      var pickler := TablePickler([VInt(7)]);
      && Encode(c, pickler, []).Success?
      && FromProto(Encode(c, pickler, []).value, pickler, d) == Success(c)
  {
    var c := Default(d).(userConfig := VInt(7));
    TablePicklerIsLawful([VInt(7)]);
    assert Valid(c);
    RoundTrip(c, TablePickler([VInt(7)]), [], d);
  }

  /** `to_proto`. */
  method ToProto(c: DeploymentConfig, pickler: Pickler) returns (r: Result<DeploymentConfigProto, Error>)
    ensures r.Success? <==> EncodeUserConfig(c, pickler).Success?
    ensures r.Success? ==> Enumerates(r.value.userConfiguredOptionNames, c.userConfiguredOptionNames)
    ensures r.Success? && Valid(c) && LawfulPickler(pickler) ==>
      forall d :: FromProto(r.value, pickler, d) == Success(WireImage(c))
  {
    var optionNames := ListOfSet(c.userConfiguredOptionNames);
    r := Encode(c, pickler, optionNames);
    if r.Success? && Valid(c) && LawfulPickler(pickler) {
      forall d ensures FromProto(r.value, pickler, d) == Success(WireImage(c)) {
        DecodeEncode(c, pickler, optionNames, d);
      }
    }
  }
}
