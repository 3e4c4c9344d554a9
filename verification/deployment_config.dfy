/** `DeploymentConfig`: the per-deployment runtime tunables, validated on
    construction and on every field assignment. */
module DeploymentConfigs {
  import opened Wrappers
  import opened Values
  import opened Errors
  import opened Languages
  import Autoscaling

  datatype DeploymentConfig = DeploymentConfig(
    numReplicas: int,
    maxConcurrentQueries: int,
    userConfig: Value,
    gracefulShutdownTimeoutS: real,
    gracefulShutdownWaitLoopS: real,
    healthCheckPeriodS: real,
    healthCheckTimeoutS: real,
    autoscalingConfig: Option<Autoscaling.AutoscalingConfig>,
    isCrossLanguage: bool,
    deploymentLanguage: DeploymentLanguage,
    version: Option<string>,
    userConfiguredOptionNames: set<string>)
  {
    /** `needs_pickle()`: whether `user_config` travels pickled. */
    predicate NeedsPickle() {
      Languages.NeedsPickle(deploymentLanguage, isCrossLanguage)
    }
  }

  /** The imported `DEFAULT_*` constants the field defaults come from. */
  datatype Defaults = Defaults(
    maxConcurrentQueries: int,
    gracefulShutdownTimeoutS: real,
    gracefulShutdownWaitLoopS: real,
    healthCheckPeriodS: real,
    healthCheckTimeoutS: real)
  {
    /** The defaults themselves satisfy the fields' declared ranges. */
    predicate InRange() {
      && maxConcurrentQueries > 0
      && gracefulShutdownTimeoutS >= 0.0
      && gracefulShutdownWaitLoopS >= 0.0
      && healthCheckPeriodS > 0.0
      && healthCheckTimeoutS > 0.0
    }
  }

  /** Every field's declared constraint, except the nested autoscaling
      config's own validity. */
  predicate FieldsValid(c: DeploymentConfig) {
    && c.numReplicas >= 0
    && c.maxConcurrentQueries > 0
    && (c.userConfig.VBytes? || JsonEncodable(c.userConfig))
    && c.gracefulShutdownTimeoutS >= 0.0
    && c.gracefulShutdownWaitLoopS >= 0.0
    && c.healthCheckPeriodS > 0.0
    && c.healthCheckTimeoutS > 0.0
  }

  /** The invariant every constructed or assigned config keeps. */
  predicate Valid(c: DeploymentConfig) {
    && FieldsValid(c)
    && (c.autoscalingConfig.Some? ==> Autoscaling.Valid(c.autoscalingConfig.value))
  }

  // ---------------------------------------------------------------------
  // The two explicit validators

  /** `set_max_queries_by_mode`: fill the default when absent, reject
      anything not positive (0 included, though the message says ">= 0"). */
  function SetMaxQueriesByMode(v: Option<int>, defaultMaxConcurrentQueries: int): (r: Result<int, Error>)
    ensures r.Success? <==> v.None? || v.value > 0
    ensures r.Success? && v.None? ==> r.value == defaultMaxConcurrentQueries
    ensures r.Success? && v.Some? ==> r.value == v.value
    ensures r.Failure? ==> r.error == NonPositiveMaxConcurrentQueries(v.value)
  {
    match v
    case None => Success(defaultMaxConcurrentQueries)
    case Some(q) => if q <= 0 then Failure(NonPositiveMaxConcurrentQueries(q)) else Success(q)
  }

  /** Once filled, the value passes the validator unchanged. */
  lemma SetMaxQueriesByModeIdempotent(v: Option<int>, defaultMaxConcurrentQueries: int)
    requires defaultMaxConcurrentQueries > 0
    requires SetMaxQueriesByMode(v, defaultMaxConcurrentQueries).Success?
    ensures var q := SetMaxQueriesByMode(v, defaultMaxConcurrentQueries).value;
            q > 0 && SetMaxQueriesByMode(Some(q), defaultMaxConcurrentQueries) == Success(q)
  {
  }

  /** `user_config_json_serializable`: raw bytes pass through; anything
      else (None included) must be accepted by `json.dumps`. */
  function UserConfigJsonSerializable(v: Value): (r: Result<Value, Error>)
    ensures r.Success? <==> v.VBytes? || JsonEncodable(v)
    ensures r.Success? ==> r.value == v
    ensures r.Failure? ==> r.error == UserConfigNotJsonSerializable(v)
  {
    if v.VBytes? then Success(v)
    else if !v.VNone? && !JsonEncodable(v) then Failure(UserConfigNotJsonSerializable(v))
    else Success(v)
  }

  // ---------------------------------------------------------------------
  // Fields by name

  datatype Field =
    | NumReplicas
    | MaxConcurrentQueries
    | UserConfig
    | GracefulShutdownTimeoutS
    | GracefulShutdownWaitLoopS
    | HealthCheckPeriodS
    | HealthCheckTimeoutS
    | AutoscalingConfigField
    | IsCrossLanguage
    | DeploymentLanguageField
    | Version
    | UserConfiguredOptionNames

  function FieldName(f: Field): string {
    match f
    case NumReplicas => "num_replicas"
    case MaxConcurrentQueries => "max_concurrent_queries"
    case UserConfig => "user_config"
    case GracefulShutdownTimeoutS => "graceful_shutdown_timeout_s"
    case GracefulShutdownWaitLoopS => "graceful_shutdown_wait_loop_s"
    case HealthCheckPeriodS => "health_check_period_s"
    case HealthCheckTimeoutS => "health_check_timeout_s"
    case AutoscalingConfigField => "autoscaling_config"
    case IsCrossLanguage => "is_cross_language"
    case DeploymentLanguageField => "deployment_language"
    case Version => "version"
    case UserConfiguredOptionNames => "user_configured_option_names"
  }

  /** `set(DeploymentConfig().dict().keys())`. */
  const ValidOptions: set<string> := {
    "num_replicas", "max_concurrent_queries", "user_config",
    "graceful_shutdown_timeout_s", "graceful_shutdown_wait_loop_s",
    "health_check_period_s", "health_check_timeout_s", "autoscaling_config",
    "is_cross_language", "deployment_language", "version",
    "user_configured_option_names"
  }

  /** The field a keyword names, if it names one. */
  function FieldNamed(key: string): (r: Option<Field>)
    ensures r.Some? <==> key in ValidOptions
    ensures r.Some? ==> FieldName(r.value) == key
    ensures forall f :: FieldName(f) == key ==> r == Some(f)
  {
    if key == "num_replicas" then Some(NumReplicas)
    else if key == "max_concurrent_queries" then Some(MaxConcurrentQueries)
    else if key == "user_config" then Some(UserConfig)
    else if key == "graceful_shutdown_timeout_s" then Some(GracefulShutdownTimeoutS)
    else if key == "graceful_shutdown_wait_loop_s" then Some(GracefulShutdownWaitLoopS)
    else if key == "health_check_period_s" then Some(HealthCheckPeriodS)
    else if key == "health_check_timeout_s" then Some(HealthCheckTimeoutS)
    else if key == "autoscaling_config" then Some(AutoscalingConfigField)
    else if key == "is_cross_language" then Some(IsCrossLanguage)
    else if key == "deployment_language" then Some(DeploymentLanguageField)
    else if key == "version" then Some(Version)
    else if key == "user_configured_option_names" then Some(UserConfiguredOptionNames)
    else None
  }

  /** How a change to each field can be applied by the controller
      (`update_type`); `None` for fields declared without one. */
  datatype UpdateClass = LightWeight | NeedsReconfigure | NeedsActorReconfigure | HeavyWeight

  function UpdateType(f: Field): Option<UpdateClass> {
    match f
    case NumReplicas => Some(LightWeight)
    case MaxConcurrentQueries => Some(NeedsReconfigure)
    case UserConfig => Some(NeedsActorReconfigure)
    case GracefulShutdownTimeoutS => Some(NeedsReconfigure)
    case GracefulShutdownWaitLoopS => Some(NeedsActorReconfigure)
    case HealthCheckPeriodS => Some(NeedsReconfigure)
    case HealthCheckTimeoutS => Some(NeedsReconfigure)
    case AutoscalingConfigField => Some(LightWeight)
    case IsCrossLanguage => None
    case DeploymentLanguageField => None
    case Version => Some(HeavyWeight)
    case UserConfiguredOptionNames => None
  }

  /** A value for one field, of that field's declared type. */
  datatype FieldValue =
    | NumReplicasValue(numReplicas: int)
    | MaxConcurrentQueriesValue(maxConcurrentQueries: Option<int>)
    | UserConfigValue(userConfig: Value)
    | GracefulShutdownTimeoutSValue(seconds: real)
    | GracefulShutdownWaitLoopSValue(seconds: real)
    | HealthCheckPeriodSValue(seconds: real)
    | HealthCheckTimeoutSValue(seconds: real)
    | AutoscalingConfigValue(autoscalingConfig: Option<Autoscaling.AutoscalingConfig>)
    | IsCrossLanguageValue(flag: bool)
    | DeploymentLanguageValue(language: DeploymentLanguage)
    | VersionValue(version: Option<string>)
    | UserConfiguredOptionNamesValue(names: set<string>)
  {
    function FieldOf(): Field {
      match this
      case NumReplicasValue(_) => NumReplicas
      case MaxConcurrentQueriesValue(_) => MaxConcurrentQueries
      case UserConfigValue(_) => UserConfig
      case GracefulShutdownTimeoutSValue(_) => GracefulShutdownTimeoutS
      case GracefulShutdownWaitLoopSValue(_) => GracefulShutdownWaitLoopS
      case HealthCheckPeriodSValue(_) => HealthCheckPeriodS
      case HealthCheckTimeoutSValue(_) => HealthCheckTimeoutS
      case AutoscalingConfigValue(_) => AutoscalingConfigField
      case IsCrossLanguageValue(_) => IsCrossLanguage
      case DeploymentLanguageValue(_) => DeploymentLanguageField
      case VersionValue(_) => Version
      case UserConfiguredOptionNamesValue(_) => UserConfiguredOptionNames
    }
  }

  /** Reading one field (`getattr(config, name)`). */
  function Get(c: DeploymentConfig, f: Field): (r: FieldValue)
    ensures r.FieldOf() == f
  {
    match f
    case NumReplicas => NumReplicasValue(c.numReplicas)
    case MaxConcurrentQueries => MaxConcurrentQueriesValue(Some(c.maxConcurrentQueries))
    case UserConfig => UserConfigValue(c.userConfig)
    case GracefulShutdownTimeoutS => GracefulShutdownTimeoutSValue(c.gracefulShutdownTimeoutS)
    case GracefulShutdownWaitLoopS => GracefulShutdownWaitLoopSValue(c.gracefulShutdownWaitLoopS)
    case HealthCheckPeriodS => HealthCheckPeriodSValue(c.healthCheckPeriodS)
    case HealthCheckTimeoutS => HealthCheckTimeoutSValue(c.healthCheckTimeoutS)
    case AutoscalingConfigField => AutoscalingConfigValue(c.autoscalingConfig)
    case IsCrossLanguage => IsCrossLanguageValue(c.isCrossLanguage)
    case DeploymentLanguageField => DeploymentLanguageValue(c.deploymentLanguage)
    case Version => VersionValue(c.version)
    case UserConfiguredOptionNames => UserConfiguredOptionNamesValue(c.userConfiguredOptionNames)
  }

  /** Writing one field without validation. */
  function Store(c: DeploymentConfig, v: FieldValue): DeploymentConfig
    requires v.MaxConcurrentQueriesValue? ==> v.maxConcurrentQueries.Some?
  {
    match v
    case NumReplicasValue(n) => c.(numReplicas := n)
    case MaxConcurrentQueriesValue(q) => c.(maxConcurrentQueries := q.value)
    case UserConfigValue(u) => c.(userConfig := u)
    case GracefulShutdownTimeoutSValue(s) => c.(gracefulShutdownTimeoutS := s)
    case GracefulShutdownWaitLoopSValue(s) => c.(gracefulShutdownWaitLoopS := s)
    case HealthCheckPeriodSValue(s) => c.(healthCheckPeriodS := s)
    case HealthCheckTimeoutSValue(s) => c.(healthCheckTimeoutS := s)
    case AutoscalingConfigValue(a) => c.(autoscalingConfig := a)
    case IsCrossLanguageValue(b) => c.(isCrossLanguage := b)
    case DeploymentLanguageValue(l) => c.(deploymentLanguage := l)
    case VersionValue(s) => c.(version := s)
    case UserConfiguredOptionNamesValue(s) => c.(userConfiguredOptionNames := s)
  }

  /** The value a validator stores: an absent `max_concurrent_queries`
      becomes the default, every other value is stored as given. */
  function Normalize(v: FieldValue, d: Defaults): FieldValue {
    if v.MaxConcurrentQueriesValue? && v.maxConcurrentQueries.None? then
      MaxConcurrentQueriesValue(Some(d.maxConcurrentQueries))
    else v
  }

  /** The declared constraint (or explicit validator) of the value's field. */
  function ValidateField(v: FieldValue, d: Defaults): (r: Result<FieldValue, Error>)
    ensures r.Success? ==> r.value == Normalize(v, d)
    ensures r.Success? <==>
      match v
      case NumReplicasValue(n) => n >= 0
      case MaxConcurrentQueriesValue(q) => q.None? || q.value > 0
      case UserConfigValue(u) => u.VBytes? || JsonEncodable(u)
      case GracefulShutdownTimeoutSValue(s) => s >= 0.0
      case GracefulShutdownWaitLoopSValue(s) => s >= 0.0
      case HealthCheckPeriodSValue(s) => s > 0.0
      case HealthCheckTimeoutSValue(s) => s > 0.0
      case _ => true
  {
    match v
    case NumReplicasValue(n) =>
      if n < 0 then Failure(OutOfRange("num_replicas", NonNegative)) else Success(v)
    case MaxConcurrentQueriesValue(q) =>
      (match SetMaxQueriesByMode(q, d.maxConcurrentQueries)
       case Failure(e) => Failure(e)
       case Success(q') => Success(MaxConcurrentQueriesValue(Some(q'))))
    case UserConfigValue(u) =>
      (match UserConfigJsonSerializable(u)
       case Failure(e) => Failure(e)
       case Success(_) => Success(v))
    case GracefulShutdownTimeoutSValue(s) =>
      if s < 0.0 then Failure(OutOfRange("graceful_shutdown_timeout_s", NonNegative)) else Success(v)
    case GracefulShutdownWaitLoopSValue(s) =>
      if s < 0.0 then Failure(OutOfRange("graceful_shutdown_wait_loop_s", NonNegative)) else Success(v)
    case HealthCheckPeriodSValue(s) =>
      if s <= 0.0 then Failure(OutOfRange("health_check_period_s", Positive)) else Success(v)
    case HealthCheckTimeoutSValue(s) =>
      if s <= 0.0 then Failure(OutOfRange("health_check_timeout_s", Positive)) else Success(v)
    case _ => Success(v)
  }

  /** Whether assigning `v` to field `f` passes validation. */
  predicate Accepts(f: Field, v: FieldValue, d: Defaults) {
    v.FieldOf() == f && ValidateField(v, d).Success?
  }

  /** `config.<f> = v` under `validate_assignment`: the value is checked
      (a failure raises a one-error ValidationError) and, when accepted,
      stored in that one field. */
  function Assign(c: DeploymentConfig, f: Field, v: FieldValue, d: Defaults): (r: Result<DeploymentConfig, Error>)
    ensures r.Success? <==> Accepts(f, v, d)
    ensures r.Failure? ==> r.error.Validation? && |r.error.errors| == 1
    ensures r.Success? ==> Get(r.value, f) == Normalize(v, d)
    ensures r.Success? ==> forall g :: g != f ==> Get(r.value, g) == Get(c, g)
    ensures r.Success? && Valid(c) && d.InRange()
            && (v.AutoscalingConfigValue? && v.autoscalingConfig.Some? ==> Autoscaling.Valid(v.autoscalingConfig.value))
            ==> Valid(r.value)
  {
    if v.FieldOf() != f then
      Failure(Validation([WrongFieldType(FieldName(f))]))
    else
      match ValidateField(v, d)
      case Failure(e) => Failure(Validation([e]))
      case Success(nv) => Success(Store(c, nv))
  }

  // ---------------------------------------------------------------------
  // Construction

  /** `DeploymentConfig()`: every field at its default, the validators run. */
  function Default(d: Defaults): (r: DeploymentConfig)
    ensures d.InRange() ==> Valid(r)
    ensures r.userConfig.VNone? && r.version.None? && r.autoscalingConfig.None?
    ensures r.userConfiguredOptionNames == {}
  {
    DeploymentConfig(
      numReplicas := 1,
      maxConcurrentQueries := SetMaxQueriesByMode(None, d.maxConcurrentQueries).value,
      userConfig := VNone,
      gracefulShutdownTimeoutS := d.gracefulShutdownTimeoutS,
      gracefulShutdownWaitLoopS := d.gracefulShutdownWaitLoopS,
      healthCheckPeriodS := d.healthCheckPeriodS,
      healthCheckTimeoutS := d.healthCheckTimeoutS,
      autoscalingConfig := None,
      isCrossLanguage := false,
      deploymentLanguage := Python,
      version := None,
      userConfiguredOptionNames := {})
  }

  /** The error of one field's check, if any. */
  function ErrorOf(v: FieldValue, d: Defaults): (r: seq<Error>)
    ensures |r| == 0 <==> ValidateField(v, d).Success?
  {
    match ValidateField(v, d)
    case Success(_) => []
    case Failure(e) => [e]
  }

  /** Every field error of `DeploymentConfig(**fields)`, in field order.
      A nested `AutoscalingConfig` instance is taken as already validated. */
  function FieldErrors(c: DeploymentConfig, d: Defaults): seq<Error> {
    ErrorOf(NumReplicasValue(c.numReplicas), d)
    + ErrorOf(MaxConcurrentQueriesValue(Some(c.maxConcurrentQueries)), d)
    + ErrorOf(UserConfigValue(c.userConfig), d)
    + ErrorOf(GracefulShutdownTimeoutSValue(c.gracefulShutdownTimeoutS), d)
    + ErrorOf(GracefulShutdownWaitLoopSValue(c.gracefulShutdownWaitLoopS), d)
    + ErrorOf(HealthCheckPeriodSValue(c.healthCheckPeriodS), d)
    + ErrorOf(HealthCheckTimeoutSValue(c.healthCheckTimeoutS), d)
  }

  /** `DeploymentConfig(**fields)` with every field given. */
  function New(c: DeploymentConfig, d: Defaults): (r: Result<DeploymentConfig, Error>)
    ensures r.Success? <==> FieldsValid(c)
    ensures r.Success? ==> r.value == c
    ensures r.Failure? ==> r.error.Validation? && |r.error.errors| > 0
  {
    var errs := FieldErrors(c, d);
    if errs == [] then Success(c) else Failure(Validation(errs))
  }

  // ---------------------------------------------------------------------
  // from_default

  /** A keyword argument's value: `DEFAULT.VALUE`, or a value to assign. */
  datatype Override = UseDefault | Given(value: FieldValue)

  /** The first keyword that names no field. */
  function FirstUnknown(kwargs: seq<(string, Override)>): (r: Option<nat>)
    ensures r.Some? ==> r.value < |kwargs| && kwargs[r.value].0 !in ValidOptions
    ensures r.Some? ==> forall j :: 0 <= j < r.value ==> kwargs[j].0 in ValidOptions
    ensures r.None? <==> forall j :: 0 <= j < |kwargs| ==> kwargs[j].0 in ValidOptions
  {
    if |kwargs| == 0 then None
    else if kwargs[0].0 !in ValidOptions then Some(0)
    else match FirstUnknown(kwargs[1..])
      case None => None
      case Some(j) => Some(j + 1)
  }

  /** The last non-default keyword value given for field `f`. */
  function GivenFor(kwargs: seq<(string, Override)>, f: Field): Option<FieldValue> {
    if |kwargs| == 0 then None
    else match GivenFor(kwargs[1..], f)
      case Some(v) => Some(v)
      case None =>
        if kwargs[0].0 == FieldName(f) && kwargs[0].1.Given? then Some(kwargs[0].1.value) else None
  }

  /** Every keyword names a field. */
  predicate AllKnown(kwargs: seq<(string, Override)>) {
    forall j :: 0 <= j < |kwargs| ==> kwargs[j].0 in ValidOptions
  }

  /** Every non-default keyword value passes its field's validation. */
  predicate AllGivenAccepted(kwargs: seq<(string, Override)>, d: Defaults)
    requires AllKnown(kwargs)
  {
    forall i :: 0 <= i < |kwargs| && kwargs[i].1.Given? ==>
      Accepts(FieldNamed(kwargs[i].0).value, kwargs[i].1.value, d)
  }

  /** Every non-default autoscaling config given is itself valid. */
  predicate GivenAutoscalingValid(kwargs: seq<(string, Override)>) {
    forall i :: 0 <= i < |kwargs| && kwargs[i].1.Given? && kwargs[i].1.value.AutoscalingConfigValue?
                && kwargs[i].1.value.autoscalingConfig.Some?
      ==> Autoscaling.Valid(kwargs[i].1.value.autoscalingConfig.value)
  }

  /** Dropping the `DEFAULT.VALUE` keywords, assign the rest one after
      another; the first rejected assignment raises. */
  function ApplyOverrides(c: DeploymentConfig, kwargs: seq<(string, Override)>, d: Defaults): (r: Result<DeploymentConfig, Error>)
    requires AllKnown(kwargs)
    ensures r.Success? <==> AllGivenAccepted(kwargs, d)
    ensures r.Success? ==> forall f ::
      Get(r.value, f) == match GivenFor(kwargs, f)
                         case None => Get(c, f)
                         case Some(v) => Normalize(v, d)
    ensures r.Success? && Valid(c) && d.InRange() && GivenAutoscalingValid(kwargs) ==> Valid(r.value)
    decreases |kwargs|
  {
    if |kwargs| == 0 then Success(c)
    else
      assert forall i :: 1 <= i < |kwargs| ==> kwargs[i] == kwargs[1..][i - 1];
      match kwargs[0].1
      case UseDefault => ApplyOverrides(c, kwargs[1..], d)
      case Given(v) =>
        match Assign(c, FieldNamed(kwargs[0].0).value, v, d)
        case Failure(e) => Failure(e)
        case Success(c') => ApplyOverrides(c', kwargs[1..], d)
  }

  /** `DeploymentConfig.from_default(**kwargs)`. */
  function FromDefault(kwargs: seq<(string, Override)>, d: Defaults): (r: Result<DeploymentConfig, Error>)
    ensures FirstUnknown(kwargs).Some? ==>
      r == Failure(UnknownDeploymentOption(kwargs[FirstUnknown(kwargs).value].0, ValidOptions))
    ensures FirstUnknown(kwargs).None? ==> (r.Success? <==> AllGivenAccepted(kwargs, d))
    ensures r.Success? ==> forall f ::
      Get(r.value, f) == match GivenFor(kwargs, f)
                         case None => Get(Default(d), f)
                         case Some(v) => Normalize(v, d)
    ensures r.Success? && d.InRange() && GivenAutoscalingValid(kwargs) ==> Valid(r.value)
  {
    match FirstUnknown(kwargs)
    case Some(i) => Failure(UnknownDeploymentOption(kwargs[i].0, ValidOptions))
    case None => ApplyOverrides(Default(d), kwargs, d)
  }

  /** A config is determined by what its fields read. */
  lemma GetDeterminesConfig(a: DeploymentConfig, b: DeploymentConfig)
    requires forall f :: Get(a, f) == Get(b, f)
    ensures a == b
  {
    assert Get(a, NumReplicas) == Get(b, NumReplicas);
    assert Get(a, MaxConcurrentQueries) == Get(b, MaxConcurrentQueries);
    assert Get(a, UserConfig) == Get(b, UserConfig);
    assert Get(a, GracefulShutdownTimeoutS) == Get(b, GracefulShutdownTimeoutS);
    assert Get(a, GracefulShutdownWaitLoopS) == Get(b, GracefulShutdownWaitLoopS);
    assert Get(a, HealthCheckPeriodS) == Get(b, HealthCheckPeriodS);
    assert Get(a, HealthCheckTimeoutS) == Get(b, HealthCheckTimeoutS);
    assert Get(a, AutoscalingConfigField) == Get(b, AutoscalingConfigField);
    assert Get(a, IsCrossLanguage) == Get(b, IsCrossLanguage);
    assert Get(a, DeploymentLanguageField) == Get(b, DeploymentLanguageField);
    assert Get(a, Version) == Get(b, Version);
    assert Get(a, UserConfiguredOptionNames) == Get(b, UserConfiguredOptionNames);
  }

  lemma {:induction false} NoGivenFor(kwargs: seq<(string, Override)>, f: Field)
    requires forall i :: 0 <= i < |kwargs| ==> kwargs[i].1.UseDefault?
    ensures GivenFor(kwargs, f).None?
    decreases |kwargs|
  {
    if |kwargs| > 0 {
      NoGivenFor(kwargs[1..], f);
    }
  }

  /** Keywords that are all `DEFAULT.VALUE` leave the default config. */
  lemma FromDefaultOfDefaults(kwargs: seq<(string, Override)>, d: Defaults)
    requires AllKnown(kwargs)
    requires forall i :: 0 <= i < |kwargs| ==> kwargs[i].1.UseDefault?
    ensures FromDefault(kwargs, d) == Success(Default(d))
  {
    var r := FromDefault(kwargs, d);
    assert r.Success?;
    forall f ensures Get(r.value, f) == Get(Default(d), f) {
      NoGivenFor(kwargs, f);
    }
    GetDeterminesConfig(r.value, Default(d));
  }
}
