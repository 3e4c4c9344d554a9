/** `HTTPOptions`: where the HTTP proxies run. Two field validators tie the
    location to the host and to the fixed replica count; with assignment
    validation each assignment re-runs only the assigned field's validator. */
module HttpOptions {
  import opened Wrappers
  import opened Values
  import opened Errors

  datatype DeploymentMode = NoServer | HeadOnly | EveryNode | FixedNumber

  /** A constructed `HTTPOptions`; `location` is never None once the
      location validator has run. */
  datatype HTTPOptions = HTTPOptions(
    host: Option<string>,
    port: int,
    middlewares: seq<Value>,
    location: DeploymentMode,
    numCpus: int,
    rootUrl: string,
    rootPath: string,
    fixedNumberReplicas: Option<int>,
    fixedNumberSelectionSeed: int,
    requestTimeoutS: Option<real>,
    keepAliveTimeoutS: int)

  /** The arguments of the constructor; `location` may be None. */
  datatype HTTPOptionsArgs = HTTPOptionsArgs(
    host: Option<string>,
    port: int,
    middlewares: seq<Value>,
    location: Option<DeploymentMode>,
    numCpus: int,
    rootUrl: string,
    rootPath: string,
    fixedNumberReplicas: Option<int>,
    fixedNumberSelectionSeed: int,
    requestTimeoutS: Option<real>,
    keepAliveTimeoutS: int)

  /** `location_backfill_no_server`: no host or no location means no
      proxy at all. */
  function LocationBackfillNoServer(host: Option<string>, location: Option<DeploymentMode>): (r: DeploymentMode)
    ensures r.NoServer? <==> host.None? || location.None? || location.value.NoServer?
    ensures host.Some? && location.Some? ==> r == location.value
  {
    if host.None? || location.None? then NoServer else location.value
  }

  /** `fixed_number_replicas_should_exist`. */
  function FixedNumberReplicasShouldExist(location: DeploymentMode, fixedNumberReplicas: Option<int>): (r: Result<Option<int>, Error>)
    ensures r.Success? <==> !(location.FixedNumber? && fixedNumberReplicas.None?)
    ensures r.Success? ==> r.value == fixedNumberReplicas
    ensures r.Failure? ==> r.error == FixedNumberReplicasMissing
  {
    if location.FixedNumber? && fixedNumberReplicas.None? then Failure(FixedNumberReplicasMissing)
    else Success(fixedNumberReplicas)
  }

  /** What the two validators establish together. */
  predicate Consistent(o: HTTPOptions) {
    && (o.host.None? ==> o.location.NoServer?)
    && (o.location.FixedNumber? ==> o.fixedNumberReplicas.Some?)
  }

  /** `HTTPOptions(**args)`: the location validator runs first, and the
      fixed-count validator sees its result. */
  function New(a: HTTPOptionsArgs): (r: Result<HTTPOptions, Error>)
    ensures r.Success? ==> Consistent(r.value)
    ensures r.Success? <==>
      !(LocationBackfillNoServer(a.host, a.location).FixedNumber? && a.fixedNumberReplicas.None?)
    ensures r.Failure? ==> r.error == Validation([FixedNumberReplicasMissing])
    ensures r.Success? ==>
      && r.value.host == a.host
      && r.value.fixedNumberReplicas == a.fixedNumberReplicas
      && (a.host.Some? && a.location.Some? ==> r.value.location == a.location.value)
    ensures r.Success? ==> r.value.location == LocationBackfillNoServer(a.host, a.location)
    ensures r.Success? && (a.host.None? || a.location.None?) ==> r.value.location.NoServer?
  {
    var location := LocationBackfillNoServer(a.host, a.location);
    match FixedNumberReplicasShouldExist(location, a.fixedNumberReplicas)
    case Failure(e) => Failure(Validation([e]))
    case Success(fixed) =>
      Success(HTTPOptions(
        a.host, a.port, a.middlewares, location, a.numCpus, a.rootUrl, a.rootPath,
        fixed, a.fixedNumberSelectionSeed, a.requestTimeoutS, a.keepAliveTimeoutS))
  }

  /** `options.host = host`: the field has no validator. */
  function AssignHost(o: HTTPOptions, host: Option<string>): (r: HTTPOptions)
    ensures r.host == host && r.(host := o.host) == o
  {
    o.(host := host)
  }

  /** `options.location = location`: backfilled against the current host;
      the fixed-count validator is not re-run. */
  function AssignLocation(o: HTTPOptions, location: Option<DeploymentMode>): (r: HTTPOptions)
    ensures r.location == LocationBackfillNoServer(o.host, location)
    ensures r.(location := o.location) == o
    ensures Consistent(o) && !r.location.FixedNumber? ==> Consistent(r)
  {
    o.(location := LocationBackfillNoServer(o.host, location))
  }

  /** `options.fixed_number_replicas = n`: checked against the current
      location. */
  function AssignFixedNumberReplicas(o: HTTPOptions, fixedNumberReplicas: Option<int>): (r: Result<HTTPOptions, Error>)
    ensures r.Success? <==> !(o.location.FixedNumber? && fixedNumberReplicas.None?)
    ensures r.Failure? ==> r.error == Validation([FixedNumberReplicasMissing])
    ensures r.Success? ==> r.value == o.(fixedNumberReplicas := fixedNumberReplicas)
    ensures r.Success? && Consistent(o) ==> Consistent(r.value)
  {
    match FixedNumberReplicasShouldExist(o.location, fixedNumberReplicas)
    case Failure(e) => Failure(Validation([e]))
    case Success(fixed) => Success(o.(fixedNumberReplicas := fixed))
  }

  /** Assigning a host or a location can leave options the constructor
      would have backfilled or rejected: clearing the host keeps a head-node
      proxy, and moving to a fixed count keeps a missing replica count. */
  lemma AssignmentsCanBreakConsistency(a: HTTPOptionsArgs)
    requires a.host.Some? && a.location == Some(HeadOnly) && a.fixedNumberReplicas.None?
    ensures New(a).Success? && Consistent(New(a).value)
    ensures !Consistent(AssignHost(New(a).value, None))
    ensures New(a.(host := None)).Success? && New(a.(host := None)).value.location.NoServer?
    ensures !Consistent(AssignLocation(New(a).value, Some(FixedNumber)))
    ensures New(a.(location := Some(FixedNumber))).Failure?
  {
  }
}
