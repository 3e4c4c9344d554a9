/** The Ray actor options a replica may carry: a fixed allow-list of
    keys, and one CPU unless the user says otherwise. */
module ActorOptions {
  import opened Wrappers
  import opened Values
  import opened Errors

  /** The options a deployment may pass to its replica actors. */
  const AllowedOptions: set<string> :=
    {"accelerator_type", "memory", "num_cpus", "num_gpus", "object_store_memory", "resources", "runtime_env"}

  /** The option keys the placement check reads. */
  const NumCpus := VStr("num_cpus")
  const NumGpus := VStr("num_gpus")
  const Resources := VStr("resources")

  predicate Allowed(key: Value) {
    key.VStr? && key.s in AllowedOptions
  }

  /** Index of the first key, in iteration order, that is not allowed. */
  function FirstDisallowed(es: seq<(Value, Value)>): (r: Option<nat>)
    ensures r.None? <==> forall i :: 0 <= i < |es| ==> Allowed(es[i].0)
    ensures r.Some? ==> r.value < |es| && !Allowed(es[r.value].0)
    ensures r.Some? ==> forall i :: 0 <= i < r.value ==> Allowed(es[i].0)
  {
    if |es| == 0 then None
    else if !Allowed(es[0].0) then Some(0)
    else match FirstDisallowed(es[1..])
      case None => None
      case Some(j) => Some(j + 1)
  }

  /** What a validated options dict looks like: only allowed keys, and a
      `num_cpus` entry that is not None. */
  predicate Normalized(es: seq<(Value, Value)>) {
    && (forall i :: 0 <= i < |es| ==> Allowed(es[i].0))
    && Get(es, NumCpus, VNone) != VNone
  }

  /** `_validate_ray_actor_options`: reject a non-dict and the first key
      outside the allow-list, then fill in `num_cpus = 1` when it is absent
      or None. The options dict is returned rather than updated in place. */
  function Validate(options: Value): (r: Result<seq<(Value, Value)>, Error>)
    ensures !options.VDict? ==> r == Failure(ActorOptionsNotDict(options))
    ensures options.VDict? ==>
      (r.Success? <==> forall i :: 0 <= i < |options.entries| ==> Allowed(options.entries[i].0))
    ensures options.VDict? && r.Failure? ==>
      var i := FirstDisallowed(options.entries).value;
      r == Failure(ActorOptionNotAllowed(options.entries[i].0))
    ensures r.Success? ==> Normalized(r.value)
    ensures r.Success? ==>
      Get(r.value, NumCpus, VNone) ==
        if Get(options.entries, NumCpus, VNone) == VNone then VInt(1) else Get(options.entries, NumCpus, VNone)
    ensures r.Success? ==>
      forall k, d :: k != NumCpus ==> Get(r.value, k, d) == Get(options.entries, k, d)
    ensures r.Success? && DistinctKeys(options.entries) ==> DistinctKeys(r.value)
  {
    if !options.VDict? then Failure(ActorOptionsNotDict(options))
    else
      var es := options.entries;
      match FirstDisallowed(es)
      case Some(i) => Failure(ActorOptionNotAllowed(es[i].0))
      case None =>
        if Get(es, NumCpus, VNone) == VNone then
          PutSemantics(es, NumCpus, VInt(1));
          var es' := Put(es, NumCpus, VInt(1));
          assert forall i :: 0 <= i < |es'| ==> Allowed(es'[i].0) by {
            forall i | 0 <= i < |es'| ensures Allowed(es'[i].0) {
              assert HasKey(es', es'[i].0);
            }
          }
          Success(es')
        else
          Success(es)
  }

  /** Validating already validated options changes nothing. */
  lemma ValidateIdempotent(options: Value)
    requires Validate(options).Success?
    ensures Validate(VDict(Validate(options).value)) == Validate(options)
  {
  }
}
