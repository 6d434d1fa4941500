/** The resolver registry (`Resolver._registry`): resolver classes register
    under their `resolver_id` when they are defined, and `Resolver.create`
    builds an instance of a registered class by id. */
module Resolvers {
  import opened Builtins
  import opened ConfigValues

  /** A subclass of `Resolver` as its definition presents it to
      `__init_subclass__`: the class name and the class-level `resolver_id`
      attribute, `None` when the class does not define one. */
  datatype ResolverClass = ResolverClass(name: string, resolverId: Option<string>)

  /** A resolver instance (`Resolver.__init__`): its class, the configuration
      it was created with and the name of the logger it writes to. */
  datatype Resolver = Resolver(kind: ResolverClass, config: Value, logger: string) {
    /** `resolver.resolver_id`, read through the instance from its class. */
    function Id(): string
    {
      if kind.resolverId.Some? then kind.resolverId.value else ""
    }
  }

  /** The resolver classes of the collector, as the scan of the `resolvers`
      package finds them. */
  const NetworkClass := ResolverClass("NetworkResolver", Some("network"))
  const TracerouteClass := ResolverClass("NetworkTracerouteResolver", Some("network-traceroute"))
  const HllCrconClass := ResolverClass("HLLCrconResolver", Some("hll-crcon"))
  const BuiltinClasses := [HllCrconClass, NetworkClass, TracerouteClass]

  const LoggerPrefix := "collector.resolver."

  /** Every registered class sits under its own, non-empty resolver id. */
  ghost predicate WellFormed(classes: map<string, ResolverClass>)
  {
    forall id :: id in classes ==> id != "" && classes[id].resolverId == Some(id)
  }

  function MissingIdMessage(cls: ResolverClass): string
  {
    cls.name + " must define a class-level 'resolver_id'"
  }

  function UnknownIdMessage(id: string): string
  {
    "Resolver '" + id + "' is not registered"
  }

  /** `__init_subclass__`: a class without a (non-empty) `resolver_id` is
      refused with a TypeError; any other class is stored under its id,
      replacing a class registered earlier under the same id. */
  function RegisterIn(classes: map<string, ResolverClass>, cls: ResolverClass): (r: Try<map<string, ResolverClass>>)
    ensures WellFormed(classes) && r.Ok? ==> WellFormed(r.value)
  {
    match cls.resolverId
    case None => Err(TypeError(MissingIdMessage(cls)))
    case Some(id) =>
      if id == "" then Err(TypeError(MissingIdMessage(cls))) else Ok(classes[id := cls])
  }

  /** `Resolver.create(resolver_id, config)`: a ValueError for an id nobody
      registered, otherwise a new instance of the registered class with the
      given config and the logger `collector.resolver.{id}`. */
  function CreateFrom(classes: map<string, ResolverClass>, id: string, config: Value): (r: Try<Resolver>)
    ensures WellFormed(classes) && r.Ok? ==> r.value.Id() == id
  {
    if id in classes then Ok(Resolver(classes[id], config, LoggerPrefix + id))
    else Err(ValueError(UnknownIdMessage(id)))
  }

  /** A class without a resolver id, or with an empty one, is refused with a
      TypeError and registers nothing. */
  lemma RegisterRejectsMissingId(classes: map<string, ResolverClass>, cls: ResolverClass)
    requires cls.resolverId.None? || cls.resolverId == Some("")
    ensures RegisterIn(classes, cls) == Err(TypeError(MissingIdMessage(cls)))
  {
  }

  /** A class with a resolver id can be created by that id afterwards, with
      the config given to `create`, whatever was registered under the id
      before: a second registration replaces the first without an error. */
  lemma CreateAfterRegister(classes: map<string, ResolverClass>, cls: ResolverClass, config: Value)
    requires cls.resolverId.Some? && cls.resolverId.value != ""
    ensures RegisterIn(classes, cls).Ok?
    ensures CreateFrom(RegisterIn(classes, cls).value, cls.resolverId.value, config)
            == Ok(Resolver(cls, config, LoggerPrefix + cls.resolverId.value))
  {
  }

  /** Registering a class changes what `create` returns for its own id only. */
  lemma RegisterLeavesOtherIds(classes: map<string, ResolverClass>, cls: ResolverClass, other: string, config: Value)
    requires RegisterIn(classes, cls).Ok? && cls.resolverId != Some(other)
    ensures CreateFrom(RegisterIn(classes, cls).value, other, config) == CreateFrom(classes, other, config)
  {
  }

  /** An id that is not registered makes `create` raise a ValueError naming it. */
  lemma CreateUnknown(classes: map<string, ResolverClass>, id: string, config: Value)
    requires id !in classes
    ensures CreateFrom(classes, id, config) == Err(ValueError("Resolver '" + id + "' is not registered"))
  {
  }

  /** The explicit registration sequence that replaces the module scan: the
      classes are defined one after another and the first TypeError stops
      the sequence, leaving the classes registered before it. */
  function RegisterEach(classes: map<string, ResolverClass>, cs: seq<ResolverClass>): (r: (map<string, ResolverClass>, Option<Exception>))
    decreases |cs|
  {
    if cs == [] then (classes, None)
    else match RegisterIn(classes, cs[0])
      case Err(e) => (classes, Some(e))
      case Ok(next) => RegisterEach(next, cs[1..])
  }

  /** Registering the collector's own classes succeeds and makes the three
      ids, and nothing else, available to `create`. */
  lemma BuiltinRegistration()
    ensures RegisterEach(map[], BuiltinClasses).1 == None
    ensures RegisterEach(map[], BuiltinClasses).0.Keys == {"hll-crcon", "network", "network-traceroute"}
    ensures WellFormed(RegisterEach(map[], BuiltinClasses).0)
  {
    var m1 := map[]["hll-crcon" := HllCrconClass];
    var m2 := m1["network" := NetworkClass];
    var m3 := m2["network-traceroute" := TracerouteClass];
    assert RegisterEach(map[], BuiltinClasses) == RegisterEach(m1, BuiltinClasses[1..]);
    assert RegisterEach(m1, BuiltinClasses[1..]) == RegisterEach(m2, BuiltinClasses[2..]);
    assert RegisterEach(m2, BuiltinClasses[2..]) == RegisterEach(m3, []);
  }

  /** `Resolver._registry`, the class-level table written by
      `__init_subclass__` and read by `create`. */
  class Registry {
    var classes: map<string, ResolverClass>

    ghost predicate Valid()
      reads this
    {
      WellFormed(classes)
    }

    constructor ()
      ensures Valid() && classes == map[]
    {
      classes := map[];
    }

    /** The registration done when one resolver class is defined. */
    method Register(cls: ResolverClass) returns (error: Option<Exception>)
      requires Valid()
      modifies this
      ensures Valid()
      ensures match RegisterIn(old(classes), cls)
              case Ok(next) => error == None && classes == next
              case Err(e) => error == Some(e) && classes == old(classes)
    {
      if cls.resolverId.None? || cls.resolverId.value == "" {
        error := Some(TypeError(MissingIdMessage(cls)));
        return;
      }
      classes := classes[cls.resolverId.value := cls];
      error := None;
    }

    /** Defines the given classes in order; the first refused class stops
        the sequence with its TypeError. */
    method RegisterAll(cs: seq<ResolverClass>) returns (error: Option<Exception>)
      requires Valid()
      modifies this
      ensures Valid()
      ensures (classes, error) == RegisterEach(old(classes), cs)
    {
      var i := 0;
      while i < |cs|
        invariant 0 <= i <= |cs| && Valid()
        invariant RegisterEach(old(classes), cs) == RegisterEach(classes, cs[i..])
      {
        assert cs[i..][1..] == cs[i + 1..];
        error := Register(cs[i]);
        if error.Some? {
          return;
        }
        i := i + 1;
      }
      error := None;
    }

    /** `Resolver.create`; it reads the table and does not change it. */
    function Create(id: string, config: Value): (r: Try<Resolver>)
      reads this
      ensures Valid() && r.Ok? ==> r.value.Id() == id
    {
      CreateFrom(classes, id, config)
    }
  }
}
