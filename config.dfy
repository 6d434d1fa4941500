/** `Config.servers`: the server list assembled from the configuration
    document, with the two baseline resolvers in front of each server's own,
    built once and then handed out again. */
module Config {
  import opened Builtins
  import opened ConfigValues
  import opened Resolvers

  /** `Server`: a hostname and its resolvers in attachment order. */
  datatype Server = Server(hostname: string, resolvers: seq<Resolver>)

  /** The resolvers every server gets before its configured ones. */
  const BaselineIds := ["network", "network-traceroute"]

  /** `for s in v`: the elements of a list, the keys of a dict, the
      characters of a string; other scalars are not iterable. A class
      attribute counts as not iterable: the only attribute iterated,
      `servers`, is never one. */
  function Iterate(v: Value): Try<seq<Value>>
  {
    match v
    case List(xs) => Ok(xs)
    case PlainDict(es) => Ok(seq(|es|, i requires 0 <= i < |es| => Str(es[i].key)))
    case ConfigDict(es) => Ok(seq(|es|, i requires 0 <= i < |es| => Str(es[i].key)))
    case Str(s) => Ok(seq(|s|, i requires 0 <= i < |s| => Str([s[i]])))
    case _ => Err(TypeError("'" + TypeName(v) + "' object is not iterable"))
  }

  /** `s.get("resolvers", {}).items()`: the configured resolver ids and their
      configs, in mapping order; no `resolvers` key means none. */
  function ResolverEntries(s: Value): Try<seq<Entry>>
  {
    match DictGet(s, "resolvers", PlainDict([]))
    case Err(e) => Err(e)
    case Ok(rs) =>
      if rs.PlainDict? || rs.ConfigDict? then Ok(rs.entries)
      else Err(AttributeError("'" + TypeName(rs) + "' object has no attribute 'items'"))
  }

  /** The configured resolvers of one server, created in order; the first
      `create` that fails ends the loop with its exception. */
  function CreateAll(classes: map<string, ResolverClass>, es: seq<Entry>): Try<seq<Resolver>>
    decreases |es|
  {
    if es == [] then Ok([])
    else
      match CreateAll(classes, es[..|es| - 1])
      case Err(e) => Err(e)
      case Ok(rs) =>
        match CreateFrom(classes, es[|es| - 1].key, es[|es| - 1].value)
        case Err(e) => Err(e)
        case Ok(r) => Ok(rs + [r])
  }

  /** One server of the list, built as the loop body does: the two baseline
      resolvers (each with an empty plain dict as config), then the
      configured ones, then the hostname attribute. */
  function ServerFor(classes: map<string, ResolverClass>, s: Value): Try<Server>
  {
    match CreateFrom(classes, BaselineIds[0], PlainDict([]))
    case Err(e) => Err(e)
    case Ok(network) =>
      match CreateFrom(classes, BaselineIds[1], PlainDict([]))
      case Err(e) => Err(e)
      case Ok(traceroute) =>
        match ResolverEntries(s)
        case Err(e) => Err(e)
        case Ok(es) =>
          match CreateAll(classes, es)
          case Err(e) => Err(e)
          case Ok(configured) =>
            match GetAttr(s, "hostname")
            case Err(e) => Err(e)
            case Ok(h) =>
              if h.Str? then Ok(Server(h.s, [network, traceroute] + configured))
              else Err(TypeError("hostname must be a string"))
  }

  /** The servers appended for the given config entries, and the exception
      that stopped the loop, if any: servers built before a failing entry
      stay appended. */
  function Assemble(classes: map<string, ResolverClass>, elems: seq<Value>): (r: (seq<Server>, Option<Exception>))
    decreases |elems|
  {
    if elems == [] then ([], None)
    else
      var (built, error) := Assemble(classes, elems[..|elems| - 1]);
      if error.Some? then (built, error)
      else match ServerFor(classes, elems[|elems| - 1])
        case Ok(server) => (built + [server], None)
        case Err(e) => (built, Some(e))
  }

  /** `self.config.servers`, iterated. */
  function ServerEntries(config: Value): Try<seq<Value>>
  {
    match GetAttr(config, "servers")
    case Err(e) => Err(e)
    case Ok(v) => Iterate(v)
  }

  /** What the first computation of `servers` appends, and what it raises. */
  function ServersOf(classes: map<string, ResolverClass>, config: Value): (seq<Server>, Option<Exception>)
  {
    match ServerEntries(config)
    case Err(e) => ([], Some(e))
    case Ok(elems) => Assemble(classes, elems)
  }

  lemma {:induction false} CreateAllResult(classes: map<string, ResolverClass>, es: seq<Entry>)
    ensures CreateAll(classes, es).Ok? <==> forall j :: 0 <= j < |es| ==> es[j].key in classes
    ensures CreateAll(classes, es).Ok? ==>
              |CreateAll(classes, es).value| == |es| &&
              forall j :: 0 <= j < |es| ==>
                CreateAll(classes, es).value[j] == Resolver(classes[es[j].key], es[j].value, LoggerPrefix + es[j].key)
    decreases |es|
  {
    if es != [] {
      var n := |es| - 1;
      CreateAllResult(classes, es[..n]);
      assert forall j :: 0 <= j < n ==> es[..n][j] == es[j];
    }
  }

  lemma {:induction false} CreateAllFirstUnknown(classes: map<string, ResolverClass>, es: seq<Entry>, k: nat)
    requires k < |es| && es[k].key !in classes
    requires forall j :: 0 <= j < k ==> es[j].key in classes
    ensures CreateAll(classes, es) == Err(ValueError(UnknownIdMessage(es[k].key)))
    decreases |es|
  {
    var n := |es| - 1;
    if k == n {
      CreateAllResult(classes, es[..n]);
      assert forall j :: 0 <= j < n ==> es[..n][j] == es[j];
    } else {
      assert es[..n][k] == es[k];
      assert forall j :: 0 <= j < k ==> es[..n][j] == es[j];
      CreateAllFirstUnknown(classes, es[..n], k);
    }
  }

  /** A built server has the hostname of its entry and the resolvers
      `network`, `network-traceroute` and then one per configured resolver,
      in mapping order, each created with its own config. */
  lemma ServerForShape(classes: map<string, ResolverClass>, s: Value)
    requires WellFormed(classes)
    requires ServerFor(classes, s).Ok?
    ensures ResolverEntries(s).Ok?
    ensures var server, es := ServerFor(classes, s).value, ResolverEntries(s).value;
      && GetAttr(s, "hostname") == Ok(Str(server.hostname))
      && |server.resolvers| == 2 + |es|
      && server.resolvers[0].Id() == "network" && server.resolvers[0].config == PlainDict([])
      && server.resolvers[1].Id() == "network-traceroute" && server.resolvers[1].config == PlainDict([])
      && forall j :: 0 <= j < |es| ==>
           (es[j].key in classes &&
            server.resolvers[2 + j] == Resolver(classes[es[j].key], es[j].value, LoggerPrefix + es[j].key))
  {
    CreateAllResult(classes, ResolverEntries(s).value);
  }

  /** With both baseline resolvers registered, an unregistered id among a
      server's configured resolvers makes the build raise the ValueError of
      `create` for the first such id. */
  lemma ServerForUnknownResolver(classes: map<string, ResolverClass>, s: Value, k: nat)
    requires "network" in classes && "network-traceroute" in classes
    requires ResolverEntries(s).Ok?
    requires var es := ResolverEntries(s).value;
      k < |es| && es[k].key !in classes && forall j :: 0 <= j < k ==> es[j].key in classes
    ensures ServerFor(classes, s) == Err(ValueError(UnknownIdMessage(ResolverEntries(s).value[k].key)))
  {
    CreateAllFirstUnknown(classes, ResolverEntries(s).value, k);
  }

  /** The servers appended for the entries before a failure are those
      entries' servers, in order. */
  lemma {:induction false} AssembleBuilt(classes: map<string, ResolverClass>, elems: seq<Value>)
    ensures |Assemble(classes, elems).0| <= |elems|
    ensures forall i :: 0 <= i < |Assemble(classes, elems).0| ==> ServerFor(classes, elems[i]) == Ok(Assemble(classes, elems).0[i])
    decreases |elems|
  {
    if elems != [] {
      var n := |elems| - 1;
      var prev := elems[..n];
      AssembleBuilt(classes, prev);
      AssembleError(classes, prev);
      var built := Assemble(classes, prev).0;
      var last := ServerFor(classes, elems[n]);
      var result := Assemble(classes, elems).0;
      if Assemble(classes, prev).1.None? && last.Ok? {
        assert result == built + [last.value];
      } else {
        assert result == built;
      }
      forall i | 0 <= i < |result| ensures ServerFor(classes, elems[i]) == Ok(result[i]) {
        if i < |built| {
          assert prev[i] == elems[i];
          assert result[i] == built[i];
        }
      }
    }
  }

  /** Without a failure every entry has its server; a failure comes from the
      entry right after the servers built. */
  lemma {:induction false} AssembleError(classes: map<string, ResolverClass>, elems: seq<Value>)
    ensures var (built, error) := Assemble(classes, elems);
      && (error.None? ==> |built| == |elems|)
      && (error.Some? ==> |built| < |elems| && ServerFor(classes, elems[|built|]) == Err(error.value))
    decreases |elems|
  {
    if elems != [] {
      var n := |elems| - 1;
      AssembleError(classes, elems[..n]);
      var (built, error) := Assemble(classes, elems[..n]);
      if error.Some? {
        assert elems[..n][|built|] == elems[|built|];
      }
    }
  }

  /** The loop appends one server per config entry, in order, until an
      entry fails; without a failure every entry has its server. */
  lemma AssembleResult(classes: map<string, ResolverClass>, elems: seq<Value>)
    ensures var (built, error) := Assemble(classes, elems);
      && |built| <= |elems|
      && (forall i :: 0 <= i < |built| ==> ServerFor(classes, elems[i]) == Ok(built[i]))
      && (error.None? ==> |built| == |elems|)
      && (error.Some? ==> |built| < |elems| && ServerFor(classes, elems[|built|]) == Err(error.value))
  {
    AssembleBuilt(classes, elems);
    AssembleError(classes, elems);
  }

  lemma {:induction false} CreateAllStops(classes: map<string, ResolverClass>, es: seq<Entry>, k: nat)
    requires k <= |es| && CreateAll(classes, es[..k]).Err?
    ensures CreateAll(classes, es) == CreateAll(classes, es[..k])
    decreases |es|
  {
    if k < |es| {
      var n := |es| - 1;
      assert es[..n][..k] == es[..k];
      CreateAllStops(classes, es[..n], k);
    } else {
      assert es[..k] == es;
    }
  }

  lemma {:induction false} AssembleStops(classes: map<string, ResolverClass>, elems: seq<Value>, k: nat)
    requires k <= |elems| && Assemble(classes, elems[..k]).1.Some?
    ensures Assemble(classes, elems) == Assemble(classes, elems[..k])
    decreases |elems|
  {
    if k < |elems| {
      var n := |elems| - 1;
      assert elems[..n][..k] == elems[..k];
      AssembleStops(classes, elems[..n], k);
    } else {
      assert elems[..k] == elems;
    }
  }

  /** The body of the loop over config entries: builds one server. */
  method BuildServer(registry: Registry, s: Value) returns (r: Try<Server>)
    ensures r == ServerFor(registry.classes, s)
  {
    var network := registry.Create(BaselineIds[0], PlainDict([]));
    if network.Err? {
      return Err(network.error);
    }
    var traceroute := registry.Create(BaselineIds[1], PlainDict([]));
    if traceroute.Err? {
      return Err(traceroute.error);
    }
    var resolvers := [network.value, traceroute.value];
    var configured := ResolverEntries(s);
    if configured.Err? {
      return Err(configured.error);
    }
    var es := configured.value;
    var j := 0;
    assert es[..0] == [] && resolvers[2..] == [];
    while j < |es|
      invariant 0 <= j <= |es|
      invariant |resolvers| >= 2 && resolvers[..2] == [network.value, traceroute.value]
      invariant CreateAll(registry.classes, es[..j]) == Ok(resolvers[2..])
    {
      assert es[..j + 1][..j] == es[..j];
      var resolver := registry.Create(es[j].key, es[j].value);
      if resolver.Err? {
        CreateAllStops(registry.classes, es, j + 1);
        return Err(resolver.error);
      }
      assert CreateAll(registry.classes, es[..j + 1]) == Ok(resolvers[2..] + [resolver.value]);
      ghost var before := resolvers;
      resolvers := resolvers + [resolver.value];
      assert resolvers[2..] == before[2..] + [resolver.value];
      j := j + 1;
    }
    assert es[..j] == es;
    var hostname := GetAttr(s, "hostname");
    if hostname.Err? {
      return Err(hostname.error);
    }
    if !hostname.value.Str? {
      return Err(TypeError("hostname must be a string"));
    }
    assert resolvers == [network.value, traceroute.value] + resolvers[2..];
    r := Ok(Server(hostname.value.s, resolvers));
  }

  /** The configuration and the memoized server list (`Config._servers`). */
  class Config {
    const config: Value
    var servers: seq<Server>

    /** The document after `_to_object`; nothing is built yet. */
    constructor (raw: Value)
      ensures config == ToObject(raw) && servers == []
    {
      config := ToObject(raw);
      servers := [];
    }

    /** The `servers` property. A non-empty list is returned again as it is,
        without creating any resolver. An empty one is (re)built: servers are
        appended one by one, so on an exception the servers built before it
        stay in the list. */
    method Servers(registry: Registry) returns (r: Try<seq<Server>>)
      modifies this
      ensures old(servers) != [] ==> servers == old(servers) && r == Ok(servers)
      ensures old(servers) == [] ==>
                var (built, error) := ServersOf(registry.classes, config);
                servers == built && r == (if error.None? then Ok(built) else Err(error.value))
    {
      if servers != [] {
        return Ok(servers);
      }
      var entries := ServerEntries(config);
      if entries.Err? {
        return Err(entries.error);
      }
      var elems := entries.value;
      var i := 0;
      while i < |elems|
        invariant 0 <= i <= |elems|
        invariant Assemble(registry.classes, elems[..i]) == (servers, None)
      {
        assert elems[..i + 1][..i] == elems[..i];
        var server := BuildServer(registry, elems[i]);
        if server.Err? {
          AssembleStops(registry.classes, elems, i + 1);
          return Err(server.error);
        }
        servers := servers + [server.value];
        i := i + 1;
      }
      assert elems[..i] == elems;
      return Ok(servers);
    }
  }
}
