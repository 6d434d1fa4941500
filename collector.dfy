/** One collection cycle of `DataCollector.run`: every resolver of every
    server is run against its cached previous Result, and the outcome decides
    whether the cache is written. */
module Collector {
  import opened Builtins
  import opened Resolvers
  import opened RunResults
  import opened Cache
  import opened Config

  /** `resolver.run(server, last_result)`, given as a function of its inputs
      and of the number of invocations made before it: the probes' I/O and
      the clock are outside the model, and the invocation number stands for
      the moment of the call, so two calls with the same arguments may end
      differently. */
  type Run = (nat, Server, Resolver, Option<Result>) -> RunOutcome

  /** A (hostname, resolver id) cache key. */
  type Key = (string, string)

  /** One invocation of a resolver: the key it ran for and the cached value
      it was handed. */
  datatype Call = Call(key: Key, last: Option<Result>)

  datatype Level = Debug | Error

  /** One log record: the logger's name, its level and the message. */
  datatype LogLine = LogLine(logger: string, level: Level, message: string)

  const CollectorLogger := "collector"
  const WrongTypeMessage := "resolver response has to be of type Result|SkippedRun"

  /** The steps of a cycle in execution order: entering a server's loop
      body, and invoking one of its resolvers. */
  datatype Event = Visit(server: Server) | Invoke(server: Server, resolver: Resolver)

  function InvokesOf(server: Server, rs: seq<Resolver>): (es: seq<Event>)
    ensures |es| == |rs|
    ensures forall j :: 0 <= j < |rs| ==> es[j] == Invoke(server, rs[j])
  {
    seq(|rs|, j requires 0 <= j < |rs| => Invoke(server, rs[j]))
  }

  /** The events of a cycle over the given servers. */
  function Events(servers: seq<Server>): seq<Event>
    decreases |servers|
  {
    if servers == [] then []
    else
      var s := servers[|servers| - 1];
      Events(servers[..|servers| - 1]) + [Visit(s)] + InvokesOf(s, s.resolvers)
  }

  function KeyOf(server: Server, resolver: Resolver): Key
  {
    (server.hostname, resolver.Id())
  }

  /** The keys the events invoke, in order. */
  function InvokedKeys(es: seq<Event>): seq<Key>
    decreases |es|
  {
    if es == [] then []
    else
      var e := es[|es| - 1];
      InvokedKeys(es[..|es| - 1]) + (if e.Invoke? then [KeyOf(e.server, e.resolver)] else [])
  }

  /** The configured (hostname, resolver id) pairs: servers in order, each
      server's resolvers in attachment order. */
  function ConfiguredKeys(servers: seq<Server>): seq<Key>
    decreases |servers|
  {
    if servers == [] then []
    else
      var s := servers[|servers| - 1];
      ConfiguredKeys(servers[..|servers| - 1]) + seq(|s.resolvers|, j requires 0 <= j < |s.resolvers| => KeyOf(s, s.resolvers[j]))
  }

  /** The cache, the invocations so far and the log written so far. */
  datatype CycleState = CycleState(data: CacheData, calls: seq<Call>, log: seq<LogLine>)

  /** The log records and the cache write, if any, of one invocation's outcome. */
  function OutcomeLog(server: Server, resolver: Resolver, outcome: RunOutcome): seq<LogLine>
  {
    match outcome
    case Finished(_) => []
    case Skipped(skip) =>
      [LogLine(CollectorLogger, Debug, "Skipped " + resolver.Id() + " run for " + server.hostname + ": " + skip.reason)]
    case WrongType(_) => [LogLine(resolver.logger, Error, WrongTypeMessage)]
    case Raised(e) => [LogLine(resolver.logger, Error, e.message)]
  }

  function OutcomeData(d: CacheData, key: Key, outcome: RunOutcome): CacheData
  {
    if outcome.Finished? then Store(d, key.0, key.1, outcome.result) else d
  }

  /** One step of the cycle. */
  function RunEvent(st: CycleState, e: Event, run: Run): CycleState
  {
    match e
    case Visit(s) =>
      st.(log := st.log + [LogLine(CollectorLogger, Debug, "resolving data for server \"" + s.hostname + "\"")])
    case Invoke(s, r) =>
      var key := KeyOf(s, r);
      var last := Lookup(st.data, key.0, key.1);
      var outcome := run(|st.calls|, s, r, last);
      CycleState(OutcomeData(st.data, key, outcome), st.calls + [Call(key, last)], st.log + OutcomeLog(s, r, outcome))
  }

  /** The state after the given steps, in order. */
  function RunEvents(st: CycleState, es: seq<Event>, run: Run): CycleState
    decreases |es|
  {
    if es == [] then st
    else RunEvent(RunEvents(st, es[..|es| - 1], run), es[|es| - 1], run)
  }

  lemma {:induction false} RunEventsAppend(st: CycleState, a: seq<Event>, b: seq<Event>, run: Run)
    ensures RunEvents(st, a + b, run) == RunEvents(RunEvents(st, a, run), b, run)
    decreases |b|
  {
    if b == [] {
      assert a + b == a;
    } else {
      var n := |b| - 1;
      assert (a + b)[..|a + b| - 1] == a + b[..n];
      RunEventsAppend(st, a, b[..n], run);
    }
  }

  lemma {:induction false} InvokedKeysAppend(a: seq<Event>, b: seq<Event>)
    ensures InvokedKeys(a + b) == InvokedKeys(a) + InvokedKeys(b)
    decreases |b|
  {
    if b == [] {
      assert a + b == a;
    } else {
      var n := |b| - 1;
      assert (a + b)[..|a + b| - 1] == a + b[..n];
      InvokedKeysAppend(a, b[..n]);
    }
  }

  lemma {:induction false} InvokedKeysOfInvokes(server: Server, rs: seq<Resolver>)
    ensures InvokedKeys(InvokesOf(server, rs)) == seq(|rs|, j requires 0 <= j < |rs| => KeyOf(server, rs[j]))
    decreases |rs|
  {
    if rs != [] {
      var n := |rs| - 1;
      assert InvokesOf(server, rs)[..n] == InvokesOf(server, rs[..n]);
      InvokedKeysOfInvokes(server, rs[..n]);
    }
  }

  /** The cycle invokes exactly the configured pairs: servers in configured
      order, each server's resolvers in attachment order. */
  lemma {:induction false} CycleInvokesConfiguredKeys(servers: seq<Server>)
    ensures InvokedKeys(Events(servers)) == ConfiguredKeys(servers)
    decreases |servers|
  {
    if servers != [] {
      var n := |servers| - 1;
      var s := servers[n];
      var before := Events(servers[..n]) + [Visit(s)];
      CycleInvokesConfiguredKeys(servers[..n]);
      InvokedKeysAppend(before, InvokesOf(s, s.resolvers));
      assert InvokedKeys(before) == InvokedKeys(Events(servers[..n])) by {
        assert before[..|before| - 1] == Events(servers[..n]);
      }
      InvokedKeysOfInvokes(s, s.resolvers);
    }
  }

  function CallKeys(calls: seq<Call>): (ks: seq<Key>)
    ensures |ks| == |calls| && forall i :: 0 <= i < |calls| ==> ks[i] == calls[i].key
  {
    seq(|calls|, i requires 0 <= i < |calls| => calls[i].key)
  }

  /** Every invoked step records exactly one call, whatever its outcome: the
      earlier calls are kept and the new ones are the invoked keys in order. */
  lemma {:induction false} CallsFollowInvocations(st: CycleState, es: seq<Event>, run: Run)
    ensures |RunEvents(st, es, run).calls| == |st.calls| + |InvokedKeys(es)|
    ensures RunEvents(st, es, run).calls[..|st.calls|] == st.calls
    ensures CallKeys(RunEvents(st, es, run).calls[|st.calls|..]) == InvokedKeys(es)
    decreases |es|
  {
    if es != [] {
      var n := |es| - 1;
      CallsFollowInvocations(st, es[..n], run);
      var mid := RunEvents(st, es[..n], run);
      var fin := RunEvents(st, es, run);
      if es[n].Invoke? {
        assert fin.calls == mid.calls + [Call(KeyOf(es[n].server, es[n].resolver), Lookup(mid.data, es[n].server.hostname, es[n].resolver.Id()))];
        assert fin.calls[|st.calls|..] == mid.calls[|st.calls|..] + [fin.calls[|fin.calls| - 1]];
      }
    }
  }

  /** A key that no step invokes keeps its cached value. */
  lemma {:induction false} UninvokedKeyUnchanged(st: CycleState, es: seq<Event>, run: Run, key: Key)
    requires key !in InvokedKeys(es)
    ensures Lookup(RunEvents(st, es, run).data, key.0, key.1) == Lookup(st.data, key.0, key.1)
    decreases |es|
  {
    if es != [] {
      var n := |es| - 1;
      UninvokedKeyUnchanged(st, es[..n], run, key);
      var mid := RunEvents(st, es[..n], run);
      if es[n].Invoke? {
        var k := KeyOf(es[n].server, es[n].resolver);
        var outcome := run(|mid.calls|, es[n].server, es[n].resolver, Lookup(mid.data, k.0, k.1));
        if outcome.Finished? {
          LookupAfterStore(mid.data, k.0, k.1, outcome.result, key.0, key.1);
        }
      }
    }
  }

  /** The first invocation of a key in a run of steps is handed the value the
      cache held for it before those steps: for a key configured once, the
      Result of an earlier cycle. */
  lemma {:induction false} FirstInvocationSeesPrevious(st: CycleState, es: seq<Event>, run: Run, i: nat)
    requires i < |InvokedKeys(es)| && InvokedKeys(es)[i] !in InvokedKeys(es)[..i]
    ensures |st.calls| + i < |RunEvents(st, es, run).calls|
    ensures var key := InvokedKeys(es)[i];
      RunEvents(st, es, run).calls[|st.calls| + i] == Call(key, Lookup(st.data, key.0, key.1))
    decreases |es|
  {
    CallsFollowInvocations(st, es, run);
    var n := |es| - 1;
    var prefix := es[..n];
    assert es == prefix + [es[n]];
    InvokedKeysAppend(prefix, [es[n]]);
    assert InvokedKeys([es[n]]) == InvokedKeys([]) + (if es[n].Invoke? then [KeyOf(es[n].server, es[n].resolver)] else []);
    CallsFollowInvocations(st, prefix, run);
    var mid := RunEvents(st, prefix, run);
    if i < |InvokedKeys(prefix)| {
      assert InvokedKeys(es)[..i] == InvokedKeys(prefix)[..i];
      FirstInvocationSeesPrevious(st, prefix, run, i);
    } else {
      var key := InvokedKeys(es)[i];
      assert InvokedKeys(prefix) == InvokedKeys(es)[..i];
      UninvokedKeyUnchanged(st, prefix, run, key);
    }
  }

  /** The outcome of a key's only invocation, made after the calls of the
      steps before it, decides its cached value after the steps: a Result is stored as it is; a SkippedRun, a value of another
      type and an exception all leave the previous value in place. */
  lemma OnlyInvocationOutcome(st: CycleState, a: seq<Event>, server: Server, resolver: Resolver, b: seq<Event>, run: Run)
    requires KeyOf(server, resolver) !in InvokedKeys(a) && KeyOf(server, resolver) !in InvokedKeys(b)
    ensures var key := KeyOf(server, resolver);
      var previous := Lookup(st.data, key.0, key.1);
      var outcome := run(|RunEvents(st, a, run).calls|, server, resolver, previous);
      Lookup(RunEvents(st, a + [Invoke(server, resolver)] + b, run).data, key.0, key.1)
        == if outcome.Finished? then Some(outcome.result) else previous
  {
    var key := KeyOf(server, resolver);
    var mid := RunEvents(st, a, run);
    assert RunEvents(st, a + [Invoke(server, resolver)] + b, run) == RunEvents(mid, [Invoke(server, resolver)] + b, run) by {
      RunEventsAppend(st, a, [Invoke(server, resolver)] + b, run);
      assert a + [Invoke(server, resolver)] + b == a + ([Invoke(server, resolver)] + b);
    }
    UninvokedKeyUnchanged(st, a, run, key);
    InvokeThenStay(mid, server, resolver, b, run);
  }

  /** An invocation followed by steps that do not invoke its key. */
  lemma InvokeThenStay(mid: CycleState, server: Server, resolver: Resolver, b: seq<Event>, run: Run)
    requires KeyOf(server, resolver) !in InvokedKeys(b)
    ensures var key := KeyOf(server, resolver);
      var outcome := run(|mid.calls|, server, resolver, Lookup(mid.data, key.0, key.1));
      Lookup(RunEvents(mid, [Invoke(server, resolver)] + b, run).data, key.0, key.1)
        == if outcome.Finished? then Some(outcome.result) else Lookup(mid.data, key.0, key.1)
  {
    var key := KeyOf(server, resolver);
    var after := RunEvent(mid, Invoke(server, resolver), run);
    assert RunEvents(mid, [Invoke(server, resolver)] + b, run) == RunEvents(after, b, run) by {
      RunEventsAppend(mid, [Invoke(server, resolver)], b, run);
      assert [Invoke(server, resolver)][..0] == [];
    }
    InvocationEffect(mid, server, resolver, run);
    UninvokedKeyUnchanged(after, b, run, key);
  }

  /** Only an invocation that returned a Result changes the cache, and it
      changes only its own key; a SkippedRun, a wrong return type or an
      exception leaves the whole cache as it was. */
  lemma InvocationEffect(st: CycleState, server: Server, resolver: Resolver, run: Run)
    ensures var key := KeyOf(server, resolver);
      var outcome := run(|st.calls|, server, resolver, Lookup(st.data, key.0, key.1));
      var after := RunEvent(st, Invoke(server, resolver), run);
      && (!outcome.Finished? ==> after.data == st.data)
      && (outcome.Finished? ==> Lookup(after.data, key.0, key.1) == Some(outcome.result))
      && (forall s, r :: (s, r) != key ==> Lookup(after.data, s, r) == Lookup(st.data, s, r))
  {
    var key := KeyOf(server, resolver);
    var outcome := run(|st.calls|, server, resolver, Lookup(st.data, key.0, key.1));
    if outcome.Finished? {
      forall s, r ensures (s, r) != key ==> Lookup(Store(st.data, key.0, key.1, outcome.result), s, r) == Lookup(st.data, s, r) {
        LookupAfterStore(st.data, key.0, key.1, outcome.result, s, r);
      }
      LookupAfterStore(st.data, key.0, key.1, outcome.result, key.0, key.1);
    }
  }

  /** Across a whole cycle only configured keys can change. */
  lemma CycleChangesOnlyConfiguredKeys(d: CacheData, servers: seq<Server>, run: Run, key: Key)
    requires key !in ConfiguredKeys(servers)
    ensures Lookup(RunEvents(CycleState(d, [], []), Events(servers), run).data, key.0, key.1) == Lookup(d, key.0, key.1)
  {
    CycleInvokesConfiguredKeys(servers);
    UninvokedKeyUnchanged(CycleState(d, [], []), Events(servers), run, key);
  }

  /** A cycle runs every configured resolver once, in order, whatever each
      one returns or raises, and each is handed the cached value for its key
      at the moment it runs; for a key configured once that is the value
      from before the cycle. */
  lemma CycleCallsEveryConfiguredResolver(d: CacheData, servers: seq<Server>, run: Run)
    ensures var calls := RunEvents(CycleState(d, [], []), Events(servers), run).calls;
      && CallKeys(calls) == ConfiguredKeys(servers)
      && forall i :: 0 <= i < |calls| && ConfiguredKeys(servers)[i] !in ConfiguredKeys(servers)[..i] ==>
           calls[i].last == Lookup(d, calls[i].key.0, calls[i].key.1)
  {
    var st := CycleState(d, [], []);
    CycleInvokesConfiguredKeys(servers);
    CallsFollowInvocations(st, Events(servers), run);
    var calls := RunEvents(st, Events(servers), run).calls;
    assert calls[|st.calls|..] == calls;
    forall i | 0 <= i < |calls| && ConfiguredKeys(servers)[i] !in ConfiguredKeys(servers)[..i]
      ensures calls[i].last == Lookup(d, calls[i].key.0, calls[i].key.1)
    {
      FirstInvocationSeesPrevious(st, Events(servers), run, i);
    }
  }

  /** One resolver invocation of the cycle: read the cached value, run the
      resolver, then store its Result or log why there is none. */
  method InvokeResolver(cache: ResultCache, server: Server, resolver: Resolver, run: Run, calls: seq<Call>, log: seq<LogLine>)
    returns (calls': seq<Call>, log': seq<LogLine>)
    requires cache.Valid()
    modifies cache
    ensures cache.Valid()
    ensures RunEvent(CycleState(old(cache.data), calls, log), Invoke(server, resolver), run) == CycleState(cache.data, calls', log')
  {
    var last := cache.Get(server.hostname, resolver.Id());
    var outcome := run(|calls|, server, resolver, last);
    calls' := calls + [Call((server.hostname, resolver.Id()), last)];
    log' := log;
    match outcome {
      case Finished(result) =>
        cache.Update(server.hostname, resolver.Id(), result);
      case Skipped(skip) =>
        log' := log + [LogLine(CollectorLogger, Debug, "Skipped " + resolver.Id() + " run for " + server.hostname + ": " + skip.reason)];
      case WrongType(_) =>
        log' := log + [LogLine(resolver.logger, Error, WrongTypeMessage)];
      case Raised(e) =>
        log' := log + [LogLine(resolver.logger, Error, e.message)];
    }
  }

  /** One server's turn in the cycle: log the visit, then invoke its
      resolvers in attachment order. */
  method VisitServer(cache: ResultCache, server: Server, run: Run, calls: seq<Call>, log: seq<LogLine>)
    returns (calls': seq<Call>, log': seq<LogLine>)
    requires cache.Valid()
    modifies cache
    ensures cache.Valid()
    ensures RunEvents(CycleState(old(cache.data), calls, log), [Visit(server)] + InvokesOf(server, server.resolvers), run)
            == CycleState(cache.data, calls', log')
  {
    ghost var start := CycleState(cache.data, calls, log);
    log' := log + [LogLine(CollectorLogger, Debug, "resolving data for server \"" + server.hostname + "\"")];
    calls' := calls;
    assert RunEvents(start, [Visit(server)], run) == CycleState(cache.data, calls', log');
    var j := 0;
    assert [Visit(server)] + InvokesOf(server, server.resolvers[..0]) == [Visit(server)];
    while j < |server.resolvers|
      invariant 0 <= j <= |server.resolvers|
      invariant cache.Valid()
      invariant RunEvents(start, [Visit(server)] + InvokesOf(server, server.resolvers[..j]), run) == CycleState(cache.data, calls', log')
    {
      var resolver := server.resolvers[j];
      ghost var before := [Visit(server)] + InvokesOf(server, server.resolvers[..j]);
      assert [Visit(server)] + InvokesOf(server, server.resolvers[..j + 1]) == before + [Invoke(server, resolver)];
      RunEventsAppend(start, before, [Invoke(server, resolver)], run);
      calls', log' := InvokeResolver(cache, server, resolver, run, calls', log');
      j := j + 1;
    }
    assert server.resolvers[..j] == server.resolvers;
  }

  /** The nested loops of one iteration of `DataCollector.run`'s `while
      True` loop, over the given server list. They return the invocations
      made and the log records written. */
  method RunServers(cache: ResultCache, servers: seq<Server>, run: Run) returns (calls: seq<Call>, log: seq<LogLine>)
    requires cache.Valid()
    modifies cache
    ensures cache.Valid()
    ensures RunEvents(CycleState(old(cache.data), [], []), Events(servers), run) == CycleState(cache.data, calls, log)
  {
    ghost var start := CycleState(cache.data, [], []);
    calls, log := [], [];
    var i := 0;
    while i < |servers|
      invariant 0 <= i <= |servers|
      invariant cache.Valid()
      invariant RunEvents(start, Events(servers[..i]), run) == CycleState(cache.data, calls, log)
    {
      var server := servers[i];
      assert servers[..i + 1][..i] == servers[..i];
      assert Events(servers[..i + 1]) == Events(servers[..i]) + ([Visit(server)] + InvokesOf(server, server.resolvers));
      RunEventsAppend(start, Events(servers[..i]), [Visit(server)] + InvokesOf(server, server.resolvers), run);
      calls, log := VisitServer(cache, server, run, calls, log);
      i := i + 1;
    }
    assert servers[..i] == servers;
  }

  /** One iteration of `DataCollector.run`'s `while True` loop. It first
      reads `self.config.servers`, outside the per-resolver `try`: if that
      raises, no resolver runs, the cache is left as it was and the exception
      is returned, as it ends `DataCollector.run`. Otherwise the nested loops
      run over the list read. */
  method Cycle(cache: ResultCache, config: Config, registry: Registry, run: Run)
    returns (calls: seq<Call>, log: seq<LogLine>, failure: Option<Exception>)
    requires cache.Valid()
    modifies cache, config
    ensures cache.Valid()
    ensures old(config.servers) != [] ==> config.servers == old(config.servers) && failure == None
    ensures old(config.servers) == [] ==>
              var (built, error) := ServersOf(registry.classes, config.config);
              config.servers == built && failure == error
    ensures failure.Some? ==> cache.data == old(cache.data) && calls == [] && log == []
    ensures failure.None? ==>
              RunEvents(CycleState(old(cache.data), [], []), Events(config.servers), run) == CycleState(cache.data, calls, log)
  {
    var servers := config.Servers(registry);
    if servers.Err? {
      return [], [], Some(servers.error);
    }
    calls, log := RunServers(cache, servers.value, run);
    failure := None;
  }
}
