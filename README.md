# Data collector of server-monitoring, modelled in Dafny

This project models the collection engine of the server-monitoring data
collector.

- **Collection cycle.** It runs every resolver of every configured server
  against the latest Result cached for that (hostname, resolver id) pair.
- **Cache writes.** It keeps a Result a resolver returns. It leaves the cache
  alone when a resolver skips, returns a value of the wrong type or raises.
- **Publisher.** On every Prometheus scrape it turns the cache into gauge
  samples.
- **Around these:** the resolver registry, the Result and SkippedRun records,
  the server list built from the configuration, and the rules of the two
  network probes: the ping summary and the throttled traceroute with its hop
  table. The model also covers the log formatter's placeholder counting and
  message padding, and the fixed-offset zone name.

Everything is modelled sequentially. Time, the ping answers, the mtr
subprocess's outcome and its parsed JSON output, the parsed configuration
document and the resolvers' own behaviour are inputs. The collection cycle
takes the resolvers' behaviour as a function from (invocation number,
server, resolver, cached value) to an outcome: Result, SkippedRun, a value of
another type, or an exception. The invocation number stands for the moment
of the call, so two invocations of one key in a cycle may end differently.

Modules, one per source file (`builtins.dfy` holds the built-in behaviour
they share):

| file | module | models |
|---|---|---|
| builtins.dfy | `Builtins` | `Option`, exceptions, insertion-ordered `dict`, `str()` of integers, `str.join`, `[x] * n` |
| cache.dfy | `LabeledMetrics`, `Cache` | `LabeledMetric`, `ResultCache` as a class over a two-level ordered dict |
| run_results.dfy | `RunResults` | `BaseResult`, `Result` and `SkippedRun`, and the outcome of one `resolver.run` call |
| resolver.dfy | `Resolvers` | `Resolver._registry`, `__init_subclass__`, `Resolver.create`, as functions and a `Registry` class |
| config_values.dfy | `ConfigValues` | the configuration document's values, `ConfigDict` attribute access, `Config._to_object` |
| config.dfy | `Config` | `Server` and the memoized `Config.servers` property |
| collector.dfy | `Collector` | one iteration of `DataCollector.run` as a method with nested loops, specified as a fold over events |
| publisher.dfy | `Publishing` | `Publisher._get_gauge`, `_set_metric`, and the scrape loop of `_metrics` |
| network.dfy | `Network` | `NetworkResolver.run` over ten ping answers |
| traceroute.dfy | `Traceroute` | `NetworkTracerouteResolver.run`, `_run_mtr` and `_format_mtr_text` |
| shared.dfy | `Shared` | `LogFormatter._count_placeholders_in_string`, the record normalisation in `LogFormatter.format`, and the zone name of `get_local_timezone` |

Where the written design and the code disagree, the model follows the code:

- **Duplicate ids.** Registering a second class under an existing
  `resolver_id` silently replaces the first one; it is not rejected.
- **Label names.** The extra label of a labelled metric is named
  `{resolver_id}_{metric}_label`: `_set_metric` appends `_label` to the
  already prefixed metric name.
- **Zero round trip.** A ping round trip of 0.0 seconds counts as a reply.
  The code tests for `None` and `False`, not for truthiness.
- **Hub without `count`.** Such a hub makes `_format_mtr_text` raise a
  TypeError, because formatting `None` with a width is not supported. So the
  whole traceroute run raises and nothing is cached.
- **Partial server list.** A failure while `Config.servers` is being built
  leaves the servers appended before it in the memoized list.

## Model

| member | source | states |
|---|---|---|
| Builtins.Dict.Put | data-collector/src/shared/cache.py:18 | `d[k] = v` maps `k` to `v`; an existing key keeps its place and a new key goes last; a well-formed dict stays well formed |
| Builtins.EmptyDict | data-collector/src/shared/cache.py:15 | a fresh dict is well formed and has no keys |
| Builtins.Repeat | data-collector/src/shared/shared.py:37 | `[x] * n` has length `n` and every element is `x` |
| Builtins.NatToStringRoundTrip | data-collector/src/shared/shared.py:111 | `str(n)` of a natural number is a non-empty run of digits that reads back as `n` |
| Cache.StoreKeepsWellFormed | data-collector/src/shared/cache.py:17-18 | an update keeps both dict levels well formed and creates no empty inner dict |
| Cache.LookupAfterStore | data-collector/src/shared/cache.py:17-24 | after `update(s, r, R)`, `get(s, r)` is exactly `R`, nothing of the replaced Result is merged in, and every other pair reads as before |
| Cache.LookupAfterOtherWrites | data-collector/src/shared/cache.py:23-24 | updates to other pairs leave a pair unchanged; a pair never written reads as `None` in a fresh cache |
| Cache.LookupAfterLastWrite | data-collector/src/shared/cache.py:17-18 | after a series of updates, a pair reads as the last Result written to it |
| Cache.ResultCache.constructor | data-collector/src/shared/cache.py:14-15 | a new cache is empty and well formed |
| Cache.ResultCache.Update | data-collector/src/shared/cache.py:17-18 | the new data is the old data with the one entry replaced; `get` returns the Result written; every other pair is unchanged |
| RunResults.NewBaseResult | data-collector/src/resolver/run_results.py:10-12 | the base record holds the producing resolver and the construction time |
| RunResults.NewResult | data-collector/src/resolver/run_results.py:21-24 | a Result keeps its resolver, exactly the metrics passed in, and the explicit timestamp |
| RunResults.NewSkippedRun | data-collector/src/resolver/run_results.py:30-32 | a SkippedRun keeps its resolver and reason; its timestamp is the construction time |
| RunResults.ResultIgnoresConstructionTime | data-collector/src/resolver/run_results.py:21-24 | the base class's construction time leaves no trace in a Result |
| Resolvers.RegisterIn | data-collector/src/resolver/resolver.py:18-24 | a registration that succeeds keeps every class under its own non-empty id |
| Resolvers.CreateFrom | data-collector/src/resolver/resolver.py:27-31 | an instance `create` returns has the id it was asked for |
| Resolvers.RegisterRejectsMissingId | data-collector/src/resolver/resolver.py:21-22 | a class with a missing or empty `resolver_id` is refused with the TypeError naming the class, and nothing is registered |
| Resolvers.CreateAfterRegister | data-collector/src/resolver/resolver.py:24-31 | after a class registers (replacing any class under the same id), `create(id, config)` builds an instance of it with that config and the logger `collector.resolver.{id}` |
| Resolvers.RegisterLeavesOtherIds | data-collector/src/resolver/resolver.py:24 | registering a class changes what `create` does for that class's own id only |
| Resolvers.CreateUnknown | data-collector/src/resolver/resolver.py:28-30 | `create` with an unregistered id raises the ValueError `Resolver '{id}' is not registered` |
| Resolvers.BuiltinRegistration | data-collector/src/resolver/resolver.py:38-43 | registering the three resolver classes succeeds and makes exactly `hll-crcon`, `network` and `network-traceroute` available |
| Resolvers.Registry.constructor | data-collector/src/resolver/resolver.py:10 | the registry starts empty |
| Resolvers.Registry.Register | data-collector/src/resolver/resolver.py:18-24 | defining a class updates the table as the registration function says, or reports its TypeError and leaves the table unchanged |
| Resolvers.Registry.RegisterAll | data-collector/src/resolver/resolver.py:38-43 | classes are defined in order and the first refused class stops the sequence; the table and the error are the registration sequence's |
| Resolvers.Registry.Create | data-collector/src/resolver/resolver.py:27-31 | `create` only reads the table; the instance it returns has the requested id |
| ConfigValues.Find | data-collector/src/shared/config.py:16 | a key is found exactly when some entry has it |
| ConfigValues.ToObjectPreservesStructure | data-collector/src/shared/config.py:44-50 | `_to_object` keeps the document's keys, their order, list elements and scalars |
| ConfigValues.ToObjectIsObject | data-collector/src/shared/config.py:44-50 | after `_to_object`, every dict at any depth is a `ConfigDict` |
| ConfigValues.ToObjectIdempotent | data-collector/src/shared/config.py:44-50 | a value made only of `ConfigDict`s is left as it is, so converting twice is converting once |
| ConfigValues.SetAttr | data-collector/src/shared/config.py:20-21 | an attribute write leaves a `ConfigDict` |
| ConfigValues.FindAssign | data-collector/src/shared/config.py:20-21 | after `d[key] = value`, `key` reads as `value` and every other key as before |
| ConfigValues.AssignKeepsUniqueKeys | data-collector/src/shared/config.py:20-21 | an item assignment keeps the keys distinct and adds no key other than the one assigned |
| ConfigValues.GetAttrAfterSetAttr | data-collector/src/shared/config.py:14-21 | an attribute write always stores an item; reading the attribute back returns the value written, except for a name the class defines (`items`, `get`, `__class__`, …), where ordinary lookup still finds the class attribute; other attributes, missing ones (AttributeError) included, read as before |
| ConfigValues.SetAttrKeepsUniqueKeys | data-collector/src/shared/config.py:20-21 | an attribute write keeps the dict free of duplicate keys |
| Config.CreateAllResult | data-collector/src/shared/config.py:57-59 | the configured resolvers are all created exactly when every id is registered; each is then created, in mapping order, with its own config |
| Config.CreateAllFirstUnknown | data-collector/src/shared/config.py:57-58 | the first unregistered id among the configured ones raises the ValueError of `create` |
| Config.CreateAllStops | data-collector/src/shared/config.py:57-59 | once a `create` fails, the later entries change nothing |
| Config.ServerForShape | data-collector/src/shared/config.py:56-60 | a built server has its entry's hostname and the resolvers `network`, `network-traceroute` (with empty configs), then one per configured entry in mapping order: 2 + the number of entries |
| Config.ServerForUnknownResolver | data-collector/src/shared/config.py:58 | with the baseline resolvers registered, an unknown configured id makes the server's construction raise the ValueError for the first such id |
| Config.AssembleResult | data-collector/src/shared/config.py:55-61 | one server is appended per config entry, in order, until an entry fails; with no failure every entry has its server |
| Config.AssembleStops | data-collector/src/shared/config.py:55-61 | once an entry fails, later entries change nothing |
| Config.BuildServer | data-collector/src/shared/config.py:56-60 | the loop body builds one server as the server-construction function says |
| Config.Config.constructor | data-collector/src/shared/config.py:31-32 | the configuration is the document after `_to_object`; no server is built yet |
| Config.Config.Servers | data-collector/src/shared/config.py:53-62 | a non-empty list is returned again unchanged; an empty one is built entry by entry, and on an exception the servers built before it stay |
| Collector.InvokesOf | data-collector/src/collector.py:20 | a server's resolvers are invoked one step each, in attachment order |
| Collector.RunEventsAppend | data-collector/src/collector.py:18-31 | running two stretches of steps one after the other is running them together |
| Collector.InvokedKeysAppend | data-collector/src/collector.py:18-22 | the keys invoked by two stretches of steps are those of the first, then those of the second |
| Collector.InvokedKeysOfInvokes | data-collector/src/collector.py:20-22 | a server's resolver loop invokes its (hostname, resolver id) keys in attachment order |
| Collector.CycleInvokesConfiguredKeys | data-collector/src/collector.py:18-22 | a cycle invokes exactly the configured pairs: servers in order, each server's resolvers in attachment order |
| Collector.CallsFollowInvocations | data-collector/src/collector.py:20-31 | every invoked step records exactly one call, whatever its outcome; earlier calls are kept |
| Collector.UninvokedKeyUnchanged | data-collector/src/collector.py:18-25 | a key no step invokes keeps its cached value |
| Collector.FirstInvocationSeesPrevious | data-collector/src/collector.py:22 | the first invocation of a key is handed the value cached for it before the steps |
| Collector.OnlyInvocationOutcome | data-collector/src/collector.py:21-31 | after a key's only invocation, made after the calls before it, the key holds the Result it returned, or its previous value after a SkippedRun, a wrong return type or an exception |
| Collector.InvocationEffect | data-collector/src/collector.py:21-31 | only a returned Result changes the cache, and only at its own key; a skip, a wrong type or an exception leaves the whole cache unchanged |
| Collector.CycleChangesOnlyConfiguredKeys | data-collector/src/collector.py:18-25 | after a cycle, only configured (hostname, resolver id) keys can differ |
| Collector.CycleCallsEveryConfiguredResolver | data-collector/src/collector.py:18-31 | a cycle runs every configured resolver once, in order, whatever earlier ones return or raise; a key configured once is handed its value from before the cycle |
| Collector.InvokeResolver | data-collector/src/collector.py:21-31 | one invocation reads the cache, runs the resolver, stores a Result or logs why there is none, as one step of the cycle's specification |
| Collector.VisitServer | data-collector/src/collector.py:19-31 | one server's turn logs the visit and then invokes its resolvers in order, as the specification's steps for that server |
| Collector.RunServers | data-collector/src/collector.py:18-31 | the cache, calls and log after the nested loops over a server list are those of the specification's steps for all its servers |
| Collector.Cycle | data-collector/src/collector.py:18-31 | one iteration reads `self.config.servers` first: a non-empty memoized list is reused; otherwise it is built, and if that raises no resolver runs, the cache is unchanged and the exception ends the collector; with a list, the loops run over it as the specification's steps |
| Publishing.Ensure | data-collector/src/publisher.py:23-31 | `_get_gauge` returns the gauge under the key; a seen key adds nothing and returns the same gauge; a new key adds exactly that key with a fresh gauge |
| Publishing.EnsureKeepsValid | data-collector/src/publisher.py:26-30 | every gauge, the returned one included, is named and documented by the metric name and labelled `server_id` then the requested label names |
| Publishing.SampleFor | data-collector/src/publisher.py:33-51 | a labelled value sets the child (server id, label) of the gauge with the extra label `{metric_name}_label`; a plain value sets the child (server id) of the unlabelled gauge |
| Publishing.Apply | data-collector/src/publisher.py:42-51 | setting a sample registers its gauge if needed, changes only that gauge, and sets only that child |
| Publishing.ApplyAllAppend | data-collector/src/publisher.py:54-63 | setting two runs of samples one after the other is setting them together |
| Publishing.ApplyAllSingle | data-collector/src/publisher.py:54-63 | setting one sample as a run is setting it |
| Publishing.ApplyKeepsValid | data-collector/src/publisher.py:29 | setting a well-shaped sample keeps every gauge as it was built |
| Publishing.ApplyAllKeepsValid | data-collector/src/publisher.py:54-63 | setting well-shaped samples keeps every gauge as built, one label value per label name |
| Publishing.ApplyAllGrows | data-collector/src/publisher.py:23-63 | gauges and children are never removed; every sample's gauge is registered afterwards, and nothing else is added |
| Publishing.LastSampleWins | data-collector/src/publisher.py:42-51 | a child reads the value of the last sample set on it |
| Publishing.UnsampledChildUnchanged | data-collector/src/publisher.py:23-63 | a child no sample touches keeps its value, such as one set for an old label |
| Publishing.MetricSamplesFrom | data-collector/src/publisher.py:62-63 | every metric of a Result gives its `{resolver_id}_{metric}` sample, labelled by the server id |
| Publishing.ServerSamplesFrom | data-collector/src/publisher.py:55-63 | every Result of a server gives its `{resolver_id}_timestamp` sample and one sample per metric |
| Publishing.SnapshotCoversCache | data-collector/src/publisher.py:54-63 | a scrape sets, for every cached Result, its timestamp sample and one sample per metric; every sample is well shaped and labelled by a cached server id |
| Publishing.OnlySampleWins | data-collector/src/publisher.py:42-51 | a child set by only one sample of a run reads that sample's value afterwards |
| Publishing.ScrapeReadsCache | data-collector/src/publisher.py:54-63 | when no two samples of a scrape meet on one child, every cached Result's timestamp and each of its metrics' numbers can be read back from their gauges afterwards, in the child of the server id (and label) |
| Publishing.Publisher.constructor | data-collector/src/publisher.py:14-19 | a publisher starts with no gauges and reads the given cache |
| Publishing.Publisher.GetGauge | data-collector/src/publisher.py:23-31 | the gauges and the returned gauge are those of the lookup-or-create function |
| Publishing.Publisher.SetMetric | data-collector/src/publisher.py:33-51 | the gauges after `_set_metric` are the old ones with its sample set |
| Publishing.Publisher.PublishResult | data-collector/src/publisher.py:56-63 | one cached Result sets its timestamp sample, then its metrics' samples in dict order |
| Publishing.Publisher.PublishServer | data-collector/src/publisher.py:55-63 | one server's Results set their samples in the order of their resolver ids |
| Publishing.Publisher.Metrics | data-collector/src/publisher.py:53-63 | a scrape sets all samples of the cache contents, in order, and keeps every gauge as built |
| Network.Times | data-collector/src/resolver/resolvers/network.py:12-17 | at most one time per ping |
| Network.MinMaxBound | data-collector/src/resolver/resolvers/network.py:21-22 | `min` and `max` are elements and bound every element |
| Network.SumBounds | data-collector/src/resolver/resolvers/network.py:20 | a sum of values in [lo, hi] lies between n·lo and n·hi |
| Network.DivisionBounds | data-collector/src/resolver/resolvers/network.py:20 | dividing by a positive count keeps such bounds |
| Network.MeanBetween | data-collector/src/resolver/resolvers/network.py:20-22 | the mean lies between the minimum and the maximum |
| Network.TimesOfReplies | data-collector/src/resolver/resolvers/network.py:14-17 | there is one time per answered ping (neither `None` nor `False`): the answered ping's round trip times 1000 |
| Network.PacketLossRange | data-collector/src/resolver/resolvers/network.py:23 | the loss is 100 − 10·n, in [0, 100]: 100 exactly for no reply and 0 exactly for ten |
| Network.RunMetrics | data-collector/src/resolver/resolvers/network.py:19-36 | the five metrics in order: count = replies ≤ 10; without a reply min = max = avg = 0 and loss 100; with one, loss = 100·(1 − n/10) ≤ 90 and min ≤ avg ≤ max, with min and max measured times |
| Network.Run | data-collector/src/resolver/resolvers/network.py:11-39 | the ping loop's Result is the summary of the answered pings, stamped at the end; the warning is logged exactly when no ping was answered |
| Traceroute.HopOf | data-collector/src/resolver/resolvers/network_traceroute.py:65-69 | missing fields default to loss 0, sent = count, latency 0 and host `*`; the hop number is copied |
| Traceroute.HopsOf | data-collector/src/resolver/resolvers/network_traceroute.py:64-77 | one hop per hub, in order |
| Traceroute.WorstLossIsMaximum | data-collector/src/resolver/resolvers/network_traceroute.py:61-82 | the worst loss is the maximum over hops with loss below 100, starting at 0, so it is in [0, 100) |
| Traceroute.WorstLatencyIsMaximum | data-collector/src/resolver/resolvers/network_traceroute.py:61-82 | the worst latency is the maximum latency over hops with loss below 100, starting at 0 |
| Traceroute.RunMtr | data-collector/src/resolver/resolvers/network_traceroute.py:54-90 | the subprocess failures become the two RuntimeErrors; otherwise the hub loop's result is the summary of the hubs |
| Traceroute.PadRight | data-collector/src/resolver/resolvers/network_traceroute.py:99-116 | a left-aligned field is as wide as its column, or as its text when that is longer |
| Traceroute.PadLeft | data-collector/src/resolver/resolvers/network_traceroute.py:99-116 | a right-aligned field is as wide as its column, or as its text when that is longer |
| Traceroute.PaddingKeepsText | data-collector/src/resolver/resolvers/network_traceroute.py:99-116 | padding keeps the text at its side and fills the rest with spaces |
| Traceroute.LongestHostBound | data-collector/src/resolver/resolvers/network_traceroute.py:97 | the host width is the length of the longest host |
| Traceroute.HeaderLength | data-collector/src/resolver/resolvers/network_traceroute.py:99-105 | the header is 26 characters plus the host column |
| Traceroute.RowLength | data-collector/src/resolver/resolvers/network_traceroute.py:107-116 | a row whose fields fit their columns is 26 characters plus the host column |
| Traceroute.TableLinesShape | data-collector/src/resolver/resolvers/network_traceroute.py:99-116 | the table can be built exactly when every hop has a number; it is then the header plus one row per hop, in order; otherwise it fails with the TypeError of formatting `None` |
| Traceroute.RowsExtend | data-collector/src/resolver/resolvers/network_traceroute.py:107-116 | appending a hop's row keeps the lines the header plus a row per hop |
| Traceroute.ColumnsAlign | data-collector/src/resolver/resolvers/network_traceroute.py:97-116 | when every field fits its column, the header and every row are equally long |
| Traceroute.TableLinesErr | data-collector/src/resolver/resolvers/network_traceroute.py:107-116 | the first hop that cannot be formatted fails the whole table |
| Traceroute.FormatMtrText | data-collector/src/resolver/resolvers/network_traceroute.py:92-118 | the row loop builds the table's lines, joined by newlines |
| Traceroute.SkipWindow | data-collector/src/resolver/resolvers/network_traceroute.py:13-17 | a run is skipped exactly when a last Result exists and less than 60 s have passed (the check is strict), with the reason `last mtr run < 60s ago` and the current time |
| Traceroute.RunOutcomeMtrFailure | data-collector/src/resolver/resolvers/network_traceroute.py:54-57 | an unskipped run raises the missing-mtr or the failed-mtr RuntimeError |
| Traceroute.RunOutcomeMissingHop | data-collector/src/resolver/resolvers/network_traceroute.py:21-33 | after a completed mtr run, the run raises exactly when some hub lacks its hop number, with the formatting TypeError, and otherwise returns a Result |
| Traceroute.RunOutcomeResult | data-collector/src/resolver/resolvers/network_traceroute.py:24-33 | a returned Result is stamped at the end and has exactly packet_count = 10, num_hops = the number of hubs, and a worst loss below 100 bounding every answered hop, in this order |
| Traceroute.Run | data-collector/src/resolver/resolvers/network_traceroute.py:15-33 | the outcome is that of the run function; the debug message is logged exactly when the run is not skipped; the table is printed exactly when a Result is returned |
| Shared.NumericEnd | data-collector/src/shared/shared.py:13 | the digits-and-dots run from a position ends at the first character that is neither |
| Shared.NumericEndAt | data-collector/src/shared/shared.py:13 | any position with only digits and dots before it and neither at it is that end |
| Shared.MatchAtSound | data-collector/src/shared/shared.py:13 | what the matcher finds at a position is a placeholder of the pattern |
| Shared.MatchAtComplete | data-collector/src/shared/shared.py:13 | every placeholder of the pattern at a position is the one the matcher finds |
| Shared.GroupIsNumeric | data-collector/src/shared/shared.py:13 | the optional precision group holds only digits and dots |
| Shared.NumericEndAppend | data-collector/src/shared/shared.py:14 | a break character ends the digits-and-dots run |
| Shared.MatchAtAppend | data-collector/src/shared/shared.py:14 | a match cannot run across a break character |
| Shared.CountAppend | data-collector/src/shared/shared.py:12-15 | placeholders are counted separately on both sides of a break character |
| Shared.CountSkip | data-collector/src/shared/shared.py:12-15 | a leading character other than `%` adds no placeholder |
| Shared.CountOne | data-collector/src/shared/shared.py:37 | `%s` is one placeholder |
| Shared.JoinStep | data-collector/src/shared/shared.py:37 | `', '.join(['%s'] * k)` is `%s, ` before the join of k − 1 |
| Shared.CountLeading | data-collector/src/shared/shared.py:37 | a leading `%s, ` adds one placeholder |
| Shared.CountPadding | data-collector/src/shared/shared.py:37 | `', '.join(['%s'] * k)` holds exactly k placeholders |
| Shared.SafeArgs | data-collector/src/shared/shared.py:18-26 | the arguments are converted one for one, in order: `str(arg)`, or `<non-stringable: {type}>` when that raises |
| Shared.MessageTextCases | data-collector/src/shared/shared.py:28-34 | a falsy message becomes `<empty message>`; any other becomes its `str()`, or `<non-stringable: {type}>` when that raises |
| Shared.PaddingCoversArgs | data-collector/src/shared/shared.py:36-37 | the padded message starts with the text and a space (even with no padding) and has max(#args, #placeholders) placeholders, so at least one per argument |
| Shared.LogRecord.constructor | data-collector/src/shared/shared.py:17 | the record holds the given message and arguments |
| Shared.LogRecord.Normalise | data-collector/src/shared/shared.py:18-37 | the arguments become their safe strings and the message becomes the padded text |
| Shared.ZoneNameDenotesOffset | data-collector/src/shared/shared.py:109-111 | the zone name reads back as the offset rounded down to whole hours; a positive offset is written `Etc/GMT-N`, any other `Etc/GMT+` and the absolute value |

## Left out

- I/O and foreign calls are not modelled; their results are parameters instead. This covers `ping3.ping`, the `mtr` subprocess and `json.loads` of its output, YAML loading and `os.path.expandvars`, the clock, the aiohttp endpoint and `generate_latest`.
- The `while True` loop, `time.sleep` and the `invoke` wrappers of the collector and the publisher are not modelled; one cycle and one scrape are.
- Concurrency between the collector and publisher threads is not modelled, because the cache has no lock. The model is sequential and claims no atomicity.
- data-collector/src/main.py and the `hll-crcon` resolver are not part of this model; only the `hll-crcon` class's registration is.
- The import loop over the resolvers package is replaced by an explicit registration sequence of the three resolver classes.
- Floating point: metric values and floats of the configuration document are exact reals; `statistics.mean` is the exact mean; timestamps are whole epoch seconds.
- Traceroute.FormatMtrText: the `.1f` and `.2f` renderings of floats are parameters, so the model does not fix the rows' text for the loss and latency columns.
- Traceroute.RunMtr: the mapping of `FileNotFoundError` and `CalledProcessError` is given as the subprocess's outcome. The hub fields are already typed, so `float()` and `int()` of malformed fields are not modelled.
- Config.BuildServer: a `hostname` that is not a string (such as YAML `hostname: 10`) is refused with a TypeError, because the model's cache keys, log lines and gauge labels are strings. So `Config.Servers` fails and `Collector.Cycle` ends with that failure before any resolver runs, for every server. The source instead stores the value in the `Server` and runs the whole cycle. The value formats in the debug line, works as a cache key and becomes a string label in the gauges. Only the resolvers that pass it to `ping` or to the `mtr` subprocess raise, and the cycle catches that per resolver. A resolver that does not use the hostname, such as `hll-crcon`, still stores its Results under that key.
- ConfigValues.GetAttr: a class attribute found on a `ConfigDict` (such as the bound method `d.get`) is an opaque value; calling it is modelled only for `get`, by `DictGet`. On values other than a `ConfigDict`, the attributes of `str`, `int`, `list` and `dict` themselves are not modelled and every name reads as missing; the collector reads only `servers` and `hostname` this way, which none of those types define. The table of class attributes is CPython 3.12's.
- Cache.ResultCache.GetAll: returns the data as a value, so the aliasing of the returned dict with the cache is not modelled.
- Publishing.Publisher.GetGauge: `prometheus_client` itself is not modelled. This leaves out its metric-name validation, which rejects names containing `-` such as `network-traceroute_timestamp`, and its registry's error for a second gauge of an existing name with other label names. A gauge is its map from label values to value.
- Publishing.Publisher.Metrics: a metric named `timestamp` shares the gauge `{resolver_id}_timestamp` with the Result's timestamp. The model sets both, in order, as the source does; it states nothing about this clash.
- Shared.LogRecord.Normalise: the `super().format` call and its fallback, `dump`, `Printable`, the `logger()` setup, and dict-style log arguments are not modelled.
- Shared.ZoneNameDenotesOffset: `ZoneInfo` and the `TZ` lookup are not modelled, only the name built for the fixed offset.
- Shared.CountPlaceholders: the digits of the placeholder pattern are the ASCII digits only, not every Unicode digit that `\d` matches.
