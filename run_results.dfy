/** What one run of a resolver produces (`BaseResult` and its two kinds),
    and the outcome of invoking a resolver as the collection loop sees it. */
module RunResults {
  import opened Builtins
  import opened Resolvers
  import opened LabeledMetrics

  /** An instant, in whole seconds since the Unix epoch (UTC). */
  type Instant = int

  /** `Result`: the resolver that produced it, its metrics by name in
      insertion order, and the instant the measurement completed. */
  datatype Result = Result(resolver: Resolver, metrics: Dict<string, MetricValue>, timestamp: Instant)

  /** `SkippedRun`: the resolver that decided to skip, why, and when. */
  datatype SkippedRun = SkippedRun(resolver: Resolver, reason: string, timestamp: Instant)

  /** What `resolver.run(...)` did: returned a Result, returned a SkippedRun,
      returned a value of some other type, or raised an exception. */
  datatype RunOutcome =
    | Finished(result: Result)
    | Skipped(skip: SkippedRun)
    | WrongType(typeName: string)
    | Raised(exception: Exception)

  /** The state `BaseResult.__init__` leaves: the resolver and the clock. */
  datatype BaseResult = BaseResult(resolver: Resolver, timestamp: Instant)

  function NewBaseResult(resolver: Resolver, now: Instant): (b: BaseResult)
    ensures b.resolver == resolver && b.timestamp == now
  {
    BaseResult(resolver, now)
  }

  /** `Result(resolver, metrics, timestamp)` constructed at instant `now`:
      the base class stamps `now`, which the explicit timestamp then replaces. */
  function NewResult(resolver: Resolver, metrics: Dict<string, MetricValue>, timestamp: Instant, now: Instant): (r: Result)
    ensures r.resolver == resolver && r.metrics == metrics && r.timestamp == timestamp
  {
    var base := NewBaseResult(resolver, now);
    Result(base.resolver, metrics, timestamp)
  }

  /** `SkippedRun(resolver, reason)` constructed at instant `now`: it keeps
      the base class's timestamp. */
  function NewSkippedRun(resolver: Resolver, reason: string, now: Instant): (s: SkippedRun)
    ensures s.resolver == resolver && s.reason == reason && s.timestamp == now
  {
    var base := NewBaseResult(resolver, now);
    SkippedRun(base.resolver, reason, base.timestamp)
  }

  /** The instant a Result is constructed leaves no trace in it. */
  lemma ResultIgnoresConstructionTime(resolver: Resolver, metrics: Dict<string, MetricValue>, timestamp: Instant, now1: Instant, now2: Instant)
    ensures NewResult(resolver, metrics, timestamp, now1) == NewResult(resolver, metrics, timestamp, now2)
  {
  }
}
