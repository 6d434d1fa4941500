/** A metric value that carries a categorical label (`LabeledMetric`). */
module LabeledMetrics {

  /** The frozen dataclass `LabeledMetric(value, label)`; `label` is a keyword here, so the field is `labelText`. */
  datatype LabeledMetric = LabeledMetric(value: real, labelText: string)

  /** A value in `Result.metrics`: a bare number or a labelled one. */
  datatype MetricValue = Plain(number: real) | Labeled(labeled: LabeledMetric)
}

/** `ResultCache`: the latest Result per server id and resolver id. */
module Cache {
  import opened Builtins
  import opened RunResults

  /** `ResultCache.data`: server id to (resolver id to Result); both levels
      are dicts, so their iteration order is the order of first insertion. */
  type CacheData = Dict<string, Dict<string, Result>>

  /** Both levels are proper dicts, and no server maps to an empty dict: the
      inner dict of the defaultdict is only created by a write into it. */
  ghost predicate WellFormed(d: CacheData)
  {
    && d.Valid()
    && forall s :: s in d.items ==> d.items[s].Valid() && d.items[s].keys != []
  }

  /** `ResultCache.get(server_id, resolver_id)`; it never creates entries. */
  function Lookup(d: CacheData, serverId: string, resolverId: string): Option<Result>
  {
    match d.Get(serverId)
    case None => None
    case Some(inner) => inner.Get(resolverId)
  }

  /** `ResultCache.update(server_id, resolver_id, result)`. */
  function Store(d: CacheData, serverId: string, resolverId: string, result: Result): CacheData
  {
    var inner := if serverId in d.items then d.items[serverId] else EmptyDict();
    d.Put(serverId, inner.Put(resolverId, result))
  }

  lemma StoreKeepsWellFormed(d: CacheData, serverId: string, resolverId: string, result: Result)
    requires WellFormed(d)
    ensures WellFormed(Store(d, serverId, resolverId, result))
  {
  }

  /** A write is read back exactly, as the whole Result written (nothing of
      the Result it replaces is merged in), and every other (server,
      resolver) pair reads as before. */
  lemma LookupAfterStore(d: CacheData, serverId: string, resolverId: string, result: Result, s: string, r: string)
    ensures Lookup(Store(d, serverId, resolverId, result), serverId, resolverId) == Some(result)
    ensures (s, r) != (serverId, resolverId) ==>
              Lookup(Store(d, serverId, resolverId, result), s, r) == Lookup(d, s, r)
  {
  }

  /** One `update` call. */
  datatype Write = Write(serverId: string, resolverId: string, result: Result)

  /** The cache after the given updates, in order. */
  function StoreAll(d: CacheData, writes: seq<Write>): CacheData
    decreases |writes|
  {
    if writes == [] then d
    else var w := writes[|writes| - 1];
      Store(StoreAll(d, writes[..|writes| - 1]), w.serverId, w.resolverId, w.result)
  }

  predicate Targets(w: Write, s: string, r: string)
  {
    w.serverId == s && w.resolverId == r
  }

  /** Updates to other pairs leave a pair as it was; in particular a pair
      that no update wrote reads as None in a cache that started empty. */
  lemma {:induction false} LookupAfterOtherWrites(d: CacheData, writes: seq<Write>, s: string, r: string)
    requires forall i :: 0 <= i < |writes| ==> !Targets(writes[i], s, r)
    ensures Lookup(StoreAll(d, writes), s, r) == Lookup(d, s, r)
    ensures d == EmptyDict() ==> Lookup(StoreAll(d, writes), s, r) == None
    decreases |writes|
  {
    if writes != [] {
      var n := |writes| - 1;
      var w := writes[n];
      LookupAfterOtherWrites(d, writes[..n], s, r);
      LookupAfterStore(StoreAll(d, writes[..n]), w.serverId, w.resolverId, w.result, s, r);
    }
  }

  /** A pair reads as the last Result written to it. */
  lemma {:induction false} LookupAfterLastWrite(d: CacheData, writes: seq<Write>, i: nat, s: string, r: string)
    requires i < |writes| && Targets(writes[i], s, r)
    requires forall j :: i < j < |writes| ==> !Targets(writes[j], s, r)
    ensures Lookup(StoreAll(d, writes), s, r) == Some(writes[i].result)
    decreases |writes|
  {
    var n := |writes| - 1;
    var w := writes[n];
    var before := StoreAll(d, writes[..n]);
    assert StoreAll(d, writes) == Store(before, w.serverId, w.resolverId, w.result);
    LookupAfterStore(before, w.serverId, w.resolverId, w.result, s, r);
    if i < n {
      assert !Targets(w, s, r);
      assert writes[..n][i] == writes[i];
      assert forall j :: i < j < n ==> writes[..n][j] == writes[j];
      LookupAfterLastWrite(d, writes[..n], i, s, r);
    }
  }

  /** The cache object shared by the collector and the publisher. */
  class ResultCache {
    var data: CacheData

    ghost predicate Valid()
      reads this
    {
      WellFormed(data)
    }

    constructor ()
      ensures Valid() && data == EmptyDict()
    {
      data := EmptyDict();
    }

    method Update(serverId: string, resolverId: string, result: Result)
      requires Valid()
      modifies this
      ensures Valid()
      ensures data == Store(old(data), serverId, resolverId, result)
      ensures Get(serverId, resolverId) == Some(result)
      ensures forall s, r :: (s, r) != (serverId, resolverId) ==> Get(s, r) == old(Get(s, r))
    {
      var inner := if serverId in data.items then data.items[serverId] else EmptyDict();
      data := data.Put(serverId, inner.Put(resolverId, result));
      forall s, r ensures (s, r) != (serverId, resolverId) ==> Get(s, r) == old(Get(s, r)) {
        LookupAfterStore(old(data), serverId, resolverId, result, s, r);
      }
    }

    function Get(serverId: string, resolverId: string): Option<Result>
      reads this
    {
      Lookup(data, serverId, resolverId)
    }

    /** `get_all` hands out the stored data itself. */
    function GetAll(): CacheData
      reads this
    {
      data
    }
  }
}
