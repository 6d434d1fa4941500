/** `NetworkResolver`: ten pings to the server, summarised as packet count,
    minimum, maximum and mean round-trip time, and packet loss. */
module Network {
  import opened Builtins
  import opened LabeledMetrics
  import opened Resolvers
  import opened RunResults
  import opened Config

  /** Pings sent per run. */
  const Packets := 10

  /** What one `ping(hostname, timeout=10)` returned: `None` (no reply
      within the timeout), `False` (the ping could not be sent), or the
      round-trip time in seconds. A reply of 0.0 seconds is still a reply. */
  datatype Ping = NoReply | PingFailed | Reply(seconds: real)

  /** The round-trip times in milliseconds of the pings that were answered,
      in order. */
  function Times(pings: seq<Ping>): (ts: seq<real>)
    ensures |ts| <= |pings|
    decreases |pings|
  {
    if pings == [] then []
    else
      var p := pings[|pings| - 1];
      Times(pings[..|pings| - 1]) + (if p.Reply? then [p.seconds * 1000.0] else [])
  }

  /** The number of pings that were answered. */
  function Replies(pings: seq<Ping>): nat
    decreases |pings|
  {
    if pings == [] then 0
    else Replies(pings[..|pings| - 1]) + (if pings[|pings| - 1].Reply? then 1 else 0)
  }

  function Sum(xs: seq<real>): real
  {
    if xs == [] then 0.0 else xs[0] + Sum(xs[1..])
  }

  /** `min(xs)` */
  function Min(xs: seq<real>): real
    requires xs != []
  {
    if |xs| == 1 then xs[0]
    else var m := Min(xs[1..]); if xs[0] <= m then xs[0] else m
  }

  /** `max(xs)` */
  function Max(xs: seq<real>): real
    requires xs != []
  {
    if |xs| == 1 then xs[0]
    else var m := Max(xs[1..]); if xs[0] >= m then xs[0] else m
  }

  /** `statistics.mean(xs)`, in exact arithmetic. */
  function Mean(xs: seq<real>): real
    requires xs != []
  {
    Sum(xs) / |xs| as real
  }

  /** The minimum and the maximum are elements, and bound every element. */
  lemma {:induction false} MinMaxBound(xs: seq<real>)
    requires xs != []
    ensures Min(xs) in xs && Max(xs) in xs
    ensures forall i :: 0 <= i < |xs| ==> Min(xs) <= xs[i] <= Max(xs)
    decreases |xs|
  {
    if |xs| > 1 {
      MinMaxBound(xs[1..]);
      forall i | 1 <= i < |xs| ensures Min(xs) <= xs[i] <= Max(xs) {
        assert xs[i] == xs[1..][i - 1];
      }
    }
  }

  lemma {:induction false} SumBounds(xs: seq<real>, lo: real, hi: real)
    requires forall i :: 0 <= i < |xs| ==> lo <= xs[i] <= hi
    ensures |xs| as real * lo <= Sum(xs) <= |xs| as real * hi
    decreases |xs|
  {
    if xs != [] {
      SumBounds(xs[1..], lo, hi);
      assert xs[0] in xs;
    }
  }

  lemma DivisionBounds(lo: real, x: real, hi: real, n: real)
    requires n > 0.0 && n * lo <= x <= n * hi
    ensures lo <= x / n <= hi
  {
    assert x == n * (x / n);
  }

  /** The mean lies between the minimum and the maximum. */
  lemma MeanBetween(xs: seq<real>)
    requires xs != []
    ensures Min(xs) <= Mean(xs) <= Max(xs)
  {
    MinMaxBound(xs);
    SumBounds(xs, Min(xs), Max(xs));
    DivisionBounds(Min(xs), Sum(xs), Max(xs), |xs| as real);
  }

  /** Every answered ping contributes one time, and nothing else does:
      the times are the answered pings' round trips in milliseconds. */
  lemma {:induction false} TimesOfReplies(pings: seq<Ping>)
    ensures |Times(pings)| == Replies(pings) <= |pings|
    ensures Replies(pings) == |pings| <==> forall i :: 0 <= i < |pings| ==> pings[i].Reply?
    ensures Replies(pings) == 0 <==> forall i :: 0 <= i < |pings| ==> !pings[i].Reply?
    ensures forall t :: t in Times(pings) <==> exists i :: 0 <= i < |pings| && pings[i].Reply? && t == pings[i].seconds * 1000.0
    decreases |pings|
  {
    if pings != [] {
      var n := |pings| - 1;
      TimesOfReplies(pings[..n]);
      assert forall i :: 0 <= i < n ==> pings[..n][i] == pings[i];
    }
  }

  /** `100 * (1 - len(times) / packets)` */
  function PacketLoss(received: nat): real
  {
    100.0 * (1.0 - received as real / Packets as real)
  }

  /** Up to ten replies, the loss is a percentage: 100 for no reply, 0 for
      ten, and ten points less for every reply. */
  lemma PacketLossRange(received: nat)
    requires received <= Packets
    ensures 0.0 <= PacketLoss(received) <= 100.0
    ensures PacketLoss(received) == 100.0 <==> received == 0
    ensures PacketLoss(received) == 0.0 <==> received == Packets
    ensures PacketLoss(received) == 100.0 - 10.0 * received as real
  {
  }

  const PacketCountKey := "packet_count"
  const PingMinKey := "ping_min"
  const PingMaxKey := "ping_max"
  const PingAvgKey := "ping_avg"
  const PacketLossKey := "packet_loss"
  const MetricKeys := [PacketCountKey, PingMinKey, PingMaxKey, PingAvgKey, PacketLossKey]

  /** The Result's metrics for the given round-trip times; without any
      reply the three times are 0 and the loss is 100. */
  function NetworkMetrics(times: seq<real>): Dict<string, MetricValue>
  {
    var count := |times| as real;
    var (lo, hi, avg, loss) :=
      if times != [] then (Min(times), Max(times), Mean(times), PacketLoss(|times|)) else (0.0, 0.0, 0.0, 100.0);
    Dict(MetricKeys, map[PacketCountKey := Plain(count), PingMinKey := Plain(lo), PingMaxKey := Plain(hi),
                         PingAvgKey := Plain(avg), PacketLossKey := Plain(loss)])
  }

  function Number(m: Dict<string, MetricValue>, key: string): real
    requires key in m.items && m.items[key].Plain?
  {
    m.items[key].number
  }

  /** The metrics dict has the five keys, in order, each with a number. */
  lemma MetricsShape(times: seq<real>)
    ensures var m := NetworkMetrics(times);
      m.Valid() && m.keys == MetricKeys && forall k :: k in m.items ==> m.items[k].Plain?
  {
    assert forall i, j :: 0 <= i < j < |MetricKeys| ==> MetricKeys[i] != MetricKeys[j];
  }

  /** The packet count and the loss, for up to ten answered pings. */
  lemma MetricsCountAndLoss(times: seq<real>)
    requires |times| <= Packets
    ensures var m := NetworkMetrics(times);
      && Number(m, PacketCountKey) == |times| as real
      && 0.0 <= Number(m, PacketLossKey) <= 100.0
      && (Number(m, PacketLossKey) == 100.0 <==> times == [])
      && (Number(m, PacketLossKey) == 0.0 <==> |times| == Packets)
      && (times != [] ==> Number(m, PacketLossKey) == PacketLoss(|times|) <= 90.0)
      && (times == [] ==> Number(m, PingMinKey) == Number(m, PingMaxKey) == Number(m, PingAvgKey) == 0.0)
  {
    PacketLossRange(|times|);
  }

  /** With at least one time, the minimum, mean and maximum are ordered and
      the extremes are measured times. */
  lemma MetricsTimes(times: seq<real>)
    requires times != []
    ensures var m := NetworkMetrics(times);
      && Number(m, PingMinKey) <= Number(m, PingAvgKey) <= Number(m, PingMaxKey)
      && Number(m, PingMinKey) in times && Number(m, PingMaxKey) in times
  {
    MinMaxBound(times);
    MeanBetween(times);
  }

  /** The metrics of a run: the five keys in order; the packet count is the
      number of replies, at most ten; the loss is 100 exactly when no ping
      was answered, 0 exactly when all were, and with a reply it is the
      formula's value, at most 90; without a reply the three times are 0;
      with a reply the minimum, mean and maximum are ordered and the
      extremes are measured times. */
  lemma RunMetrics(pings: seq<Ping>)
    requires |pings| == Packets
    ensures var m := NetworkMetrics(Times(pings));
      && m.Valid() && m.keys == MetricKeys
      && (forall k :: k in m.items ==> m.items[k].Plain?)
      && Number(m, PacketCountKey) == Replies(pings) as real <= Packets as real
      && 0.0 <= Number(m, PacketLossKey) <= 100.0
      && (Replies(pings) > 0 ==> Number(m, PacketLossKey) == PacketLoss(Replies(pings)) <= 90.0)
      && (Number(m, PacketLossKey) == 100.0 <==> Replies(pings) == 0)
      && (Replies(pings) == 0 ==> Number(m, PingMinKey) == Number(m, PingMaxKey) == Number(m, PingAvgKey) == 0.0)
      && (Number(m, PacketLossKey) == 0.0 <==> Replies(pings) == Packets)
      && (Replies(pings) > 0 ==>
            && Number(m, PingMinKey) <= Number(m, PingAvgKey) <= Number(m, PingMaxKey)
            && Number(m, PingMinKey) in Times(pings) && Number(m, PingMaxKey) in Times(pings))
  {
    var times := Times(pings);
    TimesOfReplies(pings);
    MetricsShape(times);
    MetricsCountAndLoss(times);
    if times != [] {
      MetricsTimes(times);
    }
  }

  /** `NetworkResolver.run(server, last_result)`: the answers of the ten
      pings and the clock at the end are inputs. It returns the Result and
      the warning logged when no ping was answered. */
  method Run(resolver: Resolver, server: Server, pings: seq<Ping>, now: Instant) returns (result: Result, warning: Option<string>)
    requires |pings| == Packets
    ensures result == Result(resolver, NetworkMetrics(Times(pings)), now)
    ensures warning.Some? <==> Replies(pings) == 0
    ensures warning.Some? ==> warning.value == "ping failed for '" + server.hostname + "'"
  {
    var times := [];
    var i := 0;
    while i < Packets
      invariant 0 <= i <= Packets
      invariant times == Times(pings[..i])
    {
      var rtt := pings[i];
      assert pings[..i + 1][..i] == pings[..i];
      if rtt.Reply? {
        times := times + [rtt.seconds * 1000.0];
      }
      i := i + 1;
    }
    assert pings[..i] == pings;
    TimesOfReplies(pings);
    warning := None;
    if times == [] {
      warning := Some("ping failed for '" + server.hostname + "'");
    }
    result := NewResult(resolver, NetworkMetrics(times), now, now);
  }
}
