/** `NetworkTracerouteResolver`: at most once a minute, run `mtr` in JSON
    report mode against the server, print the hop table, and report packet
    count, number of hops, and the worst loss and latency among the hops
    that answered at all. */
module Traceroute {
  import opened Builtins
  import opened LabeledMetrics
  import opened Resolvers
  import opened RunResults
  import opened Config

  /** `default_interval`: seconds that must pass between two mtr runs. */
  const DefaultInterval := 60
  /** The `count` argument of `_run_mtr`: cycles per mtr run. */
  const MtrCount := 10

  const MtrNotFoundMessage := "mtr command not found. Install it first (sudo apt install mtr-tiny)."
  const MtrFailedPrefix := "MTR failed: "
  /** `str(format(None, "<3"))` raises this TypeError. */
  const NoneFormatMessage := "unsupported format string passed to NoneType.__format__"

  function SkipReason(): string
  {
    "last mtr run < " + NatToString(DefaultInterval) + "s ago"
  }

  /** One element of `report.hubs` in mtr's JSON output, reduced to the
      fields the resolver reads; a field is `None` when the element lacks it. */
  datatype Hub = Hub(count: Option<int>, lossPercent: Option<real>, snt: Option<int>, avg: Option<real>, host: Option<string>)

  /** The `report` object; `hubs` is `None` when it lacks that key. */
  datatype Report = Report(hubs: Option<seq<Hub>>)

  /** mtr's parsed standard output; `report` is `None` when it lacks that key. */
  datatype MtrDocument = MtrDocument(report: Option<Report>)

  /** How the `mtr` subprocess ended: the executable was missing, it exited
      with a non-zero status and this standard error, or it completed. */
  datatype MtrProcess = MtrNotFound | MtrFailed(stderr: string) | MtrCompleted(document: MtrDocument)

  /** One element of `hops`: mtr's hop number (`None` when the hub had no
      `count`), loss percentage, packets sent, mean latency and host. */
  datatype Hop = Hop(hop: Option<int>, loss: real, sent: int, avg: real, host: string)

  /** What `_run_mtr` returns. */
  datatype MtrSummary = MtrSummary(count: int, hops: seq<Hop>, numHops: nat, worstLoss: real, worstLatency: real)

  /** `data.get("report", {}).get("hubs", [])` */
  function HubsOf(doc: MtrDocument): seq<Hub>
  {
    match doc.report
    case None => []
    case Some(report) => match report.hubs case None => [] case Some(hubs) => hubs
  }

  /** One hop read from a hub, with the defaults for missing fields: loss
      and latency 0, packets sent the requested count, host `*`. */
  function HopOf(hub: Hub, count: int): (h: Hop)
    ensures h.hop == hub.count
    ensures h.loss == (if hub.lossPercent.Some? then hub.lossPercent.value else 0.0)
    ensures h.sent == (if hub.snt.Some? then hub.snt.value else count)
    ensures h.avg == (if hub.avg.Some? then hub.avg.value else 0.0)
    ensures h.host == (if hub.host.Some? then hub.host.value else "*")
  {
    Hop(hub.count,
        match hub.lossPercent case Some(x) => x case None => 0.0,
        match hub.snt case Some(n) => n case None => count,
        match hub.avg case Some(x) => x case None => 0.0,
        match hub.host case Some(h) => h case None => "*")
  }

  function HopsOf(hubs: seq<Hub>, count: int): (hops: seq<Hop>)
    ensures |hops| == |hubs| && forall i :: 0 <= i < |hubs| ==> hops[i] == HopOf(hubs[i], count)
  {
    seq(|hubs|, i requires 0 <= i < |hubs| => HopOf(hubs[i], count))
  }

  /** A hop with 100% loss never answered and is kept out of the worst values. */
  predicate Answered(h: Hop)
  {
    h.loss < 100.0
  }

  /** Python's `max(a, b)`. */
  function Larger(a: real, b: real): real
  {
    if b > a then b else a
  }

  /** The worst loss over the answered hops, starting from 0. */
  function WorstLoss(hops: seq<Hop>): real
    decreases |hops|
  {
    if hops == [] then 0.0
    else
      var h := hops[|hops| - 1];
      var w := WorstLoss(hops[..|hops| - 1]);
      if Answered(h) then Larger(w, h.loss) else w
  }

  /** The worst mean latency over the answered hops, starting from 0. */
  function WorstLatency(hops: seq<Hop>): real
    decreases |hops|
  {
    if hops == [] then 0.0
    else
      var h := hops[|hops| - 1];
      var w := WorstLatency(hops[..|hops| - 1]);
      if Answered(h) then Larger(w, h.avg) else w
  }

  /** The worst loss is at least 0, bounds the loss of every answered hop,
      and is 0 or the loss of one of them; so it stays below 100. */
  lemma {:induction false} WorstLossIsMaximum(hops: seq<Hop>)
    ensures WorstLoss(hops) >= 0.0
    ensures forall i :: 0 <= i < |hops| && Answered(hops[i]) ==> hops[i].loss <= WorstLoss(hops)
    ensures WorstLoss(hops) == 0.0 || exists i :: 0 <= i < |hops| && Answered(hops[i]) && hops[i].loss == WorstLoss(hops)
    ensures WorstLoss(hops) < 100.0
    decreases |hops|
  {
    if hops != [] {
      var n := |hops| - 1;
      WorstLossIsMaximum(hops[..n]);
      assert forall i :: 0 <= i < n ==> hops[..n][i] == hops[i];
    }
  }

  /** The worst latency is at least 0, bounds the latency of every answered
      hop, and is 0 or the latency of one of them. */
  lemma {:induction false} WorstLatencyIsMaximum(hops: seq<Hop>)
    ensures WorstLatency(hops) >= 0.0
    ensures forall i :: 0 <= i < |hops| && Answered(hops[i]) ==> hops[i].avg <= WorstLatency(hops)
    ensures WorstLatency(hops) == 0.0 || exists i :: 0 <= i < |hops| && Answered(hops[i]) && hops[i].avg == WorstLatency(hops)
    decreases |hops|
  {
    if hops != [] {
      var n := |hops| - 1;
      WorstLatencyIsMaximum(hops[..n]);
      assert forall i :: 0 <= i < n ==> hops[..n][i] == hops[i];
    }
  }

  /** The summary `_run_mtr` builds from a completed run's output. */
  function Summary(doc: MtrDocument, count: int): MtrSummary
  {
    var hops := HopsOf(HubsOf(doc), count);
    MtrSummary(count, hops, |hops|, WorstLoss(hops), WorstLatency(hops))
  }

  /** `_run_mtr(host, count)`: the two subprocess failures become
      RuntimeErrors; a completed run is summarised hub by hub. */
  function MtrResult(process: MtrProcess, count: int): Try<MtrSummary>
  {
    match process
    case MtrNotFound => Err(RuntimeError(MtrNotFoundMessage))
    case MtrFailed(stderr) => Err(RuntimeError(MtrFailedPrefix + stderr))
    case MtrCompleted(doc) => Ok(Summary(doc, count))
  }

  /** `_run_mtr`'s loop over the hubs; the subprocess is given by its outcome. */
  method RunMtr(process: MtrProcess, count: int) returns (r: Try<MtrSummary>)
    ensures r == MtrResult(process, count)
  {
    match process {
      case MtrNotFound =>
        return Err(RuntimeError(MtrNotFoundMessage));
      case MtrFailed(stderr) =>
        return Err(RuntimeError(MtrFailedPrefix + stderr));
      case MtrCompleted(doc) =>
    }
    var hubs := HubsOf(process.document);
    var hops := [];
    var worstLoss := 0.0;
    var worstLatency := 0.0;
    var i := 0;
    while i < |hubs|
      invariant 0 <= i <= |hubs|
      invariant hops == HopsOf(hubs[..i], count)
      invariant worstLoss == WorstLoss(hops) && worstLatency == WorstLatency(hops)
    {
      var hubData := hubs[i];
      var hop := HopOf(hubData, count);
      assert HopsOf(hubs[..i + 1], count) == hops + [hop];
      hops := hops + [hop];
      assert hops[..|hops| - 1] == HopsOf(hubs[..i], count);
      if hop.loss < 100.0 {
        worstLoss := Larger(worstLoss, hop.loss);
        worstLatency := Larger(worstLatency, hop.avg);
      }
      i := i + 1;
    }
    assert hubs[..i] == hubs;
    r := Ok(MtrSummary(count, hops, |hops|, worstLoss, worstLatency));
  }

  /** `"{:<w}".format(s)` */
  function PadRight(s: string, w: nat): (r: string)
    ensures |r| == if |s| < w then w else |s|
  {
    if |s| < w then s + Repeat(' ', w - |s|) else s
  }

  /** `"{:>w}".format(s)` */
  function PadLeft(s: string, w: nat): (r: string)
    ensures |r| == if |s| < w then w else |s|
  {
    if |s| < w then Repeat(' ', w - |s|) + s else s
  }

  /** Padding keeps the text, left-aligned or right-aligned, and fills the
      rest of the column with spaces. */
  lemma PaddingKeepsText(s: string, w: nat)
    ensures PadRight(s, w)[..|s|] == s && forall i :: |s| <= i < |PadRight(s, w)| ==> PadRight(s, w)[i] == ' '
    ensures var r := PadLeft(s, w);
      r[|r| - |s|..] == s && forall i :: 0 <= i < |r| - |s| ==> r[i] == ' '
  {
  }

  const HopWidth := 3
  const LossWidth := 5
  const SentWidth := 4
  const AvgWidth := 7
  const DefaultHostWidth := 20

  /** `format(x, ".1f")` and `format(x, ".2f")` of a float; floating-point
      rendering is a parameter of the model. */
  type Formatter = real -> string

  /** The longest length among the hosts. */
  function LongestHost(hops: seq<Hop>): nat
    requires hops != []
    decreases |hops|
  {
    if |hops| == 1 then |hops[0].host|
    else
      var m := LongestHost(hops[1..]);
      if |hops[0].host| > m then |hops[0].host| else m
  }

  lemma {:induction false} LongestHostBound(hops: seq<Hop>)
    requires hops != []
    ensures forall i :: 0 <= i < |hops| ==> |hops[i].host| <= LongestHost(hops)
    ensures exists i :: 0 <= i < |hops| && |hops[i].host| == LongestHost(hops)
    decreases |hops|
  {
    if |hops| == 1 {
      assert |hops[0].host| == LongestHost(hops);
    } else {
      LongestHostBound(hops[1..]);
      forall i | 1 <= i < |hops| ensures |hops[i].host| <= LongestHost(hops) {
        assert hops[i] == hops[1..][i - 1];
      }
      if |hops[0].host| > LongestHost(hops[1..]) {
        assert |hops[0].host| == LongestHost(hops);
      } else {
        var j :| 0 <= j < |hops[1..]| && |hops[1..][j].host| == LongestHost(hops[1..]);
        assert hops[j + 1] == hops[1..][j];
      }
    }
  }

  /** The width of the host column: the longest host, or 20 without hops. */
  function HostWidth(hops: seq<Hop>): nat
  {
    if hops == [] then DefaultHostWidth else LongestHost(hops)
  }

  function HeaderLine(hostWidth: nat): string
  {
    PadRight("Hop", HopWidth) + " " + PadLeft("Loss%", LossWidth + 1) + " " + PadLeft("Sent", SentWidth) + " "
      + PadLeft("Avg", AvgWidth + 2) + " " + PadRight("Host", hostWidth)
  }

  /** The row of a hop numbered `n`. */
  function RowText(n: int, h: Hop, hostWidth: nat, fmt1: Formatter, fmt2: Formatter): string
  {
    PadRight(IntToString(n), HopWidth) + " " + PadLeft(fmt1(h.loss), LossWidth) + "% "
      + PadLeft(IntToString(h.sent), SentWidth) + " " + PadLeft(fmt2(h.avg), AvgWidth) + "ms "
      + PadRight(h.host, hostWidth)
  }

  /** One row of the table; a hop number of `None` cannot be formatted. */
  function HopLine(h: Hop, hostWidth: nat, fmt1: Formatter, fmt2: Formatter): Try<string>
  {
    match h.hop
    case None => Err(TypeError(NoneFormatMessage))
    case Some(n) => Ok(RowText(n, h, hostWidth, fmt1, fmt2))
  }

  /** The header is 26 characters plus the host column. */
  lemma HeaderLength(hostWidth: nat)
    requires hostWidth >= 4
    ensures |HeaderLine(hostWidth)| == 26 + hostWidth
  {
  }

  /** A row whose fields fit their columns is as long as the header. */
  lemma RowLength(n: int, h: Hop, hostWidth: nat, fmt1: Formatter, fmt2: Formatter)
    requires |IntToString(n)| <= HopWidth && |fmt1(h.loss)| <= LossWidth && |fmt2(h.avg)| <= AvgWidth
    requires |IntToString(h.sent)| <= SentWidth && |h.host| <= hostWidth
    ensures |RowText(n, h, hostWidth, fmt1, fmt2)| == 26 + hostWidth
  {
    assert |PadRight(IntToString(n), HopWidth)| == 3;
    assert |PadLeft(fmt1(h.loss), LossWidth)| == 5;
    assert |PadLeft(IntToString(h.sent), SentWidth)| == 4;
    assert |PadLeft(fmt2(h.avg), AvgWidth)| == 7;
    assert |PadRight(h.host, hostWidth)| == hostWidth;
  }

  /** The table's lines: the header, then one row per hop; the first hop
      without a number makes the whole table fail. */
  function TableLines(hops: seq<Hop>, hostWidth: nat, fmt1: Formatter, fmt2: Formatter): Try<seq<string>>
    decreases |hops|
  {
    if hops == [] then Ok([HeaderLine(hostWidth)])
    else
      match TableLines(hops[..|hops| - 1], hostWidth, fmt1, fmt2)
      case Err(e) => Err(e)
      case Ok(lines) =>
        match HopLine(hops[|hops| - 1], hostWidth, fmt1, fmt2)
        case Err(e) => Err(e)
        case Ok(line) => Ok(lines + [line])
  }

  /** `_format_mtr_text(hops)` */
  function MtrText(hops: seq<Hop>, fmt1: Formatter, fmt2: Formatter): Try<string>
  {
    match TableLines(hops, HostWidth(hops), fmt1, fmt2)
    case Err(e) => Err(e)
    case Ok(lines) => Ok(Join(lines, "\n"))
  }

  /** The table can be formatted exactly when every hop has a number;
      otherwise it fails with the TypeError of formatting `None`. */
  lemma {:induction false} TableLinesOutcome(hops: seq<Hop>, w: nat, fmt1: Formatter, fmt2: Formatter)
    ensures TableLines(hops, w, fmt1, fmt2).Ok? <==> forall i :: 0 <= i < |hops| ==> hops[i].hop.Some?
    ensures TableLines(hops, w, fmt1, fmt2).Err? ==> TableLines(hops, w, fmt1, fmt2).error == TypeError(NoneFormatMessage)
    decreases |hops|
  {
    if hops != [] {
      var n := |hops| - 1;
      var prefix := hops[..n];
      TableLinesOutcome(prefix, w, fmt1, fmt2);
      var t := TableLines(prefix, w, fmt1, fmt2);
      if forall i :: 0 <= i < |hops| ==> hops[i].hop.Some? {
        forall i | 0 <= i < n ensures prefix[i].hop.Some? {
          assert prefix[i] == hops[i];
        }
        assert t.Ok? && hops[n].hop.Some?;
      } else {
        var j :| 0 <= j < |hops| && hops[j].hop.None?;
        if j < n {
          assert prefix[j] == hops[j];
          assert t.Err?;
        } else {
          assert HopLine(hops[n], w, fmt1, fmt2) == Err(TypeError(NoneFormatMessage));
        }
      }
    }
  }

  /** A table that can be formatted is the header and one row per hop, in
      order. */
  lemma {:induction false} TableLinesRows(hops: seq<Hop>, w: nat, fmt1: Formatter, fmt2: Formatter)
    requires TableLines(hops, w, fmt1, fmt2).Ok?
    ensures TableRows(hops, w, fmt1, fmt2, TableLines(hops, w, fmt1, fmt2).value)
    decreases |hops|
  {
    if hops != [] {
      var n := |hops| - 1;
      var prefix := hops[..n];
      var lines := TableLines(hops, w, fmt1, fmt2).value;
      TableLinesSplit(hops, w, fmt1, fmt2);
      TableLinesRows(prefix, w, fmt1, fmt2);
      assert lines[..|lines| - 1] == TableLines(prefix, w, fmt1, fmt2).value;
      RowsExtend(hops, w, fmt1, fmt2, lines);
    }
  }

  /** A table that can be formatted is the table of all hops but the last,
      followed by the last hop's row. */
  lemma TableLinesSplit(hops: seq<Hop>, w: nat, fmt1: Formatter, fmt2: Formatter)
    requires hops != [] && TableLines(hops, w, fmt1, fmt2).Ok?
    ensures TableLines(hops[..|hops| - 1], w, fmt1, fmt2).Ok? && HopLine(hops[|hops| - 1], w, fmt1, fmt2).Ok?
    ensures TableLines(hops, w, fmt1, fmt2).value
            == TableLines(hops[..|hops| - 1], w, fmt1, fmt2).value + [HopLine(hops[|hops| - 1], w, fmt1, fmt2).value]
  {
  }

  /** The table can be formatted exactly when every hop has a number; then
      it has the header and one row per hop, in order. */
  lemma TableLinesShape(hops: seq<Hop>, w: nat, fmt1: Formatter, fmt2: Formatter)
    ensures TableLines(hops, w, fmt1, fmt2).Ok? <==> forall i :: 0 <= i < |hops| ==> hops[i].hop.Some?
    ensures TableLines(hops, w, fmt1, fmt2).Err? ==> TableLines(hops, w, fmt1, fmt2).error == TypeError(NoneFormatMessage)
    ensures TableLines(hops, w, fmt1, fmt2).Ok? ==> TableRows(hops, w, fmt1, fmt2, TableLines(hops, w, fmt1, fmt2).value)
  {
    TableLinesOutcome(hops, w, fmt1, fmt2);
    if TableLines(hops, w, fmt1, fmt2).Ok? {
      TableLinesRows(hops, w, fmt1, fmt2);
    }
  }

  /** The lines are the header followed by the row of each hop, in order. */
  ghost predicate TableRows(hops: seq<Hop>, w: nat, fmt1: Formatter, fmt2: Formatter, lines: seq<string>)
  {
    && |lines| == |hops| + 1 && lines[0] == HeaderLine(w)
    && forall i :: 0 <= i < |hops| ==> HopLine(hops[i], w, fmt1, fmt2) == Ok(lines[i + 1])
  }

  lemma RowsExtend(hops: seq<Hop>, w: nat, fmt1: Formatter, fmt2: Formatter, lines: seq<string>)
    requires hops != [] && |lines| == |hops| + 1
    requires TableRows(hops[..|hops| - 1], w, fmt1, fmt2, lines[..|lines| - 1])
    requires HopLine(hops[|hops| - 1], w, fmt1, fmt2) == Ok(lines[|lines| - 1])
    ensures TableRows(hops, w, fmt1, fmt2, lines)
  {
    var n := |hops| - 1;
    forall i | 0 <= i < |hops| ensures HopLine(hops[i], w, fmt1, fmt2) == Ok(lines[i + 1]) {
      if i < n {
        assert hops[..n][i] == hops[i] && lines[..n + 1][i + 1] == lines[i + 1];
      }
    }
  }

  /** The columns line up: when every number and formatted float fits its
      column and the host column is at least as wide as its title, the
      header and every row have the same length. */
  lemma ColumnsAlign(hops: seq<Hop>, fmt1: Formatter, fmt2: Formatter)
    requires forall i :: 0 <= i < |hops| ==> hops[i].hop.Some? && |IntToString(hops[i].hop.value)| <= HopWidth
    requires forall i :: 0 <= i < |hops| ==> |fmt1(hops[i].loss)| <= LossWidth && |fmt2(hops[i].avg)| <= AvgWidth
    requires forall i :: 0 <= i < |hops| ==> |IntToString(hops[i].sent)| <= SentWidth
    requires HostWidth(hops) >= 4
    ensures TableLines(hops, HostWidth(hops), fmt1, fmt2).Ok?
    ensures forall line :: line in TableLines(hops, HostWidth(hops), fmt1, fmt2).value ==> |line| == 26 + HostWidth(hops)
  {
    var w := HostWidth(hops);
    TableLinesShape(hops, w, fmt1, fmt2);
    if hops != [] {
      LongestHostBound(hops);
    }
    var lines := TableLines(hops, w, fmt1, fmt2).value;
    HeaderLength(w);
    forall line | line in lines ensures |line| == 26 + w {
      var k :| 0 <= k < |lines| && lines[k] == line;
      if k > 0 {
        var h := hops[k - 1];
        RowLength(h.hop.value, h, w, fmt1, fmt2);
      }
    }
  }

  /** `_format_mtr_text`: the header, then a row per hop, joined by newlines. */
  method FormatMtrText(hops: seq<Hop>, fmt1: Formatter, fmt2: Formatter) returns (r: Try<string>)
    ensures r == MtrText(hops, fmt1, fmt2)
  {
    var hostWidth := HostWidth(hops);
    var lines := [HeaderLine(hostWidth)];
    var i := 0;
    while i < |hops|
      invariant 0 <= i <= |hops|
      invariant TableLines(hops[..i], hostWidth, fmt1, fmt2) == Ok(lines)
    {
      assert hops[..i + 1][..i] == hops[..i];
      var line := HopLine(hops[i], hostWidth, fmt1, fmt2);
      if line.Err? {
        TableLinesErr(hops, i + 1, hostWidth, fmt1, fmt2);
        return Err(line.error);
      }
      lines := lines + [line.value];
      i := i + 1;
    }
    assert hops[..i] == hops;
    r := Ok(Join(lines, "\n"));
  }

  /** Once a prefix fails, the whole table fails with the same error. */
  lemma {:induction false} TableLinesErr(hops: seq<Hop>, k: nat, w: nat, fmt1: Formatter, fmt2: Formatter)
    requires k <= |hops| && TableLines(hops[..k], w, fmt1, fmt2).Err?
    ensures TableLines(hops, w, fmt1, fmt2) == TableLines(hops[..k], w, fmt1, fmt2)
    decreases |hops| - k
  {
    if k < |hops| {
      assert hops[..k + 1][..k] == hops[..k];
      TableLinesErr(hops, k + 1, w, fmt1, fmt2);
    } else {
      assert hops[..k] == hops;
    }
  }

  /** A run started less than `default_interval` seconds after the last
      Result's timestamp is skipped. */
  predicate ShouldSkip(last: Option<Result>, now: Instant)
  {
    last.Some? && now < last.value.timestamp + DefaultInterval
  }

  /** The metrics of a completed traceroute, in this order. */
  function TracerouteMetrics(s: MtrSummary): Dict<string, MetricValue>
  {
    Dict(["packet_count", "num_hops", "worst_loss", "worst_latency"],
         map["packet_count" := Plain(s.count as real), "num_hops" := Plain(s.numHops as real),
             "worst_loss" := Plain(s.worstLoss), "worst_latency" := Plain(s.worstLatency)])
  }

  /** `run(server, last_result)` as the collection loop sees it, with the
      clock at the start (`now`) and at the end (`finished`), and the mtr
      subprocess's outcome, as inputs. */
  function RunOutcomeOf(resolver: Resolver, last: Option<Result>, now: Instant, process: MtrProcess,
                        fmt1: Formatter, fmt2: Formatter, finished: Instant): RunOutcome
  {
    if ShouldSkip(last, now) then Skipped(NewSkippedRun(resolver, SkipReason(), now))
    else match MtrResult(process, MtrCount)
      case Err(e) => Raised(e)
      case Ok(summary) =>
        match MtrText(summary.hops, fmt1, fmt2)
        case Err(e) => Raised(e)
        case Ok(_) => Finished(NewResult(resolver, TracerouteMetrics(summary), finished, finished))
  }

  /** The run is skipped exactly within `default_interval` seconds of the
      last Result, with the reason and the current time. */
  lemma SkipWindow(resolver: Resolver, last: Option<Result>, now: Instant, process: MtrProcess,
                   fmt1: Formatter, fmt2: Formatter, finished: Instant)
    ensures RunOutcomeOf(resolver, last, now, process, fmt1, fmt2, finished).Skipped?
            <==> last.Some? && now - last.value.timestamp < 60
    ensures RunOutcomeOf(resolver, last, now, process, fmt1, fmt2, finished).Skipped? ==>
              RunOutcomeOf(resolver, last, now, process, fmt1, fmt2, finished).skip
                == SkippedRun(resolver, "last mtr run < 60s ago", now)
  {
    assert NatToString(60) == "60";
  }

  /** A run that is not skipped raises the subprocess failure as a
      RuntimeError. */
  lemma RunOutcomeMtrFailure(resolver: Resolver, last: Option<Result>, now: Instant, process: MtrProcess,
                             fmt1: Formatter, fmt2: Formatter, finished: Instant)
    requires !ShouldSkip(last, now) && !process.MtrCompleted?
    ensures var o := RunOutcomeOf(resolver, last, now, process, fmt1, fmt2, finished);
      && (process.MtrNotFound? ==> o == Raised(RuntimeError(MtrNotFoundMessage)))
      && (process.MtrFailed? ==> o == Raised(RuntimeError("MTR failed: " + process.stderr)))
  {
  }

  /** After a completed mtr run that is not skipped, the run raises exactly
      when some hub lacks its hop number, and then raises the TypeError of
      formatting `None`. */
  lemma RunOutcomeMissingHop(resolver: Resolver, last: Option<Result>, now: Instant, doc: MtrDocument,
                             fmt1: Formatter, fmt2: Formatter, finished: Instant)
    requires !ShouldSkip(last, now)
    ensures var o := RunOutcomeOf(resolver, last, now, MtrCompleted(doc), fmt1, fmt2, finished);
      && (o.Raised? <==> exists i :: 0 <= i < |HubsOf(doc)| && HubsOf(doc)[i].count.None?)
      && (o.Raised? ==> o.exception == TypeError(NoneFormatMessage))
      && (o.Raised? || o.Finished?)
  {
    var summary := Summary(doc, MtrCount);
    var hops := summary.hops;
    var t := TableLines(hops, HostWidth(hops), fmt1, fmt2);
    TableLinesOutcome(hops, HostWidth(hops), fmt1, fmt2);
    HopsNumbered(HubsOf(doc), MtrCount);
    var o := RunOutcomeOf(resolver, last, now, MtrCompleted(doc), fmt1, fmt2, finished);
    assert MtrResult(MtrCompleted(doc), MtrCount) == Ok(summary);
    if t.Err? {
      assert MtrText(hops, fmt1, fmt2) == Err(t.error);
      assert o == Raised(t.error);
    } else {
      assert MtrText(hops, fmt1, fmt2).Ok?;
      assert o.Finished?;
    }
  }

  /** Every hop has a number exactly when every hub has its `count`. */
  lemma HopsNumbered(hubs: seq<Hub>, count: int)
    ensures (forall i :: 0 <= i < |hubs| ==> HopsOf(hubs, count)[i].hop.Some?)
            <==> !(exists i :: 0 <= i < |hubs| && hubs[i].count.None?)
  {
    var hops := HopsOf(hubs, count);
    assert forall i :: 0 <= i < |hubs| ==> hops[i].hop == hubs[i].count;
  }

  /** A completed run returns a Result stamped at the end of the run, with
      the four metrics in order: the requested packet count, one hop per
      hub, and a worst loss below 100 that bounds every answered hop's loss. */
  lemma RunOutcomeResult(resolver: Resolver, last: Option<Result>, now: Instant, doc: MtrDocument,
                         fmt1: Formatter, fmt2: Formatter, finished: Instant)
    requires RunOutcomeOf(resolver, last, now, MtrCompleted(doc), fmt1, fmt2, finished).Finished?
    ensures var r := RunOutcomeOf(resolver, last, now, MtrCompleted(doc), fmt1, fmt2, finished).result;
      var m := r.metrics;
      && m.Valid() && r.timestamp == finished && r.resolver == resolver
      && m.keys == ["packet_count", "num_hops", "worst_loss", "worst_latency"]
      && m.items["packet_count"] == Plain(10.0)
      && m.items["num_hops"] == Plain(|HubsOf(doc)| as real)
      && m.items["worst_loss"].number < 100.0
      && forall i :: 0 <= i < |HubsOf(doc)| && Answered(HopOf(HubsOf(doc)[i], MtrCount)) ==>
           HopOf(HubsOf(doc)[i], MtrCount).loss <= m.items["worst_loss"].number
  {
    var summary := Summary(doc, MtrCount);
    WorstLossIsMaximum(summary.hops);
    var keys := ["packet_count", "num_hops", "worst_loss", "worst_latency"];
    assert forall i, j :: 0 <= i < j < |keys| ==> keys[i] != keys[j];
  }

  /** `NetworkTracerouteResolver.run`: it returns the outcome, the debug
      message it logs before running mtr, and the table it prints. */
  method Run(resolver: Resolver, server: Server, last: Option<Result>, now: Instant, process: MtrProcess,
             fmt1: Formatter, fmt2: Formatter, finished: Instant)
    returns (outcome: RunOutcome, debug: Option<string>, printed: Option<string>)
    ensures outcome == RunOutcomeOf(resolver, last, now, process, fmt1, fmt2, finished)
    ensures debug.Some? <==> !ShouldSkip(last, now)
    ensures debug.Some? ==> debug.value == "Performing traceroute to '" + server.hostname + "'"
    ensures printed.Some? <==> outcome.Finished?
    ensures outcome.Finished? ==> MtrText(MtrResult(process, MtrCount).value.hops, fmt1, fmt2) == Ok(printed.value)
  {
    debug, printed := None, None;
    if last.Some? && now < last.value.timestamp + DefaultInterval {
      outcome := Skipped(NewSkippedRun(resolver, "last mtr run < " + NatToString(DefaultInterval) + "s ago", now));
      return;
    }
    debug := Some("Performing traceroute to '" + server.hostname + "'");
    var mtr := RunMtr(process, MtrCount);
    if mtr.Err? {
      outcome := Raised(mtr.error);
      return;
    }
    var text := FormatMtrText(mtr.value.hops, fmt1, fmt2);
    if text.Err? {
      outcome := Raised(text.error);
      return;
    }
    printed := Some(text.value);
    outcome := Finished(NewResult(resolver, TracerouteMetrics(mtr.value), finished, finished));
  }
}
