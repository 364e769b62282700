/** What the Tokyo harness reads back from the simulation: the per-link
    metrics extractor, the time-based sample label, the append-only metrics
    collector and the self-rearming sampler that drives them. */
module TokyoMetrics {
  import opened Wrappers
  import opened Entities
  import opened Numeric
  import opened Faults
  import opened TimeGrid
  import opened TokyoTopology

  /** The nominal key length, used as the detection count when no sifted
      bits are visible. */
  const KeyLength: nat := 256

  const DurationPs: nat := 1_000_000_000_000
  const FaultStartPs: nat := 500_000_000_000
  const SampleIntervalPs: nat := 10_000_000_000

  /** The metrics of one link at one sample time. */
  datatype Metrics = Metrics(
    qber: real,
    keyRateSifted: nat,
    keyRateFinal: real,
    detectionCount: nat,
    errorCount: int,
    darkCountRate: real,
    detectorEfficiency: real,
    backReflectionPower: real,
    phaseErrorRate: real)

  /** The QBER of the protocol's last completed key, 0.0 when it has none. */
  function LastQber(p: Protocol?): real
    reads p
  {
    if p == null then 0.0 else LastOr(p.errorRates, 0.0)
  }

  /** How many key bits the protocol has sifted in the round in progress. */
  function SiftedCount(p: Protocol?): nat
    reads p
  {
    if p == null then 0 else |p.keyBits|
  }

  /** The objects the extractor reads: the node, its first detector and both protocols. */
  function MetricsFootprint(node: Node, alice: Protocol?, bob: Protocol?): set<object?>
  {
    {node, alice, bob} + (if |node.detectors| > 0 then {node.detectors[0]} else {})
  }

  /** The detection count: the sifted count when there is one, else the
      nominal key length; never zero. */
  function DetectionCount(sifted: nat): (n: nat)
    ensures n > 0
    ensures sifted > 0 ==> n == sifted
    ensures sifted == 0 ==> n == KeyLength
  {
    if sifted > 0 then sifted else KeyLength
  }

  /** The error count: qber times the detection count, rounded half to
      even. It is within half a count of the exact product, and with a
      QBER in [0, 1] it lies between 0 and the detection count. */
  function ErrorCount(qber: real, n: nat): (e: int)
    ensures -0.5 <= e as real - qber * n as real <= 0.5
    ensures 0.0 <= qber <= 1.0 ==> 0 <= e <= n
  {
    var x := qber * n as real;
    var e := RoundHalfEven(x);
    RoundedProductInRange(qber, n, x, e);
    e
  }

  lemma RoundedProductInRange(qber: real, n: nat, x: real, e: int)
    requires x == qber * n as real
    requires -0.5 <= e as real - x <= 0.5
    ensures 0.0 <= qber <= 1.0 ==> 0 <= e <= n
  {
    if 0.0 <= qber <= 1.0 {
      ProductInRange(qber, n);
      RoundedInRange(x, e, n);
    }
  }

  /** An integer within half of a value in [0, n] is in [0, n]. */
  lemma RoundedInRange(x: real, e: int, n: nat)
    requires 0.0 <= x <= n as real
    requires -0.5 <= e as real - x <= 0.5
    ensures 0 <= e <= n
  {
    assert -1.0 < e as real < n as real + 1.0;
  }

  lemma ProductInRange(q: real, n: nat)
    requires 0.0 <= q <= 1.0
    ensures 0.0 <= q * n as real <= n as real
  {
    assert n as real - q * n as real == (1.0 - q) * n as real;
  }

  /** A detector reading as the extractor resolves it: the node's cached
      override wins, then the first detector's value, then the baseline. */
  function Reading(override: Option<real>, detector: Option<real>, baseline: real): (r: real)
    ensures override.Some? ==> r == override.value
    ensures override.None? && detector.Some? ==> r == detector.value
    ensures override.None? && detector.None? ==> r == baseline
  {
    if override.Some? then override.value
    else if detector.Some? then detector.value
    else baseline
  }

  /** extract_metrics: the sender node's view of one link. The QBER is the
      last round's, clamped into [0, 1]; the sifted rate is the larger of
      the two sifted counts; the error count is derived from the unclamped
      QBER; the final key rate is the last recorded throughput, 0.0 without
      one; the detector readings prefer the node's cached overrides, then
      its first detector, then the baselines; a missing reflection power
      reads as 0. */
  function ExtractMetrics(node: Node, alice: Protocol?, bob: Protocol?): (m: Metrics)
    reads MetricsFootprint(node, alice, bob)
    ensures 0.0 <= m.qber <= 1.0
    ensures 0.0 <= LastQber(alice) <= 1.0 ==> m.qber == LastQber(alice)
    ensures LastQber(alice) < 0.0 ==> m.qber == 0.0
    ensures LastQber(alice) > 1.0 ==> m.qber == 1.0
    ensures m.keyRateFinal == (if alice == null || alice.throughputs == [] then 0.0 else alice.throughputs[|alice.throughputs| - 1])
    ensures (alice == null || alice.errorRates == []) ==> m.qber == 0.0
    ensures m.keyRateSifted >= SiftedCount(alice) && m.keyRateSifted >= SiftedCount(bob)
    ensures m.keyRateSifted == SiftedCount(alice) || m.keyRateSifted == SiftedCount(bob)
    ensures m.detectionCount == DetectionCount(m.keyRateSifted)
    ensures m.errorCount == ErrorCount(LastQber(alice), m.detectionCount)
    ensures m.darkCountRate ==
      Reading(node.darkCountOverride, if |node.detectors| > 0 then Some(node.detectors[0].darkCountRate) else None, DarkCountRate)
    ensures m.detectorEfficiency ==
      Reading(node.efficiencyOverride, if |node.detectors| > 0 then Some(node.detectors[0].efficiency) else None, DetectorEfficiency)
    ensures m.backReflectionPower == (if node.backReflectionPower.Some? then node.backReflectionPower.value else 0.0)
    ensures m.phaseErrorRate == 0.0
  {
    var qber := LastQber(alice);
    var keyRateFinal := if alice == null then 0.0 else LastOr(alice.throughputs, 0.0);
    var sifted := if SiftedCount(alice) >= SiftedCount(bob) then SiftedCount(alice) else SiftedCount(bob);
    var detectionCount := DetectionCount(sifted);
    var first := if |node.detectors| > 0 then Some(node.detectors[0]) else None;
    var dark := Reading(node.darkCountOverride, if first.Some? then Some(first.value.darkCountRate) else None, DarkCountRate);
    var eff := Reading(node.efficiencyOverride, if first.Some? then Some(first.value.efficiency) else None, DetectorEfficiency);
    var power := if node.backReflectionPower.Some? then node.backReflectionPower.value else 0.0;
    Metrics(Clamp(qber, 0.0, 1.0), sifted, keyRateFinal, detectionCount, ErrorCount(qber, detectionCount), dark, eff, power, 0.0)
  }

  /** label_fn: "normal" before the fault starts, the scenario's name from then on. */
  function SampleLabel(faultType: string, t: int): string
  {
    if t >= FaultStartPs then faultType else Normal
  }

  /** The label switches once, at the fault start: "normal" strictly before,
      the scenario's name at and after. */
  lemma SampleLabelSwitch(faultType: string, t: int)
    ensures SampleLabel(faultType, t) == Normal || SampleLabel(faultType, t) == faultType
    ensures t < FaultStartPs ==> SampleLabel(faultType, t) == Normal
    ensures t >= FaultStartPs ==> SampleLabel(faultType, t) == faultType
  {
  }

  /** Over increasing sample times the label never goes back to "normal"
      once it has switched, and never changes again. */
  lemma SampleLabelNoRegression(faultType: string, t1: int, t2: int)
    requires t1 <= t2 && SampleLabel(faultType, t1) != Normal
    ensures SampleLabel(faultType, t2) == SampleLabel(faultType, t1)
  {
  }

  /** Under degrade the first link is built with the tripled attenuation,
      so it is degraded from the first sample on; yet every sample taken
      before the fault start is labelled "normal" and only the later ones
      "degrade". */
  lemma DegradeLabelledNormalEarly(t: int)
    requires 0 <= t < FaultStartPs
    ensures LinkAttenuation("degrade", Links[0].a) == DegradeFactor * Attenuation
    ensures SampleLabel("degrade", t) == Normal
    ensures SampleLabel("degrade", FaultStartPs) == "degrade"
  {
  }

  /** One collected row: sample time, link, sender node, its metrics, the
      label and the label's numeric id. */
  datatype MetricsRow = MetricsRow(
    timestampPs: int, link: string, node: string, metrics: Metrics, faultLabel: string, faultId: nat)

  /** QKDMetricsCollector: an append-only list of rows. */
  class Collector {
    var records: seq<MetricsRow>

    constructor ()
      ensures records == []
    {
      records := [];
    }

    /** record: appends one row carrying the label's id from the label
        table (0 for a label outside it); earlier rows are untouched. */
    method Record(timestampPs: int, link: string, node: string, metrics: Metrics, faultLabel: string)
      modifies this`records
      ensures records == old(records) + [MetricsRow(timestampPs, link, node, metrics, faultLabel, FaultId(faultLabel))]
      ensures records[|records| - 1].faultId < |FaultNames|
      ensures faultLabel in FaultNames ==> FaultNames[records[|records| - 1].faultId] == faultLabel
    {
      records := records + [MetricsRow(timestampPs, link, node, metrics, faultLabel, FaultId(faultLabel))];
    }
  }

  /** The protocol pair the harness created for one link. */
  datatype ProtocolPair = ProtocolPair(alice: Protocol, bob: Protocol)

  /** The row the sampler records for one link at time t. */
  function SampleRow(t: int, faultType: string, lp: LinkPair, pair: ProtocolPair): (r: MetricsRow)
    reads MetricsFootprint(lp.n1, pair.alice, pair.bob)
    ensures r.timestampPs == t && r.link == lp.name && r.node == lp.n1.name
    ensures r.metrics == ExtractMetrics(lp.n1, pair.alice, pair.bob)
    ensures r.faultLabel == SampleLabel(faultType, t) && r.faultId == FaultId(r.faultLabel)
  {
    var faultLabel := SampleLabel(faultType, t);
    MetricsRow(t, lp.name, lp.n1.name, ExtractMetrics(lp.n1, pair.alice, pair.bob), faultLabel, FaultId(faultLabel))
  }

  /** MetricsSampler: at each sample time it records one row per link, in
      link order, then re-arms itself one interval later while that is
      still within the duration. */
  class MetricsSampler {
    const interval: nat
    const duration: int
    const linkPairs: seq<LinkPair>
    const protocols: map<string, ProtocolPair>
    const collector: Collector
    const faultType: string

    /** Every link has its protocol pair (the harness builds one per link). */
    predicate Valid()
    {
      interval > 0 && forall k :: 0 <= k < |linkPairs| ==> linkPairs[k].name in protocols
    }

    constructor (interval: nat, duration: int, linkPairs: seq<LinkPair>, protocols: map<string, ProtocolPair>,
                 collector: Collector, faultType: string)
      requires interval > 0
      requires forall k :: 0 <= k < |linkPairs| ==> linkPairs[k].name in protocols
      ensures Valid()
      ensures this.interval == interval && this.duration == duration && this.linkPairs == linkPairs
      ensures this.protocols == protocols && this.collector == collector && this.faultType == faultType
    {
      this.interval := interval;
      this.duration := duration;
      this.linkPairs := linkPairs;
      this.protocols := protocols;
      this.collector := collector;
      this.faultType := faultType;
    }

    /** _schedule_next: a sample event at t, if t is within the duration. */
    function ScheduleNext(t: int): (next: Option<int>)
      ensures next.Some? <==> t <= duration
      ensures next.Some? ==> next.value == t
    {
      if t <= duration then Some(t) else None
    }

    /** init: the first event is one interval in. */
    function Init(): Option<int>
    {
      ScheduleNext(interval)
    }

    /** The times the chain fires at, starting from an event armed for t:
        each event re-arms the next one interval later. */
    function Chain(t: int): (ts: seq<int>)
      requires Valid()
      decreases if t <= duration then duration - t + 1 else 0
    {
      if ScheduleNext(t).Some? then [t] + Chain(t + interval) else []
    }

    /** The chain from t is the time grid from t to the duration. */
    lemma {:induction false} ChainIsGrid(t: int)
      requires Valid()
      ensures Chain(t) == Grid(t, interval, duration)
      decreases if t <= duration then duration - t + 1 else 0
    {
      if t <= duration {
        ChainIsGrid(t + interval);
        GridUnroll(t, interval, duration);
      }
    }

    /** The sample times are interval, 2 * interval, ... up to and
        including the duration: floor(duration / interval) of them,
        increasing, none past the duration. */
    lemma SampleTimes()
      requires Valid() && duration >= 0
      ensures Init().None? ==> duration / interval == 0
      ensures Init().Some? ==>
                var ts := Chain(Init().value);
                && |ts| == duration / interval
                && (forall k :: 0 <= k < |ts| ==> ts[k] == (k + 1) * interval && ts[k] <= duration)
                && (forall i, j :: 0 <= i < j < |ts| ==> ts[i] < ts[j])
    {
      if interval <= duration {
        ChainIsGrid(interval);
        GridFromInterval(interval, duration);
        GridShape(interval, interval, duration);
        var ts := Chain(interval);
        forall k | 0 <= k < |ts|
          ensures ts[k] == (k + 1) * interval
        {
          assert ts[k] == interval + k * interval;
        }
      }
    }

    /** sample: records one row per link, in link order, at time t, then
        returns the next event the chain arms (None once past the duration). */
    method Sample(t: int) returns (next: Option<int>)
      requires Valid()
      modifies collector`records
      ensures |collector.records| == |old(collector.records)| + |linkPairs|
      ensures collector.records[..|old(collector.records)|] == old(collector.records)
      ensures forall k :: 0 <= k < |linkPairs| ==>
        collector.records[|old(collector.records)| + k] ==
          old(SampleRow(t, faultType, linkPairs[k], protocols[linkPairs[k].name]))
      ensures next == ScheduleNext(t + interval)
    {
      ghost var before := collector.records;
      var i := 0;
      while i < |linkPairs|
        invariant 0 <= i <= |linkPairs|
        invariant |collector.records| == |before| + i
        invariant collector.records[..|before|] == before
        invariant forall k :: 0 <= k < i ==>
          collector.records[|before| + k] == old(SampleRow(t, faultType, linkPairs[k], protocols[linkPairs[k].name]))
      {
        var lp := linkPairs[i];
        var pair := protocols[lp.name];
        var m := ExtractMetrics(lp.n1, pair.alice, pair.bob);
        collector.Record(t, lp.name, lp.n1.name, m, SampleLabel(faultType, t));
        i := i + 1;
      }
      next := ScheduleNext(t + interval);
    }
  }
}
