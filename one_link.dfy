/** The single-link scenario driver: a shared scenario state, key traffic
    (requests and consumption from the key buffer), a telemetry probe that
    snapshots the state into rows, the time-grid scheduler, and three fault
    callbacks that change the link and relabel the scenario. */
module OneLink {
  import opened Wrappers
  import opened Entities
  import opened Numeric
  import opened TimeGrid

  const Ms: nat := 1_000_000_000
  const S: nat := 1_000_000_000_000
  const StopTime: nat := 2 * S
  const SampleEvery: nat := 20 * Ms
  const KeyLen: nat := 128
  const FramesPerRequest: nat := 5
  const RequestEvery: nat := 100 * Ms
  const ConsumeEvery: nat := 80 * Ms
  /** How many keys one consumption spends. */
  const ConsumeKeys: nat := 2
  /** How many recent error rates the probe averages. */
  const ProbeWindow: nat := 50

  const AttenuationJumpAt: nat := 800 * Ms
  const DarkcountSpikeAt: nat := 1200 * Ms
  const PhaseNoiseAt: nat := 1500 * Ms

  /** The detector settings of the scenario, before and after the dark-count spike. */
  const TunedEfficiency: real := 0.15
  const TunedDarkCount: real := 1000.0
  const SpikedDarkCount: real := 50_000.0
  const JumpFactor: real := 3.0
  const NoisyPhaseError: real := 0.08

  /** ScenarioState: the current label and the count of starvation events. */
  class ScenarioState {
    var faultLabel: string
    var starvation: nat

    constructor ()
      ensures faultLabel == "normal" && starvation == 0
    {
      faultLabel := "normal";
      starvation := 0;
    }

    /** set_label: replaces the label; the starvation count is untouched. */
    method SetLabel(newLabel: string)
      modifies this`faultLabel
      ensures faultLabel == newLabel && starvation == old(starvation)
    {
      faultLabel := newLabel;
    }
  }

  /** One consumption on a key buffer, as a value: with fewer than two keys
      the buffer stays and one more starvation event is counted; otherwise
      the two oldest keys are spent. */
  function ConsumeStep(keys: seq<int>, starvation: nat): (r: (seq<int>, nat))
    ensures |keys| < ConsumeKeys ==> r == (keys, starvation + 1)
    ensures |keys| >= ConsumeKeys ==> r.0 == keys[ConsumeKeys..] && r.1 == starvation
  {
    if |keys| < ConsumeKeys then (keys, starvation + 1) else (keys[ConsumeKeys..], starvation)
  }

  /** n consumptions in a row, with no key arriving in between. */
  function ConsumeRepeated(keys: seq<int>, starvation: nat, n: nat): (seq<int>, nat)
    decreases n
  {
    if n == 0 then (keys, starvation)
    else
      var r := ConsumeStep(keys, starvation);
      ConsumeRepeated(r.0, r.1, n - 1)
  }

  /** Over n consumptions the buffer serves min(n, |keys| / 2) of them,
      oldest keys first, and every other one is a starvation event. */
  lemma {:induction false} ConsumeRepeatedServes(keys: seq<int>, starvation: nat, n: nat)
    ensures var served := if n <= |keys| / ConsumeKeys then n else |keys| / ConsumeKeys;
            var r := ConsumeRepeated(keys, starvation, n);
            r.0 == keys[ConsumeKeys * served..] && r.1 == starvation + (n - served)
    decreases n
  {
    if n > 0 {
      var r := ConsumeStep(keys, starvation);
      ConsumeRepeatedServes(r.0, r.1, n - 1);
      if |keys| >= ConsumeKeys {
        var rest := keys[2..];
        assert r == (rest, starvation);
        assert |rest| / 2 == |keys| / 2 - 1;
        var served' := if n - 1 <= |rest| / 2 then n - 1 else |rest| / 2;
        assert rest[2 * served'..] == keys[2 * (served' + 1)..];
      } else {
        assert |keys| / 2 == 0;
        assert r == (keys, starvation + 1);
      }
    }
  }

  /** The reconciliation layer and the key-exchange protocol as frames:
      empty when absent. */
  function Layer(c: Cascade?): set<Cascade>
  {
    if c == null then {} else {c}
  }

  function Engine(p: Protocol?): set<Protocol>
  {
    if p == null then {} else {p}
  }

  /** Traffic: the application's key requests and key consumption. */
  class Traffic {
    const state: ScenarioState
    const bb84: Protocol?
    const cascade: Cascade?

    constructor (state: ScenarioState, bb84: Protocol?, cascade: Cascade?)
      ensures this.state == state && this.bb84 == bb84 && this.cascade == cascade
    {
      this.state := state;
      this.bb84 := bb84;
      this.cascade := cascade;
    }

    /** request_keys: one request for five 128-bit frames over the request
        period, to the reconciliation layer when there is one, else to the
        key-exchange protocol (which must then exist). */
    method RequestKeys()
      requires cascade != null || bb84 != null
      modifies Layer(cascade)`requests, Engine(bb84)`requests
      ensures cascade != null ==>
        cascade.requests == old(cascade.requests) + [PushRequest(KeyLen, FramesPerRequest, RequestEvery)]
      ensures cascade != null && bb84 != null ==> bb84.requests == old(bb84.requests)
      ensures cascade == null ==>
        bb84.requests == old(bb84.requests) + [PushRequest(KeyLen, FramesPerRequest, RequestEvery)]
    {
      if cascade != null {
        cascade.Push(KeyLen, FramesPerRequest, RequestEvery);
      } else {
        bb84.Push(KeyLen, FramesPerRequest, RequestEvery);
      }
    }

    /** consume: without a reconciliation layer nothing happens; otherwise
        one ConsumeStep on its key buffer and the shared starvation count. */
    method Consume()
      modifies state`starvation, Layer(cascade)`validKeys
      ensures cascade == null ==> state.starvation == old(state.starvation)
      ensures cascade != null ==>
        (cascade.validKeys, state.starvation) == ConsumeStep(old(cascade.validKeys), old(state.starvation))
    {
      if cascade == null {
        return;
      }
      if |cascade.validKeys| < ConsumeKeys {
        state.starvation := state.starvation + 1;
        return;
      }
      ghost var keys := cascade.validKeys;
      var j := 0;
      while j < ConsumeKeys
        invariant 0 <= j <= ConsumeKeys
        invariant cascade.validKeys == keys[j..]
        invariant state.starvation == old(state.starvation)
      {
        cascade.validKeys := cascade.validKeys[1..];
        j := j + 1;
      }
    }
  }

  /** One telemetry row. */
  datatype ProbeRow = ProbeRow(
    tPs: int,
    faultLabel: string,
    keysBuffer: nat,
    qberProxy: Option<real>,
    throughput: Option<real>,
    latency: Option<real>,
    disclosedBits: Option<int>,
    starvationEvents: nat)

  /** The probe's QBER estimate: the mean of the last (up to) 50 error
      rates, or None with no protocol or an empty history. It lies between
      the smallest and the largest rate of that window. */
  function QberProxy(p: Protocol?): (r: Option<real>)
    reads p
    ensures r.None? <==> p == null || p.errorRates == []
    ensures r.Some? ==>
      var w := Tail(p.errorRates, ProbeWindow);
      |w| > 0 && Min(w) <= r.value <= Max(w)
  {
    if p == null || p.errorRates == [] then None
    else Some(Mean(Tail(p.errorRates, ProbeWindow)))
  }

  /** A steady error rate is reported as it is. */
  lemma QberProxySteady(p: Protocol, c: real)
    requires p.errorRates != [] && forall k :: 0 <= k < |p.errorRates| ==> p.errorRates[k] == c
    ensures QberProxy(p) == Some(c)
  {
    ConstantMean(Tail(p.errorRates, ProbeWindow), c);
  }

  /** TelemetryProbe: appends snapshots of the scenario to its rows. */
  class TelemetryProbe {
    const state: ScenarioState
    const bb84: Protocol?
    const cascade: Cascade?
    var rows: seq<ProbeRow>

    constructor (state: ScenarioState, bb84: Protocol?, cascade: Cascade?)
      ensures this.state == state && this.bb84 == bb84 && this.cascade == cascade && rows == []
    {
      this.state := state;
      this.bb84 := bb84;
      this.cascade := cascade;
      rows := [];
    }

    /** sample: appends one row taken at time t. Its label and starvation
        count are the shared state's at that moment; the buffer size is the
        number of completed keys (0 without a reconciliation layer); the
        layer's statistics are copied when present. */
    method Sample(t: int)
      modifies this`rows
      ensures |rows| == |old(rows)| + 1 && rows[..|old(rows)|] == old(rows)
      ensures var r := rows[|rows| - 1];
        && r.tPs == t && r.faultLabel == state.faultLabel && r.starvationEvents == state.starvation
        && r.keysBuffer == (if cascade != null then |cascade.validKeys| else 0)
        && r.qberProxy == QberProxy(bb84)
        && r.throughput == (if cascade != null then cascade.throughput else None)
        && r.latency == (if cascade != null then cascade.latency else None)
        && r.disclosedBits == (if cascade != null then cascade.disclosedBits else None)
    {
      var qberProxy := QberProxy(bb84);
      var keysBuffer := if cascade != null then |cascade.validKeys| else 0;
      var throughput := if cascade != null then cascade.throughput else None;
      var latency := if cascade != null then cascade.latency else None;
      var disclosed := if cascade != null then cascade.disclosedBits else None;
      rows := rows + [ProbeRow(t, state.faultLabel, keysBuffer, qberProxy, throughput, latency, disclosed, state.starvation)];
    }
  }

  /** What a scheduled event runs. */
  datatype Action = ProbeSample | RequestKeys | Consume | AttenuationJump | DarkcountSpike | PhaseNoise

  datatype Event = Event(timePs: int, action: Action)

  /** The same action at each of the given times. */
  function Every(times: seq<int>, action: Action): (es: seq<Event>)
    ensures |es| == |times|
    ensures forall k :: 0 <= k < |es| ==> es[k] == Event(times[k], action)
  {
    seq(|times|, k requires 0 <= k < |times| => Event(times[k], action))
  }

  /** The timeline's pending events, in the order they were scheduled. */
  class Agenda {
    var events: seq<Event>

    constructor ()
      ensures events == []
    {
      events := [];
    }

    /** schedule_at: one event at the given time. */
    method ScheduleAt(timePs: int, action: Action)
      modifies this`events
      ensures events == old(events) + [Event(timePs, action)]
    {
      events := events + [Event(timePs, action)];
    }

    /** schedule_every: the action at start, start + interval, ... while
        the time is at most end. An interval of 0 never reaches past end,
        so it is only allowed when start is already past end. */
    method ScheduleEvery(start: int, interval: nat, end: int, action: Action)
      requires interval > 0 || start > end
      modifies this`events
      ensures start > end ==> events == old(events)
      ensures interval > 0 ==> events == old(events) + Every(Grid(start, interval, end), action)
    {
      var t := start;
      ghost var k: nat := 0;
      while t <= end
        invariant interval > 0 || t > end
        invariant t == start + k * interval
        invariant interval > 0 ==> k <= GridCount(start, interval, end)
        invariant interval > 0 ==> events == old(events) + Every(Grid(start, interval, end)[..k], action)
        invariant start > end ==> events == old(events)
        decreases if t <= end then end - t + 1 else 0
      {
        GridPrefix(start, interval, end, k);
        ScheduleAt(t, action);
        t := t + interval;
        k := k + 1;
      }
      if interval > 0 {
        GridEnd(start, interval, end, k);
      }
    }
  }

  /** A point start + k * interval that is still at most end is the k-th grid point. */
  lemma GridPrefix(start: int, interval: nat, end: int, k: nat)
    requires interval > 0 && start + k * interval <= end
    ensures k < GridCount(start, interval, end)
    ensures Grid(start, interval, end)[..k + 1] == Grid(start, interval, end)[..k] + [start + k * interval]
  {
    var n := GridCount(start, interval, end);
    if k >= n {
      MulLe(n, k, interval);
    }
  }

  /** The first point past end is one past the last grid point. */
  lemma GridEnd(start: int, interval: nat, end: int, k: nat)
    requires interval > 0 && k <= GridCount(start, interval, end) && start + k * interval > end
    ensures Grid(start, interval, end)[..k] == Grid(start, interval, end)
  {
    var n := GridCount(start, interval, end);
    if k < n {
      MulLe(k, n - 1, interval);
    }
  }

  /** main's scheduling: telemetry, requests and consumption on their
      grids from 0 to the stop time, then the three faults at 800 ms,
      1200 ms and 1500 ms. */
  method ScheduleScenario(agenda: Agenda)
    modifies agenda`events
    ensures agenda.events == old(agenda.events)
      + Every(Grid(0, SampleEvery, StopTime), ProbeSample)
      + Every(Grid(0, RequestEvery, StopTime), RequestKeys)
      + Every(Grid(0, ConsumeEvery, StopTime), Consume)
      + [Event(AttenuationJumpAt, AttenuationJump), Event(DarkcountSpikeAt, DarkcountSpike), Event(PhaseNoiseAt, PhaseNoise)]
  {
    agenda.ScheduleEvery(0, SampleEvery, StopTime, ProbeSample);
    agenda.ScheduleEvery(0, RequestEvery, StopTime, RequestKeys);
    agenda.ScheduleEvery(0, ConsumeEvery, StopTime, Consume);
    agenda.ScheduleAt(AttenuationJumpAt, AttenuationJump);
    agenda.ScheduleAt(DarkcountSpikeAt, DarkcountSpike);
    agenda.ScheduleAt(PhaseNoiseAt, PhaseNoise);
  }

  /** The scenario's grids: 101 samples, 21 requests and 26 consumptions,
      every fault inside the run and in the order attenuation jump,
      dark-count spike, phase noise. */
  lemma ScenarioCounts()
    ensures |Grid(0, SampleEvery, StopTime)| == 101
    ensures |Grid(0, RequestEvery, StopTime)| == 21
    ensures |Grid(0, ConsumeEvery, StopTime)| == 26
    ensures 0 < AttenuationJumpAt < DarkcountSpikeAt < PhaseNoiseAt <= StopTime
  {
  }

  /** set_detector on one detector of the polarization detector. */
  method SetDetector(d: Detector, efficiency: real, darkCount: real)
    modifies d`efficiency, d`darkCountRate
    ensures d.efficiency == efficiency && d.darkCountRate == darkCount
  {
    d.efficiency := efficiency;
    d.darkCountRate := darkCount;
  }

  /** Detectors 0 and 1 of a polarization detector: the ones main retunes. */
  function Retuned(qsdA: seq<Detector>): set<Detector>
    requires |qsdA| >= 2
  {
    {qsdA[0], qsdA[1]}
  }

  /** main's detector tuning: detectors 0 and 1 at both ends get the tuned
      efficiency and dark count before the run starts. */
  method TuneDetectors(qsdA: seq<Detector>, qsdB: seq<Detector>)
    requires |qsdA| >= 2 && |qsdB| >= 2
    modifies Retuned(qsdA)`efficiency, Retuned(qsdA)`darkCountRate, Retuned(qsdB)`efficiency, Retuned(qsdB)`darkCountRate
    ensures forall i :: 0 <= i < 2 ==>
      && qsdA[i].efficiency == TunedEfficiency && qsdA[i].darkCountRate == TunedDarkCount
      && qsdB[i].efficiency == TunedEfficiency && qsdB[i].darkCountRate == TunedDarkCount
  {
    var i := 0;
    while i < 2
      invariant 0 <= i <= 2
      invariant forall j :: 0 <= j < i ==>
        && qsdA[j].efficiency == TunedEfficiency && qsdA[j].darkCountRate == TunedDarkCount
        && qsdB[j].efficiency == TunedEfficiency && qsdB[j].darkCountRate == TunedDarkCount
      modifies Retuned(qsdA)`efficiency, Retuned(qsdA)`darkCountRate, Retuned(qsdB)`efficiency, Retuned(qsdB)`darkCountRate
    {
      SetDetector(qsdA[i], TunedEfficiency, TunedDarkCount);
      SetDetector(qsdB[i], TunedEfficiency, TunedDarkCount);
      i := i + 1;
    }
  }

  /** fault_attenuation_jump: relabels the scenario and triples the A -> B
      quantum-channel attenuation. */
  method FaultAttenuationJump(state: ScenarioState, qcAB: QuantumChannel)
    modifies state`faultLabel, qcAB`attenuation
    ensures state.faultLabel == "attenuation_jump"
    ensures qcAB.attenuation == JumpFactor * old(qcAB.attenuation)
  {
    state.SetLabel("attenuation_jump");
    qcAB.attenuation := qcAB.attenuation * JumpFactor;
  }

  /** fault_darkcount_spike: relabels the scenario and sets detectors 0
      and 1 of site A to the tuned efficiency and the spiked dark count. */
  method FaultDarkcountSpike(state: ScenarioState, qsdA: seq<Detector>)
    requires |qsdA| >= 2
    modifies state`faultLabel, Retuned(qsdA)`efficiency, Retuned(qsdA)`darkCountRate
    ensures state.faultLabel == "darkcount_spike"
    ensures forall i :: 0 <= i < 2 ==>
      qsdA[i].efficiency == TunedEfficiency && qsdA[i].darkCountRate == SpikedDarkCount
  {
    state.SetLabel("darkcount_spike");
    var i := 0;
    while i < 2
      invariant 0 <= i <= 2
      invariant forall j :: 0 <= j < i ==>
        qsdA[j].efficiency == TunedEfficiency && qsdA[j].darkCountRate == SpikedDarkCount
      modifies Retuned(qsdA)`efficiency, Retuned(qsdA)`darkCountRate
    {
      SetDetector(qsdA[i], TunedEfficiency, SpikedDarkCount);
      i := i + 1;
    }
  }

  /** fault_phase_noise: relabels the scenario and raises site A's
      light-source phase error. */
  method FaultPhaseNoise(state: ScenarioState, lsA: LightSource)
    modifies state`faultLabel, lsA`phaseError
    ensures state.faultLabel == "phase_noise"
    ensures lsA.phaseError == NoisyPhaseError
  {
    state.SetLabel("phase_noise");
    lsA.phaseError := NoisyPhaseError;
  }

  /** What the timeline runs for an event of the given action at time t:
      the action's own method, on the probe, the traffic and site A's
      channel, detectors and light source; the state the other actions own
      is left as it was. */
  method Run(action: Action, t: int, probe: TelemetryProbe, traffic: Traffic,
             qcAB: QuantumChannel, qsdA: seq<Detector>, lsA: LightSource)
    requires probe.state == traffic.state
    requires action == RequestKeys ==> traffic.cascade != null || traffic.bb84 != null
    requires |qsdA| >= 2
    modifies probe`rows, traffic.state`faultLabel, traffic.state`starvation
    modifies Layer(traffic.cascade)`validKeys, Layer(traffic.cascade)`requests, Engine(traffic.bb84)`requests
    modifies qcAB`attenuation, Retuned(qsdA)`efficiency, Retuned(qsdA)`darkCountRate, lsA`phaseError
    // the telemetry sample
    ensures action == ProbeSample ==>
      && |probe.rows| == |old(probe.rows)| + 1 && probe.rows[..|old(probe.rows)|] == old(probe.rows)
      && var r := probe.rows[|probe.rows| - 1];
         && r.tPs == t && r.faultLabel == probe.state.faultLabel && r.starvationEvents == probe.state.starvation
         && r.keysBuffer == (if probe.cascade != null then |probe.cascade.validKeys| else 0)
         && r.qberProxy == QberProxy(probe.bb84)
    ensures action != ProbeSample ==> probe.rows == old(probe.rows)
    // the key request
    ensures action == RequestKeys && traffic.cascade != null ==>
      traffic.cascade.requests == old(traffic.cascade.requests) + [PushRequest(KeyLen, FramesPerRequest, RequestEvery)]
    ensures action == RequestKeys && traffic.cascade == null ==>
      traffic.bb84.requests == old(traffic.bb84.requests) + [PushRequest(KeyLen, FramesPerRequest, RequestEvery)]
    ensures (action != RequestKeys || traffic.cascade != null) && traffic.bb84 != null ==>
      traffic.bb84.requests == old(traffic.bb84.requests)
    ensures action != RequestKeys && traffic.cascade != null ==>
      traffic.cascade.requests == old(traffic.cascade.requests)
    // the consumption
    ensures action == Consume && traffic.cascade != null ==>
      (traffic.cascade.validKeys, traffic.state.starvation) ==
        ConsumeStep(old(traffic.cascade.validKeys), old(traffic.state.starvation))
    ensures action != Consume || traffic.cascade == null ==> traffic.state.starvation == old(traffic.state.starvation)
    ensures action != Consume && traffic.cascade != null ==> traffic.cascade.validKeys == old(traffic.cascade.validKeys)
    // the three faults
    ensures action == AttenuationJump ==>
      traffic.state.faultLabel == "attenuation_jump" && qcAB.attenuation == JumpFactor * old(qcAB.attenuation)
    ensures action != AttenuationJump ==> qcAB.attenuation == old(qcAB.attenuation)
    ensures action == DarkcountSpike ==>
      && traffic.state.faultLabel == "darkcount_spike"
      && forall i :: 0 <= i < 2 ==> qsdA[i].efficiency == TunedEfficiency && qsdA[i].darkCountRate == SpikedDarkCount
    ensures action != DarkcountSpike ==>
      forall i :: 0 <= i < 2 ==> qsdA[i].efficiency == old(qsdA[i].efficiency) && qsdA[i].darkCountRate == old(qsdA[i].darkCountRate)
    ensures action == PhaseNoise ==> traffic.state.faultLabel == "phase_noise" && lsA.phaseError == NoisyPhaseError
    ensures action != PhaseNoise ==> lsA.phaseError == old(lsA.phaseError)
    ensures action in {ProbeSample, RequestKeys, Consume} ==> traffic.state.faultLabel == old(traffic.state.faultLabel)
  {
    match action
    case ProbeSample => probe.Sample(t);
    case RequestKeys => traffic.RequestKeys();
    case Consume => traffic.Consume();
    case AttenuationJump => FaultAttenuationJump(traffic.state, qcAB);
    case DarkcountSpike => FaultDarkcountSpike(traffic.state, qsdA);
    case PhaseNoise => FaultPhaseNoise(traffic.state, lsA);
  }
}
