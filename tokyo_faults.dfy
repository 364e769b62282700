/** Fault injection for the Tokyo scenarios: which perturbation a scenario
    schedules, on which node, and the perturbations themselves, which
    mutate detector, node and protocol state in place. The degrade
    scenario acts at build time instead, through the link attenuation. */
module TokyoFaults {
  import opened Wrappers
  import opened Entities
  import opened Faults
  import opened TokyoTopology
  import opened TokyoMetrics

  const KoganeiB: string := "Koganei_B"
  const Hakusan: string := "Hakusan"

  /** The QBER an intercept-resend attack appends to both ends' histories. */
  const InterceptQber: real := 0.25
  /** What blinding drives every detector of the target to. */
  const BlindEfficiency: real := 1.0
  const BlindDarkCount: real := 5_000_000.0
  /** The reverse optical power (W) of a Trojan-horse probe, and the phase error it causes. */
  const TrojanReflection: real := 0.001
  const TrojanPhaseError: real := 0.02

  /** The four run-time perturbations. */
  datatype Perturbation = Intercept | Blind | Trojan | Fail

  /** A perturbation armed to fire at a time on a named node. */
  datatype ScheduledFault = ScheduledFault(at: int, target: string, perturbation: Perturbation)

  /** inject_fault: the perturbation a scenario arms, if any. qber and
      blinding strike Otemachi, trojan strikes Koganei_B, node_fail
      strikes Hakusan; every other scenario arms nothing. */
  function InjectFault(faultType: string, startPs: int): (r: Option<ScheduledFault>)
    ensures r.Some? ==> r.value.at == startPs && r.value.target in NodeNames
    ensures r.Some? <==> faultType in ["qber", "blinding", "trojan", "node_fail"]
    ensures faultType == "qber" ==> r == Some(ScheduledFault(startPs, Otemachi, Intercept))
    ensures faultType == "blinding" ==> r == Some(ScheduledFault(startPs, Otemachi, Blind))
    ensures faultType == "trojan" ==> r == Some(ScheduledFault(startPs, KoganeiB, Trojan))
    ensures faultType == "node_fail" ==> r == Some(ScheduledFault(startPs, Hakusan, Fail))
  {
    if faultType == "qber" then Some(ScheduledFault(startPs, Otemachi, Intercept))
    else if faultType == "blinding" then Some(ScheduledFault(startPs, Otemachi, Blind))
    else if faultType == "trojan" then Some(ScheduledFault(startPs, KoganeiB, Trojan))
    else if faultType == "node_fail" then Some(ScheduledFault(startPs, Hakusan, Fail))
    else None
  }

  /** Every canonical scenario other than normal acts through exactly one
      mechanism: a run-time perturbation, or (degrade alone) the tripled
      attenuation of the first link; normal acts through neither. */
  lemma OneMechanismPerScenario(faultType: string, startPs: int)
    requires faultType in FaultNames
    ensures var perturbs := InjectFault(faultType, startPs).Some?;
            var degrades := LinkAttenuation(faultType, Links[0].a) != Attenuation;
            && (faultType == Normal ==> !perturbs && !degrades)
            && (faultType != Normal ==> perturbs != degrades)
  {
  }

  /** Different scenarios never arm the same perturbation. */
  lemma InjectFaultInjective(f1: string, f2: string, startPs: int)
    requires InjectFault(f1, startPs).Some? && InjectFault(f1, startPs) == InjectFault(f2, startPs)
    ensures f1 == f2
  {
  }

  /** The protocols an intercept-resend attack on the node reaches: the
      one in protocol-stack slot 0 and the peer it is paired with. */
  function InterceptVictims(target: Node): set<Protocol>
    reads target, target.stackSlot0
  {
    var p := target.stackSlot0;
    if p == null then {}
    else if p.another == null then {p}
    else {p, p.another}
  }

  /** _attack: appends the intercept QBER to the slot-0 protocol's error
      history and to its peer's (to the same history twice if the protocol
      is paired with itself). Both then report it as their last round. */
  method InterceptResend(target: Node)
    modifies InterceptVictims(target)`errorRates
    ensures var p := target.stackSlot0;
            p != null ==>
              && (p.another == null ==> p.errorRates == old(p.errorRates) + [InterceptQber])
              && (p.another == p ==> p.errorRates == old(p.errorRates) + [InterceptQber, InterceptQber])
              && (p.another != null && p.another != p ==>
                    p.errorRates == old(p.errorRates) + [InterceptQber] &&
                    p.another.errorRates == old(p.another.errorRates) + [InterceptQber])
    ensures var p := target.stackSlot0;
            p != null ==> LastQber(p) == InterceptQber && (p.another != null ==> LastQber(p.another) == InterceptQber)
  {
    var p := target.stackSlot0;
    if p != null {
      p.errorRates := p.errorRates + [InterceptQber];
      if p.another != null {
        p.another.errorRates := p.another.errorRates + [InterceptQber];
      }
    }
  }

  /** _blind: saturates every detector of the node and caches the blinded
      readings on the node, so the extractor reports them whatever the
      detectors hold. */
  method Blinding(target: Node)
    modifies target`darkCountOverride, target`efficiencyOverride
    modifies (set d | d in target.detectors)`efficiency, (set d | d in target.detectors)`darkCountRate
    ensures forall d :: d in target.detectors ==> d.efficiency == BlindEfficiency && d.darkCountRate == BlindDarkCount
    ensures target.darkCountOverride == Some(BlindDarkCount) && target.efficiencyOverride == Some(BlindEfficiency)
    ensures forall a: Protocol?, b: Protocol? {:trigger ExtractMetrics(target, a, b)} ::
      ExtractMetrics(target, a, b).darkCountRate == BlindDarkCount &&
      ExtractMetrics(target, a, b).detectorEfficiency == BlindEfficiency
  {
    var i := 0;
    while i < |target.detectors|
      invariant 0 <= i <= |target.detectors|
      invariant forall k :: 0 <= k < i ==>
        target.detectors[k].efficiency == BlindEfficiency && target.detectors[k].darkCountRate == BlindDarkCount
      modifies (set d | d in target.detectors)`efficiency, (set d | d in target.detectors)`darkCountRate
    {
      var det := target.detectors[i];
      det.efficiency := BlindEfficiency;
      det.darkCountRate := BlindDarkCount;
      i := i + 1;
    }
    target.darkCountOverride := Some(BlindDarkCount);
    target.efficiencyOverride := Some(BlindEfficiency);
  }

  /** _trojan: sets the node's reverse optical power and the phase error
      rate of each of its protocols that has that attribute. The reflection
      power shows in the extractor's output; the phase error rate does not,
      since the extractor always reports 0 for it. */
  method TrojanHorse(target: Node)
    modifies target`backReflectionPower, (set p | p in target.protocols)`phaseErrorRate
    ensures target.backReflectionPower == Some(TrojanReflection)
    ensures forall p :: p in target.protocols ==>
      (old(p.phaseErrorRate).Some? ==> p.phaseErrorRate == Some(TrojanPhaseError)) &&
      (old(p.phaseErrorRate).None? ==> p.phaseErrorRate == None)
    ensures forall a: Protocol?, b: Protocol? {:trigger ExtractMetrics(target, a, b)} ::
      ExtractMetrics(target, a, b).backReflectionPower == TrojanReflection &&
      ExtractMetrics(target, a, b).phaseErrorRate == 0.0
  {
    target.backReflectionPower := Some(TrojanReflection);
    var i := 0;
    while i < |target.protocols|
      invariant 0 <= i <= |target.protocols|
      invariant target.backReflectionPower == Some(TrojanReflection)
      invariant forall p :: p in target.protocols ==>
        (old(p.phaseErrorRate).None? ==> p.phaseErrorRate == None) &&
        (old(p.phaseErrorRate).Some? ==> p.phaseErrorRate == old(p.phaseErrorRate) || p.phaseErrorRate == Some(TrojanPhaseError))
      invariant forall k :: 0 <= k < i ==>
        old(target.protocols[k].phaseErrorRate).Some? ==> target.protocols[k].phaseErrorRate == Some(TrojanPhaseError)
      modifies (set p | p in target.protocols)`phaseErrorRate
    {
      var p := target.protocols[i];
      if p.phaseErrorRate.Some? {
        p.phaseErrorRate := Some(TrojanPhaseError);
      }
      i := i + 1;
    }
  }

  /** _fail: takes the node offline and stops each of its protocols that can be stopped. */
  method NodeFailure(target: Node)
    modifies target`isOffline, (set p | p in target.protocols)`stopped
    ensures target.isOffline
    ensures forall p :: p in target.protocols ==>
      (p.canStop ==> p.stopped) && (!p.canStop ==> p.stopped == old(p.stopped))
  {
    target.isOffline := true;
    var i := 0;
    while i < |target.protocols|
      invariant 0 <= i <= |target.protocols|
      invariant forall k :: 0 <= k < i ==> target.protocols[k].canStop ==> target.protocols[k].stopped
      invariant forall p :: p in target.protocols && !p.canStop ==> p.stopped == old(p.stopped)
      modifies (set p | p in target.protocols)`stopped
    {
      var p := target.protocols[i];
      if p.canStop {
        p.Stop();
      }
      i := i + 1;
    }
  }

  /** The callback inject_fault schedules: at the armed time, the armed
      perturbation strikes the node the fault names, with the effect the
      perturbation's own method states; the state the other three
      perturbations own is left as it was. */
  method Fire(sf: ScheduledFault, target: Node)
    requires target.name == sf.target
    modifies InterceptVictims(target)`errorRates
    modifies target`darkCountOverride, target`efficiencyOverride, target`backReflectionPower, target`isOffline
    modifies (set d | d in target.detectors)`efficiency, (set d | d in target.detectors)`darkCountRate
    modifies (set p | p in target.protocols)`phaseErrorRate, (set p | p in target.protocols)`stopped
    // intercept-resend
    ensures sf.perturbation == Intercept ==>
      var p := target.stackSlot0;
      p != null ==>
        && (p.another == null ==> p.errorRates == old(p.errorRates) + [InterceptQber])
        && (p.another == p ==> p.errorRates == old(p.errorRates) + [InterceptQber, InterceptQber])
        && (p.another != null && p.another != p ==>
              p.errorRates == old(p.errorRates) + [InterceptQber] &&
              p.another.errorRates == old(p.another.errorRates) + [InterceptQber])
    ensures sf.perturbation != Intercept ==>
      forall p :: p in InterceptVictims(target) ==> p.errorRates == old(p.errorRates)
    // blinding
    ensures sf.perturbation == Blind ==>
      && (forall d :: d in target.detectors ==> d.efficiency == BlindEfficiency && d.darkCountRate == BlindDarkCount)
      && target.darkCountOverride == Some(BlindDarkCount) && target.efficiencyOverride == Some(BlindEfficiency)
    ensures sf.perturbation != Blind ==>
      && (forall d :: d in target.detectors ==> d.efficiency == old(d.efficiency) && d.darkCountRate == old(d.darkCountRate))
      && target.darkCountOverride == old(target.darkCountOverride) && target.efficiencyOverride == old(target.efficiencyOverride)
    // Trojan horse
    ensures sf.perturbation == Trojan ==>
      && target.backReflectionPower == Some(TrojanReflection)
      && forall p :: p in target.protocols ==>
           (old(p.phaseErrorRate).Some? ==> p.phaseErrorRate == Some(TrojanPhaseError)) &&
           (old(p.phaseErrorRate).None? ==> p.phaseErrorRate == None)
    ensures sf.perturbation != Trojan ==>
      && target.backReflectionPower == old(target.backReflectionPower)
      && forall p :: p in target.protocols ==> p.phaseErrorRate == old(p.phaseErrorRate)
    // node failure
    ensures sf.perturbation == Fail ==>
      && target.isOffline
      && forall p :: p in target.protocols ==> (p.canStop ==> p.stopped) && (!p.canStop ==> p.stopped == old(p.stopped))
    ensures sf.perturbation != Fail ==>
      && target.isOffline == old(target.isOffline)
      && forall p :: p in target.protocols ==> p.stopped == old(p.stopped)
  {
    match sf.perturbation
    case Intercept => InterceptResend(target);
    case Blind => Blinding(target);
    case Trojan => TrojanHorse(target);
    case Fail => NodeFailure(target);
  }
}
