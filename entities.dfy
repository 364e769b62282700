/** The simulation engine's objects that the harness reads and mutates, as
    plain classes: detectors, light sources, key-exchange protocol instances,
    the reconciliation layer, channels and nodes. Only the fields the harness
    touches are kept; attributes the harness probes for with hasattr/getattr
    are Option fields, absent being None. */
module Entities {
  import opened Wrappers

  /** One detector of a node's polarization detector array. */
  class Detector {
    var efficiency: real
    var darkCountRate: real
    /** None when the detector has no time_resolution attribute. */
    var timeResolution: Option<int>

    constructor (efficiency: real, darkCountRate: real, timeResolution: Option<int>)
      ensures this.efficiency == efficiency && this.darkCountRate == darkCountRate
      ensures this.timeResolution == timeResolution
    {
      this.efficiency := efficiency;
      this.darkCountRate := darkCountRate;
      this.timeResolution := timeResolution;
    }
  }

  /** A node's photon source. */
  class LightSource {
    var meanPhotonNum: real
    var phaseError: real

    constructor (meanPhotonNum: real, phaseError: real)
      ensures this.meanPhotonNum == meanPhotonNum && this.phaseError == phaseError
    {
      this.meanPhotonNum := meanPhotonNum;
      this.phaseError := phaseError;
    }
  }

  /** A key request handed to a protocol layer: key length, count, run time. */
  datatype PushRequest = PushRequest(keyLength: nat, count: nat, runTime: nat)

  /** A key-exchange (BB84) protocol instance: its per-round histories, the
      key bits of the round in progress (None and empty both read as no
      bits), its paired peer, and the optional phase_error_rate and stop
      attributes some protocols have. */
  class Protocol {
    var errorRates: seq<real>
    var throughputs: seq<real>
    var keyBits: seq<int>
    var another: Protocol?
    var phaseErrorRate: Option<real>
    const canStop: bool
    var stopped: bool
    /** The key requests pushed to this instance, oldest first. */
    var requests: seq<PushRequest>

    constructor (canStop: bool, phaseErrorRate: Option<real>)
      ensures errorRates == [] && throughputs == [] && keyBits == [] && requests == []
      ensures another == null && !stopped
      ensures this.canStop == canStop && this.phaseErrorRate == phaseErrorRate
    {
      errorRates, throughputs, keyBits, requests := [], [], [], [];
      another := null;
      this.phaseErrorRate := phaseErrorRate;
      this.canStop := canStop;
      stopped := false;
    }

    /** push(length, key_num, run_time): starts key generation. */
    method Push(keyLength: nat, count: nat, runTime: nat)
      modifies this`requests
      ensures requests == old(requests) + [PushRequest(keyLength, count, runTime)]
    {
      requests := requests + [PushRequest(keyLength, count, runTime)];
    }

    /** stop(): halts the instance. */
    method Stop()
      requires canStop
      modifies this`stopped
      ensures stopped
    {
      stopped := true;
    }
  }

  /** The reconciliation (cascade) layer above a key-exchange protocol: the
      buffer of completed keys and the statistics the probe reads. */
  class Cascade {
    var validKeys: seq<int>
    var throughput: Option<real>
    var latency: Option<real>
    var disclosedBits: Option<int>
    var requests: seq<PushRequest>

    constructor (validKeys: seq<int>)
      ensures this.validKeys == validKeys && requests == []
      ensures throughput == None && latency == None && disclosedBits == None
    {
      this.validKeys := validKeys;
      throughput, latency, disclosedBits := None, None, None;
      requests := [];
    }

    /** push(keylen, frame_num, run_time): starts producing keys. */
    method Push(keyLength: nat, frames: nat, runTime: nat)
      modifies this`requests
      ensures requests == old(requests) + [PushRequest(keyLength, frames, runTime)]
    {
      requests := requests + [PushRequest(keyLength, frames, runTime)];
    }
  }

  /** A quantum channel from a sender node to the peer named receiver. */
  class QuantumChannel {
    const name: string
    var attenuation: real
    const distance: nat
    const sender: Node
    const receiver: string

    constructor (name: string, attenuation: real, distance: nat, sender: Node, receiver: string)
      ensures this.name == name && this.attenuation == attenuation && this.distance == distance
      ensures this.sender == sender && this.receiver == receiver
    {
      this.name := name;
      this.attenuation := attenuation;
      this.distance := distance;
      this.sender := sender;
      this.receiver := receiver;
    }
  }

  /** A one-directional classical channel: its name, length, propagation
      delay in ps, and the names of its sending and receiving nodes. Nothing
      changes a classical channel once its ends are set, so it is a value. */
  datatype ClassicalChannel = ClassicalChannel(name: string, distance: nat, delay: nat, sender: string, receiver: string)

  /** The number of detectors in a polarization detector array. */
  const DetectorsPerNode: nat := 2

  /** A QKD node: its components, liveness flag, the override attributes
      fault injection caches on it, its channel registries keyed by peer
      name, protocol stack slot 0 and its protocol list. */
  class Node {
    const name: string
    const lightSource: LightSource
    /** The polarization detector's detectors; empty when the node has no
        detector component (both read back as the baselines). */
    const detectors: seq<Detector>
    var isOffline: bool
    /** _dark_count_rate, _detector_efficiency, _back_reflection_power. */
    var darkCountOverride: Option<real>
    var efficiencyOverride: Option<real>
    var backReflectionPower: Option<real>
    var cchannels: map<string, ClassicalChannel>
    var qchannels: map<string, QuantumChannel>
    /** protocol_stack[0], the slot reserved for the key-exchange protocol. */
    var stackSlot0: Protocol?
    var protocols: seq<Protocol>

    /** A freshly created node with the engine's own component defaults. */
    constructor (name: string, efficiency: real, darkCountRate: real, timeResolution: Option<int>, meanPhotonNum: real)
      ensures this.name == name
      ensures fresh(lightSource) && lightSource.meanPhotonNum == meanPhotonNum
      ensures |detectors| == DetectorsPerNode
      ensures forall d :: d in detectors ==> fresh(d) && d.timeResolution == timeResolution
      ensures !isOffline && darkCountOverride == None && efficiencyOverride == None && backReflectionPower == None
      ensures cchannels == map[] && qchannels == map[]
      ensures stackSlot0 == null && protocols == []
    {
      this.name := name;
      lightSource := new LightSource(meanPhotonNum, 0.0);
      var d0 := new Detector(efficiency, darkCountRate, timeResolution);
      var d1 := new Detector(efficiency, darkCountRate, timeResolution);
      detectors := [d0, d1];
      isOffline := false;
      darkCountOverride, efficiencyOverride, backReflectionPower := None, None, None;
      cchannels, qchannels := map[], map[];
      stackSlot0 := null;
      protocols := [];
    }
  }
}
