/** The five-node Tokyo QKD topology: physical baselines, the link table,
    classical-channel delays and the network builder that creates the nodes
    and wires a quantum channel and a bidirectional classical pair per link,
    registered under the peer's name. */
module TokyoTopology {
  import opened Wrappers
  import opened Entities

  const DetectorEfficiency: real := 0.80
  const DarkCountRate: real := 100.0
  const TimeResolution: int := 100
  const MeanPhotonNum: real := 0.1
  /** Fibre loss in dB per metre. */
  const Attenuation: real := 0.0002
  /** Propagation speed in fibre, metres per second. */
  const LightSpeed: nat := 200_000_000
  const PsPerSecond: nat := 1_000_000_000_000
  /** Fixed processing overhead added to every classical delay. */
  const ProcessingOverheadPs: nat := 8000
  /** The attenuation multiplier of the degrade scenario. */
  const DegradeFactor: real := 3.0

  const KoganeiA: string := "Koganei_A"
  const Otemachi: string := "Otemachi"

  /** A link from node a (the sender) to node b, with its length in metres. */
  datatype Link = Link(a: string, b: string, distance: nat)

  const NodeNames: seq<string> := ["Koganei_A", "Koganei_B", "Otemachi", "Hakusan", "Hongo"]

  const Links: seq<Link> := [
    Link("Koganei_A", "Koganei_B", 7000),
    Link("Koganei_B", "Otemachi", 13000),
    Link("Otemachi", "Hakusan", 6000),
    Link("Hakusan", "Hongo", 4200)
  ]

  /** Length of the extra classical route Koganei_A <-> Otemachi. */
  const RerouteDistance: nat := 20000

  /** The engine's own defaults for a new node's components; the builder
      overwrites all of them except whether a detector has a time resolution. */
  datatype ComponentDefaults = ComponentDefaults(
    efficiency: real, darkCountRate: real, timeResolution: Option<int>, meanPhotonNum: real)

  /** One entry of the builder's result: (n1, n2, link_name, quantum channel). */
  datatype LinkPair = LinkPair(n1: Node, n2: Node, name: string, qc: QuantumChannel)

  function LinkName(l: Link): string
  {
    l.a + "_" + l.b
  }

  /** Classical-channel delay in ps: the time light needs to cross the
      fibre, plus the processing overhead. */
  function ClassicalDelay(distance: nat): (ps: nat)
    ensures ps >= ProcessingOverheadPs
    ensures (ps - ProcessingOverheadPs) * LightSpeed == distance * PsPerSecond
  {
    distance * 5000 + ProcessingOverheadPs
  }

  /** A longer fibre never has a shorter delay. */
  lemma ClassicalDelayMonotone(d1: nat, d2: nat)
    requires d1 <= d2
    ensures ClassicalDelay(d1) <= ClassicalDelay(d2)
  {
  }

  /** The quantum-channel attenuation of a link whose sender is the named
      node: tripled exactly for Koganei_A's link in the degrade scenario. */
  function LinkAttenuation(faultType: string, sender: string): (attn: real)
    ensures attn == Attenuation || attn == DegradeFactor * Attenuation
    ensures attn == DegradeFactor * Attenuation <==> faultType == "degrade" && sender == KoganeiA
  {
    if faultType == "degrade" && sender == KoganeiA then Attenuation * DegradeFactor else Attenuation
  }

  /** Over the link table, only the first link (Koganei_A -> Koganei_B) can
      be degraded, and only in the degrade scenario. */
  lemma DegradeOnlyFirstLink(faultType: string, k: nat)
    requires k < |Links|
    ensures LinkAttenuation(faultType, Links[k].a) ==
            if faultType == "degrade" && k == 0 then DegradeFactor * Attenuation else Attenuation
  {
    assert k == 0 || k == 1 || k == 2 || k == 3;
  }

  /** The classical peers a list of links gives node x: both directions. */
  function CPeers(x: string, ls: seq<Link>): set<string>
  {
    if ls == [] then {} else CPeers(x, ls[..|ls| - 1]) + Ends(x, ls[|ls| - 1])
  }

  /** The quantum peers of node x: only the links it sends on. */
  function QPeers(x: string, ls: seq<Link>): set<string>
  {
    if ls == [] then {} else QPeers(x, ls[..|ls| - 1]) + Sends(x, ls[|ls| - 1])
  }

  /** The peer link l gives x in either direction. */
  function Ends(x: string, l: Link): set<string>
  {
    (if l.a == x then {l.b} else {}) + (if l.b == x then {l.a} else {})
  }

  /** The peer link l gives x as its sender. */
  function Sends(x: string, l: Link): set<string>
  {
    if l.a == x then {l.b} else {}
  }

  /** The classical registries are symmetric: y is a peer of x exactly when x is a peer of y. */
  lemma {:induction false} CPeersSymmetric(x: string, y: string, ls: seq<Link>)
    ensures y in CPeers(x, ls) <==> x in CPeers(y, ls)
  {
    if ls != [] {
      CPeersSymmetric(x, y, ls[..|ls| - 1]);
    }
  }

  /** Every quantum peer is also a classical peer. */
  lemma {:induction false} QPeersAreCPeers(x: string, ls: seq<Link>)
    ensures QPeers(x, ls) <= CPeers(x, ls)
  {
    if ls != [] {
      QPeersAreCPeers(x, ls[..|ls| - 1]);
    }
  }

  /** The extra classical peer of the reroute pair. */
  function ReroutePeers(x: string): set<string>
  {
    if x == KoganeiA then {Otemachi} else if x == Otemachi then {KoganeiA} else {}
  }

  /** The registries the builder leaves behind, node by node. */
  lemma PeerTables()
    ensures CPeers("Koganei_A", Links) + ReroutePeers("Koganei_A") == {"Koganei_B", "Otemachi"}
    ensures CPeers("Koganei_B", Links) + ReroutePeers("Koganei_B") == {"Koganei_A", "Otemachi"}
    ensures CPeers("Otemachi", Links) + ReroutePeers("Otemachi") == {"Koganei_B", "Hakusan", "Koganei_A"}
    ensures CPeers("Hakusan", Links) + ReroutePeers("Hakusan") == {"Otemachi", "Hongo"}
    ensures CPeers("Hongo", Links) + ReroutePeers("Hongo") == {"Hakusan"}
    ensures QPeers("Koganei_A", Links) == {"Koganei_B"} && QPeers("Koganei_B", Links) == {"Otemachi"}
    ensures QPeers("Otemachi", Links) == {"Hakusan"} && QPeers("Hakusan", Links) == {"Hongo"}
    ensures QPeers("Hongo", Links) == {}
  {
    assert Links[..3][..2] == Links[..2];
    assert Links[..2][..1] == Links[..1];
    assert Links[..1][..0] == [];
    forall x: string
      ensures CPeers(x, Links) == Ends(x, Links[0]) + Ends(x, Links[1]) + Ends(x, Links[2]) + Ends(x, Links[3])
      ensures QPeers(x, Links) == Sends(x, Links[0]) + Sends(x, Links[1]) + Sends(x, Links[2]) + Sends(x, Links[3])
    {
      assert CPeers(x, Links[..1]) == Ends(x, Links[0]);
      assert CPeers(x, Links[..2]) == Ends(x, Links[0]) + Ends(x, Links[1]);
      assert CPeers(x, Links[..3]) == Ends(x, Links[0]) + Ends(x, Links[1]) + Ends(x, Links[2]);
      assert QPeers(x, Links[..1]) == Sends(x, Links[0]);
      assert QPeers(x, Links[..2]) == Sends(x, Links[0]) + Sends(x, Links[1]);
      assert QPeers(x, Links[..3]) == Sends(x, Links[0]) + Sends(x, Links[1]) + Sends(x, Links[2]);
    }
  }

  /** No two links join the same pair of nodes, in either direction, no
      link is a loop, none duplicates the reroute pair, and every endpoint
      is a declared node. */
  lemma LinksDistinct()
    ensures forall k, m :: 0 <= k < m < |Links| ==>
      !(Links[k].a == Links[m].a && Links[k].b == Links[m].b) &&
      !(Links[k].a == Links[m].b && Links[k].b == Links[m].a)
    ensures forall k :: 0 <= k < |Links| ==>
      Links[k].a != Links[k].b && Links[k].a in NodeNames && Links[k].b in NodeNames &&
      !(Links[k].a == KoganeiA && Links[k].b == Otemachi) &&
      !(Links[k].a == Otemachi && Links[k].b == KoganeiA)
  {
    forall k, m | 0 <= k < m < |Links|
      ensures !(Links[k].a == Links[m].a && Links[k].b == Links[m].b)
      ensures !(Links[k].a == Links[m].b && Links[k].b == Links[m].a)
    {
      assert k == 0 || k == 1 || k == 2;
      assert m == 1 || m == 2 || m == 3;
    }
    forall k | 0 <= k < |Links|
      ensures Links[k].a != Links[k].b && Links[k].a in NodeNames && Links[k].b in NodeNames
      ensures !(Links[k].a == KoganeiA && Links[k].b == Otemachi)
      ensures !(Links[k].a == Otemachi && Links[k].b == KoganeiA)
    {
      assert k == 0 || k == 1 || k == 2 || k == 3;
    }
  }

  /** A node's components carry the physical baselines. A detector keeps a
      time resolution only if it had one. */
  ghost predicate Baseline(n: Node, defaults: ComponentDefaults)
    reads n.lightSource, n.detectors
  {
    && n.lightSource.meanPhotonNum == MeanPhotonNum
    && |n.detectors| == DetectorsPerNode
    && forall d :: d in n.detectors ==>
         && d.efficiency == DetectorEfficiency
         && d.darkCountRate == DarkCountRate
         && d.timeResolution == (if defaults.timeResolution.Some? then Some(TimeResolution) else None)
  }

  /** A node nothing has happened to yet: online, no overrides, no protocols. */
  ghost predicate Pristine(n: Node)
    reads n`isOffline, n`darkCountOverride, n`efficiencyOverride, n`backReflectionPower, n`stackSlot0, n`protocols
  {
    !n.isOffline && n.darkCountOverride == None && n.efficiencyOverride == None &&
    n.backReflectionPower == None && n.stackSlot0 == null && n.protocols == []
  }

  ghost predicate ClassicalWired(c: ClassicalChannel, sender: string, peer: string, distance: nat, name: string)
  {
    c.sender == sender && c.receiver == peer && c.distance == distance &&
    c.delay == ClassicalDelay(distance) && c.name == name
  }

  /** The constant attributes of a quantum channel; its attenuation is the
      one attribute fault injection changes, and is stated apart. */
  ghost predicate QuantumWired(q: QuantumChannel, sender: Node, peer: string, distance: nat, name: string)
  {
    q.sender == sender && q.receiver == peer && q.distance == distance && q.name == name
  }

  /** ct and qt hold every node's classical and quantum registry, keyed by node name. */
  ghost predicate Snapshot(nodes: map<string, Node>, ct: map<string, map<string, ClassicalChannel>>,
                           qt: map<string, map<string, QuantumChannel>>)
    reads nodes.Values
  {
    ct.Keys == nodes.Keys && qt.Keys == nodes.Keys &&
    forall x :: x in nodes ==> nodes[x].cchannels == ct[x] && nodes[x].qchannels == qt[x]
  }

  /** Link l is wired in the registries ct and qt as the builder promises:
      its entry names both nodes and the link, n1 registers the quantum
      channel and the forward classical channel under n2's name, n2 the
      backward one under n1's name. */
  ghost predicate WiredIn(ct: map<string, map<string, ClassicalChannel>>, qt: map<string, map<string, QuantumChannel>>,
                          nodes: map<string, Node>, l: Link, lp: LinkPair)
  {
    && l.a in nodes && l.b in nodes && l.a in ct && l.b in ct && l.a in qt
    && lp.n1 == nodes[l.a] && lp.n2 == nodes[l.b] && lp.name == LinkName(l)
    && l.b in qt[l.a] && qt[l.a][l.b] == lp.qc
    && QuantumWired(lp.qc, lp.n1, l.b, l.distance, "qc_" + lp.name)
    && l.b in ct[l.a]
    && ClassicalWired(ct[l.a][l.b], l.a, l.b, l.distance, "cc_" + lp.name + "_fwd")
    && l.a in ct[l.b]
    && ClassicalWired(ct[l.b][l.a], l.b, l.a, l.distance, "cc_" + lp.name + "_bwd")
  }

  /** The first |linkPairs| links of ls are wired in ct and qt, in order. */
  ghost predicate PrefixIn(ct: map<string, map<string, ClassicalChannel>>, qt: map<string, map<string, QuantumChannel>>,
                           nodes: map<string, Node>, ls: seq<Link>, linkPairs: seq<LinkPair>)
  {
    |linkPairs| <= |ls| && forall k :: 0 <= k < |linkPairs| ==> WiredIn(ct, qt, nodes, ls[k], linkPairs[k])
  }

  /** Registering a classical pair between a and b leaves every link on
      another pair of nodes wired. */
  lemma ClassicalPairKeeps(ct: map<string, map<string, ClassicalChannel>>, qt: map<string, map<string, QuantumChannel>>,
                           nodes: map<string, Node>, a: string, b: string, f: ClassicalChannel, g: ClassicalChannel,
                           l: Link, lp: LinkPair)
    requires a != b && a in ct && b in ct
    requires WiredIn(ct, qt, nodes, l, lp)
    requires !(l.a == a && l.b == b) && !(l.a == b && l.b == a)
    ensures WiredIn(ct[a := ct[a][b := f]][b := ct[b][a := g]], qt, nodes, l, lp)
  {
  }

  /** Registering a quantum channel from a to b leaves every other link wired. */
  lemma QuantumKeeps(ct: map<string, map<string, ClassicalChannel>>, qt: map<string, map<string, QuantumChannel>>,
                     nodes: map<string, Node>, a: string, b: string, q: QuantumChannel, l: Link, lp: LinkPair)
    requires a in qt
    requires WiredIn(ct, qt, nodes, l, lp)
    requires !(l.a == a && l.b == b)
    ensures WiredIn(ct, qt[a := qt[a][b := q]], nodes, l, lp)
  {
  }

  /** The registries hold exactly the peers the links in ls give. */
  ghost predicate RegisteredIn(ct: map<string, map<string, ClassicalChannel>>, qt: map<string, map<string, QuantumChannel>>,
                               ls: seq<Link>)
  {
    ct.Keys == qt.Keys &&
    forall x {:trigger CPeers(x, ls)} :: x in ct ==> qt[x].Keys == QPeers(x, ls) && ct[x].Keys == CPeers(x, ls)
  }

  /** Wiring link ls[j] on top of the links before it, seen from one node x. */
  lemma RegisterStepAt(x: string, cx: map<string, ClassicalChannel>, qx: map<string, QuantumChannel>,
                       ls: seq<Link>, j: nat, f: ClassicalChannel, g: ClassicalChannel, q: QuantumChannel)
    requires j < |ls| && ls[j].a != ls[j].b
    requires qx.Keys == QPeers(x, ls[..j]) && cx.Keys == CPeers(x, ls[..j])
    ensures var l := ls[j];
            var cx' := if x == l.a then cx[l.b := f] else if x == l.b then cx[l.a := g] else cx;
            var qx' := if x == l.a then qx[l.b := q] else qx;
            qx'.Keys == QPeers(x, ls[..j + 1]) && cx'.Keys == CPeers(x, ls[..j + 1])
  {
    var ls' := ls[..j + 1];
    assert ls'[..|ls'| - 1] == ls[..j] && ls'[|ls'| - 1] == ls[j];
    assert QPeers(x, ls') == QPeers(x, ls[..j]) + Sends(x, ls[j]);
    assert CPeers(x, ls') == CPeers(x, ls[..j]) + Ends(x, ls[j]);
  }

  /** Wiring link ls[j] on top of the links before it registers exactly the peers of ls[..j + 1]. */
  lemma RegisterStep(ct: map<string, map<string, ClassicalChannel>>, qt: map<string, map<string, QuantumChannel>>,
                     ls: seq<Link>, j: nat, f: ClassicalChannel, g: ClassicalChannel, q: QuantumChannel)
    requires j < |ls| && ls[j].a != ls[j].b && ls[j].a in ct && ls[j].b in ct
    requires RegisteredIn(ct, qt, ls[..j])
    ensures var l := ls[j];
            RegisteredIn(ct[l.a := ct[l.a][l.b := f]][l.b := ct[l.b][l.a := g]], qt[l.a := qt[l.a][l.b := q]], ls[..j + 1])
  {
    var l := ls[j];
    var ct' := ct[l.a := ct[l.a][l.b := f]][l.b := ct[l.b][l.a := g]];
    var qt' := qt[l.a := qt[l.a][l.b := q]];
    forall x | x in ct'
      ensures qt'[x].Keys == QPeers(x, ls[..j + 1]) && ct'[x].Keys == CPeers(x, ls[..j + 1])
    {
      assert x in ct && qt[x].Keys == QPeers(x, ls[..j]) && ct[x].Keys == CPeers(x, ls[..j]);
      RegisterStepAt(x, ct[x], qt[x], ls, j, f, g, q);
    }
  }

  /** Creates one node and sets its light source and every detector to the baselines. */
  method NewNode(name: string, defaults: ComponentDefaults) returns (n: Node)
    ensures fresh(n) && fresh(n.lightSource) && forall d :: d in n.detectors ==> fresh(d)
    ensures n.name == name && Baseline(n, defaults) && Pristine(n)
    ensures n.cchannels == map[] && n.qchannels == map[]
  {
    n := new Node(name, defaults.efficiency, defaults.darkCountRate, defaults.timeResolution, defaults.meanPhotonNum);
    n.lightSource.meanPhotonNum := MeanPhotonNum;
    var i := 0;
    while i < |n.detectors|
      invariant 0 <= i <= |n.detectors|
      modifies set d | d in n.detectors
      invariant n.name == name && Pristine(n) && n.cchannels == map[] && n.qchannels == map[]
      invariant n.lightSource.meanPhotonNum == MeanPhotonNum
      invariant forall d :: d in n.detectors ==> d.timeResolution.Some? == defaults.timeResolution.Some?
      invariant forall k :: 0 <= k < i ==>
        && n.detectors[k].efficiency == DetectorEfficiency
        && n.detectors[k].darkCountRate == DarkCountRate
        && (n.detectors[k].timeResolution.Some? ==> n.detectors[k].timeResolution == Some(TimeResolution))
    {
      var det := n.detectors[i];
      det.efficiency := DetectorEfficiency;
      det.darkCountRate := DarkCountRate;
      if det.timeResolution.Some? {
        det.timeResolution := Some(TimeResolution);
      }
      i := i + 1;
    }
  }

  /** Wires one link: a quantum channel n1 -> n2 and a classical pair,
      each registered under the peer's name; no other registry changes. */
  method WireLink(nodes: map<string, Node>, l: Link, faultType: string,
                  ghost ct: map<string, map<string, ClassicalChannel>>, ghost qt: map<string, map<string, QuantumChannel>>)
    returns (lp: LinkPair, fwd: ClassicalChannel, bwd: ClassicalChannel)
    requires forall x :: x in nodes ==> nodes[x].name == x
    requires l.a in nodes && l.b in nodes && l.a != l.b
    requires Snapshot(nodes, ct, qt)
    modifies nodes.Values`cchannels, nodes.Values`qchannels
    ensures lp.n1 == nodes[l.a] && lp.n2 == nodes[l.b] && lp.name == LinkName(l) && fresh(lp.qc)
    ensures QuantumWired(lp.qc, lp.n1, l.b, l.distance, "qc_" + lp.name)
    ensures lp.qc.attenuation == LinkAttenuation(faultType, l.a)
    ensures ClassicalWired(fwd, l.a, l.b, l.distance, "cc_" + lp.name + "_fwd")
    ensures ClassicalWired(bwd, l.b, l.a, l.distance, "cc_" + lp.name + "_bwd")
    ensures Snapshot(nodes, ct[l.a := ct[l.a][l.b := fwd]][l.b := ct[l.b][l.a := bwd]], qt[l.a := qt[l.a][l.b := lp.qc]])
  {
    var n1, n2 := nodes[l.a], nodes[l.b];
    var linkName := LinkName(l);
    var attn := LinkAttenuation(faultType, l.a);
    var qc := new QuantumChannel("qc_" + linkName, attn, l.distance, n1, l.b);
    var delay := ClassicalDelay(l.distance);
    fwd := ClassicalChannel("cc_" + linkName + "_fwd", l.distance, delay, l.a, l.b);
    bwd := ClassicalChannel("cc_" + linkName + "_bwd", l.distance, delay, l.b, l.a);
    n1.cchannels := n1.cchannels[l.b := fwd];
    n2.cchannels := n2.cchannels[l.a := bwd];
    n1.qchannels := n1.qchannels[l.b := qc];
    lp := LinkPair(n1, n2, linkName, qc);
    ghost var ct', qt' := ct[l.a := ct[l.a][l.b := fwd]][l.b := ct[l.b][l.a := bwd]], qt[l.a := qt[l.a][l.b := qc]];
    forall x | x in nodes
      ensures nodes[x].cchannels == ct'[x] && nodes[x].qchannels == qt'[x]
    {
      if x != l.a && x != l.b {
        assert nodes[x] != n1 && nodes[x] != n2;
      }
    }
  }

  /** Creates the five nodes, keyed by name, all distinct objects. */
  method CreateNodes(defaults: ComponentDefaults) returns (nodes: map<string, Node>)
    ensures nodes.Keys == set x | x in NodeNames
    ensures forall x :: x in nodes ==>
      && fresh(nodes[x]) && nodes[x].name == x && Baseline(nodes[x], defaults) && Pristine(nodes[x])
      && nodes[x].cchannels == map[] && nodes[x].qchannels == map[]
    ensures forall x, y :: x in nodes && y in nodes && x != y ==> nodes[x] != nodes[y]
  {
    nodes := map[];
    var i := 0;
    while i < |NodeNames|
      invariant 0 <= i <= |NodeNames|
      invariant nodes.Keys == set k | 0 <= k < i :: NodeNames[k]
      invariant forall x :: x in nodes ==>
        && fresh(nodes[x]) && nodes[x].name == x && Baseline(nodes[x], defaults) && Pristine(nodes[x])
        && nodes[x].cchannels == map[] && nodes[x].qchannels == map[]
      invariant forall x, y :: x in nodes && y in nodes && x != y ==> nodes[x] != nodes[y]
    {
      var n := NewNode(NodeNames[i], defaults);
      nodes := nodes[NodeNames[i] := n];
      i := i + 1;
    }
    assert NodeNames[..i] == NodeNames;
  }

  /** A link table the builder can wire without one entry overwriting
      another: no loops, no two links on the same pair of nodes, and every
      endpoint a node of the table. */
  ghost predicate WellFormedLinks(ls: seq<Link>, nodes: map<string, Node>)
  {
    && (forall k, m :: 0 <= k < m < |ls| ==>
          !(ls[k].a == ls[m].a && ls[k].b == ls[m].b) && !(ls[k].a == ls[m].b && ls[k].b == ls[m].a))
    && (forall k :: 0 <= k < |ls| ==> ls[k].a != ls[k].b && ls[k].a in nodes && ls[k].b in nodes)
  }

  /** Wiring the next link of a well-formed table keeps every earlier
      link wired and wires the new one. */
  lemma PrefixStep(ct: map<string, map<string, ClassicalChannel>>, qt: map<string, map<string, QuantumChannel>>,
                   nodes: map<string, Node>, ls: seq<Link>, linkPairs: seq<LinkPair>,
                   lp: LinkPair, f: ClassicalChannel, g: ClassicalChannel)
    requires WellFormedLinks(ls, nodes) && |linkPairs| < |ls|
    requires ct.Keys == nodes.Keys && qt.Keys == nodes.Keys
    requires PrefixIn(ct, qt, nodes, ls, linkPairs)
    requires var l := ls[|linkPairs|];
             && lp.n1 == nodes[l.a] && lp.n2 == nodes[l.b] && lp.name == LinkName(l)
             && QuantumWired(lp.qc, lp.n1, l.b, l.distance, "qc_" + lp.name)
             && ClassicalWired(f, l.a, l.b, l.distance, "cc_" + lp.name + "_fwd")
             && ClassicalWired(g, l.b, l.a, l.distance, "cc_" + lp.name + "_bwd")
    ensures var l := ls[|linkPairs|];
            PrefixIn(ct[l.a := ct[l.a][l.b := f]][l.b := ct[l.b][l.a := g]], qt[l.a := qt[l.a][l.b := lp.qc]],
                     nodes, ls, linkPairs + [lp])
  {
    var l := ls[|linkPairs|];
    var ct' := ct[l.a := ct[l.a][l.b := f]][l.b := ct[l.b][l.a := g]];
    var qt' := qt[l.a := qt[l.a][l.b := lp.qc]];
    var lps := linkPairs + [lp];
    forall k | 0 <= k < |lps|
      ensures WiredIn(ct', qt', nodes, ls[k], lps[k])
    {
      if k < |linkPairs| {
        ClassicalPairKeeps(ct, qt, nodes, l.a, l.b, f, g, ls[k], linkPairs[k]);
        QuantumKeeps(ct', qt, nodes, l.a, l.b, lp.qc, ls[k], linkPairs[k]);
      }
    }
  }

  /** Each wired link's quantum channel carries the scenario's attenuation
      for its sender. Only the attenuation fields are read, so registry
      updates leave it intact. */
  ghost predicate Attenuated(linkPairs: seq<LinkPair>, ls: seq<Link>, faultType: string)
    reads (set k | 0 <= k < |linkPairs| :: linkPairs[k].qc)`attenuation
  {
    |linkPairs| <= |ls| &&
    forall k :: 0 <= k < |linkPairs| ==> linkPairs[k].qc.attenuation == LinkAttenuation(faultType, ls[k].a)
  }

  /** One turn of the link loop: wires the next link of the table and
      extends the wired prefix and the registered peers by it. */
  method WireNext(nodes: map<string, Node>, ls: seq<Link>, faultType: string, linkPairs: seq<LinkPair>,
                  ghost ct: map<string, map<string, ClassicalChannel>>, ghost qt: map<string, map<string, QuantumChannel>>)
    returns (linkPairs': seq<LinkPair>, ghost ct': map<string, map<string, ClassicalChannel>>,
             ghost qt': map<string, map<string, QuantumChannel>>)
    requires forall x :: x in nodes ==> nodes[x].name == x
    requires WellFormedLinks(ls, nodes) && |linkPairs| < |ls|
    requires Snapshot(nodes, ct, qt)
    requires PrefixIn(ct, qt, nodes, ls, linkPairs) && RegisteredIn(ct, qt, ls[..|linkPairs|])
    requires forall k :: 0 <= k < |linkPairs| ==> linkPairs[k].qc.attenuation == LinkAttenuation(faultType, ls[k].a)
    modifies nodes.Values`cchannels, nodes.Values`qchannels
    ensures |linkPairs'| == |linkPairs| + 1
    ensures Snapshot(nodes, ct', qt')
    ensures PrefixIn(ct', qt', nodes, ls, linkPairs') && RegisteredIn(ct', qt', ls[..|linkPairs'|])
    ensures forall k :: 0 <= k < |linkPairs'| ==> linkPairs'[k].qc.attenuation == LinkAttenuation(faultType, ls[k].a)
  {
    var i := |linkPairs|;
    var l := ls[i];
    var lp, f, g := WireLink(nodes, l, faultType, ct, qt);
    PrefixStep(ct, qt, nodes, ls, linkPairs, lp, f, g);
    RegisterStep(ct, qt, ls, i, f, g, lp.qc);
    ct' := ct[l.a := ct[l.a][l.b := f]][l.b := ct[l.b][l.a := g]];
    qt' := qt[l.a := qt[l.a][l.b := lp.qc]];
    linkPairs' := linkPairs + [lp];
  }

  /** The loop over the link table: wires every link, in order, and
      registers exactly the peers the table gives. */
  method WireLinks(nodes: map<string, Node>, ls: seq<Link>, faultType: string)
    returns (linkPairs: seq<LinkPair>, ghost ct: map<string, map<string, ClassicalChannel>>,
             ghost qt: map<string, map<string, QuantumChannel>>)
    requires forall x :: x in nodes ==> nodes[x].name == x
    requires WellFormedLinks(ls, nodes)
    requires forall x :: x in nodes ==> nodes[x].cchannels == map[] && nodes[x].qchannels == map[]
    modifies nodes.Values`cchannels, nodes.Values`qchannels
    ensures |linkPairs| == |ls|
    ensures Snapshot(nodes, ct, qt)
    ensures PrefixIn(ct, qt, nodes, ls, linkPairs) && RegisteredIn(ct, qt, ls)
    ensures Attenuated(linkPairs, ls, faultType)
  {
    linkPairs := [];
    ct := map x | x in nodes :: map[];
    qt := map x | x in nodes :: map[];
    var i := 0;
    forall x | x in ct
      ensures qt[x].Keys == QPeers(x, ls[..0]) && ct[x].Keys == CPeers(x, ls[..0])
    {
      assert ls[..0] == [];
    }
    while i < |ls|
      invariant i == |linkPairs| <= |ls|
      invariant Snapshot(nodes, ct, qt)
      invariant PrefixIn(ct, qt, nodes, ls, linkPairs) && RegisteredIn(ct, qt, ls[..|linkPairs|])
      invariant forall k :: 0 <= k < |linkPairs| ==> linkPairs[k].qc.attenuation == LinkAttenuation(faultType, ls[k].a)
    {
      linkPairs, ct, qt := WireNext(nodes, ls, faultType, linkPairs, ct, qt);
      i := i + 1;
    }
    assert ls[..i] == ls;
  }

  /** Adding the reroute pair keeps every link of a table without that pair wired. */
  lemma RerouteKeeps(ct: map<string, map<string, ClassicalChannel>>, qt: map<string, map<string, QuantumChannel>>,
                     nodes: map<string, Node>, ls: seq<Link>, linkPairs: seq<LinkPair>, f: ClassicalChannel, g: ClassicalChannel)
    requires KoganeiA in ct && Otemachi in ct
    requires forall k :: 0 <= k < |ls| ==>
      !(ls[k].a == KoganeiA && ls[k].b == Otemachi) && !(ls[k].a == Otemachi && ls[k].b == KoganeiA)
    requires PrefixIn(ct, qt, nodes, ls, linkPairs)
    ensures PrefixIn(ct[KoganeiA := ct[KoganeiA][Otemachi := f]][Otemachi := ct[Otemachi][KoganeiA := g]], qt, nodes, ls, linkPairs)
  {
    forall k | 0 <= k < |linkPairs|
      ensures WiredIn(ct[KoganeiA := ct[KoganeiA][Otemachi := f]][Otemachi := ct[Otemachi][KoganeiA := g]], qt, nodes, ls[k], linkPairs[k])
    {
      ClassicalPairKeeps(ct, qt, nodes, KoganeiA, Otemachi, f, g, ls[k], linkPairs[k]);
    }
  }

  /** The reroute pair adds Otemachi to Koganei_A's classical peers and back. */
  lemma RerouteRegisters(ct: map<string, map<string, ClassicalChannel>>, qt: map<string, map<string, QuantumChannel>>,
                         ls: seq<Link>, f: ClassicalChannel, g: ClassicalChannel, x: string)
    requires KoganeiA in ct && Otemachi in ct && x in ct
    requires RegisteredIn(ct, qt, ls)
    ensures ct[KoganeiA := ct[KoganeiA][Otemachi := f]][Otemachi := ct[Otemachi][KoganeiA := g]][x].Keys
            == CPeers(x, ls) + ReroutePeers(x)
  {
  }

  /** The extra classical pair Koganei_A <-> Otemachi the builder adds after the link table. */
  const RerouteFwd: ClassicalChannel :=
    ClassicalChannel("cc_KogA_Ote_fwd", RerouteDistance, ClassicalDelay(RerouteDistance), KoganeiA, Otemachi)
  const RerouteBwd: ClassicalChannel :=
    ClassicalChannel("cc_KogA_Ote_bwd", RerouteDistance, ClassicalDelay(RerouteDistance), Otemachi, KoganeiA)

  /** Registers the reroute pair, each end under the other's name; no other registry changes. */
  method AddReroute(nodes: map<string, Node>, ghost ct: map<string, map<string, ClassicalChannel>>,
                    ghost qt: map<string, map<string, QuantumChannel>>)
    requires forall x :: x in nodes ==> nodes[x].name == x
    requires KoganeiA in nodes && Otemachi in nodes
    requires Snapshot(nodes, ct, qt)
    modifies nodes.Values`cchannels
    ensures Snapshot(nodes, ct[KoganeiA := ct[KoganeiA][Otemachi := RerouteFwd]][Otemachi := ct[Otemachi][KoganeiA := RerouteBwd]], qt)
  {
    var ka, ote := nodes[KoganeiA], nodes[Otemachi];
    ka.cchannels := ka.cchannels[Otemachi := RerouteFwd];
    ote.cchannels := ote.cchannels[KoganeiA := RerouteBwd];
    ghost var ct' := ct[KoganeiA := ct[KoganeiA][Otemachi := RerouteFwd]][Otemachi := ct[Otemachi][KoganeiA := RerouteBwd]];
    forall x | x in nodes
      ensures nodes[x].cchannels == ct'[x] && nodes[x].qchannels == qt[x]
    {
      if x != KoganeiA && x != Otemachi {
        assert nodes[x] != ka && nodes[x] != ote;
      }
    }
  }

  /** The wiring half of build_network on freshly created nodes: every link
      of the table wired in order with the scenario's attenuation, then the
      reroute pair, and nothing else registered. */
  method WireNetwork(nodes: map<string, Node>, faultType: string)
    returns (linkPairs: seq<LinkPair>, ghost ct: map<string, map<string, ClassicalChannel>>,
             ghost qt: map<string, map<string, QuantumChannel>>)
    requires nodes.Keys == set x | x in NodeNames
    requires forall x :: x in nodes ==> nodes[x].name == x && nodes[x].cchannels == map[] && nodes[x].qchannels == map[]
    modifies nodes.Values`cchannels, nodes.Values`qchannels
    ensures Snapshot(nodes, ct, qt)
    ensures |linkPairs| == |Links| && PrefixIn(ct, qt, nodes, Links, linkPairs)
    ensures Attenuated(linkPairs, Links, faultType)
    ensures Otemachi in ct[KoganeiA] && ct[KoganeiA][Otemachi] == RerouteFwd
    ensures KoganeiA in ct[Otemachi] && ct[Otemachi][KoganeiA] == RerouteBwd
    ensures forall x :: x in qt ==> qt[x].Keys == QPeers(x, Links)
    ensures forall x :: x in ct ==> ct[x].Keys == CPeers(x, Links) + ReroutePeers(x)
  {
    LinksDistinct();
    ghost var ct0;
    linkPairs, ct0, qt := WireLinks(nodes, Links, faultType);
    AddReroute(nodes, ct0, qt);
    ct := ct0[KoganeiA := ct0[KoganeiA][Otemachi := RerouteFwd]][Otemachi := ct0[Otemachi][KoganeiA := RerouteBwd]];
    RerouteKeeps(ct0, qt, nodes, Links, linkPairs, RerouteFwd, RerouteBwd);
    forall x | x in ct
      ensures ct[x].Keys == CPeers(x, Links) + ReroutePeers(x)
    {
      RerouteRegisters(ct0, qt, Links, RerouteFwd, RerouteBwd, x);
    }
  }

  /** build_network: five fresh nodes named by the node table, wired as
      WireNetwork states; ct and qt are the resulting registries. */
  method BuildNetwork(faultType: string, defaults: ComponentDefaults)
    returns (nodes: map<string, Node>, linkPairs: seq<LinkPair>,
             ghost ct: map<string, map<string, ClassicalChannel>>, ghost qt: map<string, map<string, QuantumChannel>>)
    ensures nodes.Keys == set x | x in NodeNames
    ensures forall x :: x in nodes ==> fresh(nodes[x]) && nodes[x].name == x
    ensures Snapshot(nodes, ct, qt)
    ensures |linkPairs| == |Links| && PrefixIn(ct, qt, nodes, Links, linkPairs)
    ensures Attenuated(linkPairs, Links, faultType)
    ensures Otemachi in ct[KoganeiA] && ct[KoganeiA][Otemachi] == RerouteFwd
    ensures KoganeiA in ct[Otemachi] && ct[Otemachi][KoganeiA] == RerouteBwd
    ensures forall x :: x in qt ==> qt[x].Keys == QPeers(x, Links)
    ensures forall x :: x in ct ==> ct[x].Keys == CPeers(x, Links) + ReroutePeers(x)
  {
    nodes := CreateNodes(defaults);
    linkPairs, ct, qt := WireNetwork(nodes, faultType);
  }
}
