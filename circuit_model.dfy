/** The circuit graph of classes.js as values: gates with their input and
    output nodes, the wire lists of output nodes, wires, and the power held
    by each of them. Object identity is modelled by ids: a gate, node, wire
    or wire-list array is named by a number, and the mutable objects live in
    maps from ids. Signal values are booleans. */
module CircuitModel {
  import opened Wrappers
  import opened Sequences
  import opened GateCatalog

  type GateId = nat
  type NodeId = nat
  type WireId = nat
  /** Names a JavaScript array object holding wires (`OutputNode.wires`). */
  type ListId = nat

  /** A gate: its kind and its `inputNodes` and `outputNodes`. */
  datatype Gate = Gate(kind: Kind, inputNodes: seq<NodeId>, outputNodes: seq<NodeId>)
  /** An `InputNode`: its gate and its `wire` slot. */
  datatype InNode = InNode(gate: GateId, wire: Option<WireId>)
  /** An `OutputNode`: its gate and the array object its `wires` field holds. */
  datatype OutNode = OutNode(gate: GateId, wires: ListId)
  /** A connected wire: `startNode`, `endNode`, and the `index` captured by
      the removal listener when it was connected. */
  datatype Wire = Wire(start: NodeId, end: NodeId, index: nat)

  /** Who is connected to whom. The `lists` map holds every wire array ever
      made, including ones no node refers to any more. */
  datatype Topology = Topology(
    gates: map<GateId, Gate>,
    ins: map<NodeId, InNode>,
    outs: map<NodeId, OutNode>,
    lists: map<ListId, seq<WireId>>,
    wires: map<WireId, Wire>)

  /** The `hasPower` field of every gate, node and wire. */
  datatype Powers = Powers(
    gate: map<GateId, seq<bool>>,
    ins: map<NodeId, bool>,
    outs: map<NodeId, bool>,
    wires: map<WireId, bool>)

  function GateOfIn(t: Topology, n: NodeId): GateId {
    if n in t.ins then t.ins[n].gate else 0
  }

  function GateOfOut(t: Topology, o: NodeId): GateId {
    if o in t.outs then t.outs[o].gate else 0
  }

  function StartGate(t: Topology, w: WireId): GateId {
    if w in t.wires then GateOfOut(t, t.wires[w].start) else 0
  }

  function EndGate(t: Topology, w: WireId): GateId {
    if w in t.wires then GateOfIn(t, t.wires[w].end) else 0
  }

  /** The array an output node currently holds in its `wires` field. */
  function CurrentList(t: Topology, o: NodeId): seq<WireId> {
    if o in t.outs && t.outs[o].wires in t.lists then t.lists[t.outs[o].wires] else []
  }

  /** The wire is in its start node's current `wires` array, so powering
      that node reaches it. */
  predicate Listed(t: Topology, w: WireId) {
    w in t.wires && w in CurrentList(t, t.wires[w].start)
  }

  ghost predicate GateWellFormed(t: Topology, g: GateId)
    requires g in t.gates
  {
    var G := t.gates[g];
    && |G.inputNodes| == InputArity(G.kind)
    && |G.outputNodes| == OutputArity(G.kind)
    && (forall i :: 0 <= i < |G.inputNodes| ==> G.inputNodes[i] in t.ins && t.ins[G.inputNodes[i]].gate == g)
    && (forall i :: 0 <= i < |G.outputNodes| ==> G.outputNodes[i] in t.outs && t.outs[G.outputNodes[i]].gate == g)
    && Distinct(G.outputNodes)
  }

  ghost predicate GatesWellFormed(t: Topology) {
    forall g :: g in t.gates ==> GateWellFormed(t, g)
  }

  ghost predicate NodesWellFormed(t: Topology) {
    && (forall n :: n in t.ins ==> t.ins[n].gate in t.gates && n in t.gates[t.ins[n].gate].inputNodes)
    && (forall o :: o in t.outs ==> t.outs[o].gate in t.gates && t.outs[o].wires in t.lists)
    && (forall o, m :: o in t.outs && m in t.outs && o != m ==> t.outs[o].wires != t.outs[m].wires)
  }

  ghost predicate ListsWellFormed(t: Topology) {
    forall o :: o in t.outs ==>
      && Distinct(CurrentList(t, o))
      && (forall x :: x in CurrentList(t, o) ==> x in t.wires && t.wires[x].start == o)
  }

  ghost predicate WiresWellFormed(t: Topology) {
    && (forall w :: w in t.wires ==>
          t.wires[w].start in t.outs && t.wires[w].end in t.ins && t.ins[t.wires[w].end].wire == Some(w))
    && (forall n :: n in t.ins && t.ins[n].wire.Some? ==>
          t.ins[n].wire.value in t.wires && t.wires[t.ins[n].wire.value].end == n)
  }

  /** The object graph is consistent: arities match the gate table, nodes
      point back to their gates, each output node owns its own array, listed
      wires start at that node, and input slots and wire ends agree. */
  ghost predicate Valid(t: Topology) {
    && GatesWellFormed(t)
    && NodesWellFormed(t)
    && ListsWellFormed(t)
    && WiresWellFormed(t)
  }

  function RankOf(rank: map<GateId, nat>, g: GateId): nat {
    if g in rank then rank[g] else 0
  }

  /** The wires run downhill in `rank`: the circuit has no cycle. */
  ghost predicate Ranked(t: Topology, rank: map<GateId, nat>) {
    forall w :: w in t.wires ==> RankOf(rank, EndGate(t, w)) < RankOf(rank, StartGate(t, w))
  }

  /** Every live wire is listed at its start node. */
  ghost predicate AllListed(t: Topology) {
    forall w :: w in t.wires ==> Listed(t, w)
  }

  /** The `hasPower` of each node of `ns`, in order. */
  function NodePowers(ns: seq<NodeId>, ins: map<NodeId, bool>): (r: seq<bool>)
    ensures |r| == |ns|
  {
    if ns == [] then [] else [ns[0] in ins && ins[ns[0]]] + NodePowers(ns[1..], ins)
  }

  /** `inputNodes.map(node => node.hasPower)`. */
  function InputPowers(t: Topology, ins: map<NodeId, bool>, g: GateId): (r: seq<bool>)
    ensures g in t.gates ==> |r| == |t.gates[g].inputNodes|
  {
    NodePowers(if g in t.gates then t.gates[g].inputNodes else [], ins)
  }

  // Reading `hasPower`; a missing entry reads as off, as `undefined` does
  // in the source.

  function WireOn(p: Powers, w: WireId): bool { w in p.wires && p.wires[w] }
  function InOn(p: Powers, n: NodeId): bool { n in p.ins && p.ins[n] }
  function OutOn(p: Powers, o: NodeId): bool { o in p.outs && p.outs[o] }
  function GateVector(p: Powers, g: GateId): seq<bool> { if g in p.gate then p.gate[g] else [] }
  function Entry(s: seq<bool>, i: int): bool { 0 <= i < |s| && s[i] }

  // The settled state, and the ways a state can be unsettled while a
  // power change travels through the circuit.

  /** A listed wire not in `S` carries its start node's power. */
  ghost predicate WiresFollowStarts(t: Topology, p: Powers, S: set<WireId>) {
    forall w :: w in t.wires && w !in S && Listed(t, w) ==> WireOn(p, w) == OutOn(p, t.wires[w].start)
  }

  /** An input node not in `BI` holds the power of its wire. */
  ghost predicate EndsFollowWires(t: Topology, p: Powers, BI: set<NodeId>) {
    forall w :: w in t.wires && t.wires[w].end !in BI ==> InOn(p, t.wires[w].end) == WireOn(p, w)
  }

  /** An unwired input node not in `BI` is off. */
  ghost predicate UnwiredOff(t: Topology, p: Powers, BI: set<NodeId>) {
    forall n :: n in t.ins && n !in BI && t.ins[n].wire.None? ==> !InOn(p, n)
  }

  /** A gate not in `BG` whose output is computed from its inputs holds the
      evaluation of its input nodes' powers. */
  ghost predicate GatesEvaluated(t: Topology, p: Powers, BG: set<GateId>) {
    forall g :: g in t.gates && g !in BG && !Forced(t.gates[g].kind) ==>
      && |t.gates[g].inputNodes| == InputArity(t.gates[g].kind)
      && GateVector(p, g) == Evaluate(t.gates[g].kind, InputPowers(t, p.ins, g), [false])
  }

  /** An output node not in `BO` holds its entry of its gate's vector. */
  ghost predicate OutputsFollowGates(t: Topology, p: Powers, BO: set<NodeId>) {
    forall g, i :: g in t.gates && 0 <= i < |t.gates[g].outputNodes| && t.gates[g].outputNodes[i] !in BO ==>
      OutOn(p, t.gates[g].outputNodes[i]) == Entry(GateVector(p, g), i)
  }

  /** Settled except for the wires `S`, input nodes `BI`, gates `BG` and
      output nodes `BO`, which a pending call is about to bring up to date. */
  ghost predicate Con(t: Topology, p: Powers, S: set<WireId>, BI: set<NodeId>, BG: set<GateId>, BO: set<NodeId>) {
    && WiresFollowStarts(t, p, S)
    && EndsFollowWires(t, p, BI)
    && UnwiredOff(t, p, BI)
    && GatesEvaluated(t, p, BG)
    && OutputsFollowGates(t, p, BO)
  }

  /** Every value agrees with its source. */
  ghost predicate Settled(t: Topology, p: Powers) {
    Con(t, p, {}, {}, {}, {})
  }

  /** The output nodes of `G` from position `i` on. */
  function OutsFrom(G: Gate, i: nat): set<NodeId> {
    set j | i <= j < |G.outputNodes| :: G.outputNodes[j]
  }

  /** The wires of `ws` from position `k` on. */
  function WiresFrom(ws: seq<WireId>, k: nat): set<WireId> {
    set j | k <= j < |ws| :: ws[j]
  }

  lemma OutsFromStep(G: Gate, i: nat)
    requires i < |G.outputNodes|
    ensures OutsFrom(G, i) == {G.outputNodes[i]} + OutsFrom(G, i + 1)
    ensures OutsFrom(G, |G.outputNodes|) == {}
  {
  }

  lemma WiresFromStep(ws: seq<WireId>, k: nat)
    requires k < |ws|
    ensures WiresFrom(ws, k) == {ws[k]} + WiresFrom(ws, k + 1)
    ensures WiresFrom(ws, |ws|) == {}
  {
  }

  /** The value an input node is about to take agrees with its wire, or is
      off when it has none. */
  ghost predicate InputTarget(t: Topology, p: Powers, n: NodeId, v: bool)
    requires n in t.ins
  {
    && (t.ins[n].wire.Some? ==> WireOn(p, t.ins[n].wire.value) == v)
    && (t.ins[n].wire.None? ==> !v)
  }

  /** The value an output node is about to take is its entry of its gate's
      vector. */
  ghost predicate OutTarget(t: Topology, p: Powers, o: NodeId, v: bool)
    requires o in t.outs && t.outs[o].gate in t.gates
  {
    var G := t.gates[t.outs[o].gate];
    forall i :: 0 <= i < |G.outputNodes| && G.outputNodes[i] == o ==> Entry(GateVector(p, t.outs[o].gate), i) == v
  }

  /** An output node's own entry of its gate's vector is its target: the
      gate lists each output node once. */
  lemma OutTargetEntry(t: Topology, p: Powers, g: GateId, i: nat)
    requires GatesWellFormed(t) && g in t.gates && i < |t.gates[g].outputNodes|
    ensures t.gates[g].outputNodes[i] in t.outs && t.outs[t.gates[g].outputNodes[i]].gate == g
    ensures OutTarget(t, p, t.gates[g].outputNodes[i], Entry(GateVector(p, g), i))
  {
    assert GateWellFormed(t, g);
  }

  /** Fewer exceptions are still covered by more. */
  /** `Con` carried over to an equal state. */
  lemma ConSame(t: Topology, p: Powers, p': Powers, S: set<WireId>, BO: set<NodeId>)
    requires Con(t, p, S, {}, {}, BO) && p' == p
    ensures Con(t, p', S, {}, {}, BO)
  {
  }

  lemma ConMono(t: Topology, p: Powers, S: set<WireId>, BI: set<NodeId>, BG: set<GateId>, BO: set<NodeId>,
                S': set<WireId>, BI': set<NodeId>, BG': set<GateId>, BO': set<NodeId>)
    requires Con(t, p, S, BI, BG, BO)
    requires S <= S' && BI <= BI' && BG <= BG' && BO <= BO'
    ensures Con(t, p, S', BI', BG', BO')
  {
  }

  /** A gate's input vector reads only its own input nodes. */
  lemma InputPowersFrame(t: Topology, ins: map<NodeId, bool>, ins': map<NodeId, bool>, g: GateId)
    requires forall n :: g in t.gates && n in t.gates[g].inputNodes ==> (n in ins <==> n in ins') && (n in ins ==> ins[n] == ins'[n])
    ensures InputPowers(t, ins, g) == InputPowers(t, ins', g)
  {
    NodePowersFrame(if g in t.gates then t.gates[g].inputNodes else [], ins, ins');
  }

  lemma {:induction false} NodePowersFrame(ns: seq<NodeId>, ins: map<NodeId, bool>, ins': map<NodeId, bool>)
    requires forall n :: n in ns ==> (n in ins <==> n in ins') && (n in ins ==> ins[n] == ins'[n])
    ensures NodePowers(ns, ins) == NodePowers(ns, ins')
  {
    if ns != [] {
      NodePowersFrame(ns[1..], ins, ins');
    }
  }

  // Each component of `Con` reads only some of the power fields.

  lemma KeepStarts(t: Topology, p: Powers, p': Powers, S: set<WireId>)
    requires p'.wires == p.wires && p'.outs == p.outs && WiresFollowStarts(t, p, S)
    ensures WiresFollowStarts(t, p', S)
  {
  }

  lemma KeepEnds(t: Topology, p: Powers, p': Powers, BI: set<NodeId>)
    requires p'.wires == p.wires && p'.ins == p.ins
    requires EndsFollowWires(t, p, BI) && UnwiredOff(t, p, BI)
    ensures EndsFollowWires(t, p', BI) && UnwiredOff(t, p', BI)
  {
  }

  lemma KeepGates(t: Topology, p: Powers, p': Powers, BG: set<GateId>)
    requires p'.gate == p.gate && p'.ins == p.ins && GatesEvaluated(t, p, BG)
    ensures GatesEvaluated(t, p', BG)
  {
  }

  lemma KeepOuts(t: Topology, p: Powers, p': Powers, BO: set<NodeId>)
    requires p'.gate == p.gate && p'.outs == p.outs && OutputsFollowGates(t, p, BO)
    ensures OutputsFollowGates(t, p', BO)
  {
  }

  lemma SetWireStarts(t: Topology, p: Powers, w: WireId, v: bool, S: set<WireId>)
    requires w in t.wires && v == OutOn(p, t.wires[w].start) && WiresFollowStarts(t, p, S)
    ensures WiresFollowStarts(t, p.(wires := p.wires[w := v]), S - {w})
  {
  }

  lemma SetWireEnds(t: Topology, p: Powers, w: WireId, v: bool)
    requires WiresWellFormed(t) && w in t.wires
    requires EndsFollowWires(t, p, {}) && UnwiredOff(t, p, {})
    ensures var p' := p.(wires := p.wires[w := v]);
      EndsFollowWires(t, p', {t.wires[w].end}) && UnwiredOff(t, p', {t.wires[w].end})
  {
    var p' := p.(wires := p.wires[w := v]);
    forall x | x in t.wires && t.wires[x].end !in {t.wires[w].end}
      ensures InOn(p', t.wires[x].end) == WireOn(p', x)
    {
      assert x != w;
    }
  }

  lemma SetInputEnds(t: Topology, p: Powers, n: NodeId, v: bool)
    requires WiresWellFormed(t) && n in t.ins && InputTarget(t, p, n, v)
    requires EndsFollowWires(t, p, {n}) && UnwiredOff(t, p, {n})
    ensures var p' := p.(ins := p.ins[n := v]);
      EndsFollowWires(t, p', {}) && UnwiredOff(t, p', {})
  {
  }

  lemma SetInputGates(t: Topology, p: Powers, n: NodeId, v: bool)
    requires GatesWellFormed(t) && n in t.ins && GatesEvaluated(t, p, {})
    ensures GatesEvaluated(t, p.(ins := p.ins[n := v]), {t.ins[n].gate})
  {
    var p' := p.(ins := p.ins[n := v]);
    forall g | g in t.gates && g != t.ins[n].gate
      ensures InputPowers(t, p'.ins, g) == InputPowers(t, p.ins, g)
    {
      assert GateWellFormed(t, g);
      InputPowersFrame(t, p'.ins, p.ins, g);
    }
  }

  lemma SetGateGates(t: Topology, p: Powers, g: GateId, forced: seq<bool>)
    requires g in t.gates && |t.gates[g].inputNodes| == InputArity(t.gates[g].kind)
    requires GatesEvaluated(t, p, {g})
    ensures var hp := Evaluate(t.gates[g].kind, InputPowers(t, p.ins, g), forced);
      GatesEvaluated(t, p.(gate := p.gate[g := hp]), {})
  {
    var G := t.gates[g];
    if !Forced(G.kind) {
      EvaluateIgnoresForced(G.kind, InputPowers(t, p.ins, g), forced, [false]);
    }
  }

  lemma SetGateOuts(t: Topology, p: Powers, g: GateId, hp: seq<bool>, BO: set<NodeId>)
    requires g in t.gates && OutputsFollowGates(t, p, BO)
    ensures OutputsFollowGates(t, p.(gate := p.gate[g := hp]), BO + OutsFrom(t.gates[g], 0))
  {
  }

  lemma SetOutStarts(t: Topology, p: Powers, o: NodeId, v: bool, S: set<WireId>)
    requires WiresFollowStarts(t, p, S)
    ensures WiresFollowStarts(t, p.(outs := p.outs[o := v]), S + WiresFrom(CurrentList(t, o), 0))
  {
  }

  lemma SetOutOuts(t: Topology, p: Powers, o: NodeId, v: bool, BO: set<NodeId>)
    requires GatesWellFormed(t) && o in t.outs && t.outs[o].gate in t.gates
    requires OutTarget(t, p, o, v) && OutputsFollowGates(t, p, BO)
    ensures OutputsFollowGates(t, p.(outs := p.outs[o := v]), BO - {o})
  {
    var p' := p.(outs := p.outs[o := v]);
    forall g, i | g in t.gates && 0 <= i < |t.gates[g].outputNodes| && t.gates[g].outputNodes[i] !in BO - {o}
      ensures OutOn(p', t.gates[g].outputNodes[i]) == Entry(GateVector(p', g), i)
    {
      assert GateWellFormed(t, g);
    }
  }

  /** `Wire.power` stores its value: the wire is settled, its end node now
      lags behind. */
  lemma SetWire(t: Topology, p: Powers, w: WireId, v: bool, S: set<WireId>, BO: set<NodeId>)
    requires WiresWellFormed(t) && w in t.wires && w in S
    requires v == OutOn(p, t.wires[w].start)
    requires Con(t, p, S, {}, {}, BO)
    ensures Con(t, p.(wires := p.wires[w := v]), S - {w}, {t.wires[w].end}, {}, BO)
    ensures t.wires[w].end in t.ins && InputTarget(t, p.(wires := p.wires[w := v]), t.wires[w].end, v)
  {
    var p' := p.(wires := p.wires[w := v]);
    SetWireStarts(t, p, w, v, S);
    SetWireEnds(t, p, w, v);
    KeepGates(t, p, p', {});
    KeepOuts(t, p, p', BO);
  }

  /** `InputNode.power` stores its value: the node is settled, its gate now
      lags behind. */
  lemma SetInput(t: Topology, p: Powers, n: NodeId, v: bool, S: set<WireId>, BO: set<NodeId>)
    requires GatesWellFormed(t) && WiresWellFormed(t) && n in t.ins
    requires Con(t, p, S, {n}, {}, BO) && InputTarget(t, p, n, v)
    ensures Con(t, p.(ins := p.ins[n := v]), S, {}, {t.ins[n].gate}, BO)
  {
    var p' := p.(ins := p.ins[n := v]);
    KeepStarts(t, p, p', S);
    SetInputEnds(t, p, n, v);
    SetInputGates(t, p, n, v);
    KeepOuts(t, p, p', BO);
  }

  /** `updatePower` stores the gate's new vector: the gate is settled, its
      output nodes now lag behind. */
  lemma SetGate(t: Topology, p: Powers, g: GateId, forced: seq<bool>, S: set<WireId>, BO: set<NodeId>)
    requires g in t.gates && |t.gates[g].inputNodes| == InputArity(t.gates[g].kind)
    requires Con(t, p, S, {}, {g}, BO)
    ensures var hp := Evaluate(t.gates[g].kind, InputPowers(t, p.ins, g), forced);
      Con(t, p.(gate := p.gate[g := hp]), S, {}, {}, BO + OutsFrom(t.gates[g], 0))
  {
    var hp := Evaluate(t.gates[g].kind, InputPowers(t, p.ins, g), forced);
    var p' := p.(gate := p.gate[g := hp]);
    KeepStarts(t, p, p', S);
    KeepEnds(t, p, p', {});
    SetGateGates(t, p, g, forced);
    SetGateOuts(t, p, g, hp, BO);
  }

  /** `OutputNode.power` stores its value: the node is settled, the wires in
      its current array now lag behind. */
  lemma SetOut(t: Topology, p: Powers, o: NodeId, v: bool, S: set<WireId>, BO: set<NodeId>)
    requires GatesWellFormed(t) && o in t.outs && t.outs[o].gate in t.gates
    requires Con(t, p, S, {}, {}, BO) && OutTarget(t, p, o, v)
    ensures Con(t, p.(outs := p.outs[o := v]), S + WiresFrom(CurrentList(t, o), 0), {}, {}, BO - {o})
  {
    var p' := p.(outs := p.outs[o := v]);
    SetOutStarts(t, p, o, v, S);
    KeepEnds(t, p, p', {});
    KeepGates(t, p, p', {});
    SetOutOuts(t, p, o, v, BO);
  }
}
