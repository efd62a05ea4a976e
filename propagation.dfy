/** How a power change travels through the circuit (classes.js:73-99,
    473-487, 613-619), as functions of the topology and the power state.
    Each function mirrors one method of the source and calls the others in
    the same order; the two `for` loops become recursion on an index.
    `rank` orders the gates so that every wire runs downhill; it is ghost
    and exists only to make the recursion well founded. */
module Propagation {
  import opened Wrappers
  import opened Sequences
  import opened GateCatalog
  import opened CircuitModel

  /** The power state after a call, and the `onPowerChange` emissions it
      made, in order. */
  datatype Run = Run(power: Powers, emitted: seq<(WireId, bool)>)

  function Outs(t: Topology, g: GateId): seq<NodeId> {
    if g in t.gates then t.gates[g].outputNodes else []
  }

  /** `Wire.power(v)` on wire `w` of an output node of gate `g`: an
      unchanged value stops here; otherwise the wire stores it, powers its
      end node and then emits. A wire that would lead back up the rank
      order (a cycle) is not followed; `Ranked` circuits have none. */
  ghost function WireRun(t: Topology, rank: map<GateId, nat>, p: Powers, g: GateId, w: WireId, v: bool): Run
    decreases RankOf(rank, g), 0, 0
  {
    if w !in t.wires || WireOn(p, w) == v || RankOf(rank, EndGate(t, w)) >= RankOf(rank, g) then Run(p, [])
    else
      var r := InputRun(t, rank, p.(wires := p.wires[w := v]), t.wires[w].end, v);
      Run(r.power, r.emitted + [(w, v)])
  }

  /** The loop of `OutputNode.power` over the wires `ws[k..]`. */
  ghost function WiresRun(t: Topology, rank: map<GateId, nat>, p: Powers, g: GateId, ws: seq<WireId>, k: nat, v: bool): Run
    decreases RankOf(rank, g), 1, |ws| - k
  {
    if k >= |ws| then Run(p, [])
    else
      var r1 := WireRun(t, rank, p, g, ws[k], v);
      var r2 := WiresRun(t, rank, r1.power, g, ws, k + 1, v);
      Run(r2.power, r1.emitted + r2.emitted)
  }

  /** `OutputNode.power(v)` on output node `o` of gate `g`: store, then
      power every wire of its array. */
  ghost function OutRun(t: Topology, rank: map<GateId, nat>, p: Powers, g: GateId, o: NodeId, v: bool): Run
    decreases RankOf(rank, g), 2, 0
  {
    WiresRun(t, rank, p.(outs := p.outs[o := v]), g, CurrentList(t, o), 0, v)
  }

  /** The loop of `updatePower` over output nodes `i..`, each handed its
      entry of the gate's vector. */
  ghost function OutputsRun(t: Topology, rank: map<GateId, nat>, p: Powers, g: GateId, i: nat): Run
    decreases RankOf(rank, g), 3, |Outs(t, g)| - i
  {
    if i >= |Outs(t, g)| then Run(p, [])
    else
      var r1 := OutRun(t, rank, p, g, Outs(t, g)[i], Entry(GateVector(p, g), i));
      var r2 := OutputsRun(t, rank, r1.power, g, i + 1);
      Run(r2.power, r1.emitted + r2.emitted)
  }

  /** `updatePower(forced)` on gate `g`: evaluate, then power the outputs. */
  ghost function GateRun(t: Topology, rank: map<GateId, nat>, p: Powers, g: GateId, forced: seq<bool>): Run
    decreases RankOf(rank, g), 4, 0
  {
    if g !in t.gates || |t.gates[g].inputNodes| != InputArity(t.gates[g].kind) then Run(p, [])
    else
      var hp := Evaluate(t.gates[g].kind, InputPowers(t, p.ins, g), forced);
      OutputsRun(t, rank, p.(gate := p.gate[g := hp]), g, 0)
  }

  /** `InputNode.power(v)`: store, then `updatePower()` on the node's gate. */
  ghost function InputRun(t: Topology, rank: map<GateId, nat>, p: Powers, n: NodeId, v: bool): Run
    decreases RankOf(rank, GateOfIn(t, n)), 5, 0
  {
    var p1 := p.(ins := p.ins[n := v]);
    if n in t.ins then GateRun(t, rank, p1, t.ins[n].gate, [false]) else Run(p1, [])
  }

  // What a run leaves alone.

  /** Gates of rank at least `G`, output nodes of such gates from `O`, wires
      into such gates from `W` and input nodes of such gates from `I` keep
      their power. */
  ghost predicate Frame(t: Topology, p0: Powers, p1: Powers, rank: map<GateId, nat>, G: nat, O: nat, W: nat, I: nat) {
    && (forall g :: RankOf(rank, g) >= G ==> GateVector(p1, g) == GateVector(p0, g))
    && (forall o :: RankOf(rank, GateOfOut(t, o)) >= O ==> OutOn(p1, o) == OutOn(p0, o))
    && (forall w :: RankOf(rank, EndGate(t, w)) >= W ==> WireOn(p1, w) == WireOn(p0, w))
    && (forall n :: RankOf(rank, GateOfIn(t, n)) >= I ==> InOn(p1, n) == InOn(p0, n))
  }

  /** Gates driven by a click or an emitter, other than those in `E`, keep
      their vector. */
  ghost predicate KeptForced(t: Topology, p0: Powers, p1: Powers, E: set<GateId>) {
    forall g :: g in t.gates && g !in E && Forced(t.gates[g].kind) ==> GateVector(p1, g) == GateVector(p0, g)
  }

  lemma FrameTrans(t: Topology, p0: Powers, p1: Powers, p2: Powers, rank: map<GateId, nat>,
                   G1: nat, O1: nat, W1: nat, I1: nat, G2: nat, O2: nat, W2: nat, I2: nat,
                   G: nat, O: nat, W: nat, I: nat)
    requires Frame(t, p0, p1, rank, G1, O1, W1, I1) && Frame(t, p1, p2, rank, G2, O2, W2, I2)
    requires G1 <= G && G2 <= G && O1 <= O && O2 <= O && W1 <= W && W2 <= W && I1 <= I && I2 <= I
    ensures Frame(t, p0, p2, rank, G, O, W, I)
  {
  }

  lemma KeptForcedTrans(t: Topology, p0: Powers, p1: Powers, p2: Powers, E1: set<GateId>, E2: set<GateId>, E: set<GateId>)
    requires KeptForced(t, p0, p1, E1) && KeptForced(t, p1, p2, E2)
    requires forall g :: g in E1 + E2 && g !in E && g in t.gates ==> !Forced(t.gates[g].kind)
    ensures KeptForced(t, p0, p2, E)
  {
  }

  // A single store changes one object.

  lemma FrameSetWire(t: Topology, rank: map<GateId, nat>, p: Powers, w: WireId, v: bool)
    ensures Frame(t, p, p.(wires := p.wires[w := v]), rank, 0, 0, RankOf(rank, EndGate(t, w)) + 1, 0)
    ensures KeptForced(t, p, p.(wires := p.wires[w := v]), {})
  {
  }

  lemma FrameSetOut(t: Topology, rank: map<GateId, nat>, p: Powers, o: NodeId, v: bool)
    ensures Frame(t, p, p.(outs := p.outs[o := v]), rank, 0, RankOf(rank, GateOfOut(t, o)) + 1, 0, 0)
    ensures KeptForced(t, p, p.(outs := p.outs[o := v]), {})
  {
  }

  lemma FrameSetGate(t: Topology, rank: map<GateId, nat>, p: Powers, g: GateId, hp: seq<bool>)
    ensures Frame(t, p, p.(gate := p.gate[g := hp]), rank, RankOf(rank, g) + 1, 0, 0, 0)
    ensures KeptForced(t, p, p.(gate := p.gate[g := hp]), {g})
  {
  }

  lemma FrameSetIn(t: Topology, rank: map<GateId, nat>, p: Powers, n: NodeId, v: bool)
    ensures Frame(t, p, p.(ins := p.ins[n := v]), rank, 0, 0, 0, RankOf(rank, GateOfIn(t, n)) + 1)
    ensures KeptForced(t, p, p.(ins := p.ins[n := v]), {})
  {
  }

  /** A wire run stays below its gate's rank. */
  lemma {:induction false} WireRunFrame(t: Topology, rank: map<GateId, nat>, p: Powers, g: GateId, w: WireId, v: bool)
    requires GatesWellFormed(t) && NodesWellFormed(t)
    decreases RankOf(rank, g), 0, 0
    ensures var R := RankOf(rank, g);
      Frame(t, p, WireRun(t, rank, p, g, w, v).power, rank, R, R, R, R)
    ensures KeptForced(t, p, WireRun(t, rank, p, g, w, v).power, {})
  {
    var R := RankOf(rank, g);
    if !(w !in t.wires || WireOn(p, w) == v || RankOf(rank, EndGate(t, w)) >= R) {
      var p1 := p.(wires := p.wires[w := v]);
      var e := t.wires[w].end;
      var Re := RankOf(rank, GateOfIn(t, e));
      FrameSetWire(t, rank, p, w, v);
      InputRunFrame(t, rank, p1, e, v);
      FrameTrans(t, p, p1, InputRun(t, rank, p1, e, v).power, rank, 0, 0, Re + 1, 0, Re + 1, Re + 1, Re, Re + 1, R, R, R, R);
      KeptForcedTrans(t, p, p1, InputRun(t, rank, p1, e, v).power, {}, {}, {});
    }
  }

  lemma {:induction false} WiresRunFrame(t: Topology, rank: map<GateId, nat>, p: Powers, g: GateId, ws: seq<WireId>, k: nat, v: bool)
    requires GatesWellFormed(t) && NodesWellFormed(t)
    decreases RankOf(rank, g), 1, |ws| - k
    ensures var R := RankOf(rank, g);
      Frame(t, p, WiresRun(t, rank, p, g, ws, k, v).power, rank, R, R, R, R)
    ensures KeptForced(t, p, WiresRun(t, rank, p, g, ws, k, v).power, {})
  {
    var R := RankOf(rank, g);
    if k < |ws| {
      var r1 := WireRun(t, rank, p, g, ws[k], v);
      WireRunFrame(t, rank, p, g, ws[k], v);
      WiresRunFrame(t, rank, r1.power, g, ws, k + 1, v);
      FrameTrans(t, p, r1.power, WiresRun(t, rank, r1.power, g, ws, k + 1, v).power, rank, R, R, R, R, R, R, R, R, R, R, R, R);
      KeptForcedTrans(t, p, r1.power, WiresRun(t, rank, r1.power, g, ws, k + 1, v).power, {}, {}, {});
    }
  }

  /** An output-node run changes that node and what lies below its gate. */
  lemma {:induction false} OutRunFrame(t: Topology, rank: map<GateId, nat>, p: Powers, g: GateId, o: NodeId, v: bool)
    requires GatesWellFormed(t) && NodesWellFormed(t) && GateOfOut(t, o) == g
    decreases RankOf(rank, g), 2, 0
    ensures var R := RankOf(rank, g);
      Frame(t, p, OutRun(t, rank, p, g, o, v).power, rank, R, R + 1, R, R)
    ensures KeptForced(t, p, OutRun(t, rank, p, g, o, v).power, {})
  {
    var R := RankOf(rank, g);
    var p1 := p.(outs := p.outs[o := v]);
    FrameSetOut(t, rank, p, o, v);
    WiresRunFrame(t, rank, p1, g, CurrentList(t, o), 0, v);
    FrameTrans(t, p, p1, OutRun(t, rank, p, g, o, v).power, rank, 0, R + 1, 0, 0, R, R, R, R, R, R + 1, R, R);
    KeptForcedTrans(t, p, p1, OutRun(t, rank, p, g, o, v).power, {}, {}, {});
  }

  lemma {:induction false} OutputsRunFrame(t: Topology, rank: map<GateId, nat>, p: Powers, g: GateId, i: nat)
    requires GatesWellFormed(t) && NodesWellFormed(t)
    decreases RankOf(rank, g), 3, |Outs(t, g)| - i
    ensures var R := RankOf(rank, g);
      Frame(t, p, OutputsRun(t, rank, p, g, i).power, rank, R, R + 1, R, R)
    ensures KeptForced(t, p, OutputsRun(t, rank, p, g, i).power, {})
  {
    var R := RankOf(rank, g);
    if i < |Outs(t, g)| {
      var o := Outs(t, g)[i];
      assert GateWellFormed(t, g);
      var r1 := OutRun(t, rank, p, g, o, Entry(GateVector(p, g), i));
      OutRunFrame(t, rank, p, g, o, Entry(GateVector(p, g), i));
      OutputsRunFrame(t, rank, r1.power, g, i + 1);
      FrameTrans(t, p, r1.power, OutputsRun(t, rank, r1.power, g, i + 1).power, rank,
                 R, R + 1, R, R, R, R + 1, R, R, R, R + 1, R, R);
      KeptForcedTrans(t, p, r1.power, OutputsRun(t, rank, r1.power, g, i + 1).power, {}, {}, {});
    }
  }

  /** A gate run changes that gate and what lies below it. */
  lemma {:induction false} GateRunFrame(t: Topology, rank: map<GateId, nat>, p: Powers, g: GateId, forced: seq<bool>)
    requires GatesWellFormed(t) && NodesWellFormed(t)
    decreases RankOf(rank, g), 4, 0
    ensures var R := RankOf(rank, g);
      Frame(t, p, GateRun(t, rank, p, g, forced).power, rank, R + 1, R + 1, R, R)
    ensures KeptForced(t, p, GateRun(t, rank, p, g, forced).power, {g})
  {
    var R := RankOf(rank, g);
    if g in t.gates && |t.gates[g].inputNodes| == InputArity(t.gates[g].kind) {
      var hp := Evaluate(t.gates[g].kind, InputPowers(t, p.ins, g), forced);
      var p1 := p.(gate := p.gate[g := hp]);
      FrameSetGate(t, rank, p, g, hp);
      OutputsRunFrame(t, rank, p1, g, 0);
      FrameTrans(t, p, p1, OutputsRun(t, rank, p1, g, 0).power, rank,
                 R + 1, 0, 0, 0, R, R + 1, R, R, R + 1, R + 1, R, R);
      KeptForcedTrans(t, p, p1, OutputsRun(t, rank, p1, g, 0).power, {g}, {}, {g});
    }
  }

  /** An input-node run changes that node and what lies below its gate; an
      input node never belongs to a clicked or clocked gate. */
  lemma {:induction false} InputRunFrame(t: Topology, rank: map<GateId, nat>, p: Powers, n: NodeId, v: bool)
    requires GatesWellFormed(t) && NodesWellFormed(t)
    decreases RankOf(rank, GateOfIn(t, n)), 5, 0
    ensures var R := RankOf(rank, GateOfIn(t, n));
      Frame(t, p, InputRun(t, rank, p, n, v).power, rank, R + 1, R + 1, R, R + 1)
    ensures KeptForced(t, p, InputRun(t, rank, p, n, v).power, {})
  {
    var R := RankOf(rank, GateOfIn(t, n));
    var p1 := p.(ins := p.ins[n := v]);
    FrameSetIn(t, rank, p, n, v);
    if n in t.ins {
      var g := t.ins[n].gate;
      assert !Forced(t.gates[g].kind) by {
        assert GateWellFormed(t, g);
        assert |t.gates[g].inputNodes| > 0;
        ForcedKindsHaveNoInputs(t.gates[g].kind);
      }
      GateRunFrame(t, rank, p1, g, [false]);
      FrameTrans(t, p, p1, InputRun(t, rank, p, n, v).power, rank,
                 0, 0, 0, R + 1, R + 1, R + 1, R, R, R + 1, R + 1, R, R + 1);
      KeptForcedTrans(t, p, p1, InputRun(t, rank, p, n, v).power, {}, {g}, {});
    }
  }

  /** After `updatePower(forced)` the gate holds its evaluation: the outputs
      it then powers lie at or below its rank and never write its vector. */
  lemma GateRunSets(t: Topology, rank: map<GateId, nat>, p: Powers, g: GateId, forced: seq<bool>)
    requires GatesWellFormed(t) && NodesWellFormed(t) && g in t.gates
    ensures |InputPowers(t, p.ins, g)| == InputArity(t.gates[g].kind)
    ensures GateVector(GateRun(t, rank, p, g, forced).power, g)
         == Evaluate(t.gates[g].kind, InputPowers(t, p.ins, g), forced)
  {
    assert GateWellFormed(t, g);
    var hp := Evaluate(t.gates[g].kind, InputPowers(t, p.ins, g), forced);
    OutputsRunFrame(t, rank, p.(gate := p.gate[g := hp]), g, 0);
  }

  // A run brings the circuit back to the settled state.

  /** A wire that already carries its start node's power needs no update. */
  lemma ConDropWire(t: Topology, p: Powers, w: WireId, S: set<WireId>, BO: set<NodeId>)
    requires w in t.wires && WireOn(p, w) == OutOn(p, t.wires[w].start)
    requires Con(t, p, S, {}, {}, BO)
    ensures Con(t, p, S - {w}, {}, {}, BO)
  {
  }

  /** `Wire.power` with the start node's value settles the wire and all
      that lies below it. */
  lemma {:induction false} WireRunSettles(t: Topology, rank: map<GateId, nat>, p: Powers, g: GateId, w: WireId, v: bool,
                                          S: set<WireId>, BO: set<NodeId>)
    requires Valid(t) && Ranked(t, rank)
    requires w in t.wires && StartGate(t, w) == g && w in S && v == OutOn(p, t.wires[w].start)
    requires Con(t, p, S, {}, {}, BO)
    decreases RankOf(rank, g), 0, 1
    ensures Con(t, WireRun(t, rank, p, g, w, v).power, S - {w}, {}, {}, BO)
  {
    if WireOn(p, w) == v {
      ConDropWire(t, p, w, S, BO);
    } else {
      WireChangeSettles(t, rank, p, g, w, v, S, BO);
    }
  }

  // One step of each run, stated once for the methods that follow them.

  lemma WireRunUnchanged(t: Topology, rank: map<GateId, nat>, p: Powers, g: GateId, w: WireId, v: bool)
    requires WireOn(p, w) == v
    ensures WireRun(t, rank, p, g, w, v) == Run(p, [])
  {
  }

  /** A wire that changes value passes it to its end node, then emits. */
  lemma WireRunChanges(t: Topology, rank: map<GateId, nat>, p: Powers, g: GateId, w: WireId, v: bool)
    requires w in t.wires && WireOn(p, w) != v && RankOf(rank, EndGate(t, w)) < RankOf(rank, g)
    ensures var r := InputRun(t, rank, p.(wires := p.wires[w := v]), t.wires[w].end, v);
      WireRun(t, rank, p, g, w, v) == Run(r.power, r.emitted + [(w, v)])
  {
  }

  /** The same step read off an acyclic graph: the end node's gate is
      lower, so the run goes on. */
  lemma WireRunDownhill(t: Topology, rank: map<GateId, nat>, p: Powers, g: GateId, w: WireId, v: bool)
    requires Ranked(t, rank) && w in t.wires && StartGate(t, w) == g && WireOn(p, w) != v
    ensures RankOf(rank, GateOfIn(t, t.wires[w].end)) < RankOf(rank, g)
    ensures var r := InputRun(t, rank, p.(wires := p.wires[w := v]), t.wires[w].end, v);
      WireRun(t, rank, p, g, w, v) == Run(r.power, r.emitted + [(w, v)])
  {
    WireRunChanges(t, rank, p, g, w, v);
  }

  lemma WiresRunStep(t: Topology, rank: map<GateId, nat>, p: Powers, g: GateId, ws: seq<WireId>, k: nat, v: bool)
    requires k < |ws|
    ensures var r1 := WireRun(t, rank, p, g, ws[k], v);
      var r2 := WiresRun(t, rank, r1.power, g, ws, k + 1, v);
      WiresRun(t, rank, p, g, ws, k, v) == Run(r2.power, r1.emitted + r2.emitted)
  {
  }

  lemma OutputsRunStep(t: Topology, rank: map<GateId, nat>, p: Powers, g: GateId, i: nat)
    requires i < |Outs(t, g)|
    ensures var r1 := OutRun(t, rank, p, g, Outs(t, g)[i], Entry(GateVector(p, g), i));
      var r2 := OutputsRun(t, rank, r1.power, g, i + 1);
      OutputsRun(t, rank, p, g, i) == Run(r2.power, r1.emitted + r2.emitted)
  {
  }

  /** The changing case of `WireRunSettles`: store the value, then pass it
      to the end node. */
  lemma {:induction false} WireChangeSettles(t: Topology, rank: map<GateId, nat>, p: Powers, g: GateId, w: WireId, v: bool,
                                             S: set<WireId>, BO: set<NodeId>)
    requires Valid(t) && Ranked(t, rank)
    requires w in t.wires && StartGate(t, w) == g && w in S && v == OutOn(p, t.wires[w].start)
    requires Con(t, p, S, {}, {}, BO)
    decreases RankOf(rank, g), 0, 0
    requires WireOn(p, w) != v
    ensures Con(t, WireRun(t, rank, p, g, w, v).power, S - {w}, {}, {}, BO)
  {
    var e := t.wires[w].end;
    var p1 := p.(wires := p.wires[w := v]);
    WireRunChanges(t, rank, p, g, w, v);
    SetWire(t, p, w, v, S, BO);
    InputRunSettles(t, rank, p1, e, v, S - {w}, BO);
  }

  lemma {:induction false} WiresRunSettles(t: Topology, rank: map<GateId, nat>, p: Powers, g: GateId, o: NodeId,
                                           ws: seq<WireId>, k: nat, v: bool, S: set<WireId>, BO: set<NodeId>)
    requires Valid(t) && Ranked(t, rank)
    requires o in t.outs && t.outs[o].gate == g && ws == CurrentList(t, o) && OutOn(p, o) == v
    requires Con(t, p, S + WiresFrom(ws, k), {}, {}, BO)
    decreases RankOf(rank, g), 1, |ws| - k
    ensures Con(t, WiresRun(t, rank, p, g, ws, k, v).power, S, {}, {}, BO)
  {
    if k >= |ws| {
      assert WiresFrom(ws, k) == {};
    } else {
      var x := ws[k];
      assert x in CurrentList(t, o);
      WiresFromStep(ws, k);
      WireRunSettles(t, rank, p, g, x, v, S + WiresFrom(ws, k), BO);
      var r1 := WireRun(t, rank, p, g, x, v);
      ConMono(t, r1.power, (S + WiresFrom(ws, k)) - {x}, {}, {}, BO, S + WiresFrom(ws, k + 1), {}, {}, BO);
      WireRunFrame(t, rank, p, g, x, v);
      assert OutOn(r1.power, o) == v;
      WiresRunSettles(t, rank, r1.power, g, o, ws, k + 1, v, S, BO);
    }
  }

  /** `OutputNode.power` with its entry of the gate's vector settles the
      node and all that lies below it. */
  lemma {:induction false} OutRunSettles(t: Topology, rank: map<GateId, nat>, p: Powers, g: GateId, o: NodeId, v: bool,
                                         S: set<WireId>, BO: set<NodeId>)
    requires Valid(t) && Ranked(t, rank)
    requires o in t.outs && t.outs[o].gate == g && g in t.gates && o in BO && OutTarget(t, p, o, v)
    requires Con(t, p, S, {}, {}, BO)
    decreases RankOf(rank, g), 2, 0
    ensures Con(t, OutRun(t, rank, p, g, o, v).power, S, {}, {}, BO - {o})
  {
    SetOut(t, p, o, v, S, BO);
    WiresRunSettles(t, rank, p.(outs := p.outs[o := v]), g, o, CurrentList(t, o), 0, v, S, BO - {o});
  }

  lemma {:induction false} OutputsRunSettles(t: Topology, rank: map<GateId, nat>, p: Powers, g: GateId, i: nat,
                                             S: set<WireId>, BO: set<NodeId>)
    requires Valid(t) && Ranked(t, rank) && g in t.gates
    requires Con(t, p, S, {}, {}, BO + OutsFrom(t.gates[g], i))
    decreases RankOf(rank, g), 3, |Outs(t, g)| - i
    ensures Con(t, OutputsRun(t, rank, p, g, i).power, S, {}, {}, BO)
  {
    if i >= |Outs(t, g)| {
      assert OutsFrom(t.gates[g], i) == {};
      ConMono(t, p, S, {}, {}, BO + OutsFrom(t.gates[g], i), S, {}, {}, BO);
      ConSame(t, p, OutputsRun(t, rank, p, g, i).power, S, BO);
    } else {
      var o := t.gates[g].outputNodes[i];
      var v := Entry(GateVector(p, g), i);
      OutsFromStep(t.gates[g], i);
      OutTargetEntry(t, p, g, i);
      OutRunSettles(t, rank, p, g, o, v, S, BO + OutsFrom(t.gates[g], i));
      ConMono(t, OutRun(t, rank, p, g, o, v).power, S, {}, {}, (BO + OutsFrom(t.gates[g], i)) - {o},
              S, {}, {}, BO + OutsFrom(t.gates[g], i + 1));
      OutputsRunSettles(t, rank, OutRun(t, rank, p, g, o, v).power, g, i + 1, S, BO);
      OutputsRunStep(t, rank, p, g, i);
      ConSame(t, OutputsRun(t, rank, OutRun(t, rank, p, g, o, v).power, g, i + 1).power,
              OutputsRun(t, rank, p, g, i).power, S, BO);
    }
  }

  /** `updatePower` on a gate whose vector is the only thing out of date
      settles the gate and all that lies below it. */
  lemma {:induction false} GateRunSettles(t: Topology, rank: map<GateId, nat>, p: Powers, g: GateId, forced: seq<bool>,
                                          S: set<WireId>, BO: set<NodeId>)
    requires Valid(t) && Ranked(t, rank) && g in t.gates
    requires Con(t, p, S, {}, {g}, BO)
    decreases RankOf(rank, g), 4, 0
    ensures Con(t, GateRun(t, rank, p, g, forced).power, S, {}, {}, BO)
  {
    assert GateWellFormed(t, g);
    var hp := Evaluate(t.gates[g].kind, InputPowers(t, p.ins, g), forced);
    SetGate(t, p, g, forced, S, BO);
    OutputsRunSettles(t, rank, p.(gate := p.gate[g := hp]), g, 0, S, BO);
  }

  /** `InputNode.power` with its wire's value (off when unwired) settles
      the node and all that lies below it. */
  lemma {:induction false} InputRunSettles(t: Topology, rank: map<GateId, nat>, p: Powers, n: NodeId, v: bool,
                                           S: set<WireId>, BO: set<NodeId>)
    requires Valid(t) && Ranked(t, rank) && n in t.ins && InputTarget(t, p, n, v)
    requires Con(t, p, S, {n}, {}, BO)
    decreases RankOf(rank, GateOfIn(t, n)), 5, 0
    ensures Con(t, InputRun(t, rank, p, n, v).power, S, {}, {}, BO)
  {
    SetInput(t, p, n, v, S, BO);
    GateRunSettles(t, rank, p.(ins := p.ins[n := v]), t.ins[n].gate, [false], S, BO);
  }
}
