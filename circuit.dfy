/** The live circuit of classes.js: the gate registry, the object graph and
    its power values, the clocks' emitters, and the operations that change
    them. Power changes travel as in the source, by the mutually recursive
    `Wire.power`, `InputNode.power`, `Gate.updatePower` and
    `OutputNode.power`; each method is proved to end in the state, and to
    make the `onPowerChange` emissions, that the matching function of
    `Propagation` describes. Termination rests on the circuit having no
    cycle, witnessed by a ghost rank. */
module Circuits {
  import opened Wrappers
  import opened Sequences
  import opened GateCatalog
  import opened CircuitModel
  import opened Propagation
  import opened Edits
  import opened GateRemoval

  /** Gates driven by a click or an emitter hold a one-entry vector. */
  ghost predicate ForcedOneBit(t: Topology, p: Powers) {
    forall g :: g in t.gates && Forced(t.gates[g].kind) ==> |GateVector(p, g)| == 1
  }

  /** Each running clock shows the last value its emitter sent. */
  ghost predicate EmittersShown(t: Topology, p: Powers, em: map<GateId, bool>) {
    forall g :: g in em ==> g in t.gates && Emits(t.gates[g].kind) && GateVector(p, g) == [em[g]]
  }

  /** A run that leaves the forced gates alone keeps both. */
  lemma KeptForcedShown(t: Topology, p: Powers, p': Powers, em: map<GateId, bool>)
    requires ForcedOneBit(t, p) && EmittersShown(t, p, em) && KeptForced(t, p, p', {})
    ensures ForcedOneBit(t, p') && EmittersShown(t, p', em)
  {
  }

  /** The circuit's invariant on values: the graph is well formed and
      acyclic, ids from `next` on are unused, and every value is settled,
      with the forced gates holding what was last forced on them. */
  ghost predicate Good(t: Topology, rank: map<GateId, nat>, next: nat, p: Powers, em: map<GateId, bool>) {
    && Valid(t) && Ranked(t, rank) && IdsBelow(t, next)
    && Settled(t, p)
    && ForcedOneBit(t, p)
    && EmittersShown(t, p, em)
  }

  /** One gate of a `KeptForced` frame. */
  lemma KeptForcedAt(t: Topology, p: Powers, p': Powers, E: set<GateId>, h: GateId)
    requires KeptForced(t, p, p', E) && h in t.gates && h !in E && Forced(t.gates[h].kind)
    ensures GateVector(p', h) == GateVector(p, h)
  {
  }

  /** A run of `updatePower(forced)` on `g` leaves the other forced gates
      alone, and a forced `g` ends up holding `forced`. */
  lemma GateRunForced(t: Topology, rank: map<GateId, nat>, p: Powers, g: GateId, forced: seq<bool>)
    requires GatesWellFormed(t) && NodesWellFormed(t) && g in t.gates
    ensures KeptForced(t, p, GateRun(t, rank, p, g, forced).power, {g})
    ensures Forced(t.gates[g].kind) ==> GateVector(GateRun(t, rank, p, g, forced).power, g) == forced
  {
    GateRunFrame(t, rank, p, g, forced);
    GateRunSets(t, rank, p, g, forced);
  }

  /** Such a run, with a one-entry `forced` when `g` is forced, keeps every
      forced gate at one entry. */
  lemma GateRunOneBit(t: Topology, rank: map<GateId, nat>, p: Powers, g: GateId, forced: seq<bool>)
    requires GatesWellFormed(t) && NodesWellFormed(t) && g in t.gates
    requires ForcedOneBit(t, p)
    requires Forced(t.gates[g].kind) ==> |forced| == 1
    ensures ForcedOneBit(t, GateRun(t, rank, p, g, forced).power)
  {
    GateRunForced(t, rank, p, g, forced);
  }

  /** Such a run, with the emitters' values updated to match, keeps every
      clock showing its emitter's value. */
  lemma GateRunEmitters(t: Topology, rank: map<GateId, nat>, p: Powers, g: GateId, forced: seq<bool>,
                        em: map<GateId, bool>, em': map<GateId, bool>)
    requires GatesWellFormed(t) && NodesWellFormed(t) && g in t.gates
    requires EmittersShown(t, p, em)
    requires em'.Keys == em.Keys
    requires forall h :: h in em && h != g ==> em'[h] == em[h]
    requires g in em ==> forced == [em'[g]]
    ensures EmittersShown(t, GateRun(t, rank, p, g, forced).power, em')
  {
    var p' := GateRun(t, rank, p, g, forced).power;
    GateRunForced(t, rank, p, g, forced);
    forall h | h in em' ensures h in t.gates && Emits(t.gates[h].kind) && GateVector(p', h) == [em'[h]] {
      assert h in em.Keys;
      assert h in t.gates && Emits(t.gates[h].kind) && GateVector(p, h) == [em[h]];
      if h != g {
        KeptForcedAt(t, p, p', {g}, h);
      }
    }
  }

  /** Both together. */
  lemma GateRunShown(t: Topology, rank: map<GateId, nat>, p: Powers, g: GateId, forced: seq<bool>,
                     em: map<GateId, bool>, em': map<GateId, bool>)
    requires GatesWellFormed(t) && NodesWellFormed(t) && g in t.gates
    requires ForcedOneBit(t, p) && EmittersShown(t, p, em)
    requires Forced(t.gates[g].kind) ==> |forced| == 1
    requires em'.Keys == em.Keys
    requires forall h :: h in em && h != g ==> em'[h] == em[h]
    requires g in em ==> forced == [em'[g]]
    ensures ForcedOneBit(t, GateRun(t, rank, p, g, forced).power)
    ensures EmittersShown(t, GateRun(t, rank, p, g, forced).power, em')
  {
    GateRunOneBit(t, rank, p, g, forced);
    GateRunEmitters(t, rank, p, g, forced, em, em');
  }

  /** Every gate in the registry is in the graph. */
  ghost predicate Registered(gates: seq<GateId>, t: Topology) {
    forall g :: g in gates ==> g in t.gates
  }

  // What each operation keeps, on values.

  lemma NewGateShown(t: Topology, p: Powers, em: map<GateId, bool>, k: Kind, base: nat)
    requires ForcedOneBit(t, p) && EmittersShown(t, p, em) && IdsBelow(t, base)
    ensures var em' := if Emits(k) then em[base := false] else em;
      ForcedOneBit(NewGate(t, k, base), NewPowers(p, k, base))
      && EmittersShown(NewGate(t, k, base), NewPowers(p, k, base), em')
  {
    NewGateShape(t, k, base);
  }

  /** Adding a gate keeps the invariant; a new input or clock is off. The
      primed parameters are the state after. */
  lemma AddGateKeeps(t: Topology, rank: map<GateId, nat>, next: nat, p: Powers, em: map<GateId, bool>,
                     gs: seq<GateId>, k: Kind,
                     t': Topology, rank': map<GateId, nat>, next': nat, p': Powers, em': map<GateId, bool>,
                     gs': seq<GateId>)
    requires Good(t, rank, next, p, em) && Registered(gs, t)
    requires t' == NewGate(t, k, next) && rank' == rank && next' == NextId(k, next)
    requires em' == (if Emits(k) then em[next := false] else em) && gs' == gs + [next]
    requires p' == GateRun(t', rank, NewPowers(p, k, next), next, [false]).power
    ensures Good(t', rank', next', p', em') && Registered(gs', t')
    ensures Forced(k) ==> GateVector(p', next) == [false]
  {
    var p0 := NewPowers(p, k, next);
    NewGateValid(t, rank, k, next);
    NewGateCon(t, p, k, next);
    NewGateShape(t, k, next);
    NewGateShown(t, p, em, k, next);
    GateRunShown(t', rank, p0, next, [false], em', em');
    GateRunSets(t', rank, p0, next, [false]);
    GateRunSettles(t', rank, p0, next, [false], {}, {});
  }

  /** What the update of a new gate needs. */
  lemma NewGateReady(t: Topology, rank: map<GateId, nat>, next: nat, k: Kind, t': Topology)
    requires Valid(t) && Ranked(t, rank) && IdsBelow(t, next) && t' == NewGate(t, k, next)
    ensures Valid(t') && Ranked(t', rank) && next in t'.gates
  {
    NewGateValid(t, rank, k, next);
    NewGateShape(t, k, next);
  }

  /** `updatePower(forced)` on a gate of a settled circuit keeps the
      invariant when `forced` has one entry and matches the emitters. */
  lemma GateRunKeeps(t: Topology, rank: map<GateId, nat>, next: nat, p: Powers,
                     em: map<GateId, bool>, em': map<GateId, bool>, g: GateId, forced: seq<bool>)
    requires Good(t, rank, next, p, em) && g in t.gates
    requires Forced(t.gates[g].kind) ==> |forced| == 1
    requires em'.Keys == em.Keys
    requires forall h :: h in em && h != g ==> em'[h] == em[h]
    requires g in em ==> forced == [em'[g]]
    ensures Good(t, rank, next, GateRun(t, rank, p, g, forced).power, em')
    ensures Forced(t.gates[g].kind) ==> GateVector(GateRun(t, rank, p, g, forced).power, g) == forced
  {
    GateRunShown(t, rank, p, g, forced, em, em');
    GateRunSets(t, rank, p, g, forced);
    ConMono(t, p, {}, {}, {}, {}, {}, {}, {g}, {});
    GateRunSettles(t, rank, p, g, forced, {}, {});
  }

  /** `updatePower(forced)` with a one-entry `forced` on a switchable gate
      keeps the invariant and leaves the gate holding `forced`. */
  lemma ForceKeeps(t: Topology, rank: map<GateId, nat>, next: nat, p: Powers, em: map<GateId, bool>,
                   gs: seq<GateId>, g: GateId, forced: seq<bool>,
                   t': Topology, rank': map<GateId, nat>, next': nat, p': Powers, em': map<GateId, bool>,
                   gs': seq<GateId>)
    requires Good(t, rank, next, p, em) && Registered(gs, t) && g in t.gates && Switchable(t.gates[g].kind)
    requires |forced| == 1
    requires t' == t && rank' == rank && next' == next && em' == em && gs' == gs
    requires p' == GateRun(t, rank, p, g, forced).power
    ensures Good(t', rank', next', p', em') && Registered(gs', t') && GateVector(p', g) == forced
  {
    InputRunKeeps(t, rank, next, p, em, g, forced);
  }

  /** The same on values alone: forcing a one-entry vector on a switchable
      gate keeps the invariant, with the same emitters. */
  lemma InputRunKeeps(t: Topology, rank: map<GateId, nat>, next: nat, p: Powers, em: map<GateId, bool>,
                      g: GateId, forced: seq<bool>)
    requires Good(t, rank, next, p, em) && g in t.gates && Switchable(t.gates[g].kind) && |forced| == 1
    ensures Good(t, rank, next, GateRun(t, rank, p, g, forced).power, em)
    ensures GateVector(GateRun(t, rank, p, g, forced).power, g) == forced
  {
    assert g !in em;
    GateRunKeeps(t, rank, next, p, em, em, g, forced);
  }

  /** A switchable gate of a circuit holds one entry. */
  lemma SwitchableOneBit(t: Topology, p: Powers, g: GateId)
    requires ForcedOneBit(t, p) && g in t.gates && Switchable(t.gates[g].kind)
    ensures |GateVector(p, g)| == 1
  {
  }

  /** A switchable gate holds one entry, so a click's `[sum === 0]` is its
      negation. */
  lemma ToggleFlips(t: Topology, p: Powers, g: GateId)
    requires ForcedOneBit(t, p) && g in t.gates && Switchable(t.gates[g].kind)
    ensures |GateVector(p, g)| == 1
    ensures [CountOn(GateVector(p, g)) == 0] == [!GateVector(p, g)[0]]
  {
    SwitchableOneBit(t, p, g);
    var hp := GateVector(p, g);
    assert hp == [hp[0]];
    assert CountOn(hp) == (if hp[0] then 1 else 0) + CountOn(hp[1..]);
  }

  /** A tick flips the clock's emitter value, shows it on the clock, and
      keeps the invariant. */
  lemma TickKeeps(t: Topology, rank: map<GateId, nat>, next: nat, p: Powers, em: map<GateId, bool>,
                  gs: seq<GateId>, g: GateId,
                  t': Topology, rank': map<GateId, nat>, next': nat, p': Powers, em': map<GateId, bool>,
                  gs': seq<GateId>)
    requires Good(t, rank, next, p, em) && Registered(gs, t) && g in em
    requires t' == t && rank' == rank && next' == next && gs' == gs
    requires em' == em[g := !em[g]] && p' == GateRun(t, rank, p, g, [em'[g]]).power
    ensures g in t.gates && |GateVector(p, g)| == 1
    ensures Good(t', rank', next', p', em') && Registered(gs', t') && GateVector(p', g) == [!GateVector(p, g)[0]]
  {
    FlipKeeps(em, em', g);
    GateRunKeeps(t, rank, next, p, em, em', g, [em'[g]]);
  }

  /** Flipping one emitter's value keeps the others. */
  lemma FlipKeeps(em: map<GateId, bool>, em': map<GateId, bool>, g: GateId)
    requires g in em && em' == em[g := !em[g]]
    ensures em'.Keys == em.Keys
    ensures forall h :: h in em && h != g ==> em'[h] == em[h]
  {
  }

  /** What the start node's array keeps before the filter: as written, the
      array spliced at the index the wire recorded when it was connected;
      as evidently intended, all of it. */
  function Kept(t: Topology, w: WireId, fixed: bool): seq<WireId>
    requires w in t.wires
  {
    if fixed then CurrentList(t, t.wires[w].start) else SplicedList(t, w)
  }

  lemma KeptKeepable(t: Topology, w: WireId, fixed: bool)
    requires Valid(t) && w in t.wires
    ensures t.wires[w].start in t.outs && Keepable(t, w, Kept(t, w, fixed))
  {
    if fixed {
      CurrentKeepable(t, w);
    } else {
      SplicedKeepable(t, w);
    }
  }

  /** A wire of a valid graph joins two of its nodes. */
  lemma WireEnds(t: Topology, w: WireId)
    requires Valid(t) && w in t.wires
    ensures t.wires[w].start in t.outs && t.wires[w].end in t.ins
  {
  }

  /** What a removal needs before the power change starts. */
  lemma DetachReady(t: Topology, rank: map<GateId, nat>, w: WireId, next: nat, fixed: bool, t': Topology)
    requires Valid(t) && Ranked(t, rank) && IdsBelow(t, next) && w in t.wires
    requires t' == Detach(t, w, next, Kept(t, w, fixed))
    ensures Valid(t') && Ranked(t', rank)
  {
    KeptKeepable(t, w, fixed);
    DetachValid(t, rank, w, next, Kept(t, w, fixed));
  }

  /** Removing a wire, keeping `Kept` in its array, then powering its end
      node off, keeps the invariant and leaves that node off. */
  lemma DetachKeeps(t: Topology, rank: map<GateId, nat>, next: nat, p: Powers, em: map<GateId, bool>,
                    gs: seq<GateId>, w: WireId, fixed: bool,
                    t': Topology, rank': map<GateId, nat>, next': nat, p': Powers, em': map<GateId, bool>,
                    gs': seq<GateId>)
    requires Good(t, rank, next, p, em) && Registered(gs, t) && w in t.wires
    requires t' == Detach(t, w, next, Kept(t, w, fixed)) && rank' == rank && next' == next + 1
    requires em' == em && gs' == gs
    requires p' == InputRun(t', rank, p, t.wires[w].end, false).power
    ensures Good(t', rank', next', p', em') && Registered(gs', t') && t'.gates == t.gates
    ensures !InOn(p', t.wires[w].end)
  {
    var e := t.wires[w].end;
    var kept := Kept(t, w, fixed);
    KeptKeepable(t, w, fixed);
    DetachValid(t, rank, w, next, kept);
    DetachCon(t, p, w, next, kept);
    DetachTarget(t, p, w, next, kept);
    DetachIdsBelow(t, w, next, kept, next);
    DetachRemoves(t, w, next, kept);
    InputRunFrame(t', rank, p, e, false);
    KeptForcedShown(t', p, p', em);
    InputRunSettles(t', rank, p, e, false, {}, {});
  }

  /** The two `endNode.power` calls of an accepted connection: with the
      wire's value, then again with the node's own value. */
  ghost function ConnectRun(t: Topology, rank: map<GateId, nat>, p: Powers, n: NodeId, v: bool): Run {
    var r1 := InputRun(t, rank, p, n, v);
    var r2 := InputRun(t, rank, r1.power, n, InOn(r1.power, n));
    Run(r2.power, r1.emitted + r2.emitted)
  }

  /** After a connection's two runs the circuit is settled again, no
      clicked or clocked gate has changed, and the input node holds the
      output node's power. */
  lemma ConnectSettles(t: Topology, rank: map<GateId, nat>, p: Powers, o: NodeId, n: NodeId, w: WireId, t': Topology)
    requires NodesWellFormed(t) && WiresWellFormed(t) && Settled(t, p) && Attachable(t, o, n, w)
    requires t' == Attach(t, o, n, w) && Valid(t') && Ranked(t', rank)
    ensures var p' := ConnectRun(t', rank, p.(wires := p.wires[w := OutOn(p, o)]), n, OutOn(p, o)).power;
      Settled(t', p') && KeptForced(t', p, p', {}) && InOn(p', n) == OutOn(p, o)
  {
    var p1 := p.(wires := p.wires[w := OutOn(p, o)]);
    var r1 := InputRun(t', rank, p1, n, OutOn(p, o));
    var r2 := InputRun(t', rank, r1.power, n, InOn(r1.power, n));
    AttachCon(t, p, o, n, w);
    AttachAdds(t, o, n, w);
    InputRunSettles(t', rank, p1, n, OutOn(p, o), {}, {});
    ConMono(t', r1.power, {}, {}, {}, {}, {}, {n}, {}, {});
    assert t'.wires[w].end == n;
    InputRunSettles(t', rank, r1.power, n, InOn(r1.power, n), {}, {});
    FrameSetWire(t', rank, p, w, OutOn(p, o));
    InputRunFrame(t', rank, p1, n, OutOn(p, o));
    InputRunFrame(t', rank, r1.power, n, InOn(r1.power, n));
    KeptForcedTrans(t', p, p1, r1.power, {}, {}, {});
    KeptForcedTrans(t', p, r1.power, r2.power, {}, {}, {});
    assert Listed(t', w);
    assert RankOf(rank, GateOfIn(t', n)) < RankOf(rank, GateOfOut(t', o)) by {
      assert EndGate(t', w) == GateOfIn(t', n) && StartGate(t', w) == GateOfOut(t', o);
    }
    assert OutOn(r2.power, o) == OutOn(p, o);
  }

  /** An accepted connection of output node `o` to the free input node `n`
      keeps the invariant under any rank order that puts `n`'s gate below
      `o`'s, and leaves `n` with `o`'s power. */
  lemma ConnectKeeps(t: Topology, rank: map<GateId, nat>, next: nat, p: Powers, em: map<GateId, bool>,
                     gs: seq<GateId>, o: NodeId, n: NodeId,
                     t': Topology, rank': map<GateId, nat>, next': nat, p': Powers, em': map<GateId, bool>,
                     gs': seq<GateId>)
    requires Good(t, rank, next, p, em) && Registered(gs, t)
    requires o in t.outs && n in t.ins && t.ins[n].wire.None?
    requires Ranked(t, rank') && RankOf(rank', GateOfIn(t, n)) < RankOf(rank', GateOfOut(t, o))
    requires t' == Attach(t, o, n, next) && next' == next + 1 && em' == em && gs' == gs
    requires p' == ConnectRun(t', rank', p.(wires := p.wires[next := OutOn(p, o)]), n, OutOn(p, o)).power
    ensures Good(t', rank', next', p', em') && Registered(gs', t')
    ensures InOn(p', n) == OutOn(p, o)
  {
    assert Attachable(t, o, n, next);
    AttachValid(t, rank', o, n, next);
    AttachIdsBelow(t, o, n, next, next);
    ConnectSettles(t, rank', p, o, n, next, t');
    KeptForcedShown(t', p, p', em);
  }

  /** One end of a drag: an input node or an output node. */
  datatype Port = InPort(node: NodeId) | OutPort(node: NodeId)

  /** Why a connection is refused. */
  datatype ConnectError = SameKind | InputTaken

  function InputEnd(a: Port, b: Port): NodeId { if a.InPort? then a.node else b.node }
  function OutputEnd(a: Port, b: Port): NodeId { if a.OutPort? then a.node else b.node }

  predicate PortIn(t: Topology, a: Port) {
    if a.InPort? then a.node in t.ins else a.node in t.outs
  }

  class Circuit {
    /** The global `gates` array. */
    var gates: seq<GateId>
    var topo: Topology
    var power: Powers
    /** Each running clock emitter and the `value` it last sent. */
    var emitters: map<GateId, bool>
    /** The `onPowerChange.emit(hasPower)` calls made so far, in order. */
    var transitions: seq<(WireId, bool)>
    /** The next unused id (the source draws UUIDs and allocates objects). */
    var next: nat
    /** A witness that the circuit has no cycle. */
    ghost var rank: map<GateId, nat>

    /** The graph is well formed, acyclic and settled, ids from `next` on
        are unused, the forced gates hold what was last forced on them, and
        the registry holds gates of the graph. */
    ghost predicate Inv()
      reads this`topo, this`rank, this`next, this`gates, this`emitters, this`power
    {
      Good(topo, rank, next, power, emitters) && Registered(gates, topo)
    }

    /** An empty circuit. */
    constructor ()
      ensures Inv() && gates == [] && transitions == [] && topo.gates == map[]
    {
      gates := [];
      topo := Topology(map[], map[], map[], map[], map[]);
      power := Powers(map[], map[], map[], map[]);
      emitters := map[];
      transitions := [];
      next := 0;
      rank := map[];
    }

    // The propagation methods. The graph does not change while a power
    // change travels, so each method is handed the graph `t` (always the
    // circuit's own `topo`) and its ghost rank `rk`.

    /** `Wire.power(v)` on wire `w`, which leaves an output node of gate `g`. */
    method PowerWire(t: Topology, ghost rk: map<GateId, nat>, w: WireId, v: bool, ghost g: GateId)
      requires Valid(t) && Ranked(t, rk) && w in t.wires && StartGate(t, w) == g
      modifies this`power, this`transitions
      decreases RankOf(rk, g), 0, 2
      ensures power == WireRun(t, rk, old(power), g, w, v).power
      ensures transitions == old(transitions) + WireRun(t, rk, old(power), g, w, v).emitted
    {
      if WireOn(power, w) == v {
        WireRunUnchanged(t, rk, power, g, w, v);
        AppendEmpty(transitions);
        return;
      }
      ChangeWire(t, rk, w, v, g);
    }

    /** The changing case of `Wire.power`: store `v`, emit, and pass it on
        to the end node. */
    method ChangeWire(t: Topology, ghost rk: map<GateId, nat>, w: WireId, v: bool, ghost g: GateId)
      requires Valid(t) && Ranked(t, rk) && w in t.wires && StartGate(t, w) == g && WireOn(power, w) != v
      modifies this`power, this`transitions
      decreases RankOf(rk, g), 0, 1
      ensures power == WireRun(t, rk, old(power), g, w, v).power
      ensures transitions == old(transitions) + WireRun(t, rk, old(power), g, w, v).emitted
    {
      WireRunDownhill(t, rk, power, g, w, v);
      ghost var t0 := transitions;
      power := power.(wires := power.wires[w := v]);
      ghost var r := InputRun(t, rk, power, t.wires[w].end, v);
      InputPower(t, rk, t.wires[w].end, v);
      transitions := transitions + [(w, v)];
      AppendAssoc(t0, r.emitted, [(w, v)]);
    }

    /** `InputNode.power(v)`: store, then `updatePower()` on the node's gate. */
    method InputPower(t: Topology, ghost rk: map<GateId, nat>, n: NodeId, v: bool)
      requires Valid(t) && Ranked(t, rk)
      modifies this`power, this`transitions
      decreases RankOf(rk, GateOfIn(t, n)), 5, 0
      ensures power == InputRun(t, rk, old(power), n, v).power
      ensures transitions == old(transitions) + InputRun(t, rk, old(power), n, v).emitted
    {
      power := power.(ins := power.ins[n := v]);
      if n in t.ins {
        UpdatePower(t, rk, t.ins[n].gate, [false]);
      }
    }

    /** `updatePower(forced)`: evaluate the gate (only the input and clock
        kinds look at `forced`), then power output node `i` with entry `i`
        of the new vector, for every `i` below the output arity. */
    method UpdatePower(t: Topology, ghost rk: map<GateId, nat>, g: GateId, forced: seq<bool>)
      requires Valid(t) && Ranked(t, rk) && g in t.gates
      modifies this`power, this`transitions
      decreases RankOf(rk, g), 4, 0
      ensures power == GateRun(t, rk, old(power), g, forced).power
      ensures transitions == old(transitions) + GateRun(t, rk, old(power), g, forced).emitted
    {
      var G := t.gates[g];
      assert GateWellFormed(t, g);
      var hp := Evaluate(G.kind, InputPowers(t, power.ins, g), forced);
      power := power.(gate := power.gate[g := hp]);
      ghost var full := OutputsRun(t, rk, power, g, 0);
      ghost var t0 := transitions;
      for i := 0 to OutputArity(G.kind)
        invariant GateVector(power, g) == hp
        invariant OutputsRun(t, rk, power, g, i).power == full.power
        invariant transitions + OutputsRun(t, rk, power, g, i).emitted == t0 + full.emitted
      {
        ghost var before := power;
        ghost var tb := transitions;
        OutputsRunStep(t, rk, before, g, i);
        OutputPower(t, rk, G.outputNodes[i], Entry(hp, i), g);
        OutRunFrame(t, rk, before, g, G.outputNodes[i], Entry(hp, i));
        AppendAssoc(tb, OutRun(t, rk, before, g, G.outputNodes[i], Entry(hp, i)).emitted,
                    OutputsRun(t, rk, power, g, i + 1).emitted);
      }
      AppendEmpty(transitions);
    }

    /** `OutputNode.power(v)` on output node `o` of gate `g`: store, then
        `wire.power(v)` for each wire of the node's current array, in order. */
    method OutputPower(t: Topology, ghost rk: map<GateId, nat>, o: NodeId, v: bool, ghost g: GateId)
      requires Valid(t) && Ranked(t, rk) && GateOfOut(t, o) == g
      modifies this`power, this`transitions
      decreases RankOf(rk, g), 2, 0
      ensures power == OutRun(t, rk, old(power), g, o, v).power
      ensures transitions == old(transitions) + OutRun(t, rk, old(power), g, o, v).emitted
    {
      power := power.(outs := power.outs[o := v]);
      var ws := CurrentList(t, o);
      ghost var full := WiresRun(t, rk, power, g, ws, 0, v);
      ghost var t0 := transitions;
      for k := 0 to |ws|
        invariant WiresRun(t, rk, power, g, ws, k, v).power == full.power
        invariant transitions + WiresRun(t, rk, power, g, ws, k, v).emitted == t0 + full.emitted
      {
        ghost var before := power;
        ghost var tb := transitions;
        assert ws[k] in CurrentList(t, o);
        WiresRunStep(t, rk, before, g, ws, k, v);
        PowerWire(t, rk, ws[k], v, g);
        AppendAssoc(tb, WireRun(t, rk, before, g, ws[k], v).emitted, WiresRun(t, rk, power, g, ws, k + 1, v).emitted);
      }
      AppendEmpty(transitions);
    }

    // The operations.

    /** `new Gate(kind)`: a new gate with fresh nodes; a clock gets a running
        emitter whose value starts off; the constructor's `updatePower()`
        evaluates it with the default `[false]`; then the gate is pushed on
        the registry. */
    method AddGate(k: Kind) returns (g: GateId)
      requires Inv()
      modifies this`gates, this`topo, this`power, this`emitters, this`transitions, this`next
      ensures Inv()
      ensures g == old(next) && g !in old(topo.gates) && gates == old(gates) + [g]
      ensures topo == NewGate(old(topo), k, g) && next == NextId(k, g)
      ensures emitters == if Emits(k) then old(emitters)[g := false] else old(emitters)
      ensures power == GateRun(topo, rank, NewPowers(old(power), k, g), g, [false]).power
      ensures transitions == old(transitions) + GateRun(topo, rank, NewPowers(old(power), k, g), g, [false]).emitted
      ensures Forced(k) ==> GateVector(power, g) == [false]
    {
      g := next;
      var t := NewGate(topo, k, g);
      NewGateReady(topo, rank, g, k, t);
      Construct(t, rank, k, g);
      gates := gates + [g];
      AddGateKeeps(old(topo), old(rank), old(next), old(power), old(emitters), old(gates), k,
                   topo, rank, next, power, emitters, gates);
    }

    /** The constructor of gate `g`, whose graph is `t`: the update, then
        the graph, the id counter and a clock's emitter, whose value starts
        off. The update reads only `t`, so storing these after it changes
        nothing. */
    method Construct(t: Topology, ghost rk: map<GateId, nat>, k: Kind, g: GateId)
      requires Valid(t) && Ranked(t, rk) && g in t.gates
      modifies this`topo, this`power, this`emitters, this`transitions, this`next
      ensures topo == t && next == NextId(k, g)
      ensures unchanged(this`rank, this`gates)
      ensures emitters == if Emits(k) then old(emitters)[g := false] else old(emitters)
      ensures power == GateRun(t, rk, NewPowers(old(power), k, g), g, [false]).power
      ensures transitions == old(transitions) + GateRun(t, rk, NewPowers(old(power), k, g), g, [false]).emitted
    {
      Install(t, rk, k, g);
      topo := t;
      next := NextId(k, g);
      if Emits(k) {
        emitters := emitters[g := false];
      }
    }

    /** The constructor's update for gate `g` of the graph `t`: the gate's
        starting vector, then `updatePower()` with the default `[false]`. */
    method Install(t: Topology, ghost rk: map<GateId, nat>, k: Kind, g: GateId)
      requires Valid(t) && Ranked(t, rk) && g in t.gates
      modifies this`power, this`transitions
      ensures unchanged(this`rank, this`gates, this`topo, this`next, this`emitters)
      ensures power == GateRun(t, rk, NewPowers(old(power), k, g), g, [false]).power
      ensures transitions == old(transitions) + GateRun(t, rk, NewPowers(old(power), k, g), g, [false]).emitted
    {
      power := NewPowers(power, k, g);
      UpdatePower(t, rk, g, [false]);
    }

    /** `updatePower(forced)` on a switchable gate, as a click and the
        solution check do it: the gate ends up holding `forced`. */
    method ForceInput(g: GateId, forced: seq<bool>)
      requires Inv() && g in topo.gates && Switchable(topo.gates[g].kind) && |forced| == 1
      modifies this`power, this`transitions
      ensures Inv()
      ensures power == GateRun(topo, rank, old(power), g, forced).power
      ensures transitions == old(transitions) + GateRun(topo, rank, old(power), g, forced).emitted
      ensures GateVector(power, g) == forced
    {
      UpdatePower(topo, rank, g, forced);
      ForceKeeps(old(topo), old(rank), old(next), old(power), old(emitters), old(gates), g, forced,
                 topo, rank, next, power, emitters, gates);
    }

    /** A click on a switchable gate: `updatePower([sum === 0])`, which
        flips its one entry. */
    method Toggle(g: GateId)
      requires Inv() && g in gates && Switchable(topo.gates[g].kind)
      modifies this`power, this`transitions
      ensures Inv()
      ensures power == GateRun(topo, rank, old(power), g, [CountOn(GateVector(old(power), g)) == 0]).power
      ensures transitions == old(transitions) + GateRun(topo, rank, old(power), g, [CountOn(GateVector(old(power), g)) == 0]).emitted
      ensures GateVector(power, g) == [!GateVector(old(power), g)[0]]
    {
      ToggleFlips(topo, power, g);
      ForceInput(g, [CountOn(GateVector(power, g)) == 0]);
    }

    /** A clock tick: the emitter negates its value and calls
        `updatePower([value])`, which flips the clock's one entry. */
    method Tick(g: GateId)
      requires Inv() && g in emitters
      modifies this`power, this`transitions, this`emitters
      ensures Inv()
      ensures emitters == old(emitters)[g := !old(emitters)[g]]
      ensures power == GateRun(topo, rank, old(power), g, [emitters[g]]).power
      ensures transitions == old(transitions) + GateRun(topo, rank, old(power), g, [emitters[g]]).emitted
      ensures GateVector(power, g) == [!GateVector(old(power), g)[0]]
    {
      var value := !emitters[g];
      UpdatePower(topo, rank, g, [value]);
      emitters := emitters[g := value];
      TickKeeps(old(topo), old(rank), old(next), old(power), old(emitters), old(gates), g,
                topo, rank, next, power, emitters, gates);
    }

    /** `Wire.remove` as written: the listener registered at connect time
        splices the start node's current array at the index it recorded
        then, the end node is powered off and freed, and the start node is
        given a filtered copy. */
    method RemoveWire(w: WireId)
      requires Inv() && w in topo.wires
      modifies this`topo, this`power, this`transitions, this`next
      ensures Inv()
      ensures topo == Detach(old(topo), w, old(next), SplicedList(old(topo), w)) && next == old(next) + 1
      ensures power == InputRun(topo, rank, old(power), old(topo).wires[w].end, false).power
      ensures transitions == old(transitions) + InputRun(topo, rank, old(power), old(topo).wires[w].end, false).emitted
      ensures !InOn(power, old(topo).wires[w].end)
    {
      Detached(w, false);
    }

    /** `Wire.remove` as evidently intended: the start node keeps every
        other wire (only the filter acts). */
    method RemoveWireFixed(w: WireId)
      requires Inv() && w in topo.wires
      modifies this`topo, this`power, this`transitions, this`next
      ensures Inv()
      ensures topo == Detach(old(topo), w, old(next), CurrentList(old(topo), old(topo).wires[w].start))
      ensures next == old(next) + 1
      ensures power == InputRun(topo, rank, old(power), old(topo).wires[w].end, false).power
      ensures transitions == old(transitions) + InputRun(topo, rank, old(power), old(topo).wires[w].end, false).emitted
      ensures !InOn(power, old(topo).wires[w].end)
      ensures AllListed(old(topo)) ==> AllListed(topo)
    {
      if AllListed(topo) {
        WireEnds(topo, w);
        DetachKeepsListed(topo, w, next);
      }
      Detached(w, true);
    }

    /** The common part of both removals: detach `w`, keeping `Kept` in
        the array it was listed in, then power its end node off. */
    method Detached(w: WireId, fixed: bool)
      requires Inv() && w in topo.wires
      modifies this`topo, this`power, this`transitions, this`next
      ensures Inv()
      ensures topo == Detach(old(topo), w, old(next), Kept(old(topo), w, fixed)) && next == old(next) + 1
      ensures power == InputRun(topo, rank, old(power), old(topo).wires[w].end, false).power
      ensures transitions == old(transitions) + InputRun(topo, rank, old(power), old(topo).wires[w].end, false).emitted
      ensures !InOn(power, old(topo).wires[w].end)
    {
      ghost var t := DetachStep(w, fixed);
      DetachKeeps(old(topo), old(rank), old(next), old(power), old(emitters), old(gates), w, fixed,
                  topo, rank, next, power, emitters, gates);
    }

    /** The state change of a removal, with the new graph `t'` handed back. */
    method DetachStep(w: WireId, fixed: bool) returns (ghost t': Topology)
      requires Valid(topo) && Ranked(topo, rank) && IdsBelow(topo, next) && w in topo.wires
      modifies this`topo, this`power, this`transitions, this`next
      ensures t' == Detach(old(topo), w, old(next), Kept(old(topo), w, fixed))
      ensures topo == t' && next == old(next) + 1
      ensures unchanged(this`rank, this`emitters, this`gates)
      ensures power == InputRun(t', old(rank), old(power), old(topo).wires[w].end, false).power
      ensures transitions == old(transitions) + InputRun(t', old(rank), old(power), old(topo).wires[w].end, false).emitted
    {
      WireEnds(topo, w);
      var t := Detach(topo, w, next, Kept(topo, w, fixed));
      DetachReady(topo, rank, w, next, fixed, t);
      Commit(t, rank, topo.wires[w].end);
      t' := t;
    }

    /** Store the new graph `t`, use up the id `next` (the id of the new
        array), and power input node `e` off. The graph is stored before the
        power change, which reads only `t`. */
    method Commit(t: Topology, ghost rk: map<GateId, nat>, e: NodeId)
      requires Valid(t) && Ranked(t, rk)
      modifies this`topo, this`power, this`transitions, this`next
      ensures topo == t && next == old(next) + 1
      ensures unchanged(this`rank, this`emitters, this`gates)
      ensures power == InputRun(t, rk, old(power), e, false).power
      ensures transitions == old(transitions) + InputRun(t, rk, old(power), e, false).emitted
    {
      InputPower(t, rk, e, false);
      topo := t;
      next := next + 1;
    }

    /** `Gate.remove` as written: a clock's emitter is stopped, the wire in
        each input node's slot is removed, each output node's `wires` array
        is walked by a loop whose first removal splices that very array, so
        it reaches only `Swept` of it, and the gate is filtered out of the
        registry. The gate's own record stays in the graph, as the
        JavaScript object does. */
    method RemoveGate(g: GateId)
      requires Inv() && g in topo.gates
      modifies this`topo, this`power, this`transitions, this`next, this`gates, this`emitters
      ensures Inv() && topo.gates == old(topo.gates)
      ensures gates == Without(old(gates), g) && emitters == old(emitters) - {g}
      ensures forall x :: x in topo.wires <==> x in old(topo.wires) && !Doomed(old(topo), g, false, x)
      ensures forall x :: x in topo.wires ==> topo.wires[x] == old(topo.wires)[x]
      ensures forall m :: m !in old(topo).gates[g].outputNodes && !Feeds(old(topo), g, m) ==>
        CurrentList(topo, m) == CurrentList(old(topo), m)
    {
      Dismantle(g, false);
    }

    /** `Gate.remove` as evidently intended: each output node's array is
        walked as a copy and each wire is removed with the filter alone.
        When every wire is listed at its start node, exactly the wires
        attached to the gate are removed, and every wire left is still
        listed. */
    method RemoveGateFixed(g: GateId)
      requires Inv() && g in topo.gates
      modifies this`topo, this`power, this`transitions, this`next, this`gates, this`emitters
      ensures Inv() && topo.gates == old(topo.gates)
      ensures gates == Without(old(gates), g) && emitters == old(emitters) - {g}
      ensures forall x :: x in topo.wires <==> x in old(topo.wires) && !Doomed(old(topo), g, true, x)
      ensures forall x :: x in topo.wires ==> topo.wires[x] == old(topo.wires)[x]
      ensures forall m :: m !in old(topo).gates[g].outputNodes && !Feeds(old(topo), g, m) ==>
        CurrentList(topo, m) == CurrentList(old(topo), m)
      ensures AllListed(old(topo)) ==> AllListed(topo)
      ensures AllListed(old(topo)) ==>
        forall x :: x in topo.wires <==> x in old(topo.wires) && !Touches(old(topo), g, x)
    {
      if AllListed(topo) {
        CopiesRemoveAttached(topo, g);
      }
      Dismantle(g, true);
    }

    /** The common part of both gate removals. */
    method Dismantle(g: GateId, fixed: bool)
      requires Inv() && g in topo.gates
      modifies this`topo, this`power, this`transitions, this`next, this`gates, this`emitters
      ensures Inv() && topo.gates == old(topo.gates)
      ensures gates == Without(old(gates), g) && emitters == old(emitters) - {g}
      ensures forall x :: x in topo.wires <==> x in old(topo.wires) && !Doomed(old(topo), g, fixed, x)
      ensures forall x :: x in topo.wires ==> topo.wires[x] == old(topo.wires)[x]
      ensures forall m :: m !in old(topo).gates[g].outputNodes && !Feeds(old(topo), g, m) ==>
        CurrentList(topo, m) == CurrentList(old(topo), m)
      ensures fixed && AllListed(old(topo)) ==> AllListed(topo)
    {
      StopEmitter(g);
      ghost var T := topo;
      ClearInputs(g, fixed);
      ghost var T1 := topo;
      SweepOutputs(g, fixed);
      DismantledWires(T, T1, topo, g, fixed);
      Unregister(g);
    }

    /** `if (this.gateType.emits) this.stopEmitter()`: a clock no longer
        ticks. */
    method StopEmitter(g: GateId)
      requires Inv() && g in topo.gates
      modifies this`emitters
      ensures Inv() && emitters == old(emitters) - {g}
    {
      if Emits(topo.gates[g].kind) {
        emitters := emitters - {g};
      } else {
        assert emitters - {g} == emitters;
      }
    }

    /** `gates = gates.filter(gate => gate !== this)`. */
    method Unregister(g: GateId)
      requires Inv()
      modifies this`gates
      ensures Inv() && gates == Without(old(gates), g)
    {
      WithoutMembers(gates, g);
      gates := Without(gates, g);
    }

    /** `wire.remove()` as the loops of `Gate.remove` call it, as written
        or with the filter alone; the power change it makes is stated by
        `RemoveWire` and `RemoveWireFixed`. */
    method DropWire(w: WireId, fixed: bool)
      requires Inv() && w in topo.wires
      modifies this`topo, this`power, this`transitions, this`next
      ensures Inv() && topo == Detach(old(topo), w, old(next), Kept(old(topo), w, fixed))
      ensures fixed && AllListed(old(topo)) ==> AllListed(topo)
    {
      if fixed {
        RemoveWireFixed(w);
      } else {
        RemoveWire(w);
      }
    }

    /** `node?.wire?.remove()` for each input node of `g`, in order. */
    method ClearInputs(g: GateId, fixed: bool)
      requires Inv() && g in topo.gates
      modifies this`topo, this`power, this`transitions, this`next
      ensures Inv() && InputsCleared(old(topo), topo, g, |old(topo).gates[g].inputNodes|)
      ensures fixed && AllListed(old(topo)) ==> AllListed(topo)
    {
      ghost var T := topo;
      for i := 0 to |topo.gates[g].inputNodes|
        invariant Inv() && InputsCleared(T, topo, g, i)
        invariant fixed && AllListed(T) ==> AllListed(topo)
      {
        ClearSlot(T, g, i, fixed);
      }
    }

    /** `node?.wire?.remove()` for input node `i` of `g`. */
    method ClearSlot(ghost T: Topology, g: GateId, i: nat, fixed: bool)
      requires Inv() && g in T.gates && i < |T.gates[g].inputNodes| && InputsCleared(T, topo, g, i)
      modifies this`topo, this`power, this`transitions, this`next
      ensures Inv() && InputsCleared(T, topo, g, i + 1)
      ensures fixed && AllListed(old(topo)) ==> AllListed(topo)
    {
      assert GateWellFormed(topo, g);
      match topo.ins[topo.gates[g].inputNodes[i]].wire {
        case None =>
          InputFree(T, topo, g, i);
        case Some(w) =>
          InputCleared(T, topo, rank, g, i, w, next, Kept(topo, w, fixed));
          DropWire(w, fixed);
      }
    }

    /** The loops over the output nodes of `g`, in order. */
    method SweepOutputs(g: GateId, fixed: bool)
      requires Inv() && g in topo.gates
      modifies this`topo, this`power, this`transitions, this`next
      ensures Inv() && topo.gates == old(topo.gates)
      ensures OutputsSwept(old(topo), topo, old(topo).gates[g].outputNodes, fixed, |old(topo).gates[g].outputNodes|)
      ensures fixed && AllListed(old(topo)) ==> AllListed(topo)
    {
      var os := topo.gates[g].outputNodes;
      ghost var T := topo;
      for k := 0 to |os|
        invariant Inv() && topo.gates == T.gates && OutputsSwept(T, topo, os, fixed, k)
        invariant fixed && AllListed(T) ==> AllListed(topo)
      {
        assert GateWellFormed(topo, g);
        ghost var t := topo;
        Sweep(os[k], fixed);
        OutputStep(T, t, topo, os, fixed, k);
      }
    }

    /** The loop over output node `o`'s wires, as written or over a copy. */
    method Sweep(o: NodeId, fixed: bool)
      requires Inv() && o in topo.outs
      modifies this`topo, this`power, this`transitions, this`next
      ensures Inv() && topo.gates == old(topo.gates)
      ensures forall x :: x in topo.wires <==> x in old(topo.wires) && x !in Swept(old(topo), o, fixed)
      ensures forall x :: x in topo.wires ==> topo.wires[x] == old(topo.wires)[x]
      ensures forall m :: m != o ==> CurrentList(topo, m) == CurrentList(old(topo), m)
      ensures fixed && AllListed(old(topo)) ==> AllListed(topo)
    {
      if fixed {
        SweepCopy(o);
      } else {
        SweepLive(o);
      }
    }

    /** `for (let wire of node.wires) wire.remove()` as written: the loop
        walks the array object `L` the node held when it started. */
    method SweepLive(o: NodeId)
      requires Inv() && o in topo.outs
      modifies this`topo, this`power, this`transitions, this`next
      ensures Inv() && topo.gates == old(topo.gates)
      ensures forall x :: x in topo.wires <==> x in old(topo.wires) && x !in Swept(old(topo), o, false)
      ensures forall x :: x in topo.wires ==> topo.wires[x] == old(topo.wires)[x]
      ensures forall m :: m != o ==> CurrentList(topo, m) == CurrentList(old(topo), m)
    {
      var L := topo.outs[o].wires;
      ghost var T := topo;
      var j := 0;
      while j < |topo.lists[L]|
        invariant Inv() && topo.gates == T.gates && WalkedLive(T, topo, o, L, j)
        decreases |Swept(T, o, false)| - j
      {
        WalkStep(T, topo, o, L, j, next);
        DropWire(topo.lists[L][j], false);
        j := j + 1;
      }
      WalkDone(T, topo, o, L, j);
    }

    /** The same loop over a copy of the array, removing each wire with the
        filter alone. */
    method SweepCopy(o: NodeId)
      requires Inv() && o in topo.outs
      modifies this`topo, this`power, this`transitions, this`next
      ensures Inv() && topo.gates == old(topo.gates)
      ensures forall x :: x in topo.wires <==> x in old(topo.wires) && x !in Swept(old(topo), o, true)
      ensures forall x :: x in topo.wires ==> topo.wires[x] == old(topo.wires)[x]
      ensures forall m :: m != o ==> CurrentList(topo, m) == CurrentList(old(topo), m)
      ensures AllListed(old(topo)) ==> AllListed(topo)
    {
      var ws := topo.lists[topo.outs[o].wires];
      ghost var T := topo;
      for j := 0 to |ws|
        invariant Inv() && topo.gates == T.gates && WalkedCopy(T, topo, o, ws, j)
        invariant AllListed(T) ==> AllListed(topo)
      {
        CopyStep(T, topo, o, ws, j, next);
        DropWire(ws[j], true);
      }
      CopyDone(T, topo, o, ws);
    }

    /** A drag from port `a` to port `b` (the `mouseup` handler set up in
        `Gate.onMouseDown`): refused when both ports are inputs or both are
        outputs, or when the input end already has a wire; otherwise a new
        wire joins them and its input end is powered twice, as the handler
        does. `newRank` is a rank order of the circuit with the new wire. */
    method Connect(a: Port, b: Port, ghost newRank: map<GateId, nat>) returns (r: Result<WireId, ConnectError>)
      requires Inv() && PortIn(topo, a) && PortIn(topo, b)
      requires a.InPort? != b.InPort? && topo.ins[InputEnd(a, b)].wire.None? ==>
        Ranked(topo, newRank) && RankOf(newRank, GateOfIn(topo, InputEnd(a, b))) < RankOf(newRank, GateOfOut(topo, OutputEnd(a, b)))
      modifies this`topo, this`power, this`transitions, this`next, this`rank
      ensures Inv()
      ensures a.InPort? == b.InPort? ==> r == Failure(SameKind)
      ensures a.InPort? != b.InPort? && old(topo).ins[InputEnd(a, b)].wire.Some? ==> r == Failure(InputTaken)
      ensures a.InPort? != b.InPort? && old(topo).ins[InputEnd(a, b)].wire.None? ==> r.Success?
      ensures r.Failure? ==> topo == old(topo) && power == old(power) && transitions == old(transitions) && next == old(next)
      ensures r.Success? ==> a.InPort? != b.InPort? && r.value == old(next) && next == old(next) + 1
      ensures r.Success? ==> topo == Attach(old(topo), OutputEnd(a, b), InputEnd(a, b), old(next))
      ensures r.Success? ==>
        var v := OutOn(old(power), OutputEnd(a, b));
        var run := ConnectRun(topo, rank, old(power).(wires := old(power).wires[old(next) := v]), InputEnd(a, b), v);
        && power == run.power && transitions == old(transitions) + run.emitted
        && InOn(power, InputEnd(a, b)) == v
    {
      if a.InPort? == b.InPort? {
        return Failure(SameKind);
      }
      if topo.ins[InputEnd(a, b)].wire.Some? {
        return Failure(InputTaken);
      }
      r := Success(next);
      ghost var t := ConnectStep(OutputEnd(a, b), InputEnd(a, b), newRank);
      ConnectKeeps(old(topo), old(rank), old(next), old(power), old(emitters), old(gates),
                   OutputEnd(a, b), InputEnd(a, b), topo, rank, next, power, emitters, gates);
    }

    /** The state change of an accepted connection, with the new graph `t'`
        handed back. */
    method ConnectStep(o: NodeId, n: NodeId, ghost rk: map<GateId, nat>) returns (ghost t': Topology)
      requires Valid(topo) && Ranked(topo, rk) && IdsBelow(topo, next)
      requires o in topo.outs && n in topo.ins && topo.ins[n].wire.None?
      requires RankOf(rk, GateOfIn(topo, n)) < RankOf(rk, GateOfOut(topo, o))
      modifies this`topo, this`power, this`transitions, this`next, this`rank
      ensures t' == Attach(old(topo), o, n, old(next))
      ensures topo == t' && next == old(next) + 1 && rank == rk
      ensures unchanged(this`emitters, this`gates)
      ensures power == ConnectRun(t', rk, old(power).(wires := old(power).wires[old(next) := OutOn(old(power), o)]), n, OutOn(old(power), o)).power
      ensures transitions == old(transitions) + ConnectRun(t', rk, old(power).(wires := old(power).wires[old(next) := OutOn(old(power), o)]), n, OutOn(old(power), o)).emitted
    {
      assert Attachable(topo, o, n, next);
      var t := Attach(topo, o, n, next);
      AttachValid(topo, rk, o, n, next);
      Link(t, rk, next, o, n);
      t' := t;
    }

    /** `wire.connect(startNode, endNode)`, which gives wire `w` the power
        of its start node `o` without emitting, then `endNode.power` with
        the wire's power and once more with the node's own; the new graph
        `t`, the next id and the rank order are stored after these, which
        read only `t`. */
    method Link(t: Topology, ghost rk: map<GateId, nat>, w: WireId, o: NodeId, n: NodeId)
      requires Valid(t) && Ranked(t, rk)
      modifies this`topo, this`power, this`transitions, this`next, this`rank
      ensures topo == t && next == old(next) + 1 && rank == rk
      ensures unchanged(this`emitters, this`gates)
      ensures power == ConnectRun(t, rk, old(power).(wires := old(power).wires[w := OutOn(old(power), o)]), n, OutOn(old(power), o)).power
      ensures transitions == old(transitions) + ConnectRun(t, rk, old(power).(wires := old(power).wires[w := OutOn(old(power), o)]), n, OutOn(old(power), o)).emitted
    {
      var v := OutOn(power, o);
      power := power.(wires := power.wires[w := v]);
      ghost var t0 := transitions;
      ghost var r1 := InputRun(t, rk, power, n, v);
      InputPower(t, rk, n, v);
      ghost var r2 := InputRun(t, rk, power, n, InOn(power, n));
      InputPower(t, rk, n, InOn(power, n));
      AppendAssoc(t0, r1.emitted, r2.emitted);
      topo := t;
      next := next + 1;
      rank := rk;
    }
  }
}
