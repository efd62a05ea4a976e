/** The changes to the object graph made by `Wire.remove` (classes.js:627-645
    with the removal listeners of classes.js:302-307, 319-324), by an
    accepted connection (classes.js:297-329) and by the `Gate` constructor
    (classes.js:101-140, 160-172), as functions on `Topology`, with what
    each keeps: a well-formed graph, the rank order, and a settled state up
    to the one node the source powers next. */
module Edits {
  import opened Wrappers
  import opened Sequences
  import opened GateCatalog
  import opened CircuitModel

  // Removing a wire.

  /** Wire `w` taken out of the graph: its end node's slot is cleared, the
      array its start node held keeps `kept`, and the start node now holds
      a new array `newList` with `kept` minus `w` (the `filter`). */
  function Detach(t: Topology, w: WireId, newList: ListId, kept: seq<WireId>): Topology
    requires w in t.wires && t.wires[w].start in t.outs && t.wires[w].end in t.ins
  {
    var W := t.wires[w];
    var L := t.outs[W.start].wires;
    t.(lists := t.lists[L := kept][newList := Without(kept, w)],
       outs := t.outs[W.start := t.outs[W.start].(wires := newList)],
       ins := t.ins[W.end := t.ins[W.end].(wire := None)],
       wires := t.wires - {w})
  }

  /** What the source leaves in the start node's array before the filter:
      the listener registered at connect time splices it at the index the
      array had then. */
  function SplicedList(t: Topology, w: WireId): seq<WireId>
    requires w in t.wires
  {
    Splice(CurrentList(t, t.wires[w].start), t.wires[w].index)
  }

  /** What `kept` may be: entries of the start node's array, each once. */
  ghost predicate Keepable(t: Topology, w: WireId, kept: seq<WireId>)
    requires w in t.wires
  {
    Distinct(kept) && forall x :: x in kept ==> x in CurrentList(t, t.wires[w].start)
  }

  lemma SplicedKeepable(t: Topology, w: WireId)
    requires ListsWellFormed(t) && w in t.wires && t.wires[w].start in t.outs
    ensures Keepable(t, w, SplicedList(t, w))
  {
    SpliceMembers(CurrentList(t, t.wires[w].start), t.wires[w].index);
  }

  lemma CurrentKeepable(t: Topology, w: WireId)
    requires ListsWellFormed(t) && w in t.wires && t.wires[w].start in t.outs
    ensures Keepable(t, w, CurrentList(t, t.wires[w].start))
  {
  }

  lemma DetachGates(t: Topology, w: WireId, newList: ListId, kept: seq<WireId>)
    requires GatesWellFormed(t) && w in t.wires && t.wires[w].start in t.outs && t.wires[w].end in t.ins
    ensures GatesWellFormed(Detach(t, w, newList, kept))
  {
    var t' := Detach(t, w, newList, kept);
    forall g | g in t'.gates ensures GateWellFormed(t', g) {
      assert GateWellFormed(t, g);
    }
  }

  lemma DetachNodes(t: Topology, w: WireId, newList: ListId, kept: seq<WireId>)
    requires NodesWellFormed(t) && w in t.wires && t.wires[w].start in t.outs && t.wires[w].end in t.ins
    requires newList !in t.lists
    ensures NodesWellFormed(Detach(t, w, newList, kept))
  {
  }

  lemma DetachLists(t: Topology, w: WireId, newList: ListId, kept: seq<WireId>)
    requires NodesWellFormed(t) && ListsWellFormed(t) && w in t.wires && t.wires[w].start in t.outs && t.wires[w].end in t.ins && newList !in t.lists && Keepable(t, w, kept)
    ensures ListsWellFormed(Detach(t, w, newList, kept))
  {
    var t' := Detach(t, w, newList, kept);
    var o := t.wires[w].start;
    WithoutMembers(kept, w);
    forall m | m in t'.outs
      ensures Distinct(CurrentList(t', m))
      ensures forall x :: x in CurrentList(t', m) ==> x in t'.wires && t'.wires[x].start == m
    {
      if m != o {
        assert t.outs[m].wires != t.outs[o].wires;
        assert CurrentList(t', m) == CurrentList(t, m);
      }
    }
  }

  lemma DetachWires(t: Topology, w: WireId, newList: ListId, kept: seq<WireId>)
    requires WiresWellFormed(t) && w in t.wires
    ensures WiresWellFormed(Detach(t, w, newList, kept))
  {
  }

  /** Removing a wire keeps the graph well formed and the rank order. */
  lemma DetachValid(t: Topology, rank: map<GateId, nat>, w: WireId, newList: ListId, kept: seq<WireId>)
    requires Valid(t) && Ranked(t, rank) && w in t.wires && newList !in t.lists && Keepable(t, w, kept)
    ensures Valid(Detach(t, w, newList, kept)) && Ranked(Detach(t, w, newList, kept), rank)
  {
    DetachGates(t, w, newList, kept);
    DetachNodes(t, w, newList, kept);
    DetachLists(t, w, newList, kept);
    DetachWires(t, w, newList, kept);
  }

  /** A wire listed after the removal was listed before. */
  lemma DetachListed(t: Topology, w: WireId, newList: ListId, kept: seq<WireId>, x: WireId)
    requires NodesWellFormed(t) && w in t.wires && t.wires[w].start in t.outs && t.wires[w].end in t.ins && newList !in t.lists && Keepable(t, w, kept)
    requires Listed(Detach(t, w, newList, kept), x)
    ensures Listed(t, x)
  {
    var t' := Detach(t, w, newList, kept);
    var o := t.wires[w].start;
    var m := t.wires[x].start;
    WithoutMembers(kept, w);
    if m != o {
      assert t.outs[m].wires != t.outs[o].wires;
      assert CurrentList(t', m) == CurrentList(t, m);
    }
  }

  /** After the removal the circuit is settled except at the old end node,
      which still holds the wire's power. */
  lemma DetachCon(t: Topology, p: Powers, w: WireId, newList: ListId, kept: seq<WireId>)
    requires Valid(t) && w in t.wires && newList !in t.lists && Keepable(t, w, kept)
    requires Settled(t, p)
    ensures Con(Detach(t, w, newList, kept), p, {}, {t.wires[w].end}, {}, {})
  {
    var t' := Detach(t, w, newList, kept);
    forall x | x in t'.wires && Listed(t', x)
      ensures WireOn(p, x) == OutOn(p, t'.wires[x].start)
    {
      DetachListed(t, w, newList, kept, x);
    }
    forall g | g in t'.gates && !Forced(t'.gates[g].kind)
      ensures GateVector(p, g) == Evaluate(t'.gates[g].kind, InputPowers(t', p.ins, g), [false])
    {
      assert InputPowers(t', p.ins, g) == InputPowers(t, p.ins, g);
    }
  }

  /** The cleared end node, powered off, is what `InputNode.power(false)`
      expects. */
  lemma DetachTarget(t: Topology, p: Powers, w: WireId, newList: ListId, kept: seq<WireId>)
    requires w in t.wires && t.wires[w].start in t.outs && t.wires[w].end in t.ins
    ensures var t' := Detach(t, w, newList, kept);
      t.wires[w].end in t'.ins && InputTarget(t', p, t.wires[w].end, false)
  {
  }

  /** The removed wire is gone and its end node is free; the array the
      start node now holds has every entry of `kept` except the wire. */
  lemma DetachRemoves(t: Topology, w: WireId, newList: ListId, kept: seq<WireId>)
    requires w in t.wires && t.wires[w].start in t.outs && t.wires[w].end in t.ins && newList !in t.lists
    ensures var t' := Detach(t, w, newList, kept);
      && w !in t'.wires
      && t'.ins[t.wires[w].end].wire.None?
      && (forall x :: x in CurrentList(t', t.wires[w].start) <==> x in kept && x != w)
      && (forall x :: x in t.wires && x != w ==> x in t'.wires && t'.wires[x] == t.wires[x])
  {
    WithoutMembers(kept, w);
  }

  /** Removal takes one new id, for the array the filter makes. */
  lemma DetachIdsBelow(t: Topology, w: WireId, newList: ListId, kept: seq<WireId>, bound: nat)
    requires NodesWellFormed(t) && w in t.wires && t.wires[w].start in t.outs && t.wires[w].end in t.ins
    requires IdsBelow(t, bound) && newList < bound + 1
    ensures IdsBelow(Detach(t, w, newList, kept), bound + 1)
  {
  }

  /** Every other output node keeps its array. */
  lemma DetachOthers(t: Topology, w: WireId, newList: ListId, kept: seq<WireId>, m: NodeId)
    requires NodesWellFormed(t) && w in t.wires && t.wires[w].start in t.outs && t.wires[w].end in t.ins
    requires newList !in t.lists && m != t.wires[w].start
    ensures CurrentList(Detach(t, w, newList, kept), m) == CurrentList(t, m)
  {
    if m in t.outs {
      assert t.outs[m].wires != t.outs[t.wires[w].start].wires;
    }
  }

  /** When `kept` is the start node's current array (the filter alone, as
      the source evidently intends), every wire that was listed stays
      listed. */
  lemma DetachKeepsListed(t: Topology, w: WireId, newList: ListId)
    requires NodesWellFormed(t) && w in t.wires && t.wires[w].start in t.outs && t.wires[w].end in t.ins
    requires newList !in t.lists && AllListed(t)
    ensures AllListed(Detach(t, w, newList, CurrentList(t, t.wires[w].start)))
  {
    var o := t.wires[w].start;
    var kept := CurrentList(t, o);
    var t' := Detach(t, w, newList, kept);
    WithoutMembers(kept, w);
    forall x | x in t'.wires ensures Listed(t', x) {
      assert Listed(t, x);
      var m := t.wires[x].start;
      if m != o {
        DetachOthers(t, w, newList, kept, m);
      }
    }
  }

  /** As written, a recorded index can go stale and the splice then takes
      out another wire: when the start node holds `[w, x]` and `w` was
      recorded at index 1 (a wire before it has since been removed), the
      splice drops `x` and the filter drops `w`, so `x` stays in the graph
      but is no longer powered by its start node. */
  lemma StaleIndexUnlists(t: Topology, w: WireId, x: WireId, newList: ListId)
    requires ListsWellFormed(t) && w in t.wires && t.wires[w].start in t.outs && t.wires[w].end in t.ins
    requires CurrentList(t, t.wires[w].start) == [w, x] && t.wires[w].index == 1 && newList !in t.lists
    ensures var t' := Detach(t, w, newList, SplicedList(t, w));
      x in t'.wires && !Listed(t', x)
  {
    var o := t.wires[w].start;
    assert Distinct(CurrentList(t, o));
    assert CurrentList(t, o)[0] != CurrentList(t, o)[1];
    assert x in CurrentList(t, o);
    assert SplicedList(t, w) == [w];
  }

  // Connecting a wire.

  /** A new wire `w` from output node `o` to input node `n`: pushed onto the
      array `o` holds, recorded in `n`'s slot, remembering the index it was
      pushed at. */
  function Attach(t: Topology, o: NodeId, n: NodeId, w: WireId): Topology
    requires o in t.outs && n in t.ins
  {
    var cur := CurrentList(t, o);
    t.(wires := t.wires[w := Wire(o, n, |cur|)],
       lists := t.lists[t.outs[o].wires := cur + [w]],
       ins := t.ins[n := t.ins[n].(wire := Some(w))])
  }

  /** What an accepted connection demands: a new wire id and a free input. */
  ghost predicate Attachable(t: Topology, o: NodeId, n: NodeId, w: WireId) {
    o in t.outs && n in t.ins && w !in t.wires && t.ins[n].wire.None?
  }

  lemma AttachGates(t: Topology, o: NodeId, n: NodeId, w: WireId)
    requires GatesWellFormed(t) && Attachable(t, o, n, w)
    ensures GatesWellFormed(Attach(t, o, n, w))
  {
    var t' := Attach(t, o, n, w);
    forall g | g in t'.gates ensures GateWellFormed(t', g) {
      assert GateWellFormed(t, g);
    }
  }

  lemma AttachNodes(t: Topology, o: NodeId, n: NodeId, w: WireId)
    requires NodesWellFormed(t) && Attachable(t, o, n, w)
    ensures NodesWellFormed(Attach(t, o, n, w))
  {
  }

  lemma AttachLists(t: Topology, o: NodeId, n: NodeId, w: WireId)
    requires NodesWellFormed(t) && ListsWellFormed(t) && Attachable(t, o, n, w)
    ensures ListsWellFormed(Attach(t, o, n, w))
  {
    var t' := Attach(t, o, n, w);
    forall m | m in t'.outs
      ensures Distinct(CurrentList(t', m))
      ensures forall x :: x in CurrentList(t', m) ==> x in t'.wires && t'.wires[x].start == m
    {
      if m != o {
        assert t.outs[m].wires != t.outs[o].wires;
        assert CurrentList(t', m) == CurrentList(t, m);
      } else {
        assert CurrentList(t', o) == CurrentList(t, o) + [w];
        assert w !in CurrentList(t, o);
      }
    }
  }

  lemma AttachWires(t: Topology, o: NodeId, n: NodeId, w: WireId)
    requires WiresWellFormed(t) && Attachable(t, o, n, w)
    ensures WiresWellFormed(Attach(t, o, n, w))
  {
  }

  /** A connection keeps the graph well formed, and keeps a rank order that
      puts the new wire's end below its start. */
  lemma AttachValid(t: Topology, rank: map<GateId, nat>, o: NodeId, n: NodeId, w: WireId)
    requires Valid(t) && Ranked(t, rank) && Attachable(t, o, n, w)
    requires RankOf(rank, GateOfIn(t, n)) < RankOf(rank, GateOfOut(t, o))
    ensures Valid(Attach(t, o, n, w)) && Ranked(Attach(t, o, n, w), rank)
  {
    AttachGates(t, o, n, w);
    AttachNodes(t, o, n, w);
    AttachLists(t, o, n, w);
    AttachWires(t, o, n, w);
  }

  /** A wire listed after the connection is the new one or was listed
      before. */
  lemma AttachListed(t: Topology, o: NodeId, n: NodeId, w: WireId, x: WireId)
    requires NodesWellFormed(t) && Attachable(t, o, n, w) && x != w
    requires Listed(Attach(t, o, n, w), x)
    ensures Listed(t, x)
  {
    var t' := Attach(t, o, n, w);
    var m := t.wires[x].start;
    if m != o {
      assert t.outs[m].wires != t.outs[o].wires;
      assert CurrentList(t', m) == CurrentList(t, m);
    } else {
      assert CurrentList(t', o) == CurrentList(t, o) + [w];
    }
  }

  lemma AttachStarts(t: Topology, p: Powers, o: NodeId, n: NodeId, w: WireId)
    requires NodesWellFormed(t) && Attachable(t, o, n, w)
    requires WiresFollowStarts(t, p, {})
    ensures WiresFollowStarts(Attach(t, o, n, w), p.(wires := p.wires[w := OutOn(p, o)]), {})
  {
    var t' := Attach(t, o, n, w);
    var p' := p.(wires := p.wires[w := OutOn(p, o)]);
    forall x | x in t'.wires && Listed(t', x)
      ensures WireOn(p', x) == OutOn(p', t'.wires[x].start)
    {
      if x != w {
        AttachListed(t, o, n, w, x);
      }
    }
  }

  lemma AttachEnds(t: Topology, p: Powers, o: NodeId, n: NodeId, w: WireId)
    requires WiresWellFormed(t) && Attachable(t, o, n, w)
    requires EndsFollowWires(t, p, {}) && UnwiredOff(t, p, {})
    ensures var t' := Attach(t, o, n, w);
      var p' := p.(wires := p.wires[w := OutOn(p, o)]);
      EndsFollowWires(t', p', {n}) && UnwiredOff(t', p', {n})
  {
  }

  lemma AttachEvaluated(t: Topology, p: Powers, o: NodeId, n: NodeId, w: WireId)
    requires Attachable(t, o, n, w)
    requires GatesEvaluated(t, p, {}) && OutputsFollowGates(t, p, {})
    ensures var t' := Attach(t, o, n, w);
      var p' := p.(wires := p.wires[w := OutOn(p, o)]);
      GatesEvaluated(t', p', {}) && OutputsFollowGates(t', p', {})
  {
    var t' := Attach(t, o, n, w);
    var p' := p.(wires := p.wires[w := OutOn(p, o)]);
    forall g | g in t'.gates && !Forced(t'.gates[g].kind)
      ensures GateVector(p', g) == Evaluate(t'.gates[g].kind, InputPowers(t', p'.ins, g), [false])
    {
      assert InputPowers(t', p'.ins, g) == InputPowers(t, p.ins, g);
    }
  }

  lemma AttachIdsBelow(t: Topology, o: NodeId, n: NodeId, w: WireId, bound: nat)
    requires NodesWellFormed(t) && o in t.outs && n in t.ins && IdsBelow(t, bound) && w < bound + 1
    ensures IdsBelow(Attach(t, o, n, w), bound + 1)
  {
  }

  /** A connection keeps every wire listed: the new one is pushed on its
      start node's current array. */
  lemma AttachKeepsListed(t: Topology, o: NodeId, n: NodeId, w: WireId)
    requires NodesWellFormed(t) && Attachable(t, o, n, w) && AllListed(t)
    ensures AllListed(Attach(t, o, n, w))
  {
    var t' := Attach(t, o, n, w);
    forall x | x in t'.wires ensures Listed(t', x) {
      if x != w {
        assert Listed(t, x);
        var m := t.wires[x].start;
        if m != o {
          assert t.outs[m].wires != t.outs[o].wires;
          assert CurrentList(t', m) == CurrentList(t, m);
        } else {
          assert CurrentList(t', o) == CurrentList(t, o) + [w];
        }
      } else {
        assert CurrentList(t', o) == CurrentList(t, o) + [w];
      }
    }
  }

  /** With the new wire holding its start node's power (`Wire.connect`),
      the circuit is settled except at the input node, which the source
      powers next. */
  lemma AttachCon(t: Topology, p: Powers, o: NodeId, n: NodeId, w: WireId)
    requires NodesWellFormed(t) && WiresWellFormed(t) && Attachable(t, o, n, w)
    requires Settled(t, p)
    ensures var t' := Attach(t, o, n, w);
      var p' := p.(wires := p.wires[w := OutOn(p, o)]);
      && Con(t', p', {}, {n}, {}, {})
      && InputTarget(t', p', n, OutOn(p, o))
  {
    AttachStarts(t, p, o, n, w);
    AttachEnds(t, p, o, n, w);
    AttachEvaluated(t, p, o, n, w);
  }

  /** The connection adds exactly the wire: pushed last on `o`'s array, in
      `n`'s slot, recording the array's old length as its index. */
  lemma AttachAdds(t: Topology, o: NodeId, n: NodeId, w: WireId)
    requires NodesWellFormed(t) && Attachable(t, o, n, w)
    ensures var t' := Attach(t, o, n, w);
      && CurrentList(t', o) == CurrentList(t, o) + [w]
      && t'.ins[n].wire == Some(w)
      && t'.wires[w] == Wire(o, n, |CurrentList(t, o)|)
      && (forall x :: x in t.wires ==> x in t'.wires && t'.wires[x] == t.wires[x])
  {
  }

  // Adding a gate.

  /** Every id in use in the graph is below `bound`. */
  ghost predicate IdsBelow(t: Topology, bound: nat) {
    && (forall g :: g in t.gates ==> g < bound)
    && (forall n :: n in t.ins ==> n < bound)
    && (forall o :: o in t.outs ==> o < bound)
    && (forall l :: l in t.lists ==> l < bound)
    && (forall w :: w in t.wires ==> w < bound)
  }

  /** The ids `lo`, `lo + 1`, ..., `lo + n - 1`. */
  function Range(lo: nat, n: nat): (r: seq<nat>)
    ensures |r| == n && forall i :: 0 <= i < n ==> r[i] == lo + i
    decreases n
  {
    if n == 0 then [] else [lo] + Range(lo + 1, n - 1)
  }

  /** `new Array(n).fill(false)`. */
  function Offs(n: nat): (r: seq<bool>)
    ensures |r| == n && forall i :: 0 <= i < n ==> !r[i]
  {
    if n == 0 then [] else [false] + Offs(n - 1)
  }

  /** The ids a gate of kind `k` takes from `base` on: the gate itself, its
      input nodes, its output nodes, and one wire array per output node. */
  function NextId(k: Kind, base: nat): nat {
    base + 1 + InputArity(k) + 2 * OutputArity(k)
  }

  /** The input nodes, output nodes and wire arrays of a new gate `base`
      of kind `k`. */
  function NewIns(k: Kind, base: nat): seq<NodeId> { Range(base + 1, InputArity(k)) }
  function NewOuts(k: Kind, base: nat): seq<NodeId> { Range(base + 1 + InputArity(k), OutputArity(k)) }
  function NewLists(k: Kind, base: nat): seq<ListId> {
    Range(base + 1 + InputArity(k) + OutputArity(k), OutputArity(k))
  }

  /** The graph with a new gate `base` of kind `k` (the `Gate` constructor):
      input nodes with empty slots and output nodes each holding a new
      empty array. */
  function NewGate(t: Topology, k: Kind, base: nat): Topology {
    var ni, no := InputArity(k), OutputArity(k);
    t.(gates := t.gates[base := Gate(k, NewIns(k, base), NewOuts(k, base))],
       ins := Fill(t.ins, base + 1, ni, InNode(base, None)),
       outs := FillOuts(t.outs, base, base + 1 + ni, no, no),
       lists := Fill(t.lists, base + 1 + ni + no, no, []))
  }

  /** The new gate's power: `hasPower` filled with `false`, as are its
      nodes. */
  function NewPowers(p: Powers, k: Kind, base: nat): Powers {
    var ni, no := InputArity(k), OutputArity(k);
    p.(gate := p.gate[base := Offs(no)],
       ins := Fill(p.ins, base + 1, ni, false),
       outs := Fill(p.outs, base + 1 + ni, no, false))
  }

  /** `m` with the keys `lo`, ..., `lo + n - 1` mapped to `v`. */
  function Fill<V>(m: map<nat, V>, lo: nat, n: nat, v: V): map<nat, V>
    decreases n
  {
    if n == 0 then m else Fill(m, lo + 1, n - 1, v)[lo := v]
  }

  /** `m` with the output nodes `lo`, ..., `lo + n - 1` of gate `g`, node
      `o` holding array `o + shift`. */
  function FillOuts(m: map<NodeId, OutNode>, g: GateId, lo: nat, n: nat, shift: nat): map<NodeId, OutNode>
    decreases n
  {
    if n == 0 then m else FillOuts(m, g, lo + 1, n - 1, shift)[lo := OutNode(g, lo + shift)]
  }

  lemma {:induction false} FillMembers<V>(m: map<nat, V>, lo: nat, n: nat, v: V)
    ensures forall x :: x in Fill(m, lo, n, v) <==> x in m || lo <= x < lo + n
    ensures forall x :: lo <= x < lo + n ==> Fill(m, lo, n, v)[x] == v
    ensures forall x :: x in m && !(lo <= x < lo + n) ==> Fill(m, lo, n, v)[x] == m[x]
    decreases n
  {
    if n > 0 {
      FillMembers(m, lo + 1, n - 1, v);
    }
  }

  lemma {:induction false} FillOutsMembers(m: map<NodeId, OutNode>, g: GateId, lo: nat, n: nat, shift: nat)
    ensures forall x :: x in FillOuts(m, g, lo, n, shift) <==> x in m || lo <= x < lo + n
    ensures forall x :: lo <= x < lo + n ==> FillOuts(m, g, lo, n, shift)[x] == OutNode(g, x + shift)
    ensures forall x :: x in m && !(lo <= x < lo + n) ==> FillOuts(m, g, lo, n, shift)[x] == m[x]
    decreases n
  {
    if n > 0 {
      FillOutsMembers(m, g, lo + 1, n - 1, shift);
    }
  }

  /** What the node and array maps of `NewGate` hold, key by key. */
  lemma NewGateMaps(t: Topology, k: Kind, base: nat)
    ensures var t', no := NewGate(t, k, base), OutputArity(k);
      && (forall x :: x in t'.ins <==> x in t.ins || x in NewIns(k, base))
      && (forall x :: x in NewIns(k, base) ==> t'.ins[x] == InNode(base, None))
      && (forall x :: x in t.ins && x !in NewIns(k, base) ==> t'.ins[x] == t.ins[x])
      && (forall x :: x in t'.outs <==> x in t.outs || x in NewOuts(k, base))
      && (forall x :: x in NewOuts(k, base) ==> t'.outs[x] == OutNode(base, x + no))
      && (forall x :: x in t.outs && x !in NewOuts(k, base) ==> t'.outs[x] == t.outs[x])
      && (forall x :: x in t'.lists <==> x in t.lists || x in NewLists(k, base))
      && (forall x :: x in NewLists(k, base) ==> t'.lists[x] == [])
      && (forall x :: x in t.lists && x !in NewLists(k, base) ==> t'.lists[x] == t.lists[x])
  {
    NewGateIns(t, k, base);
    NewGateOuts(t, k, base);
    NewGateLists(t, k, base);
  }

  lemma NewGateIns(t: Topology, k: Kind, base: nat)
    ensures var t' := NewGate(t, k, base);
      && (forall x :: x in t'.ins <==> x in t.ins || x in NewIns(k, base))
      && (forall x :: x in NewIns(k, base) ==> t'.ins[x] == InNode(base, None))
      && (forall x :: x in t.ins && x !in NewIns(k, base) ==> t'.ins[x] == t.ins[x])
  {
    assert NewGate(t, k, base).ins == Fill(t.ins, base + 1, InputArity(k), InNode(base, None));
    FilledRange(t.ins, base + 1, InputArity(k), InNode(base, None));
  }

  lemma NewGateOuts(t: Topology, k: Kind, base: nat)
    ensures var t', no := NewGate(t, k, base), OutputArity(k);
      && (forall x :: x in t'.outs <==> x in t.outs || x in NewOuts(k, base))
      && (forall x :: x in NewOuts(k, base) ==> t'.outs[x] == OutNode(base, x + no))
      && (forall x :: x in t.outs && x !in NewOuts(k, base) ==> t'.outs[x] == t.outs[x])
  {
    var no := OutputArity(k);
    assert NewGate(t, k, base).outs == FillOuts(t.outs, base, base + 1 + InputArity(k), no, no);
    FilledOutsRange(t.outs, base, base + 1 + InputArity(k), no, no);
  }

  lemma NewGateLists(t: Topology, k: Kind, base: nat)
    ensures var t' := NewGate(t, k, base);
      && (forall x :: x in t'.lists <==> x in t.lists || x in NewLists(k, base))
      && (forall x :: x in NewLists(k, base) ==> t'.lists[x] == [])
      && (forall x :: x in t.lists && x !in NewLists(k, base) ==> t'.lists[x] == t.lists[x])
  {
    var no := OutputArity(k);
    assert NewGate(t, k, base).lists == Fill(t.lists, base + 1 + InputArity(k) + no, no, []);
    FilledRange(t.lists, base + 1 + InputArity(k) + no, no, []);
  }

  /** `Fill` over the members of `Range`. */
  lemma FilledRange<V>(m: map<nat, V>, lo: nat, n: nat, v: V)
    ensures forall x :: x in Fill(m, lo, n, v) <==> x in m || x in Range(lo, n)
    ensures forall x :: x in Range(lo, n) ==> Fill(m, lo, n, v)[x] == v
    ensures forall x :: x in m && x !in Range(lo, n) ==> Fill(m, lo, n, v)[x] == m[x]
  {
    RangeMembers(lo, n);
    FillMembers(m, lo, n, v);
  }

  /** `FillOuts` over the members of `Range`. */
  lemma FilledOutsRange(m: map<NodeId, OutNode>, g: GateId, lo: nat, n: nat, shift: nat)
    ensures forall x :: x in FillOuts(m, g, lo, n, shift) <==> x in m || x in Range(lo, n)
    ensures forall x :: x in Range(lo, n) ==> FillOuts(m, g, lo, n, shift)[x] == OutNode(g, x + shift)
    ensures forall x :: x in m && x !in Range(lo, n) ==> FillOuts(m, g, lo, n, shift)[x] == m[x]
  {
    RangeMembers(lo, n);
    FillOutsMembers(m, g, lo, n, shift);
  }

  /** What the node maps of `NewPowers` hold, key by key. */
  lemma NewPowersMaps(p: Powers, k: Kind, base: nat)
    ensures var p' := NewPowers(p, k, base);
      && (forall x :: x in p'.ins <==> x in p.ins || x in NewIns(k, base))
      && (forall x :: x in NewIns(k, base) ==> !p'.ins[x])
      && (forall x :: x in p.ins && x !in NewIns(k, base) ==> p'.ins[x] == p.ins[x])
      && (forall x :: x in p'.outs <==> x in p.outs || x in NewOuts(k, base))
      && (forall x :: x in NewOuts(k, base) ==> !p'.outs[x])
      && (forall x :: x in p.outs && x !in NewOuts(k, base) ==> p'.outs[x] == p.outs[x])
  {
    var ni, no := InputArity(k), OutputArity(k);
    FilledRange(p.ins, base + 1, ni, false);
    FilledRange(p.outs, base + 1 + ni, no, false);
  }

  lemma RangeMembers(lo: nat, n: nat)
    ensures forall x :: x in Range(lo, n) <==> lo <= x < lo + n
  {
    forall x | lo <= x < lo + n ensures x in Range(lo, n) {
      assert Range(lo, n)[x - lo] == x;
    }
  }

  /** What the ids `I`, `O`, `Ls` of a new gate `base` (its input nodes,
      output nodes and wire arrays) satisfy when drawn above every id in
      use: none is taken, and output node `o` gets array `o + |O|`. */
  ghost predicate FreshIds(t: Topology, k: Kind, base: nat, I: seq<NodeId>, O: seq<NodeId>, Ls: seq<ListId>) {
    && base !in t.gates
    && |I| == InputArity(k)
    && |O| == OutputArity(k)
    && Distinct(O)
    && (forall n :: n in I ==> n !in t.ins)
    && (forall o :: o in O ==> o !in t.outs && o + |O| in Ls)
    && (forall l :: l in Ls ==> l !in t.lists)
  }

  lemma FreshIdsBelow(t: Topology, k: Kind, base: nat)
    requires IdsBelow(t, base)
    ensures FreshIds(t, k, base, NewIns(k, base), NewOuts(k, base), NewLists(k, base))
  {
    RangeMembers(base + 1, InputArity(k));
    RangeMembers(base + 1 + InputArity(k), OutputArity(k));
    RangeMembers(base + 1 + InputArity(k) + OutputArity(k), OutputArity(k));
  }

  /** `t'` is `t` with gate `base` of kind `k` added, entry by entry. */
  ghost predicate GateAdded(t: Topology, t': Topology, k: Kind, base: nat, I: seq<NodeId>, O: seq<NodeId>, Ls: seq<ListId>) {
    && t'.wires == t.wires
    && t'.gates == t.gates[base := Gate(k, I, O)]
    && (forall n :: n in t'.ins <==> n in t.ins || n in I)
    && (forall n :: n in t.ins ==> t'.ins[n] == t.ins[n])
    && (forall n :: n in I ==> t'.ins[n] == InNode(base, None))
    && (forall o :: o in t'.outs <==> o in t.outs || o in O)
    && (forall o :: o in t.outs ==> t'.outs[o] == t.outs[o])
    && (forall o :: o in O ==> t'.outs[o] == OutNode(base, o + |O|))
    && (forall l :: l in t'.lists <==> l in t.lists || l in Ls)
    && (forall l :: l in t.lists ==> t'.lists[l] == t.lists[l])
    && (forall l :: l in Ls ==> t'.lists[l] == [])
  }

  lemma NewGateAdded(t: Topology, k: Kind, base: nat)
    requires FreshIds(t, k, base, NewIns(k, base), NewOuts(k, base), NewLists(k, base))
    ensures GateAdded(t, NewGate(t, k, base), k, base, NewIns(k, base), NewOuts(k, base), NewLists(k, base))
  {
    NewGateMaps(t, k, base);
  }

  lemma AddedGates(t: Topology, t': Topology, k: Kind, base: nat, I: seq<NodeId>, O: seq<NodeId>, Ls: seq<ListId>)
    requires GatesWellFormed(t) && FreshIds(t, k, base, I, O, Ls) && GateAdded(t, t', k, base, I, O, Ls)
    ensures GatesWellFormed(t')
  {
    forall g | g in t'.gates ensures GateWellFormed(t', g) {
      if g != base {
        assert GateWellFormed(t, g);
      }
    }
  }

  lemma AddedNodes(t: Topology, t': Topology, k: Kind, base: nat, I: seq<NodeId>, O: seq<NodeId>, Ls: seq<ListId>)
    requires NodesWellFormed(t) && FreshIds(t, k, base, I, O, Ls) && GateAdded(t, t', k, base, I, O, Ls)
    ensures NodesWellFormed(t')
  {
  }

  lemma AddedLists(t: Topology, t': Topology, k: Kind, base: nat, I: seq<NodeId>, O: seq<NodeId>, Ls: seq<ListId>)
    requires NodesWellFormed(t) && ListsWellFormed(t)
    requires FreshIds(t, k, base, I, O, Ls) && GateAdded(t, t', k, base, I, O, Ls)
    ensures ListsWellFormed(t')
  {
    forall o | o in t'.outs
      ensures Distinct(CurrentList(t', o))
      ensures forall x :: x in CurrentList(t', o) ==> x in t'.wires && t'.wires[x].start == o
    {
      AddedListAt(t, t', k, base, I, O, Ls, o);
    }
  }

  /** The array of an output node after the addition: an old node keeps
      its array, a new node has an empty one. */
  lemma AddedListAt(t: Topology, t': Topology, k: Kind, base: nat, I: seq<NodeId>, O: seq<NodeId>, Ls: seq<ListId>,
                    o: NodeId)
    requires NodesWellFormed(t) && ListsWellFormed(t)
    requires FreshIds(t, k, base, I, O, Ls) && GateAdded(t, t', k, base, I, O, Ls) && o in t'.outs
    ensures Distinct(CurrentList(t', o))
    ensures forall x :: x in CurrentList(t', o) ==> x in t'.wires && t'.wires[x].start == o
  {
    if o in t.outs {
      assert CurrentList(t', o) == CurrentList(t, o);
    } else {
      assert CurrentList(t', o) == [];
    }
  }

  lemma AddedWires(t: Topology, t': Topology, k: Kind, base: nat, I: seq<NodeId>, O: seq<NodeId>, Ls: seq<ListId>)
    requires WiresWellFormed(t) && FreshIds(t, k, base, I, O, Ls) && GateAdded(t, t', k, base, I, O, Ls)
    ensures WiresWellFormed(t')
  {
  }

  lemma NewGateIdsBelow(t: Topology, k: Kind, base: nat)
    requires IdsBelow(t, base)
    ensures IdsBelow(NewGate(t, k, base), NextId(k, base))
  {
    NewGateMaps(t, k, base);
    RangeMembers(base + 1, InputArity(k));
    RangeMembers(base + 1 + InputArity(k), OutputArity(k));
    RangeMembers(base + 1 + InputArity(k) + OutputArity(k), OutputArity(k));
  }

  /** Adding a gate keeps the graph well formed and every rank order, and
      uses only ids below `NextId`. */
  lemma NewGateValid(t: Topology, rank: map<GateId, nat>, k: Kind, base: nat)
    requires Valid(t) && Ranked(t, rank) && IdsBelow(t, base)
    ensures Valid(NewGate(t, k, base)) && Ranked(NewGate(t, k, base), rank)
    ensures IdsBelow(NewGate(t, k, base), NextId(k, base))
  {
    var t' := NewGate(t, k, base);
    var I, O, Ls := NewIns(k, base), NewOuts(k, base), NewLists(k, base);
    FreshIdsBelow(t, k, base);
    NewGateAdded(t, k, base);
    AddedGates(t, t', k, base, I, O, Ls);
    AddedNodes(t, t', k, base, I, O, Ls);
    AddedLists(t, t', k, base, I, O, Ls);
    AddedWires(t, t', k, base, I, O, Ls);
    NewGateIdsBelow(t, k, base);
  }

  /** `p'` is `p` with the new gate's vector and the nodes `I`, `O` all
      off. */
  ghost predicate PowersAdded(p: Powers, p': Powers, k: Kind, base: nat, I: seq<NodeId>, O: seq<NodeId>) {
    && p'.gate == p.gate[base := Offs(OutputArity(k))]
    && p'.wires == p.wires
    && (forall n :: n in I ==> n in p'.ins && !p'.ins[n])
    && (forall n :: n !in I ==> (n in p'.ins <==> n in p.ins) && (n in p.ins ==> p'.ins[n] == p.ins[n]))
    && (forall o :: o in O ==> !OutOn(p', o))
    && (forall o :: o !in O ==> OutOn(p', o) == OutOn(p, o))
  }

  lemma NewPowersAdded(p: Powers, k: Kind, base: nat)
    ensures PowersAdded(p, NewPowers(p, k, base), k, base, NewIns(k, base), NewOuts(k, base))
  {
    NewPowersMaps(p, k, base);
  }

  lemma AddedStarts(t: Topology, t': Topology, p: Powers, p': Powers, k: Kind, base: nat,
                    I: seq<NodeId>, O: seq<NodeId>, Ls: seq<ListId>)
    requires NodesWellFormed(t) && WiresWellFormed(t)
    requires FreshIds(t, k, base, I, O, Ls) && GateAdded(t, t', k, base, I, O, Ls)
    requires PowersAdded(p, p', k, base, I, O)
    requires WiresFollowStarts(t, p, {}) && EndsFollowWires(t, p, {}) && UnwiredOff(t, p, {})
    ensures WiresFollowStarts(t', p', {}) && EndsFollowWires(t', p', {}) && UnwiredOff(t', p', {})
  {
    forall w | w in t'.wires && Listed(t', w)
      ensures WireOn(p', w) == OutOn(p', t'.wires[w].start)
    {
      var o := t.wires[w].start;
      assert CurrentList(t', o) == CurrentList(t, o);
    }
  }

  lemma AddedEvaluated(t: Topology, t': Topology, p: Powers, p': Powers, k: Kind, base: nat,
                       I: seq<NodeId>, O: seq<NodeId>, Ls: seq<ListId>)
    requires GatesWellFormed(t)
    requires FreshIds(t, k, base, I, O, Ls) && GateAdded(t, t', k, base, I, O, Ls)
    requires PowersAdded(p, p', k, base, I, O)
    requires GatesEvaluated(t, p, {})
    ensures GatesEvaluated(t', p', {base})
  {
    forall g | g in t'.gates && g != base && !Forced(t'.gates[g].kind)
      ensures GateVector(p', g) == Evaluate(t'.gates[g].kind, InputPowers(t', p'.ins, g), [false])
    {
      AddedEvaluatedAt(t, t', p, p', k, base, I, O, Ls, g);
    }
  }

  /** An old gate reads the same input powers and vector after the
      addition, so it is still evaluated. */
  lemma AddedEvaluatedAt(t: Topology, t': Topology, p: Powers, p': Powers, k: Kind, base: nat,
                         I: seq<NodeId>, O: seq<NodeId>, Ls: seq<ListId>, g: GateId)
    requires GatesWellFormed(t) && g in t'.gates && g != base
    requires FreshIds(t, k, base, I, O, Ls) && t'.gates == t.gates[base := Gate(k, I, O)]
    requires PowersAdded(p, p', k, base, I, O)
    requires GatesEvaluated(t, p, {}) && !Forced(t'.gates[g].kind)
    ensures |t'.gates[g].inputNodes| == InputArity(t'.gates[g].kind)
    ensures GateVector(p', g) == Evaluate(t'.gates[g].kind, InputPowers(t', p'.ins, g), [false])
  {
    assert GateWellFormed(t, g);
    NodePowersFrame(t.gates[g].inputNodes, p.ins, p'.ins);
  }

  lemma AddedOutputs(t: Topology, t': Topology, p: Powers, p': Powers, k: Kind, base: nat,
                     I: seq<NodeId>, O: seq<NodeId>, Ls: seq<ListId>)
    requires GatesWellFormed(t)
    requires FreshIds(t, k, base, I, O, Ls) && GateAdded(t, t', k, base, I, O, Ls)
    requires PowersAdded(p, p', k, base, I, O)
    requires OutputsFollowGates(t, p, {})
    ensures OutputsFollowGates(t', p', {})
  {
    forall g, i | g in t'.gates && 0 <= i < |t'.gates[g].outputNodes|
      ensures OutOn(p', t'.gates[g].outputNodes[i]) == Entry(GateVector(p', g), i)
    {
      if g != base {
        assert GateWellFormed(t, g);
      }
    }
  }

  /** Right after construction everything is settled except the new gate,
      whose `updatePower()` the constructor runs next. */
  lemma NewGateCon(t: Topology, p: Powers, k: Kind, base: nat)
    requires Valid(t) && IdsBelow(t, base) && Settled(t, p)
    ensures Con(NewGate(t, k, base), NewPowers(p, k, base), {}, {}, {base}, {})
  {
    FreshIdsBelow(t, k, base);
    NewGateAdded(t, k, base);
    NewPowersAdded(p, k, base);
    var t', p' := NewGate(t, k, base), NewPowers(p, k, base);
    var I, O, Ls := NewIns(k, base), NewOuts(k, base), NewLists(k, base);
    AddedStarts(t, t', p, p', k, base, I, O, Ls);
    AddedEvaluated(t, t', p, p', k, base, I, O, Ls);
    AddedOutputs(t, t', p, p', k, base, I, O, Ls);
  }

  /** The new gate has its kind's arities, fresh input nodes with empty
      slots, and output nodes holding empty arrays; nothing else changes. */
  lemma NewGateShape(t: Topology, k: Kind, base: nat)
    requires IdsBelow(t, base)
    ensures var t' := NewGate(t, k, base);
      && base !in t.gates && base in t'.gates && t'.gates[base].kind == k
      && |t'.gates[base].inputNodes| == InputArity(k)
      && |t'.gates[base].outputNodes| == OutputArity(k)
      && (forall n :: n in t'.gates[base].inputNodes ==> n !in t.ins && n in t'.ins && t'.ins[n].wire.None?)
      && (forall o :: o in t'.gates[base].outputNodes ==> o !in t.outs && CurrentList(t', o) == [])
      && t'.wires == t.wires
      && (forall g :: g in t.gates ==> g in t'.gates && t'.gates[g] == t.gates[g])
  {
    FreshIdsBelow(t, k, base);
    NewGateMaps(t, k, base);
  }
}
