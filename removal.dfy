/** Which wires `Gate.remove` (classes.js:489-509) takes out of the graph:
    the wire in each input node's slot, and every wire its `for...of` loop
    over an output node's `wires` array reaches. As written, the first
    `wire.remove()` of that loop runs the listener registered at connect
    time, which splices the very array being walked, so the loop reaches
    only `SplicedWalk` of it; walking a copy of the array reaches all of
    it. */
module GateRemoval {
  import opened Wrappers
  import opened Sequences
  import opened CircuitModel
  import opened Edits

  /** The wires the loop over output node `o`'s array reaches: as written
      (`fixed` false) the array is spliced at its first wire's recorded
      index after the first step; over a copy (`fixed`) it is walked
      whole. */
  ghost function Swept(t: Topology, o: NodeId, fixed: bool): seq<WireId>
    requires ListsWellFormed(t)
  {
    var a := CurrentList(t, o);
    if fixed || a == [] then a
    else
      assert a[0] in a;
      SplicedWalk(a, t.wires[a[0]].index)
  }

  /** `x` is reached by the loop over one of the output nodes `os`. */
  ghost predicate SweptBy(t: Topology, os: seq<NodeId>, fixed: bool, x: WireId)
    requires ListsWellFormed(t)
    decreases |os|
  {
    os != [] && (SweptBy(t, os[..|os| - 1], fixed, x) || x in Swept(t, os[|os| - 1], fixed))
  }

  /** Wire `x` is attached to gate `g`: it ends at one of `g`'s input nodes
      or starts at one of its output nodes. */
  ghost predicate Touches(t: Topology, g: GateId, x: WireId)
    requires g in t.gates && x in t.wires
  {
    t.wires[x].end in t.gates[g].inputNodes || t.wires[x].start in t.gates[g].outputNodes
  }

  /** Wire `x` is removed with gate `g`: it sits in one of `g`'s input
      slots, or the loop over one of `g`'s output nodes reaches it. */
  ghost predicate Doomed(t: Topology, g: GateId, fixed: bool, x: WireId)
    requires ListsWellFormed(t) && g in t.gates && x in t.wires
  {
    t.wires[x].end in t.gates[g].inputNodes || SweptBy(t, t.gates[g].outputNodes, fixed, x)
  }

  /** Output node `m` is the start of a wire into one of `g`'s input
      nodes, so the input loop of `Gate.remove` may change its array. */
  ghost predicate Feeds(t: Topology, g: GateId, m: NodeId)
    requires g in t.gates
  {
    exists x :: x in t.wires && t.wires[x].start == m && t.wires[x].end in t.gates[g].inputNodes
  }

  /** The loop reaches entries of the array, each once. */
  lemma SweptMembers(t: Topology, o: NodeId, fixed: bool)
    requires ListsWellFormed(t)
    ensures Distinct(Swept(t, o, fixed))
    ensures forall x :: x in Swept(t, o, fixed) ==> x in CurrentList(t, o)
  {
    var a := CurrentList(t, o);
    if !fixed && a != [] {
      assert a[0] in a;
      var i := t.wires[a[0]].index;
      SplicedWalkSkips(a, i);
      SpliceMembers(a, if i == 0 then 1 else i);
    }
  }

  /** The loop reaches the same wires in a graph where `o` holds the same
      array and those wires are unchanged. */
  lemma SweptSame(t: Topology, t': Topology, o: NodeId, fixed: bool)
    requires ListsWellFormed(t) && ListsWellFormed(t') && CurrentList(t', o) == CurrentList(t, o)
    requires forall x :: x in t.wires && x in t'.wires ==> t'.wires[x] == t.wires[x]
    ensures Swept(t', o, fixed) == Swept(t, o, fixed)
  {
    var a := CurrentList(t, o);
    if a != [] {
      assert a[0] in a && a[0] in CurrentList(t', o);
    }
  }

  /** A wire reached by one of the loops starts at that loop's node. */
  lemma {:induction false} SweptByStart(t: Topology, os: seq<NodeId>, fixed: bool, x: WireId)
    requires ListsWellFormed(t) && SweptBy(t, os, fixed, x)
    ensures x in t.wires && t.wires[x].start in os && x in Swept(t, t.wires[x].start, fixed)
  {
    var o := os[|os| - 1];
    if x in Swept(t, o, fixed) {
      SweptMembers(t, o, fixed);
      assert x in CurrentList(t, o);
    } else {
      SweptByStart(t, os[..|os| - 1], fixed, x);
    }
  }

  /** Two graphs in which the nodes `os` hold the same arrays, whose wires
      are unchanged, have the same wires reached. */
  lemma {:induction false} SweptBySame(t: Topology, t': Topology, os: seq<NodeId>, fixed: bool, x: WireId)
    requires ListsWellFormed(t) && ListsWellFormed(t')
    requires forall k :: 0 <= k < |os| ==> CurrentList(t', os[k]) == CurrentList(t, os[k])
    requires forall y :: y in t.wires && y in t'.wires ==> t'.wires[y] == t.wires[y]
    ensures SweptBy(t', os, fixed, x) <==> SweptBy(t, os, fixed, x)
    decreases |os|
  {
    if os != [] {
      SweptSame(t, t', os[|os| - 1], fixed);
      SweptBySame(t, t', os[..|os| - 1], fixed, x);
    }
  }

  /** Walking copies of the arrays, when every wire is listed at its start
      node, reaches exactly the wires starting at one of `os`. */
  lemma {:induction false} SweptByCopies(t: Topology, os: seq<NodeId>, x: WireId)
    requires ListsWellFormed(t) && AllListed(t) && x in t.wires
    ensures SweptBy(t, os, true, x) <==> t.wires[x].start in os
    decreases |os|
  {
    if SweptBy(t, os, true, x) {
      SweptByStart(t, os, true, x);
    } else if os != [] {
      SweptByCopies(t, os[..|os| - 1], x);
      assert Listed(t, x);
      assert os == os[..|os| - 1] + [os[|os| - 1]];
    }
  }

  /** Removing a gate, with each array walked as a copy, removes exactly
      the wires attached to it, as long as every wire is listed. */
  lemma CopiesRemoveAttached(t: Topology, g: GateId)
    requires Valid(t) && AllListed(t) && g in t.gates
    ensures forall x :: x in t.wires ==> (Doomed(t, g, true, x) <==> Touches(t, g, x))
  {
    forall x | x in t.wires
      ensures Doomed(t, g, true, x) <==> Touches(t, g, x)
    {
      SweptByCopies(t, t.gates[g].outputNodes, x);
    }
  }

  /** As written, the loop over an output node holding two wires, the first
      recorded at index 0, reaches only the first: the second wire is left
      in the graph although it is attached to the removed gate. */
  lemma FanOutTwoSurvives(t: Topology, rank: map<GateId, nat>, g: GateId, k: nat, x: WireId, y: WireId)
    requires Valid(t) && Ranked(t, rank) && g in t.gates && k < |t.gates[g].outputNodes|
    requires CurrentList(t, t.gates[g].outputNodes[k]) == [x, y] && x in t.wires && t.wires[x].index == 0
    ensures y in t.wires && Touches(t, g, y) && !Doomed(t, g, false, y)
  {
    var os := t.gates[g].outputNodes;
    WalkOfTwo(t, os[k], x, y);
    if SweptBy(t, os, false, y) {
      SweptByStart(t, os, false, y);
      assert false;
    }
    NoSelfWire(t, rank, g, y);
  }

  /** The walk as written over the array `[x, y]`, with `x` recorded at
      index 0, reaches `x` alone. */
  lemma WalkOfTwo(t: Topology, o: NodeId, x: WireId, y: WireId)
    requires ListsWellFormed(t) && CurrentList(t, o) == [x, y] && x in t.wires && t.wires[x].index == 0
    ensures y in t.wires && t.wires[y].start == o && Swept(t, o, false) == [x]
  {
    assert y in CurrentList(t, o);
  }

  /** A wire leaving an output node of `g` does not come back to `g`: the
      graph has no cycle. */
  lemma NoSelfWire(t: Topology, rank: map<GateId, nat>, g: GateId, y: WireId)
    requires GatesWellFormed(t) && Ranked(t, rank) && g in t.gates && y in t.wires
    requires t.wires[y].start in t.gates[g].outputNodes
    ensures t.wires[y].end !in t.gates[g].inputNodes
  {
    assert GateWellFormed(t, g);
    assert StartGate(t, y) == g;
  }

  // The loops of `Gate.remove`, one removal at a time. `T` is the graph
  // when the loop starts and `t` the graph after `i` (or `j`, `k`) steps.

  /** After the first `i` input nodes of `g`: the wires that ended at them
      are gone, the others are unchanged, `g`'s output nodes hold the
      arrays they held, and so does every node that feeds none of `g`'s
      input nodes. */
  ghost predicate InputsCleared(T: Topology, t: Topology, g: GateId, i: nat)
    requires g in T.gates && i <= |T.gates[g].inputNodes|
  {
    && t.gates == T.gates
    && (forall x :: x in t.wires <==> x in T.wires && T.wires[x].end !in T.gates[g].inputNodes[..i])
    && (forall x :: x in t.wires ==> t.wires[x] == T.wires[x])
    && (forall k :: 0 <= k < |T.gates[g].outputNodes| ==>
          CurrentList(t, T.gates[g].outputNodes[k]) == CurrentList(T, T.gates[g].outputNodes[k]))
    && (forall m :: !Feeds(T, g, m) ==> CurrentList(t, m) == CurrentList(T, m))
  }

  /** Input node `i` of `g` has no wire: nothing to remove. */
  lemma InputFree(T: Topology, t: Topology, g: GateId, i: nat)
    requires WiresWellFormed(t) && g in T.gates && i < |T.gates[g].inputNodes| && InputsCleared(T, t, g, i)
    requires var n := T.gates[g].inputNodes[i]; n in t.ins && t.ins[n].wire.None?
    ensures InputsCleared(T, t, g, i + 1)
  {
    var ns := T.gates[g].inputNodes;
    TakeOneMore(ns, i);
  }

  /** Input node `i` of `g` holds wire `w`, which is removed. The wire
      comes from a gate of higher rank, so not from `g`. */
  lemma InputCleared(T: Topology, t: Topology, rank: map<GateId, nat>, g: GateId, i: nat,
                     w: WireId, newList: ListId, kept: seq<WireId>)
    requires Valid(t) && Ranked(t, rank) && g in T.gates && i < |T.gates[g].inputNodes| && InputsCleared(T, t, g, i)
    requires var n := T.gates[g].inputNodes[i]; n in t.ins && t.ins[n].wire == Some(w)
    requires w in t.wires && t.wires[w].start in t.outs && t.wires[w].end in t.ins && newList !in t.lists
    ensures InputsCleared(T, Detach(t, w, newList, kept), g, i + 1)
  {
    InputWireGone(T, t, g, i, w, newList, kept);
    InputOutputsKept(T, t, rank, g, w, newList, kept);
    InputFeedersKept(T, t, g, i, w, newList, kept);
  }

  /** The removal of `w` changes only the array of `w`'s start node, which
      feeds `g`. */
  lemma InputFeedersKept(T: Topology, t: Topology, g: GateId, i: nat, w: WireId, newList: ListId, kept: seq<WireId>)
    requires NodesWellFormed(t) && WiresWellFormed(t) && g in T.gates && i < |T.gates[g].inputNodes|
    requires InputsCleared(T, t, g, i)
    requires var n := T.gates[g].inputNodes[i]; n in t.ins && t.ins[n].wire == Some(w)
    requires w in t.wires && t.wires[w].start in t.outs && t.wires[w].end in t.ins && newList !in t.lists
    ensures forall m :: !Feeds(T, g, m) ==> CurrentList(Detach(t, w, newList, kept), m) == CurrentList(T, m)
  {
    assert t.wires[w].end == T.gates[g].inputNodes[i];
    assert T.wires[w] == t.wires[w];
    assert Feeds(T, g, t.wires[w].start);
    forall m | !Feeds(T, g, m)
      ensures CurrentList(Detach(t, w, newList, kept), m) == CurrentList(T, m)
    {
      DetachOthers(t, w, newList, kept, m);
    }
  }

  lemma InputWireGone(T: Topology, t: Topology, g: GateId, i: nat, w: WireId, newList: ListId, kept: seq<WireId>)
    requires WiresWellFormed(t) && g in T.gates && i < |T.gates[g].inputNodes| && InputsCleared(T, t, g, i)
    requires var n := T.gates[g].inputNodes[i]; n in t.ins && t.ins[n].wire == Some(w)
    requires w in t.wires && t.wires[w].start in t.outs && t.wires[w].end in t.ins
    ensures var t' := Detach(t, w, newList, kept);
      forall x :: x in t'.wires <==> x in T.wires && T.wires[x].end !in T.gates[g].inputNodes[..i + 1]
  {
    var ns := T.gates[g].inputNodes;
    TakeOneMore(ns, i);
    assert Detach(t, w, newList, kept).wires == t.wires - {w};
    forall x | x in t.wires && T.wires[x].end == ns[i]
      ensures x == w
    {
      assert t.ins[t.wires[x].end].wire == Some(x);
    }
  }

  lemma InputOutputsKept(T: Topology, t: Topology, rank: map<GateId, nat>, g: GateId,
                         w: WireId, newList: ListId, kept: seq<WireId>)
    requires GatesWellFormed(t) && NodesWellFormed(t) && Ranked(t, rank) && g in T.gates && t.gates == T.gates
    requires w in t.wires && t.wires[w].start in t.outs && t.wires[w].end in t.ins && newList !in t.lists
    requires t.ins[t.wires[w].end].gate == g
    requires forall k :: 0 <= k < |T.gates[g].outputNodes| ==>
      CurrentList(t, T.gates[g].outputNodes[k]) == CurrentList(T, T.gates[g].outputNodes[k])
    ensures forall k :: 0 <= k < |T.gates[g].outputNodes| ==>
      CurrentList(Detach(t, w, newList, kept), T.gates[g].outputNodes[k]) == CurrentList(T, T.gates[g].outputNodes[k])
  {
    var os := T.gates[g].outputNodes;
    assert EndGate(t, w) == g;
    forall k | 0 <= k < |os|
      ensures CurrentList(Detach(t, w, newList, kept), os[k]) == CurrentList(t, os[k])
    {
      assert GateWellFormed(t, g);
      assert GateOfOut(t, os[k]) == g;
      DetachOthers(t, w, newList, kept, os[k]);
    }
  }

  /** The walk over output node `o`'s array `L` as written, after `j`
      steps: the first step spliced `L` and gave `o` a new array, so `L`
      no longer changes; the wires reached so far are gone. */
  ghost predicate WalkedLive(T: Topology, t: Topology, o: NodeId, L: ListId, j: nat)
    requires ListsWellFormed(T)
  {
    var a := CurrentList(T, o);
    && o in T.outs && T.outs[o].wires == L && L in t.lists
    && (j == 0 ==> t == T)
    && (j > 0 ==> a != [] && a[0] in T.wires && t.lists[L] == Splice(a, T.wires[a[0]].index)
                  && o in t.outs && t.outs[o].wires != L)
    && j <= |Swept(T, o, false)|
    && (forall x :: x in t.wires <==> x in T.wires && x !in Swept(T, o, false)[..j])
    && (forall x :: x in t.wires ==> t.wires[x] == T.wires[x])
    && (forall m :: m != o ==> CurrentList(t, m) == CurrentList(T, m))
  }

  /** The wire the walk reaches next is live, starts at `o`, and is the
      next entry of `Swept`. */
  lemma WalkNext(T: Topology, t: Topology, o: NodeId, L: ListId, j: nat)
    requires ListsWellFormed(T) && WalkedLive(T, t, o, L, j) && j < |t.lists[L]|
    ensures j < |Swept(T, o, false)| && t.lists[L][j] == Swept(T, o, false)[j]
    ensures t.lists[L][j] in t.wires && t.wires[t.lists[L][j]].start == o
  {
    var a := CurrentList(T, o);
    var walk := Swept(T, o, false);
    SweptMembers(T, o, false);
    if j > 0 {
      var i := T.wires[a[0]].index;
      SplicedWalkSkips(a, i);
      assert walk[j] == Splice(a, i)[j];
    }
    assert walk[j] in CurrentList(T, o);
    assert walk[j] !in walk[..j];
  }

  /** Removing wire `w`, which starts at `o`, takes out `w` alone and
      leaves every other output node its array. */
  lemma DetachFrom(t: Topology, w: WireId, newList: ListId, kept: seq<WireId>, o: NodeId)
    requires NodesWellFormed(t) && w in t.wires && t.wires[w].start == o && o in t.outs && t.wires[w].end in t.ins
    requires newList !in t.lists
    ensures Detach(t, w, newList, kept).wires == t.wires - {w}
    ensures forall m :: m != o ==> CurrentList(Detach(t, w, newList, kept), m) == CurrentList(t, m)
  {
    forall m | m != o
      ensures CurrentList(Detach(t, w, newList, kept), m) == CurrentList(t, m)
    {
      DetachOthers(t, w, newList, kept, m);
    }
  }

  /** One step of the walk as written: the next wire is removed. */
  lemma WalkStep(T: Topology, t: Topology, o: NodeId, L: ListId, j: nat, newList: ListId)
    requires ListsWellFormed(T) && NodesWellFormed(t) && WiresWellFormed(t)
    requires WalkedLive(T, t, o, L, j) && j < |t.lists[L]| && newList !in t.lists
    ensures var w := t.lists[L][j];
      w in t.wires && t.wires[w].start in t.outs && t.wires[w].end in t.ins &&
      WalkedLive(T, Detach(t, w, newList, SplicedList(t, w)), o, L, j + 1)
  {
    var walk := Swept(T, o, false);
    WalkNext(T, t, o, L, j);
    var w := t.lists[L][j];
    DetachFrom(t, w, newList, SplicedList(t, w), o);
    TakeOneMore(walk, j);
  }

  /** The walk as written ends having reached all of `Swept`. */
  lemma WalkDone(T: Topology, t: Topology, o: NodeId, L: ListId, j: nat)
    requires ListsWellFormed(T) && WalkedLive(T, t, o, L, j) && j >= |t.lists[L]|
    ensures Swept(T, o, false)[..j] == Swept(T, o, false)
  {
    var a := CurrentList(T, o);
    if j > 0 {
      SplicedWalkSkips(a, T.wires[a[0]].index);
    }
  }

  /** The walk over a copy `ws` of output node `o`'s array, after `j`
      steps. */
  ghost predicate WalkedCopy(T: Topology, t: Topology, o: NodeId, ws: seq<WireId>, j: nat)
  {
    && ws == CurrentList(T, o) && j <= |ws|
    && (forall x :: x in t.wires <==> x in T.wires && x !in ws[..j])
    && (forall x :: x in t.wires ==> t.wires[x] == T.wires[x])
    && (forall m :: m != o ==> CurrentList(t, m) == CurrentList(T, m))
  }

  /** One step of the walk over the copy: the next wire is removed with the
      filter alone. */
  lemma CopyStep(T: Topology, t: Topology, o: NodeId, ws: seq<WireId>, j: nat, newList: ListId)
    requires ListsWellFormed(T) && NodesWellFormed(t) && WiresWellFormed(t)
    requires WalkedCopy(T, t, o, ws, j) && j < |ws| && newList !in t.lists
    ensures ws[j] in t.wires && t.wires[ws[j]].start in t.outs && t.wires[ws[j]].end in t.ins
    ensures WalkedCopy(T, Detach(t, ws[j], newList, CurrentList(t, t.wires[ws[j]].start)), o, ws, j + 1)
  {
    var w := ws[j];
    assert w in CurrentList(T, o) && w !in ws[..j];
    DetachFrom(t, w, newList, CurrentList(t, o), o);
    TakeOneMore(ws, j);
  }

  /** The walk over the copy ends having removed all of `Swept`. */
  lemma CopyDone(T: Topology, t: Topology, o: NodeId, ws: seq<WireId>)
    requires ListsWellFormed(T) && WalkedCopy(T, t, o, ws, |ws|)
    ensures forall x :: x in t.wires <==> x in T.wires && x !in Swept(T, o, true)
  {
    assert ws[..|ws|] == ws;
  }

  /** After the walks over the first `k` output nodes `os`: the wires they
      reached are gone, and the nodes still to come, like every node not in
      `os`, hold their arrays. */
  ghost predicate OutputsSwept(T: Topology, t: Topology, os: seq<NodeId>, fixed: bool, k: nat)
    requires ListsWellFormed(T) && k <= |os|
  {
    && (forall x :: x in t.wires <==> x in T.wires && !SweptBy(T, os[..k], fixed, x))
    && (forall x :: x in t.wires ==> t.wires[x] == T.wires[x])
    && (forall k' :: k <= k' < |os| ==> CurrentList(t, os[k']) == CurrentList(T, os[k']))
    && (forall m :: m !in os ==> CurrentList(t, m) == CurrentList(T, m))
  }

  /** The walk over output node `k` adds what it reaches. */
  lemma OutputStep(T: Topology, t: Topology, t': Topology, os: seq<NodeId>, fixed: bool, k: nat)
    requires ListsWellFormed(T) && ListsWellFormed(t) && Distinct(os) && k < |os| && OutputsSwept(T, t, os, fixed, k)
    requires forall x :: x in t'.wires <==> x in t.wires && x !in Swept(t, os[k], fixed)
    requires forall x :: x in t'.wires ==> t'.wires[x] == t.wires[x]
    requires forall m :: m != os[k] ==> CurrentList(t', m) == CurrentList(t, m)
    ensures OutputsSwept(T, t', os, fixed, k + 1)
  {
    SweptSame(T, t, os[k], fixed);
    TakeOneMore(os, k);
    assert os[..k + 1][..k] == os[..k];
    forall k' | k + 1 <= k' < |os|
      ensures CurrentList(t', os[k']) == CurrentList(T, os[k'])
    {
      assert os[k'] != os[k];
    }
    assert os[k] in os;
  }

  /** The input loop, then the output loops, remove exactly the doomed
      wires and leave the others as they were. */
  lemma DismantledWires(T: Topology, T1: Topology, T2: Topology, g: GateId, fixed: bool)
    requires ListsWellFormed(T) && ListsWellFormed(T1) && g in T.gates
    requires InputsCleared(T, T1, g, |T.gates[g].inputNodes|)
    requires OutputsSwept(T1, T2, T.gates[g].outputNodes, fixed, |T.gates[g].outputNodes|)
    ensures forall x :: x in T2.wires <==> x in T.wires && !Doomed(T, g, fixed, x)
    ensures forall x :: x in T2.wires ==> T2.wires[x] == T.wires[x]
    ensures forall m :: m !in T.gates[g].outputNodes && !Feeds(T, g, m) ==> CurrentList(T2, m) == CurrentList(T, m)
  {
    var ns := T.gates[g].inputNodes;
    var os := T.gates[g].outputNodes;
    assert ns[..|ns|] == ns && os[..|os|] == os;
    forall x
      ensures SweptBy(T1, os, fixed, x) <==> SweptBy(T, os, fixed, x)
    {
      SweptBySame(T, T1, os, fixed, x);
    }
  }
}
