/** The check of `submitSolution` (script.js): each truth-table row is
    driven onto the level's input gates one gate at a time, the output
    gates' first entries are compared with the row, and afterwards every
    input gate is forced once more with the vector recorded for it. */
module Solutions {
  import opened Wrappers
  import opened Sequences
  import opened GateCatalog
  import opened TruthTable
  import opened CircuitModel
  import opened Propagation
  import opened Edits
  import opened Circuits

  /** `tableRow.input[j] === 1`; a missing entry is `undefined`, not 1. */
  function InputBit(row: Row, j: nat): bool {
    j < |row.input| && row.input[j] == 1
  }

  /** `level.truth[i].output[j] === 1`. */
  function OutputBit(row: Row, j: nat): bool {
    j < |row.output| && row.output[j] == 1
  }

  /** `hasPower[0]` of gate `g`: `undefined` when its vector is empty. */
  function Reading(p: Powers, g: GateId): Option<bool> {
    if |GateVector(p, g)| > 0 then Some(GateVector(p, g)[0]) else None
  }

  /** No output gate differs from the row: `hasPower[0] !== (output[j] === 1)`
      is false for every `j`. An `undefined` reading differs from both. */
  predicate RowMatches(p: Powers, outs: seq<GateId>, row: Row) {
    forall j :: 0 <= j < |outs| ==> Reading(p, outs[j]) == Some(OutputBit(row, j))
  }

  /** The level's input gates are switchable gates of the graph. */
  predicate InputGates(t: Topology, ins: seq<GateId>) {
    forall j :: 0 <= j < |ins| ==> ins[j] in t.gates && Switchable(t.gates[ins[j]].kind)
  }

  /** Vectors of one entry each, as the input gates hold. */
  predicate OneBits(vs: seq<seq<bool>>) {
    forall k :: 0 <= k < |vs| ==> |vs[k]| == 1
  }

  /** `updatePower(fs[j])` on `ins[j]`, then on `ins[j + 1]`, and so on to
      the last input gate. */
  ghost function ForceEach(t: Topology, rank: map<GateId, nat>, p: Powers, ins: seq<GateId>,
                           fs: seq<seq<bool>>, j: nat): Run
    requires |fs| == |ins| && j <= |ins|
    decreases |ins| - j
  {
    if j == |ins| then Run(p, [])
    else
      var r1 := GateRun(t, rank, p, ins[j], fs[j]);
      var r2 := ForceEach(t, rank, r1.power, ins, fs, j + 1);
      Run(r2.power, r1.emitted + r2.emitted)
  }

  /** What `originalPower.push(inputGate.hasPower)` records along such a
      run: each gate's vector just before it is forced. */
  ghost function Captured(t: Topology, rank: map<GateId, nat>, p: Powers, ins: seq<GateId>,
                          fs: seq<seq<bool>>, j: nat): (r: seq<seq<bool>>)
    requires |fs| == |ins| && j <= |ins|
    decreases |ins| - j
    ensures |r| == |ins| - j
  {
    if j == |ins| then []
    else [GateVector(p, ins[j])] + Captured(t, rank, GateRun(t, rank, p, ins[j], fs[j]).power, ins, fs, j + 1)
  }

  /** The vectors `[tableRow.input[j] === 1]` a row forces on the input gates. */
  function RowForces(row: Row, n: nat): (fs: seq<seq<bool>>)
    ensures |fs| == n && OneBits(fs)
    ensures forall j :: 0 <= j < n ==> fs[j] == [InputBit(row, j)]
  {
    if n == 0 then [] else RowForces(row, n - 1) + [[InputBit(row, n - 1)]]
  }

  /** The vectors the restore forces: `originalPower[i]`, or `updatePower`'s
      default `[false]` where nothing was recorded (an empty table). */
  function RestoreForces(orig: seq<seq<bool>>, n: nat): (fs: seq<seq<bool>>)
    ensures |fs| == n
    ensures forall j :: 0 <= j < n ==> fs[j] == if j < |orig| then orig[j] else [false]
    ensures OneBits(orig) ==> OneBits(fs)
  {
    if n == 0 then [] else RestoreForces(orig, n - 1) + [if n - 1 < |orig| then orig[n - 1] else [false]]
  }

  /** Rows `k` to `i - 1` driven in turn, starting from `p`. */
  ghost function DriveRows(t: Topology, rank: map<GateId, nat>, p: Powers, ins: seq<GateId>,
                           truth: seq<Row>, k: nat, i: nat): Run
    requires k <= i <= |truth|
    decreases i - k
  {
    if k == i then Run(p, [])
    else
      var r1 := ForceEach(t, rank, p, ins, RowForces(truth[k], |ins|), 0);
      var r2 := DriveRows(t, rank, r1.power, ins, truth, k + 1, i);
      Run(r2.power, r1.emitted + r2.emitted)
  }

  /** Driving one more row extends the run by that row's forcing. */
  lemma {:induction false} DriveRowsSnoc(t: Topology, rank: map<GateId, nat>, p: Powers, ins: seq<GateId>,
                                         truth: seq<Row>, k: nat, i: nat)
    requires k <= i < |truth|
    decreases i - k
    ensures var d := DriveRows(t, rank, p, ins, truth, k, i);
      var r := ForceEach(t, rank, d.power, ins, RowForces(truth[i], |ins|), 0);
      DriveRows(t, rank, p, ins, truth, k, i + 1) == Run(r.power, d.emitted + r.emitted)
  {
    var r1 := ForceEach(t, rank, p, ins, RowForces(truth[k], |ins|), 0);
    if k < i {
      DriveRowsSnoc(t, rank, r1.power, ins, truth, k + 1, i);
      var d := DriveRows(t, rank, r1.power, ins, truth, k + 1, i);
      AppendAssoc(r1.emitted, d.emitted, ForceEach(t, rank, d.power, ins, RowForces(truth[i], |ins|), 0).emitted);
    } else {
      AppendEmpty(r1.emitted);
    }
  }

  /** The vectors recorded during the first row, or none for an empty table. */
  ghost function Originals(t: Topology, rank: map<GateId, nat>, p: Powers, ins: seq<GateId>,
                           truth: seq<Row>): seq<seq<bool>>
  {
    if |truth| > 0 then Captured(t, rank, p, ins, RowForces(truth[0], |ins|), 0) else []
  }

  /** Distinct input gates of a well-formed graph. */
  ghost predicate DistinctInputs(t: Topology, ins: seq<GateId>) {
    GatesWellFormed(t) && NodesWellFormed(t) && InputGates(t, ins) && Distinct(ins)
  }

  /** Forcing gate `g` leaves every other forced gate alone. */
  lemma GateRunLeaves(t: Topology, rank: map<GateId, nat>, p: Powers, g: GateId, forced: seq<bool>, h: GateId)
    requires GatesWellFormed(t) && NodesWellFormed(t) && g in t.gates
    requires h in t.gates && Forced(t.gates[h].kind) && h != g
    ensures GateVector(GateRun(t, rank, p, g, forced).power, h) == GateVector(p, h)
  {
    GateRunForced(t, rank, p, g, forced);
    KeptForcedAt(t, p, GateRun(t, rank, p, g, forced).power, {g}, h);
  }

  /** A forcing run from `j` leaves alone every forced gate it does not
      force. */
  lemma {:induction false} ForceEachLeaves(t: Topology, rank: map<GateId, nat>, p: Powers, ins: seq<GateId>,
                                           fs: seq<seq<bool>>, j: nat, h: GateId)
    requires GatesWellFormed(t) && NodesWellFormed(t) && InputGates(t, ins) && |fs| == |ins| && j <= |ins|
    requires h in t.gates && Forced(t.gates[h].kind)
    requires forall m :: j <= m < |ins| ==> ins[m] != h
    decreases |ins| - j
    ensures GateVector(ForceEach(t, rank, p, ins, fs, j).power, h) == GateVector(p, h)
  {
    if j < |ins| {
      var p' := GateRun(t, rank, p, ins[j], fs[j]).power;
      GateRunLeaves(t, rank, p, ins[j], fs[j], h);
      ForceEachLeaves(t, rank, p', ins, fs, j + 1, h);
    }
  }

  /** With distinct input gates, the run from `j` leaves each gate `ins[k]`
      it forces holding `fs[k]`. */
  lemma {:induction false} ForceEachSetsAt(t: Topology, rank: map<GateId, nat>, p: Powers, ins: seq<GateId>,
                                           fs: seq<seq<bool>>, j: nat, k: nat)
    requires DistinctInputs(t, ins) && |fs| == |ins| && j <= k < |ins|
    decreases k - j
    ensures GateVector(ForceEach(t, rank, p, ins, fs, j).power, ins[k]) == fs[k]
  {
    var p' := GateRun(t, rank, p, ins[j], fs[j]).power;
    if j == k {
      GateRunForced(t, rank, p, ins[j], fs[j]);
      ForceEachLeaves(t, rank, p', ins, fs, j + 1, ins[j]);
    } else {
      ForceEachSetsAt(t, rank, p', ins, fs, j + 1, k);
    }
  }

  /** With distinct input gates, entry `i` of what the run from `j` records
      is what gate `ins[j + i]` held when the run started: forcing the gates
      before it did not touch it. */
  lemma {:induction false} CapturedAt(t: Topology, rank: map<GateId, nat>, p: Powers, ins: seq<GateId>,
                                      fs: seq<seq<bool>>, j: nat, i: nat)
    requires DistinctInputs(t, ins) && |fs| == |ins| && j + i < |ins|
    decreases i
    ensures Captured(t, rank, p, ins, fs, j)[i] == GateVector(p, ins[j + i])
  {
    if i == 0 {
      CapturedHead(t, rank, p, ins, fs, j);
      assert j + i == j;
    } else {
      var p' := GateRun(t, rank, p, ins[j], fs[j]).power;
      CapturedTail(t, rank, p, ins, fs, j, i);
      CapturedAt(t, rank, p', ins, fs, j + 1, i - 1);
      assert (j + 1) + (i - 1) == j + i;
      GateRunLeaves(t, rank, p, ins[j], fs[j], ins[j + i]);
    }
  }

  /** The run from `j` first records gate `ins[j]`. */
  lemma CapturedHead(t: Topology, rank: map<GateId, nat>, p: Powers, ins: seq<GateId>, fs: seq<seq<bool>>, j: nat)
    requires |fs| == |ins| && j < |ins|
    ensures Captured(t, rank, p, ins, fs, j)[0] == GateVector(p, ins[j])
  {
  }

  /** The rest of what it records is what the run from `j + 1` records. */
  lemma CapturedTail(t: Topology, rank: map<GateId, nat>, p: Powers, ins: seq<GateId>, fs: seq<seq<bool>>,
                     j: nat, i: nat)
    requires |fs| == |ins| && 0 < i && j + i < |ins|
    ensures Captured(t, rank, p, ins, fs, j)[i]
            == Captured(t, rank, GateRun(t, rank, p, ins[j], fs[j]).power, ins, fs, j + 1)[i - 1]
  {
  }

  /** The restore at the end of the check: with distinct input gates, each
      input gate ends up with the vector it held before the check, or off
      when the table is empty. */
  lemma RestoredVectors(t: Topology, rank: map<GateId, nat>, p0: Powers, p: Powers, ins: seq<GateId>,
                        truth: seq<Row>)
    requires DistinctInputs(t, ins)
    ensures forall k :: 0 <= k < |ins| ==>
      GateVector(ForceEach(t, rank, p, ins, RestoreForces(Originals(t, rank, p0, ins, truth), |ins|), 0).power, ins[k])
      == if |truth| > 0 then GateVector(p0, ins[k]) else [false]
  {
    forall k | 0 <= k < |ins|
      ensures GateVector(ForceEach(t, rank, p, ins, RestoreForces(Originals(t, rank, p0, ins, truth), |ins|), 0).power, ins[k])
              == if |truth| > 0 then GateVector(p0, ins[k]) else [false]
    {
      RestoredAt(t, rank, p0, p, ins, truth, k);
    }
  }

  /** The same for one input gate. */
  lemma RestoredAt(t: Topology, rank: map<GateId, nat>, p0: Powers, p: Powers, ins: seq<GateId>,
                   truth: seq<Row>, k: nat)
    requires DistinctInputs(t, ins) && k < |ins|
    ensures GateVector(ForceEach(t, rank, p, ins, RestoreForces(Originals(t, rank, p0, ins, truth), |ins|), 0).power, ins[k])
            == if |truth| > 0 then GateVector(p0, ins[k]) else [false]
  {
    var orig := Originals(t, rank, p0, ins, truth);
    var fs := RestoreForces(orig, |ins|);
    ForceEachSetsAt(t, rank, p, ins, fs, 0, k);
    if |truth| > 0 {
      CapturedAt(t, rank, p0, ins, RowForces(truth[0], |ins|), 0, k);
      assert orig[k] == GateVector(p0, ins[k]);
      assert fs[k] == orig[k];
    } else {
      assert fs[k] == [false];
    }
  }

  /** Forcing one-entry vectors on input gates, one after the other, keeps
      the circuit's invariant. */
  lemma {:induction false} ForceEachKeeps(t: Topology, rank: map<GateId, nat>, next: nat, p: Powers,
                                          em: map<GateId, bool>, ins: seq<GateId>, fs: seq<seq<bool>>, j: nat)
    requires Good(t, rank, next, p, em) && InputGates(t, ins)
    requires |fs| == |ins| && j <= |ins| && OneBits(fs)
    decreases |ins| - j
    ensures Good(t, rank, next, ForceEach(t, rank, p, ins, fs, j).power, em)
  {
    if j < |ins| {
      InputRunKeeps(t, rank, next, p, em, ins[j], fs[j]);
      ForceEachKeeps(t, rank, next, GateRun(t, rank, p, ins[j], fs[j]).power, em, ins, fs, j + 1);
    }
  }

  /** Every vector recorded along such a run has one entry. */
  lemma {:induction false} CapturedOneBits(t: Topology, rank: map<GateId, nat>, p: Powers,
                                           ins: seq<GateId>, fs: seq<seq<bool>>, j: nat)
    requires GatesWellFormed(t) && NodesWellFormed(t) && ForcedOneBit(t, p) && InputGates(t, ins)
    requires |fs| == |ins| && j <= |ins| && OneBits(fs)
    decreases |ins| - j
    ensures OneBits(Captured(t, rank, p, ins, fs, j))
  {
    if j < |ins| {
      var g := ins[j];
      GateRunOneBit(t, rank, p, g, fs[j]);
      SwitchableOneBit(t, p, g);
      var p' := GateRun(t, rank, p, g, fs[j]).power;
      CapturedOneBits(t, rank, p', ins, fs, j + 1);
      assert Captured(t, rank, p, ins, fs, j) == [GateVector(p, g)] + Captured(t, rank, p', ins, fs, j + 1);
    }
  }

  /** Driving one row keeps the invariant, and what it records has one
      entry per vector. */
  lemma RowKeeps(t: Topology, rank: map<GateId, nat>, next: nat, em: map<GateId, bool>, ins: seq<GateId>,
                 row: Row, p: Powers, before: seq<seq<bool>>, after: seq<seq<bool>>)
    requires Good(t, rank, next, p, em) && InputGates(t, ins) && OneBits(before)
    requires after == before + Captured(t, rank, p, ins, RowForces(row, |ins|), 0)
    ensures Good(t, rank, next, ForceEach(t, rank, p, ins, RowForces(row, |ins|), 0).power, em)
    ensures OneBits(after)
  {
    ForceEachKeeps(t, rank, next, p, em, ins, RowForces(row, |ins|), 0);
    CapturedOneBits(t, rank, p, ins, RowForces(row, |ins|), 0);
  }

  /** Rows `0` to `i - 1` all matched, each read right after it was driven. */
  ghost predicate AllMatch(t: Topology, rank: map<GateId, nat>, p: Powers, ins: seq<GateId>, outs: seq<GateId>,
                           truth: seq<Row>, i: nat)
    requires i <= |truth|
  {
    forall r :: 0 <= r < i ==> RowMatches(DriveRows(t, rank, p, ins, truth, 0, r + 1).power, outs, truth[r])
  }

  /** One pass of the row loop: the recorded prefix stays the first row's
      vectors, and the answer so far takes in row `i`. */
  lemma RowStep(t: Topology, rank: map<GateId, nat>, p: Powers, ins: seq<GateId>, outs: seq<GateId>,
                truth: seq<Row>, i: nat, before: seq<seq<bool>>, after: seq<seq<bool>>, correct: bool, ok: bool,
                tr0: seq<(WireId, bool)>)
    requires i < |truth|
    requires i == 0 ==> before == []
    requires i > 0 ==> |ins| <= |before| && before[..|ins|] == Originals(t, rank, p, ins, truth)
    requires after == before + Captured(t, rank, DriveRows(t, rank, p, ins, truth, 0, i).power, ins, RowForces(truth[i], |ins|), 0)
    requires correct == AllMatch(t, rank, p, ins, outs, truth, i)
    requires ok == RowMatches(ForceEach(t, rank, DriveRows(t, rank, p, ins, truth, 0, i).power, ins, RowForces(truth[i], |ins|), 0).power, outs, truth[i])
    ensures |ins| <= |after| && after[..|ins|] == Originals(t, rank, p, ins, truth)
    ensures (correct && ok) == AllMatch(t, rank, p, ins, outs, truth, i + 1)
    ensures var d := DriveRows(t, rank, p, ins, truth, 0, i);
      var r := ForceEach(t, rank, d.power, ins, RowForces(truth[i], |ins|), 0);
      && DriveRows(t, rank, p, ins, truth, 0, i + 1).power == r.power
      && tr0 + DriveRows(t, rank, p, ins, truth, 0, i + 1).emitted == tr0 + d.emitted + r.emitted
  {
    DriveRowsSnoc(t, rank, p, ins, truth, 0, i);
    var d := DriveRows(t, rank, p, ins, truth, 0, i);
    AppendAssoc(tr0, d.emitted, ForceEach(t, rank, d.power, ins, RowForces(truth[i], |ins|), 0).emitted);
    if i > 0 {
      assert after[..|ins|] == before[..|ins|];
    }
  }

  /** Only the first `n` recorded vectors matter to the restore. */
  lemma RestoreForcesPrefix(recorded: seq<seq<bool>>, orig: seq<seq<bool>>, n: nat)
    requires (recorded == [] && orig == []) || (|orig| == n <= |recorded| && recorded[..n] == orig)
    ensures RestoreForces(recorded, n) == RestoreForces(orig, n)
  {
    if orig != [] {
      forall j | 0 <= j < n ensures RestoreForces(recorded, n)[j] == RestoreForces(orig, n)[j] {
        assert recorded[..n][j] == recorded[j];
      }
    }
  }

  /** One push of `originalPower.push(hasPower)` in step with the run. */
  lemma RecordStep(t: Topology, rank: map<GateId, nat>, p: Powers, ins: seq<GateId>, fs: seq<seq<bool>>, j: nat,
                   recorded: seq<seq<bool>>, whole: seq<seq<bool>>)
    requires |fs| == |ins| && j < |ins|
    requires recorded + Captured(t, rank, p, ins, fs, j) == whole
    ensures (recorded + [GateVector(p, ins[j])]) + Captured(t, rank, GateRun(t, rank, p, ins[j], fs[j]).power, ins, fs, j + 1) == whole
  {
    AppendAssoc(recorded, [GateVector(p, ins[j])], Captured(t, rank, GateRun(t, rank, p, ins[j], fs[j]).power, ins, fs, j + 1));
  }

  /** One `updatePower` in step with the run and its emissions. */
  lemma RunStep(t: Topology, rank: map<GateId, nat>, p: Powers, ins: seq<GateId>, fs: seq<seq<bool>>, j: nat,
                emitted: seq<(WireId, bool)>, whole: Run)
    requires |fs| == |ins| && j < |ins|
    requires ForceEach(t, rank, p, ins, fs, j).power == whole.power
    requires emitted + ForceEach(t, rank, p, ins, fs, j).emitted == whole.emitted
    ensures var r1 := GateRun(t, rank, p, ins[j], fs[j]);
      && ForceEach(t, rank, r1.power, ins, fs, j + 1).power == whole.power
      && (emitted + r1.emitted) + ForceEach(t, rank, r1.power, ins, fs, j + 1).emitted == whole.emitted
  {
    var r1 := GateRun(t, rank, p, ins[j], fs[j]);
    AppendAssoc(emitted, r1.emitted, ForceEach(t, rank, r1.power, ins, fs, j + 1).emitted);
  }

  /** The inner loop over the input gates for one row, on the graph `t`
      (the circuit's own): record each gate's vector on `originalPower`,
      then `updatePower([tableRow.input[j] === 1])` on it. */
  method DriveRow(c: Circuit, t: Topology, ghost rk: map<GateId, nat>, ins: seq<GateId>, row: Row,
                  originalPower: seq<seq<bool>>) returns (recorded: seq<seq<bool>>)
    requires Valid(t) && Ranked(t, rk) && InputGates(t, ins)
    modifies c`power, c`transitions
    ensures recorded == originalPower + Captured(t, rk, old(c.power), ins, RowForces(row, |ins|), 0)
    ensures c.power == ForceEach(t, rk, old(c.power), ins, RowForces(row, |ins|), 0).power
    ensures c.transitions == old(c.transitions) + ForceEach(t, rk, old(c.power), ins, RowForces(row, |ins|), 0).emitted
  {
    ghost var fs := RowForces(row, |ins|);
    ghost var full := ForceEach(t, rk, c.power, ins, fs, 0);
    ghost var cap := Captured(t, rk, c.power, ins, fs, 0);
    ghost var t0 := c.transitions;
    recorded := originalPower;
    for j := 0 to |ins|
      invariant recorded + Captured(t, rk, c.power, ins, fs, j) == originalPower + cap
      invariant ForceEach(t, rk, c.power, ins, fs, j).power == full.power
      invariant c.transitions + ForceEach(t, rk, c.power, ins, fs, j).emitted == t0 + full.emitted
    {
      ghost var before := c.power;
      RecordStep(t, rk, before, ins, fs, j, recorded, originalPower + cap);
      RunStep(t, rk, before, ins, fs, j, c.transitions, Run(full.power, t0 + full.emitted));
      recorded := recorded + [GateVector(c.power, ins[j])];
      c.UpdatePower(t, rk, ins[j], [InputBit(row, j)]);
    }
    AppendEmpty(c.transitions);
    AppendEmpty(recorded);
  }

  /** The inner loop over the output gates for one row: the row is correct
      unless some output gate's first entry differs from the row's bit. */
  method RowAgrees(c: Circuit, outs: seq<GateId>, row: Row) returns (ok: bool)
    ensures ok <==> RowMatches(c.power, outs, row)
  {
    ok := true;
    for j := 0 to |outs|
      invariant ok <==> forall k :: 0 <= k < j ==> Reading(c.power, outs[k]) == Some(OutputBit(row, k))
    {
      if Reading(c.power, outs[j]) != Some(OutputBit(row, j)) {
        ok := false;
      }
    }
  }

  /** The loop over the truth table's rows: drive each row, then read the
      output gates, with no early exit. */
  method CheckRows(c: Circuit, t: Topology, ghost rk: map<GateId, nat>, ghost nx: nat, ghost em: map<GateId, bool>,
                   ins: seq<GateId>, outs: seq<GateId>, truth: seq<Row>)
    returns (correct: bool, originalPower: seq<seq<bool>>)
    requires Good(t, rk, nx, c.power, em) && InputGates(t, ins)
    modifies c`power, c`transitions
    ensures Good(t, rk, nx, c.power, em) && OneBits(originalPower)
    ensures correct == AllMatch(t, rk, old(c.power), ins, outs, truth, |truth|)
    ensures |truth| == 0 ==> originalPower == []
    ensures |truth| > 0 ==> |ins| <= |originalPower| && originalPower[..|ins|] == Originals(t, rk, old(c.power), ins, truth)
    ensures c.power == DriveRows(t, rk, old(c.power), ins, truth, 0, |truth|).power
    ensures c.transitions == old(c.transitions) + DriveRows(t, rk, old(c.power), ins, truth, 0, |truth|).emitted
  {
    ghost var p0, tr0 := c.power, c.transitions;
    originalPower := [];
    correct := true;
    for i := 0 to |truth|
      invariant c.power == DriveRows(t, rk, p0, ins, truth, 0, i).power
      invariant c.transitions == tr0 + DriveRows(t, rk, p0, ins, truth, 0, i).emitted
      invariant i == 0 ==> originalPower == []
      invariant i > 0 ==> |ins| <= |originalPower| && originalPower[..|ins|] == Originals(t, rk, p0, ins, truth)
      invariant correct == AllMatch(t, rk, p0, ins, outs, truth, i)
      invariant Good(t, rk, nx, c.power, em) && OneBits(originalPower)
    {
      ghost var d := DriveRows(t, rk, p0, ins, truth, 0, i);
      ghost var before := originalPower;
      originalPower := DriveRow(c, t, rk, ins, truth[i], originalPower);
      RowKeeps(t, rk, nx, em, ins, truth[i], d.power, before, originalPower);
      var ok := RowAgrees(c, outs, truth[i]);
      RowStep(t, rk, p0, ins, outs, truth, i, before, originalPower, correct, ok, tr0);
      correct := correct && ok;
    }
  }

  /** The final loop on the graph `t`: `inputGates[i].updatePower(originalPower[i])`,
      where a missing entry leaves `updatePower` its default `[false]`. */
  method RestoreInputs(c: Circuit, t: Topology, ghost rk: map<GateId, nat>, ins: seq<GateId>,
                       originalPower: seq<seq<bool>>)
    requires Valid(t) && Ranked(t, rk) && InputGates(t, ins)
    modifies c`power, c`transitions
    ensures c.power == ForceEach(t, rk, old(c.power), ins, RestoreForces(originalPower, |ins|), 0).power
    ensures c.transitions == old(c.transitions) + ForceEach(t, rk, old(c.power), ins, RestoreForces(originalPower, |ins|), 0).emitted
  {
    ghost var fs := RestoreForces(originalPower, |ins|);
    ghost var full := ForceEach(t, rk, c.power, ins, fs, 0);
    ghost var t0 := c.transitions;
    for i := 0 to |ins|
      invariant ForceEach(t, rk, c.power, ins, fs, i).power == full.power
      invariant c.transitions + ForceEach(t, rk, c.power, ins, fs, i).emitted == t0 + full.emitted
    {
      ghost var before := c.power;
      var forced := if i < |originalPower| then originalPower[i] else [false];
      assert forced == fs[i];
      RunStep(t, rk, before, ins, fs, i, c.transitions, Run(full.power, t0 + full.emitted));
      c.UpdatePower(t, rk, ins[i], forced);
    }
    AppendEmpty(c.transitions);
  }

  /** The restore after the rows forces the first row's recorded vectors
      and keeps the invariant. */
  lemma RestoreKeeps(t: Topology, rank: map<GateId, nat>, next: nat, em: map<GateId, bool>, p0: Powers,
                     ins: seq<GateId>, truth: seq<Row>, originalPower: seq<seq<bool>>, q: Powers)
    requires InputGates(t, ins) && OneBits(originalPower)
    requires Good(t, rank, next, DriveRows(t, rank, p0, ins, truth, 0, |truth|).power, em)
    requires |truth| == 0 ==> originalPower == []
    requires |truth| > 0 ==> |ins| <= |originalPower| && originalPower[..|ins|] == Originals(t, rank, p0, ins, truth)
    requires q == ForceEach(t, rank, DriveRows(t, rank, p0, ins, truth, 0, |truth|).power, ins,
                            RestoreForces(originalPower, |ins|), 0).power
    ensures RestoreForces(originalPower, |ins|) == RestoreForces(Originals(t, rank, p0, ins, truth), |ins|)
    ensures Good(t, rank, next, q, em)
  {
    RestoreForcesPrefix(originalPower, Originals(t, rank, p0, ins, truth), |ins|);
    ForceEachKeeps(t, rank, next, DriveRows(t, rank, p0, ins, truth, 0, |truth|).power, em, ins,
                   RestoreForces(originalPower, |ins|), 0);
  }

  /** `submitSolution`'s check, with `ins` and `outs` the level's
      `inputGates` and `outputGates`: the answer is whether every row
      matched, each read right after it was driven; the circuit stays
      settled; and the input gates are then forced with the vectors
      recorded during the first row, which with distinct input gates gives
      each one back its vector from before the check. */
  method CheckSolution(c: Circuit, ins: seq<GateId>, outs: seq<GateId>, truth: seq<Row>) returns (correct: bool)
    requires c.Inv() && InputGates(c.topo, ins)
    modifies c`power, c`transitions
    ensures c.Inv()
    ensures correct <==> forall i :: 0 <= i < |truth| ==>
      RowMatches(DriveRows(c.topo, c.rank, old(c.power), ins, truth, 0, i + 1).power, outs, truth[i])
    ensures var d := DriveRows(c.topo, c.rank, old(c.power), ins, truth, 0, |truth|);
      var r := ForceEach(c.topo, c.rank, d.power, ins, RestoreForces(Originals(c.topo, c.rank, old(c.power), ins, truth), |ins|), 0);
      c.power == r.power && c.transitions == old(c.transitions) + d.emitted + r.emitted
    ensures Distinct(ins) ==> forall k :: 0 <= k < |ins| ==>
      GateVector(c.power, ins[k]) == if |truth| > 0 then GateVector(old(c.power), ins[k]) else [false]
  {
    ghost var p0, tr0 := c.power, c.transitions;
    ghost var t, rk, nx, em := c.topo, c.rank, c.next, c.emitters;
    var originalPower;
    correct, originalPower := CheckRows(c, c.topo, c.rank, nx, em, ins, outs, truth);
    assert c.topo == t && c.rank == rk && c.next == nx && c.emitters == em && c.gates == old(c.gates);
    ghost var d := DriveRows(t, rk, p0, ins, truth, 0, |truth|);
    RestoreInputs(c, c.topo, c.rank, ins, originalPower);
    assert c.topo == t && c.rank == rk && c.next == nx && c.emitters == em && c.gates == old(c.gates);
    RestoreKeeps(t, rk, nx, em, p0, ins, truth, originalPower, c.power);
    AppendAssoc(tr0, d.emitted, ForceEach(t, rk, d.power, ins, RestoreForces(originalPower, |ins|), 0).emitted);
    if Distinct(ins) {
      RestoredVectors(t, rk, p0, d.power, ins, truth);
    }
  }
}
