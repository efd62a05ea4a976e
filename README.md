# logic-gates, modelled in Dafny

A model of the circuit engine behind the logic-gates puzzle game. It covers:

- **Gate catalogue** (`gates.dfy`, module `GateCatalog`): the `gateTypes` table as a `Kind`
  datatype, its arities and one pure `Evaluate(kind, inputs, forced)`.
- **Truth tables** (`truth_table.dfy`, module `TruthTable`): `generateTruthTable` as a
  method. It uses an in-place binary counter on an `array<bool>` and is proved against
  `Digits(i, n)`, the binary form of `i`.
- **Levels** (`levels.dfy`, module `Levels`): `getChapter`, `humanJoin` and the
  surplus-gate score of `submitSolution`.
- **Signals** (`signal.dfy`, module `Signals`): the `Signal` listener list as a class over a
  `seq` of listener ids, with its `before`/`after` handles.
- **The live circuit** (`circuit_model.dfy`, `propagation.dfy`, `edits.dfy`, `removal.dfy`,
  `circuit.dfy`):
  - The object graph of gates, input nodes, output nodes, wires and the wire arrays of
    output nodes is the `Topology` value. Its `hasPower` fields are the `Powers` value.
  - The class `Circuits.Circuit` holds both, together with the global `gates` registry,
    the running clock emitters and the `onPowerChange` emissions made so far.
  - Its methods are the source's recursive propagation: `Wire.power`, `InputNode.power`,
    `Gate.updatePower` and `OutputNode.power`. Each is proved against a ghost function of
    the run (`WireRun`, `InputRun`, `GateRun`, `OutRun`).
  - Lemmas prove that every run leaves the circuit settled. Settled means every wire,
    node and gate agrees with its source of power.
  - The edits are gate creation, toggling, clock ticks, connection, `Wire.remove` and
    `Gate.remove`.
- **The solution check** (`solution.dfy`, module `Solutions`): the loops of `submitSolution`
  run on top of the circuit.

### How the source is represented

- JavaScript object identity is modelled with natural-number ids. A fresh id stands for
  `crypto.randomUUID()` and for every newly allocated object.
- A wire array is its own entity (`ListId`), because the source distinguishes the array
  object from its contents. The connect listener splices the array the output node holds
  when the wire is removed, at the index the wire was pushed at. `filter` then replaces
  the node's array with a new one, while a `for...of` loop already under way keeps
  walking the old one.
  The model keeps every array ever made in `lists` and records which one each node holds.
- Acyclicity is a ghost `rank` map under which every wire runs from a higher gate to a
  lower one. The source has no cycle check. A cycle that keeps flipping, such as a NOT gate
  feeding itself, recurses without bound. A cycle that settles ends through the early
  return at classes.js:614. Both kinds are excluded by precondition.

## Model

| member | source | states |
|---|---|---|
| GateCatalog.Evaluate | script.js:98-124 | the input and clock kinds return the forced vector unchanged; every other kind returns one entry per output, except the output gate, which returns one entry although it declares none |
| GateCatalog.EvaluateCoversOutputs | script.js:100 | when a gate has all its inputs, its vector has an entry for each of its output nodes; the output gate's vector has one entry more than its zero outputs |
| GateCatalog.ForcedKindsHaveNoInputs | script.js:99 | the input and clock kinds take no inputs |
| GateCatalog.NandNorAreNegations | script.js:101-109 | NAND is NOT AND and NOR is NOT OR, on every pair of inputs |
| GateCatalog.XorXnorComplementary | script.js:106-107 | XOR and XNOR always disagree; XOR is on exactly when one input is on |
| GateCatalog.ThreeInputGatesChain | script.js:101-104 | the three-input AND and OR equal two chained two-input gates |
| GateCatalog.HalfAdderAdds | script.js:111-115 | the half adder gives [a xor b, a and b], which is the two-bit sum of its inputs |
| GateCatalog.FullAdderAdds | script.js:116-123 | the full adder's sum is on iff an odd number of inputs are on, its carry iff at least two are; together they count the inputs in binary |
| GateCatalog.OutputPassesThrough | script.js:100 | the output gate shows its one input |
| GateCatalog.EvaluateIgnoresForced | script.js:100-109 | a kind that is neither switchable nor emitting ignores the forced vector |
| TruthTable.Code | script.js:147-150 | every coded entry is 0 or 1, and there is one per boolean |
| TruthTable.DecodeCode | script.js:147-150 | coding loses nothing: reading 1 as on gives back the booleans |
| TruthTable.IncrementedTrailing | script.js:163-170 | the counter sets the last off digit and clears the digits after it; with no off digit it wraps to all zeros |
| TruthTable.ValueOfBound | script.js:138 | an n-digit row is below 2^n |
| TruthTable.DigitsValue | script.js:152-161 | `Digits(i, n)` is i in binary with the most significant digit first |
| TruthTable.ValueDigits | script.js:152-161 | every n-digit row is the binary form of its own value |
| TruthTable.DigitsZero | script.js:140 | row 0 is all zeros, as the `fill(false)` start gives |
| TruthTable.IncrementedDigits | script.js:162-170 | one pass of the counter turns the binary form of i into that of i + 1 |
| TruthTable.RowsDistinct | script.js:138-142 | different rows below 2^n have different inputs |
| TruthTable.Increment | script.js:163-170 | the in-place counter loop leaves the array holding the incremented row |
| TruthTable.Generate | script.js:135-174 | exactly 2^n rows; row i has input i in binary and output `fn` of that input, both 0/1-coded |
| TruthTable.GeneratedRowMeaning | script.js:144-150 | decoding row i gives the input whose value is i, and its output is `fn` of that input |
| Levels.GetChapter | script.js:248-255 | `getChapter`: the fold of `Pick` over the chapters in ascending start order, seeded with null |
| Levels.PickNone | script.js:252-254 | the reduce keeps the null start when n is below every chapter start |
| Levels.PickLast | script.js:252-254 | the reduce yields the chapter with the largest start at most n |
| Levels.GetChapterRanges | script.js:242-255 | null iff n < 0; 0-4 Introduction, 5-7 Gate Combinations, 8 and up The NAND Universality |
| Levels.HumanJoin | script.js:407-412 | `humanJoin`: one item alone, two joined by " and ", more as a comma list with ", and " before the last |
| Levels.HumanJoinThree | script.js:411 | three items read "a, b, and c" |
| Levels.HumanJoinCons | script.js:411 | from four items on, each leading item is followed by ", " and the join of the rest |
| Levels.Surplus | script.js:463 | gates used beyond the best solution, not counting the level's input and output gates |
| Levels.SurplusMeaning | script.js:463-470 | the score is perfect iff the gate count is inputs + outputs + best; each extra gate adds one |
| Sequences.Splice | classes.js:307 | `splice(index, 1)` shortens by one an array that has the index, and leaves a shorter array unchanged |
| Sequences.SpliceMembers | classes.js:307 | the splice keeps the entries other than the one at the index, each once |
| Sequences.WithoutMembers | classes.js:634 | `filter(wire => wire !== this)` keeps exactly the other entries, and keeps them distinct |
| Sequences.SplicedWalkSkips | classes.js:500-504 | a `for...of` whose first step splices the array it walks at `index` visits the array minus entry `index`, or minus entry 1 when the index is 0 |
| Signals.Removed | classes.js:46-50 | disconnecting shortens the list by one exactly when the function was listed |
| Signals.RemovedAbsent | classes.js:47-48 | disconnecting an unlisted function changes nothing |
| Signals.RemovedIsSplice | classes.js:46-50 | on a list of distinct functions, removal is the splice at the found index |
| Signals.RemovedDistinct | classes.js:44-53 | disconnect removes exactly that function and keeps the others, distinct |
| Signals.Signal.constructor | classes.js:16-18 | a new signal has no listeners |
| Signals.Signal.Connect | classes.js:20-42 | a new function is appended and gets a handle that records its index; a repeat or a non-function changes nothing and gets no handle |
| Signals.Signal.Disconnect | classes.js:44-53 | the listeners lose exactly that function, if it is a listed function |
| Signals.Signal.DisconnectAll | classes.js:55-57 | the list is emptied |
| Signals.Signal.Emit | classes.js:59-61 | each listener is called once, in list order, with emit's arguments |
| Signals.IndexOf | classes.js:22 | `indexOf`: -1 iff absent, otherwise the first position holding the function |
| Signals.Handle.constructor | classes.js:28-39 | a handle remembers its signal, its function and the index it was pushed at |
| Signals.Handle.Before | classes.js:29-33 | splice at the remembered index, put the function first, remember 0 |
| Signals.Handle.After | classes.js:34-38 | splice at the remembered index, put the function last, remember the last index |
| Signals.FreshHandleMoves | classes.js:29-38 | while the remembered index is still right, `before` and `after` only move the function, to the front or the back |
| Signals.ConnectDisconnect | classes.js:20-53 | disconnecting a just-connected function restores the list |
| Propagation.WireRun | classes.js:613-619 | the reference run of `Wire.power`: nothing when the value is unchanged, otherwise store it, run the end node's `power`, then emit |
| Propagation.WiresRun | classes.js:95-97 | the reference run of `OutputNode.power`'s loop over its `wires`, in order |
| Propagation.OutRun | classes.js:93-99 | the reference run of `OutputNode.power`: store the value, then the loop over the wires |
| Propagation.OutputsRun | classes.js:476-484 | the reference run of `updatePower`'s loop powering output node i with `hasPower[i]` |
| Propagation.GateRun | classes.js:473-487 | the reference run of `updatePower(forced)`: store `Evaluate` of the input nodes' powers, then power the outputs |
| Propagation.InputRun | classes.js:79-84 | the reference run of `InputNode.power`: store the value, then `updatePower()` on the node's gate |
| Propagation.WireRunUnchanged | classes.js:614 | `Wire.power` with the wire's own value does nothing and emits nothing |
| Propagation.WireRunChanges | classes.js:613-619 | otherwise the wire stores the value, powers its end node, then emits its new value |
| Propagation.GateRunSets | classes.js:473-487 | after `updatePower(forced)` the gate holds `Evaluate` of its input nodes' powers and the forced vector |
| Propagation.GateRunFrame | classes.js:473-487 | `updatePower` changes only that gate, its output nodes and what lies below it in the circuit |
| Propagation.InputRunFrame | classes.js:79-84 | `InputNode.power` changes only that node and what lies below its gate |
| Propagation.WireRunSettles | classes.js:613-619 | `Wire.power` with the start node's value settles the wire and everything below it |
| Propagation.OutRunSettles | classes.js:93-99 | `OutputNode.power` with its entry of the gate's vector settles the node and all its wires |
| Propagation.GateRunSettles | classes.js:473-487 | `updatePower` on a gate whose vector is the only stale value settles the whole circuit |
| Propagation.InputRunSettles | classes.js:79-84 | `InputNode.power` with its wire's value, or off when unwired, settles the whole circuit |
| Edits.DetachRemoves | classes.js:627-634 | `Wire.remove` takes out the wire and frees its end node's slot; the start node's new array is the kept entries minus the wire |
| Edits.DetachValid | classes.js:627-634 | removing a wire keeps the graph well formed and acyclic |
| Edits.DetachCon | classes.js:629-632 | after the removal the circuit is settled except at the freed end node, which `power(false)` fixes next |
| Edits.DetachKeepsListed | classes.js:634 | with the filter alone, every other wire stays in its start node's array |
| Edits.StaleIndexUnlists | classes.js:319-324 | with the splice as written, an index recorded on an older array unlists another live wire |
| Edits.AttachAdds | classes.js:319-321 | a connection pushes the wire last on the output node's array, fills the input slot, and records the array's old length as its index |
| Edits.AttachValid | classes.js:319-328 | a connection that runs downhill keeps the graph well formed and acyclic |
| Edits.AttachKeepsListed | classes.js:319-320 | a connection keeps every wire listed at its start node |
| Edits.AttachCon | classes.js:621-625 | the new wire copies its start node's power, so only its end node is stale |
| Edits.NewGateShape | classes.js:160-173 | a new gate has its kind's arities, free input nodes and output nodes with empty arrays; nothing else changes |
| Edits.NewGateValid | classes.js:101-141 | adding a gate keeps the graph well formed and acyclic, using fresh ids only |
| Edits.NewGateCon | classes.js:187 | right after construction only the new gate is stale, which its `updatePower()` fixes |
| Circuits.GateRunKeeps | classes.js:473-487 | `updatePower(forced)` on any gate of a settled circuit leaves it settled, and a forced gate then holds the forced vector |
| Circuits.ToggleFlips | classes.js:230-232 | on a one-output input gate, `[sum === 0]` is the negation of its current value |
| Circuits.TickKeeps | script.js:110 | a clock tick negates the emitter's value, the clock shows the new value, and the circuit stays settled |
| Circuits.NewGateShown | script.js:110 | a new clock's emitter starts at false |
| Circuits.AddGateKeeps | classes.js:101-141 | constructing a gate keeps the circuit settled and registered; a new input or clock is off |
| Circuits.DetachKeeps | classes.js:627-645 | removing a wire and powering its end node off keeps the circuit settled, and that node is off |
| Circuits.ConnectSettles | classes.js:330-380 | the end node's `power(wire.hasPower)` and then its `power(wire.endNode.hasPower)` settle the circuit after a connection |
| Circuits.ConnectKeeps | classes.js:319-380 | an accepted connection keeps the circuit settled, and the input node takes the output node's power |
| Circuits.Circuit.constructor | script.js:604 | an empty circuit: no gates, no emissions |
| Circuits.Circuit.PowerWire | classes.js:613-619 | `Wire.power` changes the powers and emissions as `WireRun` says |
| Circuits.Circuit.InputPower | classes.js:79-84 | `InputNode.power` changes the powers and emissions as `InputRun` says |
| Circuits.Circuit.UpdatePower | classes.js:473-487 | `updatePower` changes the powers and emissions as `GateRun` says |
| Circuits.Circuit.OutputPower | classes.js:93-99 | `OutputNode.power` changes the powers and emissions as `OutRun` says |
| Circuits.Circuit.AddGate | classes.js:101-141 | `new Gate(kind)`: a fresh gate with fresh nodes, appended to `gates`, a clock's emitter started at false, then `updatePower()` run; the circuit stays settled and a new input or clock is off |
| Circuits.Circuit.ForceInput | classes.js:473-478 | forcing a one-entry vector on an input gate runs `updatePower`, keeps the circuit settled, and the gate holds the vector |
| Circuits.Circuit.Toggle | classes.js:230-232 | a click flips an input gate's value and keeps the circuit settled |
| Circuits.Circuit.Tick | script.js:110 | a clock emission flips the clock's value and keeps the circuit settled |
| Circuits.Circuit.RemoveWire | classes.js:627-645 | as written: the connect-time splice and then the filter; the wire is gone, its end node is off, and the circuit stays settled |
| Circuits.Circuit.RemoveWireFixed | classes.js:627-645 | the filter alone: the same, and every other wire stays listed |
| Circuits.Circuit.StopEmitter | classes.js:490-492 | a removed clock's emitter no longer runs |
| Circuits.Circuit.Unregister | classes.js:505 | the gate is filtered out of `gates` |
| Circuits.Circuit.ClearInputs | classes.js:497-499 | the wire of each input node of the gate is removed, and no other wire is |
| Circuits.Circuit.SweepLive | classes.js:501-503 | the loop over one output node's live array removes exactly the wires `Swept` says it reaches |
| Circuits.Circuit.SweepCopy | classes.js:501-503 | the same loop over a copy removes every wire of the array |
| Circuits.Circuit.SweepOutputs | classes.js:500-504 | the loops over all output nodes remove what each walk reaches |
| Circuits.Circuit.RemoveGate | classes.js:489-509 | as written: emitter stopped, gate unregistered, exactly the `Doomed` wires removed, the surviving wires keep their ends and indices, every output node that neither belongs to the gate nor feeds it keeps its array, and the circuit is settled |
| Circuits.Circuit.RemoveGateFixed | classes.js:489-509 | the same with the copy walk; when every wire is listed, exactly the wires attached to the gate are removed and every surviving wire stays listed |
| Circuits.ConnectRun | classes.js:330-380 | the two `endNode.power` calls of an accepted connection: first with the wire's power, then with the node's own new value |
| Circuits.Circuit.Link | classes.js:328-380 | `wire.connect` gives the new wire its start node's power without emitting, then the two `endNode.power` calls run as `ConnectRun` says |
| Circuits.Circuit.Connect | classes.js:286-380 | refused with `SameKind` or `InputTaken`, changing nothing; an input and an output port with a free input slot are always accepted: the wire is attached with a fresh id, the input node takes the output node's power and the circuit is settled |
| GateRemoval.SweptMembers | classes.js:500-504 | the loop over an output node reaches entries of its array, each once |
| GateRemoval.SweptByCopies | classes.js:500-504 | walking copies reaches exactly the wires that start at the walked nodes, when every wire is listed |
| GateRemoval.CopiesRemoveAttached | classes.js:489-504 | with copies, a wire is removed with the gate iff it ends at an input node or starts at an output node of the gate |
| GateRemoval.FanOutTwoSurvives | classes.js:500-504 | as written, the second of two wires on an output node is attached to the gate but not removed |
| GateRemoval.DismantledWires | classes.js:497-504 | the input loop and then the output loops remove exactly the `Doomed` wires |
| Solutions.RowForces | script.js:428 | the vectors a row forces are `[input[j] === 1]`, one entry each |
| Solutions.RestoreForces | script.js:442 | the restore forces the recorded vector, or `updatePower`'s default `[false]` when nothing was recorded |
| Solutions.CapturedAt | script.js:427 | with distinct input gates, the vector recorded for gate j is its value before the row's forcing |
| Solutions.RestoredVectors | script.js:441-443 | the restore gives each distinct input gate back the vector recorded for it |
| Solutions.DriveRow | script.js:425-429 | one row: record each input gate's vector, then force it, in order |
| Solutions.RowAgrees | script.js:430-439 | the row is correct iff every output gate's first entry equals the expected bit |
| Solutions.CheckRows | script.js:422-440 | every row is driven with no early exit; the flag is true iff each row matched when read, and the circuit stays settled |
| Solutions.RestoreInputs | script.js:441-443 | each input gate is forced with `originalPower[i]` |
| Solutions.CheckSolution | script.js:414-445 | the result is true iff every row matched right after it was driven; the circuit stays settled; each distinct input gate ends with its value from before the check, or off for an empty table |

## Left out

- The DOM: elements, CSS classes, popups, the context menu, keyboard and mouse plumbing,
  the toolbar, drawing and wire geometry, `hide`/`show`, and the level and sandbox screens.
  None of these affects the circuit's values.
- Level data and level progression (the `levels` array, unlocks, `initLevel`). Truth tables
  and the level's input and output gates are parameters.
- The clock's `setInterval`. `Circuits.Circuit.Tick` models one emission, called from
  outside. `clearInterval` is `StopEmitter`. The `setTimeout` in `Gate.remove` only removes
  an element.
- `crypto.randomUUID`: ids come from a counter, `next`.
- `console.warn`: a no-op.
- Truthiness. Powers are `bool`. The full adder's `^` yields numbers, and `&&`/`||` can yield
  mixed values that the source then compares with `===`. The model reads them all as
  booleans.
- Cyclic circuits. Every circuit method requires the ghost `rank` order. A cycle that keeps
  flipping, such as a NOT gate feeding itself, recurses without bound. A cycle that settles,
  such as an OR gate feeding its own input or a NOR latch, ends through the early return at
  classes.js:614. Both kinds are outside the model.
- Circuits.Circuit.Connect: requires a rank order in which the new wire runs downhill, so a
  connection that closes a cycle is outside the model. The source accepts it. If the cycle
  keeps flipping, it then recurses without bound; if it settles, it ends through the early
  return at classes.js:614.
- The temporary wire of a drag and the `wire.remove()` calls on a refused connection. That
  wire is never in the graph, so removing it changes nothing the model holds.
- The order inside `Wire.remove`. The source runs the splice listener, powers the end node
  off, and then filters the start node's array. The model changes both arrays first and
  then powers the end node off. The power-off run only visits gates below the end node,
  and in an acyclic circuit those never include the start node. Neither order can be
  observed.
- Circuits.Circuit.RemoveGate: does not state the arrays that the output nodes feeding the
  gate, or the gate's own output nodes, hold afterwards. As written, each input wire's
  removal splices its start node's array at the index recorded when it was connected, so
  it can unlist a surviving wire that does not touch the gate (the mechanism of
  `Edits.StaleIndexUnlists`). Which wires survive, and the arrays of every other output
  node, are stated.
- Circuits.Circuit.RemoveGate: states the graph, the registry, the emitters, and that the
  circuit stays settled. It does not state the exact powers or the order of
  `onPowerChange` emissions during removal.
- Circuits.Circuit.RemoveGateFixed: states the same as `RemoveGate`, for the same reason.
- The `disconnectAll` calls of `Gate.remove` and `Wire.remove` on the gate's and wire's own
  signals. Those listeners are DOM handlers. The connect listener's splice is modelled
  directly, inside `Wire.remove`.
- The context menu's "remove all wires" (classes.js:127-135). It runs the same two loops as
  `Gate.remove`, which are modelled as `ClearInputs` and `SweepOutputs`, but it is not a
  separate entry point.
- Solutions.CheckSolution: requires the level's input gates to be input gates of the
  circuit, as `initLevel` creates them. The restore is stated for distinct input gates;
  with a repeated gate the last forcing wins.
- Levels.HumanJoin: the empty list is modelled as the text the source produces,
  ", and undefined".

## Findings

| source | as written | input that shows it | evidently intended | confidence | as-written member | corrected member |
|---|---|---|---|---|---|---|
| classes.js:319-324, 634 | `Wire.remove` first splices the output node's array at the index recorded when the wire was connected, then filters | connect wires a and w from one output node; remove a; connect x from the same node; remove w. At that point w records index 1 on the array [w, x], so the splice removes x, and x stays connected but is no longer powered by its start node | remove only the wire itself, as the filter does | not executed | Edits.StaleIndexUnlists, Circuits.Circuit.RemoveWire | Circuits.Circuit.RemoveWireFixed, Edits.DetachKeepsListed |
| classes.js:500-504 | `Gate.remove` walks each output node's `wires` array with `for...of` while `wire.remove()` splices that same array | a gate whose output node feeds two freshly connected wires x and y; delete the gate. The first removal shortens the array to [y], so the loop ends and y is left attached to the deleted gate | remove every wire attached to the gate | not executed | GateRemoval.FanOutTwoSurvives, Circuits.Circuit.RemoveGate | Circuits.Circuit.RemoveGateFixed, GateRemoval.CopiesRemoveAttached |
