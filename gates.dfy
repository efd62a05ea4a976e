/** The gate catalogue: the fixed table of gate kinds, their arities, their
    flags and their evaluation rules (script.js, `gateTypes`; classes.js,
    `GateInterface`). Signal values are modelled as booleans. */
module GateCatalog {

  datatype Kind =
    | Input | Output | And | And3 | Or | Or3 | Not
    | Xor | Xnor | Nor | Nand | Clock | HalfAdder | FullAdder

  /** Number of input nodes a gate of this kind gets. */
  function InputArity(k: Kind): nat {
    match k
    case Input | Clock => 0
    case Output | Not => 1
    case And3 | Or3 | FullAdder => 3
    case And | Or | Xor | Xnor | Nor | Nand | HalfAdder => 2
  }

  /** Number of output nodes a gate of this kind gets. */
  function OutputArity(k: Kind): nat {
    match k
    case Output => 0
    case HalfAdder | FullAdder => 2
    case _ => 1
  }

  /** `switchable`: the gate is toggled by a click. */
  predicate Switchable(k: Kind) { k == Input }

  /** `emits`: the gate is driven by its own emitter (the clock). */
  predicate Emits(k: Kind) { k == Clock }

  /** Kinds whose output is the forced vector handed to `updatePower`. */
  predicate Forced(k: Kind) { Switchable(k) || Emits(k) }

  /** JavaScript `(a ^ b) == 1` on two booleans. */
  function Differ(a: bool, b: bool): bool { a != b }

  /** The `evaluate` function of each kind. `forced` is the vector passed to
      `updatePower`; only the input and clock kinds look at it. */
  function Evaluate(k: Kind, inputs: seq<bool>, forced: seq<bool>): (r: seq<bool>)
    requires |inputs| == InputArity(k)
    ensures Forced(k) ==> r == forced
    ensures !Forced(k) ==> |r| == if k == Output then 1 else OutputArity(k)
  {
    match k
    case Input => forced
    case Clock => forced
    case Output => [inputs[0]]
    case And => [inputs[0] && inputs[1]]
    case And3 => [inputs[0] && inputs[1] && inputs[2]]
    case Or => [inputs[0] || inputs[1]]
    case Or3 => [inputs[0] || inputs[1] || inputs[2]]
    case Not => [!inputs[0]]
    case Xor => [Differ(inputs[0], inputs[1])]
    case Xnor => [!Differ(inputs[0], inputs[1])]
    case Nor => [!(inputs[0] || inputs[1])]
    case Nand => [!(inputs[0] && inputs[1])]
    case HalfAdder => [Differ(inputs[0], inputs[1]), inputs[0] && inputs[1]]
    case FullAdder =>
      [ Differ(Differ(inputs[0], inputs[1]), inputs[2]),
        (inputs[0] && inputs[1]) || (inputs[2] && Differ(inputs[0], inputs[1])) ]
  }

  /** Number of `true` entries. */
  function CountOn(s: seq<bool>): (n: nat)
    ensures n <= |s|
  {
    if s == [] then 0 else (if s[0] then 1 else 0) + CountOn(s[1..])
  }

  /** Every gate's evaluation yields at least one entry per output node, so
      `updatePower` can push `hasPower[i]` for every `i < outputs`. The output
      kind declares no outputs but still returns a one-entry vector. */
  lemma EvaluateCoversOutputs(k: Kind, inputs: seq<bool>, forced: seq<bool>)
    requires |inputs| == InputArity(k)
    requires Forced(k) ==> |forced| >= OutputArity(k)
    ensures |Evaluate(k, inputs, forced)| >= OutputArity(k)
    ensures k == Output ==> |Evaluate(k, inputs, forced)| == OutputArity(k) + 1
  {
  }

  /** Kinds with a forced output have no input nodes, so an input-node change
      never re-evaluates them. */
  lemma ForcedKindsHaveNoInputs(k: Kind)
    ensures Forced(k) ==> InputArity(k) == 0
  {
  }

  /** NAND is NOT AND and NOR is NOT OR on all four input pairs. */
  lemma NandNorAreNegations(a: bool, b: bool, f: seq<bool>)
    ensures Evaluate(Nand, [a, b], f) == [!Evaluate(And, [a, b], f)[0]]
    ensures Evaluate(Nor, [a, b], f) == [!Evaluate(Or, [a, b], f)[0]]
  {
  }

  /** XOR and XNOR are always complementary; XOR is on when exactly one
      input is on. */
  lemma XorXnorComplementary(a: bool, b: bool, f: seq<bool>)
    ensures Evaluate(Xor, [a, b], f)[0] == !Evaluate(Xnor, [a, b], f)[0]
    ensures Evaluate(Xor, [a, b], f)[0] <==> CountOn([a, b]) == 1
  {
  }

  /** The three-input gates agree with two chained two-input gates. */
  lemma ThreeInputGatesChain(a: bool, b: bool, c: bool, f: seq<bool>)
    ensures Evaluate(And3, [a, b, c], f) == Evaluate(And, [Evaluate(And, [a, b], f)[0], c], f)
    ensures Evaluate(Or3, [a, b, c], f) == Evaluate(Or, [Evaluate(Or, [a, b], f)[0], c], f)
  {
  }

  /** The half adder yields [a xor b, a and b]: the two-bit sum of a and b. */
  lemma HalfAdderAdds(a: bool, b: bool, f: seq<bool>)
    ensures Evaluate(HalfAdder, [a, b], f) == [Evaluate(Xor, [a, b], f)[0], Evaluate(And, [a, b], f)[0]]
    ensures var r := Evaluate(HalfAdder, [a, b], f);
            (if r[0] then 1 else 0) + 2 * (if r[1] then 1 else 0) == CountOn([a, b])
  {
  }

  /** The full adder's sum is on iff an odd number of inputs are on, and its
      carry is on iff at least two are on; together they count the inputs. */
  lemma FullAdderAdds(a: bool, b: bool, c: bool, f: seq<bool>)
    ensures Evaluate(FullAdder, [a, b, c], f)[0] <==> CountOn([a, b, c]) % 2 == 1
    ensures Evaluate(FullAdder, [a, b, c], f)[1] <==> CountOn([a, b, c]) >= 2
    ensures var r := Evaluate(FullAdder, [a, b, c], f);
            (if r[0] then 1 else 0) + 2 * (if r[1] then 1 else 0) == CountOn([a, b, c])
  {
    assert [a, b, c][1..] == [b, c];
    assert [b, c][1..] == [c];
    assert [c][1..] == [];
    assert CountOn([c]) == (if c then 1 else 0);
    assert CountOn([b, c]) == (if b then 1 else 0) + (if c then 1 else 0);
    assert CountOn([a, b, c]) == (if a then 1 else 0) + (if b then 1 else 0) + (if c then 1 else 0);
  }

  /** The output kind passes its single input through. */
  lemma OutputPassesThrough(a: bool, f: seq<bool>)
    ensures Evaluate(Output, [a], f) == [a]
  {
  }

  /** Only the input and clock kinds look at the forced vector. */
  lemma EvaluateIgnoresForced(k: Kind, inputs: seq<bool>, f1: seq<bool>, f2: seq<bool>)
    requires |inputs| == InputArity(k) && !Forced(k)
    ensures Evaluate(k, inputs, f1) == Evaluate(k, inputs, f2)
  {
  }
}
