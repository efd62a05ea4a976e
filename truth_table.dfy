/** Truth-table generation (script.js, `generateTruthTable`): every input
    vector of a given width, in binary-counter order, with the function's
    output, both coded as 0/1 numbers. */
module TruthTable {

  /** One table entry, `{ input: [...], output: [...] }`. */
  datatype Row = Row(input: seq<int>, output: seq<int>)

  /** `values.map(value => value ? 1 : 0)`. */
  function Code(bits: seq<bool>): (r: seq<int>)
    ensures |r| == |bits|
    ensures forall i :: 0 <= i < |r| ==> r[i] == 0 || r[i] == 1
  {
    seq(|bits|, i requires 0 <= i < |bits| => if bits[i] then 1 else 0)
  }

  /** Reading a coded entry back, as the solution check does with `=== 1`. */
  function Decode(codes: seq<int>): seq<bool> {
    seq(|codes|, i requires 0 <= i < |codes| => codes[i] == 1)
  }

  /** Coding loses nothing: decoding a coded vector gives the vector back. */
  lemma DecodeCode(bits: seq<bool>)
    ensures Decode(Code(bits)) == bits
  {
  }

  function Pow2(n: nat): (r: nat)
    ensures r >= 1
  {
    if n == 0 then 1 else 2 * Pow2(n - 1)
  }

  /** The low `n` bits of `i`, most significant bit at index 0. */
  function Digits(i: nat, n: nat): (r: seq<bool>)
    ensures |r| == n
  {
    if n == 0 then [] else Digits(i / 2, n - 1) + [i % 2 == 1]
  }

  /** The number a bit vector stands for, most significant bit first. */
  function ValueOf(bits: seq<bool>): nat {
    if bits == [] then 0
    else 2 * ValueOf(bits[..|bits| - 1]) + (if bits[|bits| - 1] then 1 else 0)
  }

  /** The in-place binary counter: the last `true` digits become `false` and
      the first `false` digit from the end becomes `true`; an all-`true`
      vector wraps to all `false`. */
  function Incremented(bits: seq<bool>): (r: seq<bool>)
    ensures |r| == |bits|
  {
    if bits == [] then []
    else if !bits[|bits| - 1] then bits[..|bits| - 1] + [true]
    else Incremented(bits[..|bits| - 1]) + [false]
  }

  /** A vector whose digits after j are all `true`: the counter clears
      them and sets digit j, or clears everything when j is -1. */
  lemma {:induction false} IncrementedTrailing(s: seq<bool>, j: int)
    requires -1 <= j < |s| && forall k :: j < k < |s| ==> s[k]
    ensures j >= 0 && !s[j] ==> Incremented(s) == s[..j] + [true] + seq(|s| - j - 1, _ => false)
    ensures j == -1 ==> Incremented(s) == seq(|s|, _ => false)
  {
    if s != [] && j < |s| - 1 {
      var init := s[..|s| - 1];
      IncrementedTrailing(init, j);
      assert init[..if j < 0 then 0 else j] == s[..if j < 0 then 0 else j];
      assert seq(|init| - j - 1, _ => false) + [false] == seq(|s| - j - 1, _ => false);
    }
  }

  /** The value of a bit vector is below 2^width. */
  lemma {:induction false} ValueOfBound(bits: seq<bool>)
    ensures ValueOf(bits) < Pow2(|bits|)
  {
    if bits != [] {
      ValueOfBound(bits[..|bits| - 1]);
    }
  }

  /** Row i's input is i written in binary: its value is i. */
  lemma {:induction false} DigitsValue(i: nat, n: nat)
    requires i < Pow2(n)
    ensures ValueOf(Digits(i, n)) == i
  {
    if n > 0 {
      DigitsValue(i / 2, n - 1);
      var d := Digits(i, n);
      assert d[..|d| - 1] == Digits(i / 2, n - 1);
    }
  }

  /** Every bit vector of width n is the binary form of its value, so every
      input combination occurs in the table, at row ValueOf(bits). */
  lemma {:induction false} ValueDigits(bits: seq<bool>)
    ensures Digits(ValueOf(bits), |bits|) == bits
  {
    if bits != [] {
      var init := bits[..|bits| - 1];
      ValueDigits(init);
      var v := ValueOf(bits);
      assert v / 2 == ValueOf(init);
      assert bits == init + [bits[|bits| - 1]];
    }
  }

  /** Row 0 is all zeros. */
  lemma {:induction false} DigitsZero(n: nat)
    ensures forall k :: 0 <= k < n ==> !Digits(0, n)[k]
  {
    if n > 0 {
      DigitsZero(n - 1);
    }
  }

  /** One step of the binary counter moves from the binary form of i to the
      binary form of i + 1 (wrapping after 2^n - 1). */
  lemma {:induction false} IncrementedDigits(i: nat, n: nat)
    ensures Incremented(Digits(i, n)) == Digits(i + 1, n)
  {
    if n > 0 {
      var d := Digits(i, n);
      assert d[..n - 1] == Digits(i / 2, n - 1);
      if i % 2 == 1 {
        IncrementedDigits(i / 2, n - 1);
        assert (i + 1) / 2 == i / 2 + 1;
      } else {
        assert (i + 1) / 2 == i / 2;
      }
    }
  }

  /** Distinct rows have distinct inputs. */
  lemma RowsDistinct(i: nat, j: nat, n: nat)
    requires i < Pow2(n) && j < Pow2(n) && i != j
    ensures Digits(i, n) != Digits(j, n)
  {
    DigitsValue(i, n);
    DigitsValue(j, n);
  }

  /** The inner `for (let j = numInputs - 1; j >= 0; j--)` loop: the binary
      counter applied in place to `input`. */
  method Increment(input: array<bool>)
    modifies input
    ensures input[..] == Incremented(old(input[..]))
  {
    ghost var was := input[..];
    var j := input.Length - 1;
    while j >= 0
      invariant -1 <= j < input.Length
      invariant forall k :: 0 <= k <= j ==> input[k] == was[k]
      invariant forall k :: j < k < input.Length ==> was[k] && !input[k]
      decreases j
    {
      if !input[j] {
        input[j] := true;
        IncrementedTrailing(was, j);
        assert input[..] == was[..j] + [true] + seq(input.Length - j - 1, _ => false);
        return;
      }
      input[j] := false;
      j := j - 1;
    }
    IncrementedTrailing(was, -1);
    assert input[..] == seq(input.Length, _ => false);
  }

  /** The whole table: 2^numInputs rows, row i holding the binary form of i
      and `fn` of it, both coded 0/1. `numOutputs` is accepted and unused, as
      in the source. */
  method Generate(fn: seq<bool> -> seq<bool>, numInputs: nat, numOutputs: nat)
    returns (table: seq<Row>)
    ensures |table| == Pow2(numInputs)
    ensures forall i :: 0 <= i < |table| ==>
      table[i] == Row(Code(Digits(i, numInputs)), Code(fn(Digits(i, numInputs))))
  {
    table := [];
    var numRows := Pow2(numInputs);
    var input := new bool[numInputs](_ => false);
    DigitsZero(numInputs);
    assert input[..] == Digits(0, numInputs);
    var i := 0;
    while i < numRows
      invariant 0 <= i <= numRows
      invariant input[..] == Digits(i, numInputs)
      invariant |table| == i
      invariant forall k :: 0 <= k < i ==>
        table[k] == Row(Code(Digits(k, numInputs)), Code(fn(Digits(k, numInputs))))
    {
      var output := fn(input[..]);
      ghost var row := Row(Code(Digits(i, numInputs)), Code(fn(Digits(i, numInputs))));
      assert Row(Code(input[..]), Code(output)) == row;
      table := table + [Row(Code(input[..]), Code(output))];
      assert table[i] == row;
      Increment(input);
      IncrementedDigits(i, numInputs);
      i := i + 1;
    }
  }

  /** The table is a faithful oracle: decoding row i's output gives `fn` of
      decoding row i's input, and that input is i in binary. */
  lemma GeneratedRowMeaning(table: seq<Row>, fn: seq<bool> -> seq<bool>, n: nat, i: nat)
    requires |table| == Pow2(n)
    requires forall k :: 0 <= k < |table| ==> table[k] == Row(Code(Digits(k, n)), Code(fn(Digits(k, n))))
    requires i < |table|
    ensures Decode(table[i].output) == fn(Decode(table[i].input))
    ensures ValueOf(Decode(table[i].input)) == i
  {
    DecodeCode(Digits(i, n));
    DecodeCode(fn(Digits(i, n)));
    DigitsValue(i, n);
  }
}
