/** The JavaScript array operations the source uses on listener and wire
    lists, as functions on sequences. */
module Sequences {

  /** `array.splice(index, 1)`: removes the entry at `index` when there is
      one, otherwise leaves the array as it is. */
  function Splice<T>(s: seq<T>, index: nat): (r: seq<T>)
    ensures index < |s| ==> |r| == |s| - 1
    ensures index >= |s| ==> r == s
  {
    if index < |s| then s[..index] + s[index + 1..] else s
  }

  /** `array.filter(y => y !== x)`. */
  function Without<T(==)>(s: seq<T>, x: T): (r: seq<T>)
    ensures |r| <= |s|
  {
    if s == [] then []
    else if s[0] == x then Without(s[1..], x)
    else [s[0]] + Without(s[1..], x)
  }

  /** No entry occurs twice. */
  predicate Distinct<T(==)>(s: seq<T>) {
    forall i, j :: 0 <= i < j < |s| ==> s[i] != s[j]
  }

  /** Splicing keeps exactly the entries at other positions. */
  lemma SpliceMembers<T>(s: seq<T>, index: nat)
    requires Distinct(s)
    ensures Distinct(Splice(s, index))
    ensures forall y :: y in Splice(s, index) <==> y in s && (index < |s| ==> y != s[index])
  {
    if index < |s| {
      var r := Splice(s, index);
      assert s == s[..index] + [s[index]] + s[index + 1..];
      forall i, j | 0 <= i < j < |r| ensures r[i] != r[j] {
        var i' := if i < index then i else i + 1;
        var j' := if j < index then j else j + 1;
        assert r[i] == s[i'] && r[j] == s[j'];
      }
    }
  }

  /** Filtering removes every `x` and keeps every other entry, without
      introducing repeats. */
  lemma {:induction false} WithoutMembers<T>(s: seq<T>, x: T)
    ensures forall y :: y in Without(s, x) <==> y in s && y != x
    ensures Distinct(s) ==> Distinct(Without(s, x))
  {
    if s != [] {
      WithoutMembers(s[1..], x);
      if Distinct(s) {
        assert Distinct(s[1..]);
        assert s[0] !in s[1..];
      }
    }
  }

  /** What a `for...of` loop over the array `s` reaches when its first
      step splices `s` at `index` and later steps change other arrays: the
      first entry, then the spliced array from position 1 on. */
  function SplicedWalk<T>(s: seq<T>, index: nat): seq<T> {
    if s == [] then []
    else
      var rest := Splice(s, index);
      if rest == [] then [s[0]] else [s[0]] + rest[1..]
  }

  /** The walk misses exactly one entry: the one at `index`, or the
      second one when `index` is 0. */
  lemma SplicedWalkSkips<T>(s: seq<T>, index: nat)
    ensures SplicedWalk(s, index) == Splice(s, if index == 0 then 1 else index)
  {
    if s != [] && index < |s| {
      if index == 0 {
        assert Splice(s, index) == s[1..];
        if |s| > 1 {
          assert Splice(s, 1) == [s[0]] + s[2..];
          assert s[1..][1..] == s[2..];
        }
      } else {
        assert Splice(s, index)[0] == s[0];
        assert Splice(s, index) == [s[0]] + Splice(s, index)[1..];
      }
    }
  }

  /** A prefix one longer ends with the next entry. */
  lemma TakeOneMore<T>(s: seq<T>, j: nat)
    requires j < |s|
    ensures s[..j + 1] == s[..j] + [s[j]]
  {
  }

  lemma AppendEmpty<T>(s: seq<T>)
    ensures s + [] == s
  {
  }

  lemma AppendAssoc<T>(a: seq<T>, b: seq<T>, c: seq<T>)
    ensures a + b + c == a + (b + c)
  {
  }
}
