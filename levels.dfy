/** The small pure helpers of script.js: chapter lookup (`getChapter`), the
    English list join (`humanJoin`) and the surplus-gate score of
    `submitSolution`. */
module Levels {
  import opened Wrappers

  /** One `chapters` entry: the first level index of a chapter and its name. */
  datatype Chapter = Chapter(start: int, name: string)

  /** `chapters`, already in the ascending order the source sorts it into. */
  const Chapters: seq<Chapter> :=
    [Chapter(0, "Introduction"), Chapter(5, "Gate Combinations"), Chapter(8, "The NAND Universality")]

  /** The `reduce` of `getChapter`: each entry whose start is at most n
      replaces the current choice. */
  function Pick(entries: seq<Chapter>, n: int, current: Option<string>): Option<string> {
    if entries == [] then current
    else Pick(entries[1..], n, if n >= entries[0].start then Some(entries[0].name) else current)
  }

  function GetChapter(n: int): Option<string> {
    Pick(Chapters, n, None)
  }

  /** With no entry at or below n, the fold keeps its seed. */
  lemma {:induction false} PickNone(entries: seq<Chapter>, n: int, current: Option<string>)
    requires forall k :: 0 <= k < |entries| ==> n < entries[k].start
    ensures Pick(entries, n, current) == current
  {
    if entries != [] {
      assert n < entries[0].start;
      PickNone(entries[1..], n, current);
    }
  }

  /** The fold ends on the last entry (in list order) whose start is at
      most n. */
  lemma {:induction false} PickLast(entries: seq<Chapter>, n: int, current: Option<string>, k: nat)
    requires k < |entries| && entries[k].start <= n
    requires forall m :: k < m < |entries| ==> n < entries[m].start
    ensures Pick(entries, n, current) == Some(entries[k].name)
  {
    var next := if n >= entries[0].start then Some(entries[0].name) else current;
    if k == 0 {
      PickNone(entries[1..], n, next);
    } else {
      PickLast(entries[1..], n, next, k - 1);
    }
  }

  /** The chapter of level n is the one with the largest start not above n:
      levels 0-4 are the Introduction, 5-7 Gate Combinations, 8 and later
      The NAND Universality, and there is none below 0. */
  lemma GetChapterRanges(n: int)
    ensures n < 0 <==> GetChapter(n) == None
    ensures 0 <= n < 5 ==> GetChapter(n) == Some("Introduction")
    ensures 5 <= n < 8 ==> GetChapter(n) == Some("Gate Combinations")
    ensures 8 <= n ==> GetChapter(n) == Some("The NAND Universality")
  {
    if n < 0 {
      PickNone(Chapters, n, None);
    } else if n < 5 {
      PickLast(Chapters, n, None, 0);
    } else if n < 8 {
      PickLast(Chapters, n, None, 1);
    } else {
      PickLast(Chapters, n, None, 2);
    }
  }

  /** `Array.prototype.join`. */
  function Join(items: seq<string>, sep: string): string {
    if |items| == 0 then ""
    else if |items| == 1 then items[0]
    else items[0] + sep + Join(items[1..], sep)
  }

  /** `humanJoin`: "a", "a and b", "a, b, and c". An empty list reads the
      missing last item as the text "undefined", as JavaScript does. */
  function HumanJoin(items: seq<string>): string {
    if |items| == 1 then items[0]
    else if |items| == 2 then items[0] + " and " + items[1]
    else if |items| == 0 then ", and undefined"
    else Join(items[..|items| - 1], ", ") + ", and " + items[|items| - 1]
  }

  /** For three items the list reads "a, b, and c". */
  lemma HumanJoinThree(a: string, b: string, c: string)
    ensures HumanJoin([a, b, c]) == a + ", " + b + ", and " + c
  {
    assert [a, b, c][..2] == [a, b];
    assert [a, b][1..] == [b];
    assert Join([b], ", ") == b;
    assert Join([a, b], ", ") == a + ", " + b;
  }

  /** From three items on, each further leading item is written with a
      comma: the join of a list is its head, ", ", and the join of its tail. */
  lemma HumanJoinCons(items: seq<string>)
    requires |items| >= 4
    ensures HumanJoin(items) == items[0] + ", " + HumanJoin(items[1..])
  {
    var n := |items|;
    assert items[..n - 1][1..] == items[1..][..n - 2];
    assert items[1..][n - 2] == items[n - 1];
  }

  /** Gates used beyond the best solution: all gates minus the level's input
      and output gates minus the best count. */
  function Surplus(gateCount: nat, inputCount: nat, outputCount: nat, bestAmount: nat): int {
    gateCount - inputCount - outputCount - bestAmount
  }

  /** The score is reported as perfect exactly when the player used the best
      number of gates, and every extra gate adds one to it. */
  lemma SurplusMeaning(gateCount: nat, inputCount: nat, outputCount: nat, bestAmount: nat)
    ensures Surplus(gateCount, inputCount, outputCount, bestAmount) == 0
            <==> gateCount == inputCount + outputCount + bestAmount
    ensures Surplus(gateCount + 1, inputCount, outputCount, bestAmount)
            == Surplus(gateCount, inputCount, outputCount, bestAmount) + 1
  {
  }
}
