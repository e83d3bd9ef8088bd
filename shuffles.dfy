/**
 * The swap-down shuffle used twice by the application: for i from the last
 * index down to a floor, swap cell i with a cell j <= i chosen at random.
 * The random draws are an injected sequence of natural numbers: draw k
 * (`DrawAt(draws, k)`, 0 once the sequence is used up) stands for the index
 * `Math.floor(Math.random() * (i + 1))` picked at that step, a value past i
 * being read as i. Every index in range is reachable.
 */
module Shuffles {

  /** `s` with cells `i` and `j` exchanged. */
  function Swap<T>(s: seq<T>, i: nat, j: nat): (r: seq<T>)
    requires i < |s| && j < |s|
    ensures |r| == |s| && r[i] == s[j] && r[j] == s[i]
    ensures forall k :: 0 <= k < |s| && k != i && k != j ==> r[k] == s[k]
    ensures multiset(r) == multiset(s)
  {
    s[i := s[j]][j := s[i]]
  }

  /** The `k`-th draw of the supply; a draw past its end reads as 0. */
  function DrawAt(draws: seq<nat>, k: nat): nat {
    if k < |draws| then draws[k] else 0
  }

  /** The draw used when cell `i` is processed as the `k`-th step. */
  function Draw(draws: seq<nat>, k: nat, i: nat): (j: nat)
    ensures j <= i
  {
    if DrawAt(draws, k) <= i then DrawAt(draws, k) else i
  }

  /**
   * The result of running the swap-down loop on `s` for i = |s|-1 down to
   * `floor`, the first draw being number `k`.
   */
  function SwapDown<T>(s: seq<T>, floor: nat, draws: seq<nat>, k: nat): (r: seq<T>)
    ensures |r| == |s|
    decreases |s|
  {
    if |s| <= floor then s
    else
      var i := |s| - 1;
      var t := Swap(s, i, Draw(draws, k, i));
      SwapDown(t[..i], floor, draws, k + 1) + [t[i]]
  }

  /**
   * Loop invariant of the in-place swap-down loops: with cells c.. already
   * settled, finishing the run on s[..c] yields `target`.
   */
  ghost predicate Progress<T>(s: seq<T>, c: nat, floor: nat, draws: seq<nat>, target: seq<T>)
    requires c <= |s|
  {
    SwapDown(s[..c], floor, draws, |s| - c) + s[c..] == target
  }

  /** One iteration (swap cell c-1 with its draw `j`, giving `next`) moves the invariant from c to c-1. */
  lemma ProgressStep<T>(s: seq<T>, c: nat, floor: nat, draws: seq<nat>, target: seq<T>, j: nat, next: seq<T>)
    requires floor < c <= |s| && Progress(s, c, floor, draws, target)
    requires j == Draw(draws, |s| - c, c - 1)
    requires next == Swap(s, c - 1, j)
    ensures Progress(next, c - 1, floor, draws, target)
  {
    var t := Swap(s[..c], c - 1, j);
    assert t[..c - 1] == next[..c - 1];
    assert next[c - 1..] == [t[c - 1]] + s[c..];
  }

  /** Before the first iteration nothing is settled: the invariant holds for the whole sequence. */
  lemma ProgressStart<T>(s: seq<T>, floor: nat, draws: seq<nat>)
    ensures Progress(s, |s|, floor, draws, SwapDown(s, floor, draws, 0))
  {
    assert s[..|s|] == s && s[|s|..] == [];
  }

  /** Once the loop reaches the floor, the sequence is the target. */
  lemma ProgressDone<T>(s: seq<T>, c: nat, floor: nat, draws: seq<nat>, target: seq<T>)
    requires c <= floor && c <= |s| && Progress(s, c, floor, draws, target)
    ensures s == target
  {
    assert s[..c] + s[c..] == s;
  }

  /** Putting the last element back after a permutation of the rest permutes the whole. */
  lemma PermuteInit<T>(t: seq<T>, rest: seq<T>)
    requires |t| > 0 && multiset(rest) == multiset(t[..|t| - 1])
    ensures multiset(rest + [t[|t| - 1]]) == multiset(t)
  {
    assert t == t[..|t| - 1] + [t[|t| - 1]];
  }

  /** Swapping down is a permutation: same length, same multiset of elements. */
  lemma {:induction false} SwapDownPermutes<T>(s: seq<T>, floor: nat, draws: seq<nat>, k: nat)
    ensures multiset(SwapDown(s, floor, draws, k)) == multiset(s)
    decreases |s|
  {
    if |s| > floor {
      var i := |s| - 1;
      var t := Swap(s, i, Draw(draws, k, i));
      var rest := SwapDown(t[..i], floor, draws, k + 1);
      SwapDownPermutes(t[..i], floor, draws, k + 1);
      calc {
        multiset(SwapDown(s, floor, draws, k));
        multiset(rest + [t[i]]);
        { PermuteInit(t, rest); }
        multiset(t);
        multiset(s);
      }
    }
  }

  /**
   * Stopping at floor 1 or at floor 0 gives the same result: the last step
   * of the floor-0 loop swaps cell 0 with itself.
   */
  lemma {:induction false} SwapDownFloorZeroIsFloorOne<T>(s: seq<T>, draws: seq<nat>, k: nat)
    ensures SwapDown(s, 0, draws, k) == SwapDown(s, 1, draws, k)
    decreases |s|
  {
    if |s| == 1 {
      var t := Swap(s, 0, Draw(draws, k, 0));
      assert t == s;
      assert SwapDown(t[..0], 0, draws, k + 1) == [];
    } else if |s| > 1 {
      var i := |s| - 1;
      var t := Swap(s, i, Draw(draws, k, i));
      SwapDownFloorZeroIsFloorOne(t[..i], draws, k + 1);
    }
  }

  /**
   * Any element can be drawn into the last cell: for every position p there
   * is a draw sequence after which the last cell holds s[p].
   */
  lemma LastCellReachable<T>(s: seq<T>, floor: nat, k: nat, p: nat)
    requires p < |s| && floor < |s|
    ensures exists draws: seq<nat> :: SwapDown(s, floor, draws, k)[|s| - 1] == s[p]
  {
    var draws := seq(k + 1, _ => p);
    assert DrawAt(draws, k) == p;
    var i := |s| - 1;
    var j := Draw(draws, k, i);
    assert j == p;
    var t := Swap(s, i, j);
    var r := SwapDown(s, floor, draws, k);
    assert r == SwapDown(t[..i], floor, draws, k + 1) + [t[i]];
    assert r[i] == t[i] == s[p];
  }
}
