/** The longest increasing subsequence behind the identity diff
    (`longest_increasing`, crates/rustnative-data/src/list.rs). */
module Patience {

  /** How many marks are set. */
  function Count(marks: seq<bool>): nat {
    if marks == [] then 0
    else Count(marks[..|marks| - 1]) + if marks[|marks| - 1] then 1 else 0
  }

  /** The marked values increase strictly from left to right. */
  ghost predicate MarksIncreasing(values: seq<nat>, marks: seq<bool>) {
    && |marks| == |values|
    && forall i, j :: 0 <= i < j < |values| && marks[i] && marks[j] ==> values[i] < values[j]
  }

  // ---------------------------------------------------------------------
  // Longest increasing subsequence
  // ---------------------------------------------------------------------

  /** `tails` lists positions of `values`, by strictly increasing value. */
  ghost predicate TailsSorted(values: seq<nat>, tails: seq<nat>) {
    && (forall k :: 0 <= k < |tails| ==> tails[k] < |values|)
    && forall j, k :: 0 <= j < k < |tails| ==> values[tails[j]] < values[tails[k]]
  }

  /** Where `value` belongs among the tails: the standard library's binary search. */
  method PartitionPoint(values: seq<nat>, tails: seq<nat>, value: nat) returns (slot: nat)
    requires TailsSorted(values, tails)
    ensures slot <= |tails|
    ensures forall k :: 0 <= k < slot ==> values[tails[k]] < value
    ensures forall k :: slot <= k < |tails| ==> value <= values[tails[k]]
  {
    slot := 0;
    var high := |tails|;
    while slot < high
      invariant slot <= high <= |tails|
      invariant forall k :: 0 <= k < slot ==> values[tails[k]] < value
      invariant forall k :: high <= k < |tails| ==> value <= values[tails[k]]
    {
      var middle := (slot + high) / 2;
      if values[tails[middle]] < value {
        slot := middle + 1;
      } else {
        high := middle;
      }
    }
  }

  /** Every position with a rank links to an earlier, smaller position one rank below. */
  ghost predicate Linked(values: seq<nat>, previous: seq<int>, rank: seq<nat>) {
    && |rank| <= |values| == |previous|
    && (forall p {:trigger previous[p]} :: 0 <= p < |rank| && rank[p] == 0 ==> previous[p] == -1)
    && (forall p {:trigger previous[p]} :: 0 <= p < |rank| && rank[p] > 0 ==>
          && 0 <= previous[p] < p
          && rank[previous[p]] == rank[p] - 1
          && values[previous[p]] < values[p])
    && (forall p :: |rank| <= p < |values| ==> previous[p] == -1)
  }

  /** A smaller value before a position has a smaller rank. */
  ghost predicate RanksGrow(values: seq<nat>, rank: seq<nat>) {
    && |rank| <= |values|
    && forall p, q :: 0 <= q < p < |rank| && values[q] < values[p] ==> rank[q] < rank[p]
  }

  /** Tail `k` is a position of rank `k`, and holds the least value of that rank. */
  ghost predicate TailsLeast(values: seq<nat>, tails: seq<nat>, rank: seq<nat>) {
    && |rank| <= |values|
    && TailsSorted(values, tails)
    && (forall k :: 0 <= k < |tails| ==> tails[k] < |rank| && rank[tails[k]] == k)
    && (forall p :: 0 <= p < |rank| ==> rank[p] < |tails| && values[tails[rank[p]]] <= values[p])
  }

  /** `slot` is where the value after the ranked ones belongs. */
  ghost predicate Slot(values: seq<nat>, tails: seq<nat>, rank: seq<nat>, slot: nat) {
    && |rank| < |values|
    && slot <= |tails|
    && TailsSorted(values, tails)
    && (forall k :: 0 <= k < slot ==> values[tails[k]] < values[|rank|])
    && (forall k :: slot <= k < |tails| ==> values[|rank|] <= values[tails[k]])
  }

  /** Pushes `position`, or replaces the tail at `slot` with it. */
  function Placed(tails: seq<nat>, slot: nat, position: nat): seq<nat>
    requires slot <= |tails|
  {
    if slot == |tails| then tails + [position] else tails[slot := position]
  }

  lemma PlacingKeepsTailsLeast(values: seq<nat>, tails: seq<nat>, rank: seq<nat>, slot: nat)
    requires TailsLeast(values, tails, rank) && Slot(values, tails, rank, slot)
    ensures TailsLeast(values, Placed(tails, slot, |rank|), rank + [slot])
  {
    var tails', rank' := Placed(tails, slot, |rank|), rank + [slot];
    forall p | 0 <= p < |rank'|
      ensures rank'[p] < |tails'| && values[tails'[rank'[p]]] <= values[p]
    {
      if p < |rank| {
        assert rank'[p] == rank[p] && values[tails[rank[p]]] <= values[p];
      }
    }
  }

  lemma PlacingKeepsRanksGrowing(values: seq<nat>, tails: seq<nat>, rank: seq<nat>, slot: nat)
    requires TailsLeast(values, tails, rank) && Slot(values, tails, rank, slot)
    requires RanksGrow(values, rank)
    ensures RanksGrow(values, rank + [slot])
  {
    forall q | 0 <= q < |rank| && values[q] < values[|rank|]
      ensures rank[q] < slot
    {
      assert values[tails[rank[q]]] <= values[q];
    }
  }

  /** Links `position` back to the tail before `slot`, if there is one. */
  function Link(previous: seq<int>, tails: seq<nat>, slot: nat, position: nat): seq<int>
    requires slot <= |tails| && position < |previous|
  {
    if slot > 0 then previous[position := tails[slot - 1]] else previous
  }

  lemma PlacingKeepsLinks(values: seq<nat>, tails: seq<nat>, previous: seq<int>, rank: seq<nat>, slot: nat)
    requires TailsLeast(values, tails, rank) && Slot(values, tails, rank, slot)
    requires Linked(values, previous, rank)
    ensures Linked(values, Link(previous, tails, slot, |rank|), rank + [slot])
  {
  }

  /** An increasing marking cannot be longer than the ranks allow. */
  lemma {:induction false} RankBound(values: seq<nat>, rank: seq<nat>, marks: seq<bool>, bound: nat)
    requires |rank| == |values|
    requires MarksIncreasing(values, marks)
    requires RanksGrow(values, rank)
    requires forall p :: 0 <= p < |values| && marks[p] ==> rank[p] < bound
    ensures Count(marks) <= bound
  {
    if values != [] {
      var n := |values| - 1;
      RankBound(values[..n], rank[..n], marks[..n], if marks[n] then rank[n] else bound);
    }
  }

  lemma RanksBoundAll(values: seq<nat>, rank: seq<nat>, bound: nat)
    requires |rank| == |values| && RanksGrow(values, rank)
    requires forall p :: 0 <= p < |values| ==> rank[p] < bound
    ensures forall marks :: MarksIncreasing(values, marks) ==> Count(marks) <= bound
  {
    forall marks | MarksIncreasing(values, marks)
      ensures Count(marks) <= bound
    {
      RankBound(values, rank, marks, bound);
    }
  }

  lemma {:induction false} CountOfNone(marks: seq<bool>)
    requires forall i :: 0 <= i < |marks| ==> !marks[i]
    ensures Count(marks) == 0
  {
    if marks != [] {
      CountOfNone(marks[..|marks| - 1]);
    }
  }

  lemma {:induction false} CountMark(marks: seq<bool>, i: nat)
    requires i < |marks| && !marks[i]
    ensures Count(marks[i := true]) == Count(marks) + 1
  {
    var n := |marks| - 1;
    if i < n {
      assert marks[i := true][..n] == marks[..n][i := true];
      CountMark(marks[..n], i);
    } else {
      assert marks[i := true][..n] == marks[..n];
    }
  }

  /** Marks the last tail and everything its links lead back to: one position a rank. */
  method WalkBack(values: seq<nat>, tails: seq<nat>, previous: array<int>, ghost rank: seq<nat>)
    returns (member: seq<bool>)
    requires |rank| == |values|
    requires TailsLeast(values, tails, rank) && Linked(values, previous[..], rank)
    ensures MarksIncreasing(values, member)
    ensures Count(member) == |tails|
  {
    var marks := new bool[|values|](_ => false);
    CountOfNone(marks[..]);
    var at: int := if tails == [] then -1 else tails[|tails| - 1];
    while at != -1
      invariant -1 <= at < |values|
      invariant MarksIncreasing(values, marks[..])
      invariant forall p :: 0 <= p < |values| && marks[p] ==> at < p && (at != -1 ==> values[at] < values[p])
      invariant Count(marks[..]) == |tails| - if at == -1 then 0 else rank[at] + 1
      decreases at
    {
      CountMark(marks[..], at);
      ghost var marked := marks[..][at := true];
      marks[at] := true;
      assert marks[..] == marked;
      at := previous[at];
    }
    member := marks[..];
  }

  /** Which elements belong to one longest strictly increasing subsequence. The source's
      `usize::MAX` ("no previous position"), which no position can equal, is -1 here. */
  method LongestIncreasing(values: seq<nat>) returns (member: seq<bool>)
    ensures MarksIncreasing(values, member)
    ensures forall other :: MarksIncreasing(values, other) ==> Count(other) <= Count(member)
  {
    var tails: seq<nat> := [];
    var previous := new int[|values|](_ => -1);
    ghost var rank: seq<nat> := [];
    for position := 0 to |values|
      invariant |rank| == position
      invariant TailsLeast(values, tails, rank)
      invariant RanksGrow(values, rank)
      invariant Linked(values, previous[..], rank)
    {
      var slot := PartitionPoint(values, tails, values[position]);
      PlacingKeepsTailsLeast(values, tails, rank, slot);
      PlacingKeepsRanksGrowing(values, tails, rank, slot);
      PlacingKeepsLinks(values, tails, previous[..], rank, slot);
      ghost var links := Link(previous[..], tails, slot, position);
      if slot > 0 {
        previous[position] := tails[slot - 1];
      }
      assert previous[..] == links;
      tails := Placed(tails, slot, position);
      rank := rank + [slot];
    }
    member := WalkBack(values, tails, previous, rank);
    RanksBoundAll(values, rank, |tails|);
  }
}
