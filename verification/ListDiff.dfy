/** The identity diff of two orders of keyed rows (`diff_keys`, crates/rustnative-data/src/list.rs). */
module ListDiff {
  import opened Patience

  datatype ListChange =
    | Remove(index: nat)
    | Insert(index: nat)
    | Move(from: nat, to: nat)

  ghost predicate Unique<T>(s: seq<T>) {
    forall i, j :: 0 <= i < j < |s| ==> s[i] != s[j]
  }

  /** The rows of `s` with keys in `keys`, in order. */
  ghost function Keep<K(!new)>(s: seq<K>, keys: set<K>): (r: seq<K>)
    ensures forall k :: k in r <==> k in s && k in keys
  {
    if s == [] then []
    else
      var last := s[|s| - 1];
      assert s == s[..|s| - 1] + [last];
      if last in keys then Keep(s[..|s| - 1], keys) + [last] else Keep(s[..|s| - 1], keys)
  }

  /** `s` without the rows at `positions`. */
  ghost function Without<K>(s: seq<K>, positions: set<nat>): seq<K> {
    if s == [] then []
    else
      var last := |s| - 1;
      Without(s[..last], positions) + if last in positions then [] else [s[last]]
  }

  ghost function Keys<K>(s: seq<K>): set<K> {
    set k | k in s
  }

  /** Saying that the rows with keys in `moved` moved explains the difference between the
      orders: the other rows present in both are in the same order in both. */
  ghost predicate Explains<K(!new)>(previous: seq<K>, next: seq<K>, moved: set<K>) {
    var still := Keys(previous) * Keys(next) - moved;
    Keep(previous, still) == Keep(next, still)
  }

  ghost function RemovedAt(changes: seq<ListChange>): set<nat> {
    set c | c in changes && c.Remove? :: c.index
  }

  ghost function InsertedAt(changes: seq<ListChange>): set<nat> {
    set c | c in changes && c.Insert? :: c.index
  }

  ghost function MovedFrom(changes: seq<ListChange>): set<nat> {
    set c | c in changes && c.Move? :: c.from
  }

  ghost function MovedTo(changes: seq<ListChange>): set<nat> {
    set c | c in changes && c.Move? :: c.to
  }

  /** The keys the moves name. */
  ghost function MovedKeys<K>(next: seq<K>, changes: seq<ListChange>): set<K> {
    set to | to in MovedTo(changes) && to < |next| :: next[to]
  }

  // ---------------------------------------------------------------------
  // Orders of unique keys
  // ---------------------------------------------------------------------

  lemma {:induction false} KeepAgree<K(!new)>(s: seq<K>, a: set<K>, b: set<K>)
    requires forall k :: k in s ==> (k in a <==> k in b)
    ensures Keep(s, a) == Keep(s, b)
  {
    if s != [] {
      KeepAgree(s[..|s| - 1], a, b);
    }
  }

  lemma {:induction false} KeepNone<K(!new)>(s: seq<K>, keys: set<K>)
    requires keys == {}
    ensures Keep(s, keys) == []
  {
    if s != [] {
      KeepNone(s[..|s| - 1], keys);
    }
  }

  /** The last kept row can be split off. */
  lemma {:induction false} KeepLast<K(!new)>(s: seq<K>, keys: set<K>, at: nat)
    requires Unique(s) && at < |s| && s[at] in keys
    requires forall i :: at < i < |s| ==> s[i] !in keys
    ensures Keep(s, keys) == Keep(s, keys - {s[at]}) + [s[at]]
  {
    var last := |s| - 1;
    if at == last {
      KeepAgree(s[..last], keys, keys - {s[at]});
    } else {
      KeepLast(s[..last], keys, at);
    }
  }

  lemma {:induction false} KeepPrefix<K(!new)>(s: seq<K>, keys: set<K>, i: nat)
    requires i <= |s|
    ensures Keep(s[..i], keys) <= Keep(s, keys)
  {
    if i < |s| {
      assert s[..|s| - 1][..i] == s[..i];
      KeepPrefix(s[..|s| - 1], keys, i);
    } else {
      assert s[..i] == s;
    }
  }

  /** A kept row's place among the kept rows is the number kept before it. */
  lemma KeepAt<K(!new)>(s: seq<K>, keys: set<K>, i: nat)
    requires i < |s| && s[i] in keys
    ensures |Keep(s[..i], keys)| < |Keep(s, keys)| && Keep(s, keys)[|Keep(s[..i], keys)|] == s[i]
  {
    assert s[..i + 1][..i] == s[..i];
    KeepPrefix(s, keys, i + 1);
  }

  lemma {:induction false} KeepUnique<K(!new)>(s: seq<K>, keys: set<K>)
    requires Unique(s)
    ensures Unique(Keep(s, keys))
  {
    if s != [] {
      KeepUnique(s[..|s| - 1], keys);
    }
  }

  /** Orders that keep the same list order any two kept rows the same way. */
  lemma SameKeptSameOrder<K(!new)>(previous: seq<K>, next: seq<K>, keys: set<K>, f: nat, g: nat, t: nat, u: nat)
    requires Unique(previous) && Keep(previous, keys) == Keep(next, keys)
    requires f < |previous| && g < |previous| && t < u < |next|
    requires previous[f] == next[t] && previous[g] == next[u] && next[t] in keys && next[u] in keys
    ensures f < g || next[t] == next[u]
  {
    var kept := Keep(next, keys);
    KeepAt(previous, keys, f);
    KeepAt(previous, keys, g);
    KeepAt(next, keys, t);
    KeepAt(next, keys, u);
    KeepUnique(previous, keys);
    if g <= f {
      assert next[..u][..t] == next[..t];
      KeepAt(next[..u], keys, t);
      assert previous[..f][..g] == previous[..g];
      KeepPrefix(previous[..f], keys, g);
    }
  }

  /** `next`'s kept rows are rows of `previous` too, at increasing positions. */
  ghost predicate Increasing<K(!new)>(previous: seq<K>, next: seq<K>, keys: set<K>) {
    forall f, g, t, u ::
      && 0 <= f < |previous| && 0 <= g < |previous| && 0 <= t < u < |next|
      && previous[f] == next[t] && previous[g] == next[u] && next[t] in keys && next[u] in keys
      ==> f < g
  }

  lemma IncreasingPrefix<K(!new)>(previous: seq<K>, next: seq<K>, keys: set<K>)
    requires next != [] && Increasing(previous, next, keys)
    ensures Increasing(previous, next[..|next| - 1], keys - {next[|next| - 1]})
  {
  }

  /** The last row of `next`, when kept, is the last kept row of `previous`. */
  lemma LastIsLast<K(!new)>(previous: seq<K>, next: seq<K>, keys: set<K>) returns (f: nat)
    requires Unique(previous) && keys <= Keys(previous) * Keys(next) && Increasing(previous, next, keys)
    requires next != [] && next[|next| - 1] in keys
    ensures f < |previous| && previous[f] == next[|next| - 1]
    ensures forall g :: f < g < |previous| ==> previous[g] !in keys
  {
    var n := |next| - 1;
    assert next[n] in Keys(previous);
    f :| 0 <= f < |previous| && previous[f] == next[n];
  }

  lemma {:induction false} IncreasingKeepsSame<K(!new)>(previous: seq<K>, next: seq<K>, keys: set<K>)
    requires Unique(previous) && Unique(next)
    requires keys <= Keys(previous) * Keys(next)
    requires Increasing(previous, next, keys)
    ensures Keep(previous, keys) == Keep(next, keys)
    decreases |next|
  {
    if next == [] {
      KeepNone(previous, keys);
    } else {
      var n := |next| - 1;
      var rest := keys - {next[n]};
      IncreasingPrefix(previous, next, keys);
      assert rest <= Keys(previous) * Keys(next[..n]) by {
        assert next == next[..n] + [next[n]];
      }
      IncreasingKeepsSame(previous, next[..n], rest);
      KeepAgree(next[..n], keys, rest);
      if next[n] in keys {
        var f := LastIsLast(previous, next, keys);
        KeepLast(previous, keys, f);
      } else {
        assert rest == keys;
      }
    }
  }

  // ---------------------------------------------------------------------
  // The diff
  // ---------------------------------------------------------------------

  /** `kept` pairs the place of every row of `next` that `previous` has too with its old
      place, in new order. */
  ghost predicate KeptRows<K(!new)>(previous: seq<K>, next: seq<K>, kept: seq<(nat, nat)>) {
    && (forall p :: 0 <= p < |kept| ==>
          kept[p].0 < |previous| && kept[p].1 < |next| && previous[kept[p].0] == next[kept[p].1])
    && (forall p, q :: 0 <= p < q < |kept| ==> kept[p].1 < kept[q].1)
    && (forall t :: 0 <= t < |next| && next[t] in previous ==> exists p :: 0 <= p < |kept| && kept[p].1 == t)
  }

  ghost function OldPlaces(kept: seq<(nat, nat)>): seq<nat> {
    seq(|kept|, p requires 0 <= p < |kept| => kept[p].0)
  }

  /** The keys of the kept rows whose mark is `mark`. */
  ghost function KeysMarked<K>(next: seq<K>, kept: seq<(nat, nat)>, marks: seq<bool>, mark: bool): set<K>
    requires |marks| == |kept| && forall p :: 0 <= p < |kept| ==> kept[p].1 < |next|
  {
    set p | 0 <= p < |kept| && marks[p] == mark :: next[kept[p].1]
  }

  /** A set of moved keys that explains the difference leaves an increasing marking. */
  lemma ExplanationIncreases<K(!new)>(previous: seq<K>, next: seq<K>, kept: seq<(nat, nat)>,
                                      moved: set<K>, marks: seq<bool>)
    requires Unique(previous) && Unique(next) && KeptRows(previous, next, kept)
    requires Explains(previous, next, moved)
    requires |marks| == |kept| && forall p :: 0 <= p < |kept| ==> marks[p] == (next[kept[p].1] !in moved)
    ensures MarksIncreasing(OldPlaces(kept), marks)
  {
    var still := Keys(previous) * Keys(next) - moved;
    forall p, q | 0 <= p < q < |kept| && marks[p] && marks[q]
      ensures kept[p].0 < kept[q].0
    {
      SameKeptSameOrder(previous, next, still, kept[p].0, kept[q].0, kept[p].1, kept[q].1);
    }
  }

  /** An increasing marking explains the difference: what it leaves unmarked moved. */
  lemma IncreaseExplains<K(!new)>(previous: seq<K>, next: seq<K>, kept: seq<(nat, nat)>, marks: seq<bool>)
    requires Unique(previous) && Unique(next) && KeptRows(previous, next, kept)
    requires MarksIncreasing(OldPlaces(kept), marks)
    ensures KeysMarked(next, kept, marks, true)
         == Keys(previous) * Keys(next) - KeysMarked(next, kept, marks, false)
    ensures Explains(previous, next, KeysMarked(next, kept, marks, false))
  {
    var still, moved := KeysMarked(next, kept, marks, true), KeysMarked(next, kept, marks, false);
    assert still == Keys(previous) * Keys(next) - moved;
    forall f, g, t, u |
      && 0 <= f < |previous| && 0 <= g < |previous| && 0 <= t < u < |next|
      && previous[f] == next[t] && previous[g] == next[u] && next[t] in still && next[u] in still
      ensures f < g
    {
      var p :| 0 <= p < |kept| && marks[p] && next[kept[p].1] == next[t];
      var q :| 0 <= q < |kept| && marks[q] && next[kept[q].1] == next[u];
      assert OldPlaces(kept)[p] == f && OldPlaces(kept)[q] == g;
      assert kept[p].1 == t && kept[q].1 == u;
    }
    IncreasingKeepsSame(previous, next, still);
  }

  /** The keys marked `false` among the kept rows before the last. */
  lemma KeysMarkedPrefix<K(!new)>(next: seq<K>, kept: seq<(nat, nat)>, marks: seq<bool>)
    requires Unique(next) && kept != [] && |marks| == |kept|
    requires forall p :: 0 <= p < |kept| ==> kept[p].1 < |next|
    requires forall p, q :: 0 <= p < q < |kept| ==> kept[p].1 < kept[q].1
    ensures var last := |kept| - 1;
      var fewer := KeysMarked(next, kept[..last], marks[..last], false);
      && next[kept[last].1] !in fewer
      && KeysMarked(next, kept, marks, false) == if marks[last] then fewer else fewer + {next[kept[last].1]}
  {
    var last := |kept| - 1;
    var fewer := KeysMarked(next, kept[..last], marks[..last], false);
    forall k | k in fewer
      ensures k in KeysMarked(next, kept, marks, false) && k != next[kept[last].1]
    {
      var p :| 0 <= p < last && marks[..last][p] == false && next[kept[..last][p].1] == k;
      assert kept[..last][p] == kept[p] && marks[p] == false;
    }
    forall k | k in KeysMarked(next, kept, marks, false)
      ensures k in fewer || (!marks[last] && k == next[kept[last].1])
    {
      var p :| 0 <= p < |kept| && marks[p] == false && next[kept[p].1] == k;
      if p < last {
        assert kept[..last][p] == kept[p] && marks[..last][p] == false;
      }
    }
    if !marks[last] {
      assert next[kept[last].1] in KeysMarked(next, kept, marks, false);
    }
  }

  lemma {:induction false} UnmarkedCount<K(!new)>(next: seq<K>, kept: seq<(nat, nat)>, marks: seq<bool>)
    requires Unique(next) && |marks| == |kept|
    requires forall p :: 0 <= p < |kept| ==> kept[p].1 < |next|
    requires forall p, q :: 0 <= p < q < |kept| ==> kept[p].1 < kept[q].1
    ensures |KeysMarked(next, kept, marks, false)| == |kept| - Count(marks)
  {
    if kept == [] {
      assert KeysMarked(next, kept, marks, false) == {};
    } else {
      KeysMarkedPrefix(next, kept, marks);
      UnmarkedCount(next, kept[..|kept| - 1], marks[..|kept| - 1]);
    }
  }

  /** No set of moved keys smaller than what a longest marking leaves unmarked will do. */
  lemma FewestMoved<K(!new)>(previous: seq<K>, next: seq<K>, kept: seq<(nat, nat)>, marks: seq<bool>, moved: set<K>)
    requires Unique(previous) && Unique(next) && KeptRows(previous, next, kept)
    requires MarksIncreasing(OldPlaces(kept), marks)
    requires forall other :: MarksIncreasing(OldPlaces(kept), other) ==> Count(other) <= Count(marks)
    requires Explains(previous, next, moved)
    ensures |KeysMarked(next, kept, marks, false)| <= |moved|
  {
    var other := seq(|kept|, p requires 0 <= p < |kept| => next[kept[p].1] !in moved);
    ExplanationIncreases(previous, next, kept, moved, other);
    UnmarkedCount(next, kept, marks);
    UnmarkedCount(next, kept, other);
    Subset(KeysMarked(next, kept, other, false), moved);
  }

  lemma {:induction false} Subset<T>(a: set<T>, b: set<T>)
    requires a <= b
    ensures |a| <= |b|
  {
    if a != {} {
      var x :| x in a;
      Subset(a - {x}, b - {x});
    }
  }

  lemma {:induction false} WithoutKeeps<K(!new)>(s: seq<K>, positions: set<nat>, keys: set<K>)
    requires forall i :: 0 <= i < |s| ==> (i in positions <==> s[i] !in keys)
    ensures Without(s, positions) == Keep(s, keys)
  {
    if s != [] {
      WithoutKeeps(s[..|s| - 1], positions, keys);
    }
  }

  /** Removes come first, then moves, then inserts, each by increasing position. */
  ghost predicate InOrder(changes: seq<ListChange>) {
    forall i, j :: 0 <= i < j < |changes| ==> Precedes(changes[i], changes[j])
  }

  ghost predicate Precedes(a: ListChange, b: ListChange) {
    match (a, b)
    case (Remove(i), Remove(j)) => i < j
    case (Move(_, i), Move(_, j)) => i < j
    case (Insert(i), Insert(j)) => i < j
    case (Remove(_), _) => true
    case (_, Insert(_)) => true
    case _ => false
  }

  /** What the changes say, row by row. */
  ghost predicate Describes<K(!new)>(previous: seq<K>, next: seq<K>, changes: seq<ListChange>) {
    && InOrder(changes)
    && (forall i: nat :: Remove(i) in changes <==> i < |previous| && previous[i] !in next)
    && (forall i: nat :: Insert(i) in changes <==> i < |next| && next[i] !in previous)
    && (forall f: nat, t: nat :: Move(f, t) in changes ==>
          f < |previous| && t < |next| && previous[f] == next[t])
  }

  /** The moves are the kept rows that are not marked. */
  ghost predicate MovesUnmarked(kept: seq<(nat, nat)>, marks: seq<bool>, changes: seq<ListChange>)
    requires |marks| == |kept|
  {
    forall f: nat, t: nat :: Move(f, t) in changes <==>
      exists p :: 0 <= p < |kept| && !marks[p] && kept[p] == (f, t)
  }

  /** For unique keys: what is left of both orders agrees, and no fewer rows could have moved. */
  lemma DiffIsLeast<K(!new)>(previous: seq<K>, next: seq<K>, kept: seq<(nat, nat)>, marks: seq<bool>,
                             changes: seq<ListChange>)
    requires Unique(previous) && Unique(next) && KeptRows(previous, next, kept)
    requires MarksIncreasing(OldPlaces(kept), marks)
    requires forall other :: MarksIncreasing(OldPlaces(kept), other) ==> Count(other) <= Count(marks)
    requires Describes(previous, next, changes) && MovesUnmarked(kept, marks, changes)
    ensures Without(previous, RemovedAt(changes) + MovedFrom(changes))
         == Without(next, InsertedAt(changes) + MovedTo(changes))
    ensures Explains(previous, next, MovedKeys(next, changes))
    ensures forall moved :: Explains(previous, next, moved) ==> |MovedKeys(next, changes)| <= |moved|
  {
    var still, unmarked := KeysMarked(next, kept, marks, true), KeysMarked(next, kept, marks, false);
    IncreaseExplains(previous, next, kept, marks);
    assert MovedKeys(next, changes) == unmarked by {
      forall p | 0 <= p < |kept| && !marks[p]
        ensures next[kept[p].1] in MovedKeys(next, changes)
      {
        assert Move(kept[p].0, kept[p].1) in changes;
      }
    }
    forall moved | Explains(previous, next, moved)
      ensures |unmarked| <= |moved|
    {
      FewestMoved(previous, next, kept, marks, moved);
    }
    WhatIsLeft(previous, next, kept, marks, changes);
    WithoutKeeps(previous, RemovedAt(changes) + MovedFrom(changes), still);
    WithoutKeeps(next, InsertedAt(changes) + MovedTo(changes), still);
  }

  /** The rows the changes leave alone are the marked ones. */
  lemma WhatIsLeft<K(!new)>(previous: seq<K>, next: seq<K>, kept: seq<(nat, nat)>, marks: seq<bool>,
                            changes: seq<ListChange>)
    requires Unique(previous) && Unique(next) && KeptRows(previous, next, kept) && |marks| == |kept|
    requires Describes(previous, next, changes) && MovesUnmarked(kept, marks, changes)
    ensures forall i :: 0 <= i < |previous| ==>
      (i in RemovedAt(changes) + MovedFrom(changes) <==> previous[i] !in KeysMarked(next, kept, marks, true))
    ensures forall i :: 0 <= i < |next| ==>
      (i in InsertedAt(changes) + MovedTo(changes) <==> next[i] !in KeysMarked(next, kept, marks, true))
  {
    forall i | 0 <= i < |previous|
      ensures i in RemovedAt(changes) + MovedFrom(changes) <==> previous[i] !in KeysMarked(next, kept, marks, true)
    {
      if previous[i] in next {
        var p := KeptAt(previous, next, kept, i);
        assert i in MovedFrom(changes) <==> !marks[p] by {
          assert Move(i, kept[p].1) in changes <==> !marks[p];
        }
      } else {
        assert Remove(i) in changes;
      }
    }
    forall i | 0 <= i < |next|
      ensures i in InsertedAt(changes) + MovedTo(changes) <==> next[i] !in KeysMarked(next, kept, marks, true)
    {
      if next[i] in previous {
        var p :| 0 <= p < |kept| && kept[p].1 == i;
        assert i in MovedTo(changes) <==> !marks[p] by {
          assert Move(kept[p].0, i) in changes <==> !marks[p];
        }
      } else {
        assert Insert(i) in changes;
      }
    }
  }

  lemma KeptAt<K(!new)>(previous: seq<K>, next: seq<K>, kept: seq<(nat, nat)>, i: nat) returns (p: nat)
    requires Unique(previous) && Unique(next) && KeptRows(previous, next, kept)
    requires i < |previous| && previous[i] in next
    ensures p < |kept| && kept[p].0 == i
    ensures forall q :: 0 <= q < |kept| && (kept[q].0 == i || next[kept[q].1] == previous[i]) ==> q == p
  {
    var t :| 0 <= t < |next| && next[t] == previous[i];
    p :| 0 <= p < |kept| && kept[p].1 == t;
  }

  /** Where each key is; on a repeated key, the last position. */
  method Positions<K(==)>(keys: seq<K>) returns (at: map<K, nat>)
    ensures forall k :: k in at <==> k in keys
    ensures forall k :: k in at ==> at[k] < |keys| && keys[at[k]] == k
    ensures forall i :: 0 <= i < |keys| ==> i <= at[keys[i]]
  {
    at := map[];
    for i := 0 to |keys|
      invariant forall k :: k in at <==> k in keys[..i]
      invariant forall k :: k in at ==> at[k] < i && keys[at[k]] == k
      invariant forall j :: 0 <= j < i ==> j <= at[keys[j]]
    {
      at := at[keys[i] := i];
    }
    assert keys[..|keys|] == keys;
  }

  ghost predicate Ascending(at: seq<nat>) {
    forall i, j :: 0 <= i < j < |at| ==> at[i] < at[j]
  }

  /** The positions of the keys of `keys` that are not in `other`. */
  method Absent<K(==)>(keys: seq<K>, other: map<K, nat>) returns (at: seq<nat>)
    ensures Ascending(at)
    ensures forall i: nat :: i in at <==> i < |keys| && keys[i] !in other
  {
    at := [];
    for i := 0 to |keys|
      invariant Ascending(at)
      invariant forall j :: 0 <= j < |at| ==> at[j] < i
      invariant forall j: nat :: j in at <==> j < i && keys[j] !in other
    {
      if keys[i] !in other {
        at := at + [i];
      }
    }
  }

  /** The rows present in both, in new order, with their old positions. */
  method RowsInBoth<K(==,!new)>(ghost previous: seq<K>, next: seq<K>, oldPosition: map<K, nat>)
    returns (kept: seq<(nat, nat)>)
    requires forall k :: k in oldPosition <==> k in previous
    requires forall k :: k in oldPosition ==> oldPosition[k] < |previous| && previous[oldPosition[k]] == k
    ensures KeptRows(previous, next, kept)
  {
    kept := [];
    for to := 0 to |next|
      invariant forall p :: 0 <= p < |kept| ==>
        kept[p].0 < |previous| && kept[p].1 < to && previous[kept[p].0] == next[kept[p].1]
      invariant forall p, q :: 0 <= p < q < |kept| ==> kept[p].1 < kept[q].1
      invariant forall t :: 0 <= t < to && next[t] in previous ==> exists p :: 0 <= p < |kept| && kept[p].1 == t
    {
      if next[to] in oldPosition {
        ghost var before := kept;
        kept := kept + [(oldPosition[next[to]], to)];
        assert kept[|before|].1 == to;
        assert forall p :: 0 <= p < |before| ==> kept[p] == before[p];
      }
    }
  }

  ghost predicate MovesInOrder(moves: seq<ListChange>) {
    && (forall i :: 0 <= i < |moves| ==> moves[i].Move?)
    && forall i, j :: 0 <= i < j < |moves| ==> moves[i].to < moves[j].to
  }

  /** The kept rows that do not stay. */
  method MovesOf(kept: seq<(nat, nat)>, stays: seq<bool>) returns (moves: seq<ListChange>)
    requires |stays| == |kept|
    requires forall p, q :: 0 <= p < q < |kept| ==> kept[p].1 < kept[q].1
    ensures MovesInOrder(moves)
    ensures MovesUnmarked(kept, stays, moves)
  {
    moves := [];
    for p := 0 to |kept|
      invariant MovesInOrder(moves)
      invariant forall i :: 0 <= i < |moves| && p < |kept| ==> moves[i].to < kept[p].1
      invariant forall c :: c in moves ==> exists q :: 0 <= q < p && !stays[q] && c == Move(kept[q].0, kept[q].1)
      invariant forall q :: 0 <= q < p && !stays[q] ==> Move(kept[q].0, kept[q].1) in moves
    {
      if !stays[p] {
        moves := moves + [Move(kept[p].0, kept[p].1)];
      }
    }
  }

  function Removes(at: seq<nat>): seq<ListChange> {
    seq(|at|, i requires 0 <= i < |at| => Remove(at[i]))
  }

  function Inserts(at: seq<nat>): seq<ListChange> {
    seq(|at|, i requires 0 <= i < |at| => Insert(at[i]))
  }

  lemma Assembled(removed: seq<nat>, moves: seq<ListChange>, inserted: seq<nat>)
    requires Ascending(removed) && MovesInOrder(moves) && Ascending(inserted)
    ensures var changes := Removes(removed) + moves + Inserts(inserted);
      && InOrder(changes)
      && (forall i: nat :: Remove(i) in changes <==> i in removed)
      && (forall i: nat :: Insert(i) in changes <==> i in inserted)
      && (forall f: nat, t: nat :: Move(f, t) in changes <==> Move(f, t) in moves)
  {
    var changes := Removes(removed) + moves + Inserts(inserted);
    forall i | 0 <= i < |removed|
      ensures changes[i] == Remove(removed[i])
    {
    }
    forall i | 0 <= i < |inserted|
      ensures changes[|removed| + |moves| + i] == Insert(inserted[i])
    {
    }
    forall c | c in moves
      ensures c in changes
    {
      var i :| 0 <= i < |moves| && moves[i] == c;
      assert changes[|removed| + i] == c;
    }
  }

  /** The rows removed, the rows inserted, and the fewest rows that must be said to have moved. */
  method DiffKeys<K(==,!new)>(previous: seq<K>, next: seq<K>) returns (changes: seq<ListChange>)
    ensures Describes(previous, next, changes)
    ensures Unique(previous) && Unique(next) ==>
      && Without(previous, RemovedAt(changes) + MovedFrom(changes))
      == Without(next, InsertedAt(changes) + MovedTo(changes))
      && Explains(previous, next, MovedKeys(next, changes))
      && forall moved :: Explains(previous, next, moved) ==> |MovedKeys(next, changes)| <= |moved|
  {
    var oldPosition := Positions(previous);
    var newKeys := Positions(next);
    var removed := Absent(previous, newKeys);
    changes := Removes(removed);
    var kept := RowsInBoth(previous, next, oldPosition);
    var places: seq<nat> := seq(|kept|, p requires 0 <= p < |kept| => kept[p].0);
    var stays := LongestIncreasing(places);
    var moves := MovesOf(kept, stays);
    changes := changes + moves;
    var inserted := Absent(next, oldPosition);
    changes := changes + Inserts(inserted);
    Assembled(removed, moves, inserted);
    if Unique(previous) && Unique(next) {
      assert places == OldPlaces(kept);
      DiffIsLeast(previous, next, kept, stays, changes);
    }
  }
}
