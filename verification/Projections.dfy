/** Views of a list that copy no rows (`Projection`, crates/rustnative-data/src/list.rs). */
module Projections {
  // Below, a row is what it holds with where it is in the source, so that no two rows are equal.

  ghost predicate Distinct<R>(rows: seq<R>) {
    forall i, j :: 0 <= i < j < |rows| ==> rows[i] != rows[j]
  }

  // ---------------------------------------------------------------------
  // Filtering
  // ---------------------------------------------------------------------

  function Retained<R>(rows: seq<R>, keep: R -> bool): (kept: seq<R>)
    ensures forall i :: 0 <= i < |kept| ==> kept[i] in rows && keep(kept[i])
    ensures forall r :: r in rows && keep(r) ==> r in kept
  {
    if rows == [] then []
    else
      var rest, last := rows[..|rows| - 1], rows[|rows| - 1];
      assert rows == rest + [last];
      Retained(rest, keep) + (if keep(last) then [last] else [])
  }

  ghost predicate Related<R>(rows: seq<R>, before: (R, R) -> bool) {
    forall i, j :: 0 <= i < j < |rows| ==> before(rows[i], rows[j])
  }

  /** Filtering keeps rows in their order: whatever came before still does. */
  lemma {:induction false} RetainedKeepsOrder<R>(rows: seq<R>, keep: R -> bool, before: (R, R) -> bool)
    requires Related(rows, before)
    ensures Related(Retained(rows, keep), before)
  {
    if rows != [] {
      var rest, last := rows[..|rows| - 1], rows[|rows| - 1];
      RetainedKeepsOrder(rest, keep, before);
      var kept := Retained(rest, keep);
      forall i | 0 <= i < |kept|
        ensures before(kept[i], last)
      {
        assert kept[i] in rest;
      }
      assert Related(kept + [last], before);
    }
  }

  /** A filter goes row by row. */
  lemma RetainedNext<R>(rows: seq<R>, i: nat, keep: R -> bool)
    requires i < |rows|
    ensures Retained(rows[..i + 1], keep) == Retained(rows[..i], keep) + if keep(rows[i]) then [rows[i]] else []
  {
    assert rows[..i + 1][..i] == rows[..i];
  }

  // ---------------------------------------------------------------------
  // Sorting
  // ---------------------------------------------------------------------

  /** What a comparison must be for a sort to mean anything. */
  ghost predicate TotalPreorder<R(!new)>(le: (R, R) -> bool) {
    && (forall a, b :: le(a, b) || le(b, a))
    && (forall a, b, c :: le(a, b) && le(b, c) ==> le(a, c))
  }

  /** Where a row is. */
  ghost function Place<R>(rows: seq<R>, row: R): (at: nat)
    requires row in rows
    ensures at < |rows| && rows[at] == row
  {
    if rows[0] == row then 0 else 1 + Place(rows[1..], row)
  }

  /** In a stable sort of `before`, `x` comes before `y`: it is less, or as much and came before. */
  ghost predicate Precedes<R>(before: seq<R>, le: (R, R) -> bool, x: R, y: R) {
    && x in before && y in before
    && le(x, y) && (le(y, x) ==> Place(before, x) < Place(before, y))
  }

  /** `after` has the rows of `before`, sorted, equal ones in the order they had. */
  ghost predicate StablySorted<R>(before: seq<R>, after: seq<R>, le: (R, R) -> bool) {
    && |after| == |before|
    && (forall r :: r in after ==> r in before)
    && (forall r :: r in before ==> r in after)
    && (forall i, j :: 0 <= i < j < |after| ==> Precedes(before, le, after[i], after[j]))
  }

  /** There is only one: a stable sort is determined by the rows and the comparison. */
  lemma StableSortIsUnique<R>(before: seq<R>, a: seq<R>, b: seq<R>, le: (R, R) -> bool)
    requires StablySorted(before, a, le) && StablySorted(before, b, le)
    ensures a == b
  {
    AgreeUpTo(before, a, b, le, |a|);
  }

  lemma {:induction false} AgreeUpTo<R>(before: seq<R>, a: seq<R>, b: seq<R>, le: (R, R) -> bool, n: nat)
    requires StablySorted(before, a, le) && StablySorted(before, b, le)
    requires n <= |a|
    ensures a[..n] == b[..n]
  {
    if n > 0 {
      AgreeUpTo(before, a, b, le, n - 1);
      if a[n - 1] != b[n - 1] {
        LaterThan(before, a, b, le, n - 1);
        LaterThan(before, b, a, le, n - 1);
      }
    }
  }

  /** Where two sorts first differ, the row of one comes after the row of the other. */
  lemma LaterThan<R>(before: seq<R>, a: seq<R>, b: seq<R>, le: (R, R) -> bool, n: nat)
    requires StablySorted(before, a, le) && StablySorted(before, b, le)
    requires n < |a| && n < |b| && a[..n] == b[..n] && b[n] != a[n]
    ensures Precedes(before, le, b[n], a[n])
  {
    forall k | 0 <= k < n
      ensures b[k] != a[n]
    {
      assert a[..n][k] == b[..n][k];
      assert Precedes(before, le, a[k], a[n]);
    }
    assert a[n] in b && Precedes(before, le, b[n], b[Place(b, a[n])]);
  }

  /** The row `x` put after every row of `sorted` that is not greater. */
  function Inserted<R>(sorted: seq<R>, x: R, le: (R, R) -> bool): (after: seq<R>)
    ensures |after| == |sorted| + 1
    ensures (forall r :: r in after ==> r in sorted || r == x) && x in after && forall r :: r in sorted ==> r in after
  {
    if sorted == [] || le(sorted[|sorted| - 1], x) then sorted + [x]
    else
      var rest, last := sorted[..|sorted| - 1], sorted[|sorted| - 1];
      assert sorted == rest + [last];
      Inserted(rest, x, le) + [last]
  }

  /** Rows inserted one by one: a stable sort, and so, there being only one, the library's. */
  function Sorted<R>(rows: seq<R>, le: (R, R) -> bool): (after: seq<R>)
    ensures |after| == |rows|
    ensures (forall r :: r in after ==> r in rows) && forall r :: r in rows ==> r in after
  {
    if rows == [] then []
    else
      var rest, last := rows[..|rows| - 1], rows[|rows| - 1];
      assert rows == rest + [last];
      Inserted(Sorted(rest, le), last, le)
  }

  ghost predicate InOrder<R>(before: seq<R>, le: (R, R) -> bool, sorted: seq<R>) {
    forall i, j :: 0 <= i < j < |sorted| ==> Precedes(before, le, sorted[i], sorted[j])
  }

  lemma {:induction false} InsertedInOrder<R(!new)>(before: seq<R>, sorted: seq<R>, x: R, le: (R, R) -> bool)
    requires TotalPreorder(le) && x in before
    requires forall r :: r in sorted ==> r in before && Place(before, r) < Place(before, x)
    requires InOrder(before, le, sorted)
    ensures InOrder(before, le, Inserted(sorted, x, le))
    decreases |sorted|
  {
    if sorted != [] {
      var rest, last := sorted[..|sorted| - 1], sorted[|sorted| - 1];
      assert last in sorted;
      if le(last, x) {
        forall i | 0 <= i < |sorted|
          ensures Precedes(before, le, sorted[i], x)
        {
          assert sorted[i] in sorted;
          assert i < |sorted| - 1 ==> Precedes(before, le, sorted[i], last);
        }
      } else {
        assert forall r :: r in rest ==> r in sorted;
        InsertedInOrder(before, rest, x, le);
        forall r | r in Inserted(rest, x, le)
          ensures Precedes(before, le, r, last)
        {
          if r != x {
            assert Precedes(before, le, sorted[Place(rest, r)], last);
          }
        }
      }
    }
  }

  /** Sorting gives the stable sort. */
  lemma SortedIsStable<R(!new)>(rows: seq<R>, le: (R, R) -> bool)
    requires TotalPreorder(le) && Distinct(rows)
    ensures StablySorted(rows, Sorted(rows, le), le)
  {
    SortedSoFar(rows, |rows|, le);
    assert rows[..|rows|] == rows;
  }

  lemma {:induction false} SortedSoFar<R(!new)>(rows: seq<R>, n: nat, le: (R, R) -> bool)
    requires TotalPreorder(le) && Distinct(rows) && n <= |rows|
    ensures InOrder(rows, le, Sorted(rows[..n], le))
  {
    if n > 0 {
      SortedSoFar(rows, n - 1, le);
      assert rows[..n][..n - 1] == rows[..n - 1];
      var after, x := Sorted(rows[..n - 1], le), rows[n - 1];
      forall r | r in after
        ensures r in rows && Place(rows, r) < Place(rows, x)
      {
        assert r in rows[..n - 1];
        var k :| 0 <= k < n - 1 && rows[k] == r;
        assert Place(rows, r) == k && Place(rows, x) == n - 1;
      }
      InsertedInOrder(rows, after, x, le);
    }
  }

  // ---------------------------------------------------------------------
  // Sections
  // ---------------------------------------------------------------------

  datatype Section<R, K> = Section(key: K, rows: seq<R>)

  /** Consecutive rows with the same key, together. */
  function Sections<R, K(==)>(rows: seq<R>, key: R -> K): seq<Section<R, K>> {
    if rows == [] then [] else Extended(Sections(rows[..|rows| - 1], key), key, rows[|rows| - 1])
  }

  /** A row joins the last section if its key is that section's, or begins one. */
  function Extended<R, K(==)>(sections: seq<Section<R, K>>, key: R -> K, row: R): seq<Section<R, K>> {
    if sections != [] && sections[|sections| - 1].key == key(row) then
      sections[..|sections| - 1] + [Section(key(row), sections[|sections| - 1].rows + [row])]
    else sections + [Section(key(row), [row])]
  }

  /** The rows of the sections, one section after another. */
  ghost function RowsOf<R, K>(sections: seq<Section<R, K>>): seq<R> {
    if sections == [] then [] else RowsOf(sections[..|sections| - 1]) + sections[|sections| - 1].rows
  }

  /** A section's rows have its key, and there are some. */
  ghost predicate OfKey<R, K>(key: R -> K, section: Section<R, K>) {
    section.rows != [] && forall i :: 0 <= i < |section.rows| ==> key(section.rows[i]) == section.key
  }

  /** The rows in their order, cut exactly where the key changes. */
  ghost predicate Cuts<R, K>(rows: seq<R>, key: R -> K, sections: seq<Section<R, K>>) {
    && RowsOf(sections) == rows
    && (forall a :: 0 <= a < |sections| ==> OfKey(key, sections[a]))
    && (forall a :: 0 < a < |sections| ==> sections[a - 1].key != sections[a].key)
  }

  lemma {:induction false} SectionsCut<R, K>(rows: seq<R>, key: R -> K)
    ensures Cuts(rows, key, Sections(rows, key))
  {
    if rows != [] {
      var rest, last := rows[..|rows| - 1], rows[|rows| - 1];
      SectionsCut(rest, key);
      ExtendedCuts(rest, key, Sections(rest, key), last);
      assert rows == rest + [last];
    }
  }

  lemma ExtendedCuts<R, K>(rows: seq<R>, key: R -> K, sections: seq<Section<R, K>>, row: R)
    requires Cuts(rows, key, sections)
    ensures Cuts(rows + [row], key, Extended(sections, key, row))
  {
    var extended := Extended(sections, key, row);
    var n := |extended| - 1;
    if sections != [] && sections[|sections| - 1].key == key(row) {
      assert extended[..n] == sections[..n];
      assert OfKey(key, sections[n]);
      assert RowsOf(extended) == RowsOf(sections[..n]) + (sections[n].rows + [row]);
    } else {
      assert extended[..n] == sections;
    }
    assert OfKey(key, extended[n]);
  }

  /** That is the only way to cut them so. */
  lemma {:induction false} CutsAreUnique<R, K>(rows: seq<R>, key: R -> K, sections: seq<Section<R, K>>)
    requires Cuts(rows, key, sections)
    ensures sections == Sections(rows, key)
    decreases |rows|
  {
    if sections != [] {
      var (fewer, row) := Shortened(sections, key);
      ShortenedCuts(rows, key, sections);
      CutsAreUnique(rows[..|rows| - 1], key, fewer);
    }
  }

  /** The sections without the last row, and that row. */
  ghost function Shortened<R, K>(sections: seq<Section<R, K>>, key: R -> K): (seq<Section<R, K>>, R)
    requires sections != [] && OfKey(key, sections[|sections| - 1])
  {
    var n := |sections| - 1;
    var rows, m := sections[n].rows, |sections[n].rows| - 1;
    (if m == 0 then sections[..n] else sections[..n] + [Section(sections[n].key, rows[..m])], rows[m])
  }

  lemma ShortenedCuts<R, K>(rows: seq<R>, key: R -> K, sections: seq<Section<R, K>>)
    requires sections != [] && Cuts(rows, key, sections)
    ensures rows != []
    ensures var (fewer, row) := Shortened(sections, key);
      && row == rows[|rows| - 1]
      && Cuts(rows[..|rows| - 1], key, fewer)
      && Extended(fewer, key, row) == sections
  {
    var n := |sections| - 1;
    var last := sections[n];
    assert OfKey(key, last);
    var m := |last.rows| - 1;
    assert rows == RowsOf(sections[..n]) + last.rows;
    assert rows[..|rows| - 1] == RowsOf(sections[..n]) + last.rows[..m];
    ShortenedRows(key, sections);
    var fewer := Shortened(sections, key).0;
    forall a | 0 <= a < |fewer|
      ensures OfKey(key, fewer[a])
      ensures a > 0 ==> fewer[a - 1].key != fewer[a].key
    {
      assert OfKey(key, sections[a]);
      assert a > 0 ==> sections[a - 1].key != sections[a].key;
    }
  }

  lemma ShortenedRows<R, K>(key: R -> K, sections: seq<Section<R, K>>)
    requires sections != [] && OfKey(key, sections[|sections| - 1])
    requires |sections| > 1 ==> sections[|sections| - 2].key != sections[|sections| - 1].key
    ensures var (fewer, row) := Shortened(sections, key);
      var n, m := |sections| - 1, |sections[|sections| - 1].rows| - 1;
      && RowsOf(fewer) == RowsOf(sections[..n]) + sections[n].rows[..m]
      && Extended(fewer, key, row) == sections
  {
    var n := |sections| - 1;
    var last := sections[n];
    var m := |last.rows| - 1;
    var fewer := Shortened(sections, key).0;
    assert sections == sections[..n] + [last];
    if m > 0 {
      assert fewer[..n] == sections[..n];
      assert last.rows == last.rows[..m] + [last.rows[m]];
    } else {
      assert last.rows == [last.rows[0]] && last.rows[..m] == [];
    }
  }

  // ---------------------------------------------------------------------
  // One section for each key
  // ---------------------------------------------------------------------

  /** An order on keys: total, and equal only when the same. */
  ghost predicate TotalOrder<K(!new)>(le: (K, K) -> bool) {
    TotalPreorder(le) && forall a, b :: le(a, b) && le(b, a) ==> a == b
  }

  /** Sections in the order of their keys, no two of one key. */
  ghost predicate Ascending<R, K>(sections: seq<Section<R, K>>, le: (K, K) -> bool) {
    forall a, b :: 0 <= a < b < |sections| ==>
      le(sections[a].key, sections[b].key) && sections[a].key != sections[b].key
  }

  lemma {:induction false} SortedHaveOneSectionEach<R, K(!new)>(rows: seq<R>, key: R -> K, le: (K, K) -> bool)
    requires TotalOrder(le)
    requires forall i, j :: 0 <= i < j < |rows| ==> le(key(rows[i]), key(rows[j]))
    ensures Ascending(Sections(rows, key), le)
    decreases |rows|
  {
    if rows != [] {
      var rest, last := rows[..|rows| - 1], rows[|rows| - 1];
      SortedHaveOneSectionEach(rest, key, le);
      SectionsCut(rest, key);
      if rest != [] {
        LastKey(rest, key);
        AscendingExtended(Sections(rest, key), key, last, le);
      }
    }
  }

  lemma LastKey<R, K>(rows: seq<R>, key: R -> K)
    requires rows != []
    ensures Sections(rows, key) != []
    ensures Sections(rows, key)[|Sections(rows, key)| - 1].key == key(rows[|rows| - 1])
  {
  }

  lemma AscendingExtended<R, K(!new)>(sections: seq<Section<R, K>>, key: R -> K, row: R, le: (K, K) -> bool)
    requires TotalOrder(le) && sections != [] && Ascending(sections, le)
    requires le(sections[|sections| - 1].key, key(row))
    ensures Ascending(Extended(sections, key, row), le)
  {
    var before := sections[|sections| - 1].key;
    forall a | 0 <= a < |sections|
      ensures le(sections[a].key, key(row))
      ensures before != key(row) ==> sections[a].key != key(row)
    {
      assert a < |sections| - 1 ==> le(sections[a].key, before);
    }
  }

  /** Sorting by a key and then grouping by it gives each key one section, in the order of the
      keys, and the sections' rows, one after another, are the sorted rows. */
  lemma SortThenGroup<R(!new), K(!new)>(rows: seq<R>, key: R -> K, le: (K, K) -> bool)
    requires TotalOrder(le) && Distinct(rows)
    ensures var sorted := Sorted(rows, (a, b) => le(key(a), key(b)));
      && RowsOf(Sections(sorted, key)) == sorted
      && Ascending(Sections(sorted, key), le)
  {
    var rowLe := (a, b) => le(key(a), key(b));
    var sorted := Sorted(rows, rowLe);
    SortedIsStable(rows, rowLe);
    forall i, j | 0 <= i < j < |sorted|
      ensures le(key(sorted[i]), key(sorted[j]))
    {
      assert Precedes(rows, rowLe, sorted[i], sorted[j]);
    }
    SectionsCut(sorted, key);
    SortedHaveOneSectionEach(sorted, key, le);
  }

  // ---------------------------------------------------------------------
  // In place
  // ---------------------------------------------------------------------

  ghost predicate InRange<T>(source: seq<T>, order: seq<nat>) {
    forall i :: 0 <= i < |order| ==> order[i] < |source|
  }

  /** The rows of a view, each with where it is in the source. */
  ghost function RowsAt<T>(source: seq<T>, order: seq<nat>): (rows: seq<(nat, T)>)
    requires InRange(source, order)
    ensures |rows| == |order| && forall i :: 0 <= i < |order| ==> rows[i] == (order[i], source[order[i]])
  {
    if order == [] then [] else [(order[0], source[order[0]])] + RowsAt(source, order[1..])
  }

  lemma RowsAdded<T>(source: seq<T>, order: seq<nat>, row: nat)
    requires InRange(source, order) && row < |source|
    ensures InRange(source, order + [row])
    ensures RowsAt(source, order + [row]) == RowsAt(source, order) + [(row, source[row])]
  {
  }

  lemma RowsPlaced<T>(source: seq<T>, order: seq<nat>, row: nat, at: nat)
    requires InRange(source, order) && row < |source| && at <= |order|
    ensures var placed := order[..at] + [row] + order[at..];
      var rows := RowsAt(source, order);
      && InRange(source, placed)
      && RowsAt(source, placed) == rows[..at] + [(row, source[row])] + rows[at..]
  {
    var placed := order[..at] + [row] + order[at..];
    forall i | 0 <= i < |placed|
      ensures placed[i] == if i < at then order[i] else if i == at then row else order[i - 1]
    {
    }
  }

  lemma RowsDistinct<T>(source: seq<T>, order: seq<nat>)
    requires InRange(source, order)
    ensures Related(RowsAt(source, order), (a, b) => a != b) <==> Distinct(order)
  {
    var rows := RowsAt(source, order);
    assert forall i, j :: 0 <= i < j < |order| ==> (rows[i] != rows[j] <==> order[i] != order[j]);
  }

  /** A comparison of values, on rows. */
  function OnRows<T>(le: (T, T) -> bool): ((nat, T), (nat, T)) -> bool {
    (a: (nat, T), b: (nat, T)) => le(a.1, b.1)
  }

  lemma {:induction false} InsertedAt<R>(sorted: seq<R>, x: R, le: (R, R) -> bool, at: nat)
    requires at <= |sorted|
    requires at > 0 ==> le(sorted[at - 1], x)
    requires forall k :: at <= k < |sorted| ==> !le(sorted[k], x)
    ensures Inserted(sorted, x, le) == sorted[..at] + [x] + sorted[at..]
    decreases |sorted|
  {
    if at < |sorted| {
      var rest, last := sorted[..|sorted| - 1], sorted[|sorted| - 1];
      InsertedAt(rest, x, le, at);
      LastApart(sorted, x, at);
    }
  }

  lemma LastApart<R>(rows: seq<R>, x: R, at: nat)
    requires at < |rows|
    ensures var rest, last := rows[..|rows| - 1], rows[|rows| - 1];
      (rest[..at] + [x] + rest[at..]) + [last] == rows[..at] + [x] + rows[at..]
  {
  }

  /** No row comes twice in a stable sort. */
  lemma SortedDistinct<R>(before: seq<R>, after: seq<R>, le: (R, R) -> bool)
    requires StablySorted(before, after, le)
    ensures Related(after, (a, b) => a != b)
  {
    forall i, j | 0 <= i < j < |after|
      ensures after[i] != after[j]
    {
      assert Precedes(before, le, after[i], after[j]);
    }
  }

  /** A view of `source`: which rows, in which order. */
  class Projection<T(!new)> {
    const source: seq<T>
    var order: seq<nat>

    ghost predicate Valid()
      reads this
    {
      InRange(source, order) && Distinct(order)
    }

    ghost function Rows(): seq<(nat, T)>
      requires Valid()
      reads this
    {
      RowsAt(source, order)
    }

    constructor (source: seq<T>)
      ensures this.source == source && Valid()
      ensures order == seq(|source|, i => i)
    {
      this.source := source;
      order := seq(|source|, i => i);
    }

    method Filter(keep: T -> bool)
      requires Valid()
      modifies this
      ensures Valid() && Rows() == Retained(old(Rows()), (row: (nat, T)) => keep(row.1))
    {
      ghost var rows, keepRow := Rows(), (row: (nat, T)) => keep(row.1);
      var kept: seq<nat> := [];
      for i := 0 to |order|
        invariant order == old(order)
        invariant InRange(source, kept) && RowsAt(source, kept) == Retained(rows[..i], keepRow)
      {
        RetainedNext(rows, i, keepRow);
        if keep(source[order[i]]) {
          RowsAdded(source, kept, order[i]);
          kept := kept + [order[i]];
        }
      }
      assert rows[..|order|] == rows;
      RowsDistinct(source, order);
      RetainedKeepsOrder(rows, keepRow, (a, b) => a != b);
      RowsDistinct(source, kept);
      order := kept;
    }

    /** The stable sort by `le`, which says whether one row may stand before another. */
    method SortBy(le: (T, T) -> bool)
      requires Valid() && TotalPreorder(OnRows(le))
      modifies this
      ensures Valid() && StablySorted(old(Rows()), Rows(), OnRows(le))
    {
      ghost var rows := Rows();
      var sorted: seq<nat> := [];
      for i := 0 to |order|
        invariant order == old(order)
        invariant InRange(source, sorted) && RowsAt(source, sorted) == Sorted(rows[..i], OnRows(le))
      {
        assert rows[..i + 1][..i] == rows[..i];
        sorted := InsertRow(sorted, order[i], le);
      }
      assert rows[..|order|] == rows;
      SortedIsStable(rows, OnRows(le));
      SortedDistinct(rows, RowsAt(source, sorted), OnRows(le));
      RowsDistinct(source, sorted);
      order := sorted;
    }

    /** The row `x` put after every row of `sorted` that may stand before it. */
    method InsertRow(sorted: seq<nat>, x: nat, le: (T, T) -> bool) returns (after: seq<nat>)
      requires InRange(source, sorted) && x < |source|
      ensures InRange(source, after)
      ensures RowsAt(source, after) == Inserted(RowsAt(source, sorted), (x, source[x]), OnRows(le))
    {
      var at := |sorted|;
      while at > 0 && !le(source[sorted[at - 1]], source[x])
        invariant 0 <= at <= |sorted|
        invariant forall k :: at <= k < |sorted| ==> !le(source[sorted[k]], source[x])
      {
        at := at - 1;
      }
      after := sorted[..at] + [x] + sorted[at..];
      InsertedAt(RowsAt(source, sorted), (x, source[x]), OnRows(le), at);
      RowsPlaced(source, sorted, x, at);
    }

    method Reverse()
      requires Valid()
      modifies this
      ensures Valid() && |Rows()| == |old(Rows())|
      ensures forall i :: 0 <= i < |Rows()| ==> Rows()[i] == old(Rows())[|Rows()| - 1 - i]
    {
      var was := order;
      order := seq(|was|, i requires 0 <= i < |was| => was[|was| - 1 - i]);
    }

    /** Splits the view where the key changes. */
    method GroupBy<K(==)>(key: T -> K) returns (sections: seq<Section<(nat, T), K>>)
      requires Valid()
      ensures sections == Sections(Rows(), (row: (nat, T)) => key(row.1))
    {
      ghost var rows, keyRow := Rows(), (row: (nat, T)) => key(row.1);
      sections := [];
      for i := 0 to |order|
        invariant sections == Sections(rows[..i], keyRow)
      {
        assert rows[..i + 1][..i] == rows[..i];
        var row := (order[i], source[order[i]]);
        var rowKey := key(row.1);
        var n := |sections|;
        if n > 0 && sections[n - 1].key == rowKey {
          sections := sections[..n - 1] + [Section(rowKey, sections[n - 1].rows + [row])];
        } else {
          sections := sections + [Section(rowKey, [row])];
        }
      }
      assert rows[..|order|] == rows;
    }
  }
}
