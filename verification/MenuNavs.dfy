/** Keyboard navigation of a menu (`MenuNav`, crates/rustnative-components/src/behaviour.rs). */
module MenuNavs {
  import opened Wrappers

  datatype KeyCode = ArrowUp | ArrowDown | Home | End | Enter | Space | Escape | Character(letter: char) | Other

  datatype Outcome = Ignored | Moved | Activated | Closed

  /** Which items are enabled, and the one focused. */
  datatype Menu = Menu(labels: seq<string>, enabled: seq<bool>, focused: Option<nat>)

  ghost predicate Valid(menu: Menu) {
    && |menu.labels| == |menu.enabled|
    && (menu.focused.Some? ==> menu.focused.value < |menu.enabled| && menu.enabled[menu.focused.value])
  }

  // ---------------------------------------------------------------------
  // The search
  // ---------------------------------------------------------------------

  /** The item `offset` places on from `from`, wrapping round. */
  function Place(from: Option<nat>, forward: bool, count: nat, offset: nat): (place: nat)
    requires 1 <= offset <= count
    ensures place < count
  {
    match from
    case None => if forward then offset - 1 else count - offset
    case Some(at) => if forward then (at + offset) % count else (at + count - offset % count) % count
  }

  /** The first enabled item, trying offsets from `offset` up to a whole turn. */
  function Search(enabled: seq<bool>, from: Option<nat>, forward: bool, offset: nat): (found: Option<nat>)
    requires 1 <= offset <= |enabled| + 1
    decreases |enabled| - offset
  {
    if offset > |enabled| then None
    else
      var place := Place(from, forward, |enabled|, offset);
      if enabled[place] then Some(place) else Search(enabled, from, forward, offset + 1)
  }

  function NextEnabled(enabled: seq<bool>, from: Option<nat>, forward: bool): Option<nat> {
    Search(enabled, from, forward, 1)
  }

  /** The search answers `d` places on when that is the first enabled place. */
  lemma {:induction false} FirstIsFound(enabled: seq<bool>, from: Option<nat>, forward: bool, offset: nat, d: nat)
    requires 1 <= offset <= d <= |enabled|
    requires enabled[Place(from, forward, |enabled|, d)]
    requires forall o :: offset <= o < d ==> !enabled[Place(from, forward, |enabled|, o)]
    ensures Search(enabled, from, forward, offset) == Some(Place(from, forward, |enabled|, d))
    decreases d - offset
  {
    if offset < d {
      assert !enabled[Place(from, forward, |enabled|, offset)];
      FirstIsFound(enabled, from, forward, offset + 1, d);
    }
  }

  /** What is found is enabled, and comes first. */
  lemma {:induction false} FoundIsFirst(enabled: seq<bool>, from: Option<nat>, forward: bool, offset: nat)
      returns (d: nat)
    requires 1 <= offset <= |enabled| + 1
    ensures Search(enabled, from, forward, offset).Some? ==>
      && offset <= d <= |enabled|
      && Search(enabled, from, forward, offset) == Some(Place(from, forward, |enabled|, d))
      && enabled[Place(from, forward, |enabled|, d)]
      && forall o :: offset <= o < d ==> !enabled[Place(from, forward, |enabled|, o)]
    ensures Search(enabled, from, forward, offset).None? ==>
      forall o :: offset <= o <= |enabled| ==> !enabled[Place(from, forward, |enabled|, o)]
    decreases |enabled| - offset
  {
    if offset > |enabled| {
      d := 0;
    } else if enabled[Place(from, forward, |enabled|, offset)] {
      d := offset;
    } else {
      d := FoundIsFirst(enabled, from, forward, offset + 1);
    }
  }

  /** Both ways round, in plain terms. */
  lemma Places(at: nat, count: nat, offset: nat)
    requires at < count && 1 <= offset <= count
    ensures Place(Some(at), true, count, offset) == if at + offset < count then at + offset else at + offset - count
    ensures Place(Some(at), false, count, offset) == if offset <= at then at - offset else at + count - offset
  {
    Reduced(at + offset, count);
    if offset < count {
      Reduced(offset, count);
      Reduced(at + count - offset, count);
    } else {
      Reduced(offset, count);
      Reduced(at + count, count);
    }
  }

  lemma Reduced(x: nat, count: nat)
    requires x < 2 * count
    ensures x % count == if x < count then x else x - count
  {
  }

  // ---------------------------------------------------------------------
  // The enabled items, in order
  // ---------------------------------------------------------------------

  function EnabledUpTo(enabled: seq<bool>, n: nat): (items: seq<nat>)
    requires n <= |enabled|
    ensures forall i :: i in items <==> 0 <= i < n && enabled[i]
    ensures forall k :: 0 <= k < |items| ==> items[k] < n
    ensures forall k, l :: 0 <= k < l < |items| ==> items[k] < items[l]
  {
    if n == 0 then []
    else if enabled[n - 1] then EnabledUpTo(enabled, n - 1) + [n - 1]
    else EnabledUpTo(enabled, n - 1)
  }

  function EnabledItems(enabled: seq<bool>): seq<nat> {
    EnabledUpTo(enabled, |enabled|)
  }

  function Around(i: nat, n: nat): (place: nat)
    requires i < 2 * n
    ensures place < n
  {
    if i < n then i else i - n
  }

  /** Down goes from each enabled item to the next one in order, and from the last to the first. */
  lemma DownGoesToNext(enabled: seq<bool>, i: nat)
    requires i < |EnabledItems(enabled)|
    ensures var items := EnabledItems(enabled);
      NextEnabled(enabled, Some(items[i]), true) == Some(items[Around(i + 1, |items|)])
  {
    var items := EnabledItems(enabled);
    assert items[i] in items;
    var at, n := items[i], |enabled|;
    var next := items[Around(i + 1, |items|)];
    assert next in items;
    var d := if i + 1 < |items| then next - at else next + n - at;
    Places(at, n, d);
    forall o | 1 <= o < d
      ensures !enabled[Place(Some(at), true, n, o)]
    {
      Places(at, n, o);
      NotBetween(enabled, i, Place(Some(at), true, n, o));
    }
    FirstIsFound(enabled, Some(at), true, 1, d);
  }

  /** Nothing is enabled between an enabled item and the next, or past the last and before the first. */
  lemma NotBetween(enabled: seq<bool>, i: nat, place: nat)
    requires i < |EnabledItems(enabled)| && place < |enabled|
    requires var items := EnabledItems(enabled);
      if i + 1 < |items| then items[i] < place < items[i + 1] else place > items[i] || place < items[0]
    ensures !enabled[place]
  {
    var items := EnabledItems(enabled);
    forall k | 0 <= k < |items|
      ensures items[k] != place
    {
    }
    assert place !in items;
  }

  /** Up goes back to where Down came from. */
  lemma UpGoesBack(enabled: seq<bool>, at: nat)
    requires at < |enabled| && enabled[at]
    ensures NextEnabled(enabled, Some(at), true).Some?
    ensures NextEnabled(enabled, NextEnabled(enabled, Some(at), true), false) == Some(at)
  {
    var n := |enabled|;
    Places(at, n, n);
    var d := FoundIsFirst(enabled, Some(at), true, 1);
    var next := Place(Some(at), true, n, d);
    Places(at, n, d);
    Places(next, n, d);
    forall o | 1 <= o < d
      ensures !enabled[Place(Some(next), false, n, o)]
    {
      Places(next, n, o);
      Places(at, n, d - o);
      assert !enabled[Place(Some(at), true, n, d - o)];
    }
    FirstIsFound(enabled, Some(next), false, 1, d);
  }

  /** And Down to where Up came from. */
  lemma DownGoesBack(enabled: seq<bool>, at: nat)
    requires at < |enabled| && enabled[at]
    ensures NextEnabled(enabled, Some(at), false).Some?
    ensures NextEnabled(enabled, NextEnabled(enabled, Some(at), false), true) == Some(at)
  {
    var n := |enabled|;
    Places(at, n, n);
    var d := FoundIsFirst(enabled, Some(at), false, 1);
    var next := Place(Some(at), false, n, d);
    Places(at, n, d);
    Places(next, n, d);
    forall o | 1 <= o < d
      ensures !enabled[Place(Some(next), true, n, o)]
    {
      Places(next, n, o);
      Places(at, n, d - o);
      assert !enabled[Place(Some(at), false, n, d - o)];
    }
    FirstIsFound(enabled, Some(next), true, 1, d);
  }

  // ---------------------------------------------------------------------
  // Keys
  // ---------------------------------------------------------------------

  /** The jump to a letter: the first enabled item starting with it, from just past the focused
      one, wrapping round. `starts` stands for the comparison without case. */
  function Jump(menu: Menu, starts: (string, char) -> bool, letter: char, start: nat, offset: nat): (found: Option<nat>)
    requires |menu.labels| == |menu.enabled| && offset <= |menu.labels|
    ensures found.Some? ==> found.value < |menu.enabled| && menu.enabled[found.value]
    decreases |menu.labels| - offset
  {
    if offset == |menu.labels| then None
    else
      var place := (start + offset) % |menu.labels|;
      if menu.enabled[place] && starts(menu.labels[place], letter) then Some(place)
      else Jump(menu, starts, letter, start, offset + 1)
  }

  function Focus(menu: Menu, next: Option<nat>): (Menu, Outcome) {
    match next
    case Some(index) => (menu.(focused := Some(index)), Moved)
    case None => (menu, Ignored)
  }

  function OnKey(menu: Menu, starts: (string, char) -> bool, key: KeyCode): (Menu, Outcome)
    requires |menu.labels| == |menu.enabled|
  {
    match key
    case ArrowDown => Focus(menu, NextEnabled(menu.enabled, menu.focused, true))
    case ArrowUp => Focus(menu, NextEnabled(menu.enabled, menu.focused, false))
    case Home => Focus(menu, NextEnabled(menu.enabled, None, true))
    case End => Focus(menu, NextEnabled(menu.enabled, None, false))
    case Enter | Space => (menu, if menu.focused.Some? then Activated else Ignored)
    case Escape => (menu, Closed)
    case Character(letter) =>
      Focus(menu, Jump(menu, starts, letter, if menu.focused.Some? then menu.focused.value + 1 else 0, 0))
    case Other => (menu, Ignored)
  }

  lemma KeyKeepsValid(menu: Menu, starts: (string, char) -> bool, key: KeyCode)
    requires Valid(menu)
    ensures Valid(OnKey(menu, starts, key).0)
    ensures OnKey(menu, starts, key).0.enabled == menu.enabled
  {
    var _ := FoundIsFirst(menu.enabled, menu.focused, true, 1);
    var _ := FoundIsFirst(menu.enabled, menu.focused, false, 1);
    var _ := FoundIsFirst(menu.enabled, None, true, 1);
    var _ := FoundIsFirst(menu.enabled, None, false, 1);
  }

  function New(labels: seq<string>, enabled: seq<bool>): Menu {
    Menu(labels, enabled, None)
  }

  function Pressed(menu: Menu, starts: (string, char) -> bool, keys: seq<KeyCode>): Menu
    requires |menu.labels| == |menu.enabled|
    decreases |keys|
  {
    if keys == [] then menu else Pressed(OnKey(menu, starts, keys[0]).0, starts, keys[1..])
  }

  /** Whatever keys are pressed, the focused item is enabled. */
  lemma FocusAlwaysEnabled(labels: seq<string>, enabled: seq<bool>, starts: (string, char) -> bool, keys: seq<KeyCode>)
    requires |labels| == |enabled|
    ensures var focused := Pressed(New(labels, enabled), starts, keys).focused;
      focused.Some? ==> focused.value < |enabled| && enabled[focused.value]
  {
    PressesKeepValid(New(labels, enabled), starts, keys);
  }

  lemma {:induction false} PressesKeepValid(menu: Menu, starts: (string, char) -> bool, keys: seq<KeyCode>)
    requires Valid(menu)
    ensures Valid(Pressed(menu, starts, keys)) && Pressed(menu, starts, keys).enabled == menu.enabled
    decreases |keys|
  {
    if keys != [] {
      KeyKeepsValid(menu, starts, keys[0]);
      PressesKeepValid(OnKey(menu, starts, keys[0]).0, starts, keys[1..]);
    }
  }

  /** Once something is focused, Up undoes Down and Down undoes Up. */
  lemma ArrowsUndoEachOther(menu: Menu, starts: (string, char) -> bool)
    requires Valid(menu) && menu.focused.Some?
    ensures OnKey(OnKey(menu, starts, ArrowDown).0, starts, ArrowUp) == (menu, Moved)
    ensures OnKey(OnKey(menu, starts, ArrowUp).0, starts, ArrowDown) == (menu, Moved)
  {
    UpGoesBack(menu.enabled, menu.focused.value);
    DownGoesBack(menu.enabled, menu.focused.value);
  }

  /** Home and End, and the arrows when nothing is focused, go to the ends. */
  lemma EndsAreReached(menu: Menu, starts: (string, char) -> bool)
    requires Valid(menu)
    ensures var items := EnabledItems(menu.enabled);
      && OnKey(menu, starts, Home)
         == (if items == [] then (menu, Ignored) else (menu.(focused := Some(items[0])), Moved))
      && OnKey(menu, starts, End)
         == (if items == [] then (menu, Ignored) else (menu.(focused := Some(items[|items| - 1])), Moved))
      && (menu.focused.None? ==> OnKey(menu, starts, ArrowDown) == OnKey(menu, starts, Home)
                                 && OnKey(menu, starts, ArrowUp) == OnKey(menu, starts, End))
  {
    EndsFound(menu.enabled);
  }

  lemma EndsFound(enabled: seq<bool>)
    ensures var items := EnabledItems(enabled);
      && NextEnabled(enabled, None, true) == (if items == [] then None else Some(items[0]))
      && NextEnabled(enabled, None, false) == (if items == [] then None else Some(items[|items| - 1]))
  {
    var items, n := EnabledItems(enabled), |enabled|;
    assert forall i :: 0 <= i < n && enabled[i] ==> i in items;
    if items == [] {
      var _ := FoundIsFirst(enabled, None, true, 1);
      var _ := FoundIsFirst(enabled, None, false, 1);
    } else {
      var first, last := items[0], items[|items| - 1];
      assert first in items && last in items;
      FirstIsFound(enabled, None, true, 1, first + 1);
      FirstIsFound(enabled, None, false, 1, n - last);
    }
  }

  /** Jumping to a letter is Down among the enabled items that start with it. */
  lemma JumpIsDownAmongMatches(menu: Menu, starts: (string, char) -> bool, letter: char)
    requires Valid(menu)
    ensures OnKey(menu, starts, Character(letter))
         == Focus(menu, NextEnabled(Matching(menu, starts, letter), menu.focused, true))
  {
    JumpIsSearch(menu, starts, letter, 0);
  }

  /** How far on from the focus an item is, once round at most; from the top when nothing is focused. */
  function Onward(menu: Menu, i: nat): nat
    requires i < |menu.enabled| && (menu.focused.Some? ==> menu.focused.value < |menu.enabled|)
  {
    match menu.focused
    case None => i + 1
    case Some(at) => if i > at then i - at else i + |menu.enabled| - at
  }

  /** A letter goes to the nearest item on from the focus, wrapping round, that is enabled and starts with it;
      when there is none it is ignored. */
  lemma JumpGoesToNearest(menu: Menu, starts: (string, char) -> bool, letter: char)
    requires Valid(menu)
    ensures var (after, outcome) := OnKey(menu, starts, Character(letter));
      var matches := set i | 0 <= i < |menu.enabled| && menu.enabled[i] && starts(menu.labels[i], letter);
      if matches == {} then (after, outcome) == (menu, Ignored)
      else
        && outcome == Moved && after == menu.(focused := after.focused)
        && after.focused.Some? && after.focused.value in matches
        && forall i :: i in matches ==> Onward(menu, after.focused.value) <= Onward(menu, i)
  {
    var matches := set i | 0 <= i < |menu.enabled| && menu.enabled[i] && starts(menu.labels[i], letter);
    var matching := Matching(menu, starts, letter);
    JumpIsDownAmongMatches(menu, starts, letter);
    var d := FoundIsFirst(matching, menu.focused, true, 1);
    forall i | 0 <= i < |menu.enabled|
      ensures 1 <= Onward(menu, i) <= |menu.enabled|
      ensures Place(menu.focused, true, |menu.enabled|, Onward(menu, i)) == i
    {
      if menu.focused.Some? {
        Places(menu.focused.value, |menu.enabled|, Onward(menu, i));
      }
    }
    forall i | i in matches
      ensures Search(matching, menu.focused, true, 1).Some? && d <= Onward(menu, i)
    {
      assert matching[Place(menu.focused, true, |menu.enabled|, Onward(menu, i))];
    }
    if Search(matching, menu.focused, true, 1).Some? {
      var place := Place(menu.focused, true, |menu.enabled|, d);
      if menu.focused.Some? {
        Places(menu.focused.value, |menu.enabled|, d);
      }
      assert Onward(menu, place) == d && place in matches;
    }
  }

  /** Enter and Space activate what is focused, Escape closes, and none of them, nor any other key, moves the
      focus. */
  lemma ActionKeys(menu: Menu, starts: (string, char) -> bool)
    requires Valid(menu)
    ensures OnKey(menu, starts, Enter) == (menu, if menu.focused.Some? then Activated else Ignored)
    ensures OnKey(menu, starts, Space) == OnKey(menu, starts, Enter)
    ensures OnKey(menu, starts, Escape) == (menu, Closed)
    ensures OnKey(menu, starts, Other) == (menu, Ignored)
  {
  }

  function Matching(menu: Menu, starts: (string, char) -> bool, letter: char): (matching: seq<bool>)
    requires |menu.labels| == |menu.enabled|
    ensures |matching| == |menu.enabled|
    ensures forall i :: 0 <= i < |matching| ==> matching[i] == (menu.enabled[i] && starts(menu.labels[i], letter))
  {
    seq(|menu.enabled|, i requires 0 <= i < |menu.enabled| => menu.enabled[i] && starts(menu.labels[i], letter))
  }

  lemma {:induction false} JumpIsSearch(menu: Menu, starts: (string, char) -> bool, letter: char, offset: nat)
    requires Valid(menu) && offset <= |menu.labels|
    ensures Jump(menu, starts, letter, if menu.focused.Some? then menu.focused.value + 1 else 0, offset)
         == Search(Matching(menu, starts, letter), menu.focused, true, offset + 1)
    decreases |menu.labels| - offset
  {
    if offset < |menu.labels| {
      Reduced(offset, |menu.labels|);
      JumpIsSearch(menu, starts, letter, offset + 1);
    }
  }

  // ---------------------------------------------------------------------
  // A whole turn
  // ---------------------------------------------------------------------

  /** The menu after `k` presses of Down. */
  function Downs(menu: Menu, starts: (string, char) -> bool, k: nat): (after: Menu)
    requires |menu.labels| == |menu.enabled|
    ensures after.labels == menu.labels && after.enabled == menu.enabled
  {
    if k == 0 then menu else OnKey(Downs(menu, starts, k - 1), starts, ArrowDown).0
  }

  /** `j` presses of Down move `j` enabled items on. */
  lemma {:induction false} DownsMoveOn(menu: Menu, starts: (string, char) -> bool, i: nat, j: nat)
    requires Valid(menu) && i < |EnabledItems(menu.enabled)| && j <= |EnabledItems(menu.enabled)|
    requires menu.focused == Some(EnabledItems(menu.enabled)[i])
    ensures Downs(menu, starts, j) == OnItem(menu, i + j)
  {
    if j > 0 {
      DownsMoveOn(menu, starts, i, j - 1);
      DownGoesToNext(menu.enabled, Around(i + j - 1, |EnabledItems(menu.enabled)|));
    }
  }

  /** The menu with the `i`-th of its enabled items focused, counting round. */
  function OnItem(menu: Menu, i: nat): Menu
    requires i < 2 * |EnabledItems(menu.enabled)|
  {
    var items := EnabledItems(menu.enabled);
    menu.(focused := Some(items[Around(i, |items|)]))
  }

  /** With `k` items enabled and one of them focused, `k` presses of Down focus every enabled
      item exactly once, and end where they began. */
  lemma AWholeTurn(menu: Menu, starts: (string, char) -> bool, item: nat)
    requires Valid(menu) && menu.focused.Some?
    requires item < |menu.enabled| && menu.enabled[item]
    ensures var k := |EnabledItems(menu.enabled)|;
      && Downs(menu, starts, k) == menu
      && exists j :: 1 <= j <= k && VisitsOnlyAt(menu, starts, item, j, k)
  {
    var items := EnabledItems(menu.enabled);
    var k := |items|;
    assert menu.focused.value in items && item in items;
    var at :| 0 <= at < k && items[at] == menu.focused.value;
    var to :| 0 <= to < k && items[to] == item;
    DownsMoveOn(menu, starts, at, k);
    VisitedOnce(menu, starts, at, to);
  }

  lemma VisitedOnce(menu: Menu, starts: (string, char) -> bool, at: nat, to: nat)
    requires Valid(menu) && at < |EnabledItems(menu.enabled)| && to < |EnabledItems(menu.enabled)|
    requires menu.focused == Some(EnabledItems(menu.enabled)[at])
    ensures var k := |EnabledItems(menu.enabled)|;
      exists j :: 1 <= j <= k && VisitsOnlyAt(menu, starts, EnabledItems(menu.enabled)[to], j, k)
  {
    var k := |EnabledItems(menu.enabled)|;
    var j := if to > at then to - at else to + k - at;
    forall i | 1 <= i <= k
      ensures Downs(menu, starts, i).focused == Some(EnabledItems(menu.enabled)[to]) <==> i == j
    {
      VisitedAt(menu, starts, at, to, i);
    }
    assert VisitsOnlyAt(menu, starts, EnabledItems(menu.enabled)[to], j, k);
  }

  lemma VisitedAt(menu: Menu, starts: (string, char) -> bool, at: nat, to: nat, i: nat)
    requires Valid(menu) && at < |EnabledItems(menu.enabled)| && to < |EnabledItems(menu.enabled)|
    requires menu.focused == Some(EnabledItems(menu.enabled)[at])
    requires 1 <= i <= |EnabledItems(menu.enabled)|
    ensures Downs(menu, starts, i).focused == Some(EnabledItems(menu.enabled)[to])
       <==> i == if to > at then to - at else to + |EnabledItems(menu.enabled)| - at
  {
    var items := EnabledItems(menu.enabled);
    DownsMoveOn(menu, starts, at, i);
    var here := Around(at + i, |items|);
    assert here < to ==> items[here] < items[to];
    assert to < here ==> items[to] < items[here];
  }

  /** Of the first `k` presses of Down, the `j`-th alone focuses `item`. */
  ghost predicate VisitsOnlyAt(menu: Menu, starts: (string, char) -> bool, item: nat, j: nat, k: nat)
    requires |menu.labels| == |menu.enabled|
  {
    forall i :: 1 <= i <= k ==> (Downs(menu, starts, i).focused == Some(item) <==> i == j)
  }

  // ---------------------------------------------------------------------
  // In place
  // ---------------------------------------------------------------------

  class MenuNav {
    const labels: seq<string>
    const enabled: seq<bool>
    const starts: (string, char) -> bool
    var focused: Option<nat>

    ghost function View(): Menu
      reads this
    {
      Menu(labels, enabled, focused)
    }

    constructor (labels: seq<string>, enabled: seq<bool>, starts: (string, char) -> bool)
      ensures this.starts == starts && View() == New(labels, enabled)
    {
      this.labels, this.enabled, this.starts := labels, enabled, starts;
      focused := None;
    }

    /** One key press. */
    method Key(key: KeyCode) returns (outcome: Outcome)
      requires |labels| == |enabled|
      modifies this
      ensures (View(), outcome) == OnKey(old(View()), starts, key)
    {
      var next: Option<nat>;
      match key {
        case ArrowDown => next := NextEnabled(enabled, focused, true);
        case ArrowUp => next := NextEnabled(enabled, focused, false);
        case Home => next := NextEnabled(enabled, None, true);
        case End => next := NextEnabled(enabled, None, false);
        case Enter | Space => return if focused.Some? then Activated else Ignored;
        case Escape => return Closed;
        case Character(letter) =>
          var start := if focused.Some? then focused.value + 1 else 0;
          next := Jump(Menu(labels, enabled, focused), starts, letter, start, 0);
        case Other => return Ignored;
      }
      if next.Some? {
        focused := next;
        return Moved;
      }
      return Ignored;
    }
  }
}
